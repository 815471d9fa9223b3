/**
 * The measurement window cached by the optical spectrum analysers: start and stop
 * wavelengths, span and center. Every setter writes one of the four and recomputes the
 * others so that the span is the distance between the ends and the center lies midway.
 */
module MeasurementWindow {
  datatype Window = Window(start: real, stop: real, span: real, center: real)

  /** The relation every window setter re-establishes. */
  predicate Consistent(w: Window)
  {
    w.span == w.stop - w.start && w.center == w.start + w.span / 2.0
  }

  /** The window spanning `lo`..`hi`, as the constructors build it. */
  function Between(lo: real, hi: real): (w: Window)
    ensures Consistent(w) && w.start == lo && w.stop == hi
  {
    Window(lo, hi, hi - lo, lo + (hi - lo) / 2.0)
  }

  /** A new start wavelength: the stop stays, span and center follow. */
  function WithStart(w: Window, x: real): (r: Window)
    ensures Consistent(r) && r.start == x && r.stop == w.stop
  {
    Window(x, w.stop, w.stop - x, x + (w.stop - x) / 2.0)
  }

  /** A new stop wavelength: the start stays, span and center follow. */
  function WithStop(w: Window, x: real): (r: Window)
    ensures Consistent(r) && r.stop == x && r.start == w.start
  {
    Window(w.start, x, x - w.start, w.start + (x - w.start) / 2.0)
  }

  /** A new span around the unchanged center. */
  function WithSpan(w: Window, s: real): (r: Window)
    ensures Consistent(r) && r.span == s && r.center == w.center
  {
    Window(w.center - s / 2.0, w.center + s / 2.0, s, w.center)
  }

  /** A new center with the unchanged span. */
  function WithCenter(w: Window, c: real): (r: Window)
    ensures Consistent(r) && r.center == c && r.span == w.span
  {
    Window(c - w.span / 2.0, c + w.span / 2.0, w.span, c)
  }

  /** In a consistent window the center is the midpoint of the two ends. */
  lemma CenterIsMidpoint(w: Window)
    requires Consistent(w)
    ensures w.center == (w.start + w.stop) / 2.0
    ensures w.start == w.center - w.span / 2.0 && w.stop == w.center + w.span / 2.0
  {
  }

  /** Writing back the value a consistent window already holds changes nothing. */
  lemma SettersFixCurrentValues(w: Window)
    requires Consistent(w)
    ensures WithStart(w, w.start) == w && WithStop(w, w.stop) == w
    ensures WithSpan(w, w.span) == w && WithCenter(w, w.center) == w
  {
  }

  /** Setting span and center gives the same window in either order. */
  lemma SpanCenterCommute(w: Window, s: real, c: real)
    ensures WithSpan(WithCenter(w, c), s) == WithCenter(WithSpan(w, s), c)
  {
  }

  /** Setting both ends gives the same window in either order, and it only depends on the ends. */
  lemma StartStopCommute(w: Window, a: real, b: real)
    ensures WithStop(WithStart(w, a), b) == WithStart(WithStop(w, b), a) == Between(a, b)
  {
  }
}
