/**
 * The optical switch of the AP1000 (AP1000/OpticalSwitch.py): one cached path, 0 for straight
 * and 1 for crossed, set from a string, an integer or a boolean.
 */
module OpticalSwitches {
  import opened Wrappers
  import opened Text
  import opened Python
  import opened Errors
  import opened Transport
  import opened Spectrum
  import opened Slots

  /**
   * The path `SetPath` stores: "crossed" in any case, the int 1 and True mean crossed (1);
   * any other string, int or bool means straight (0); any other type keeps the current path.
   */
  function PathOf(v: Value, current: int): (p: int)
    ensures v.Str? ==> (p == 1 <==> Lower(v.s) == "crossed")
    ensures v.Int? ==> (p == 1 <==> v.i == 1)
    ensures v.Bool? ==> (p == 1 <==> v.b)
    ensures (v.Str? || v.Int? || v.Bool?) ==> p in {0, 1}
    ensures !(v.Str? || v.Int? || v.Bool?) ==> p == current
  {
    match v
    case Str(s) => if Lower(s) == "crossed" then 1 else 0
    case Int(i) => if i == 1 then 1 else 0
    case Bool(b) => if b then 1 else 0
    case _ => current
  }

  /** Setting a path twice from the same argument is the same as setting it once. */
  lemma PathOfIdempotent(v: Value, current: int)
    ensures PathOf(v, PathOf(v, current)) == PathOf(v, current)
  {
  }

  /** The three spellings of crossed agree, and so do the three spellings of straight. */
  lemma PathSpellings()
    ensures PathOf(Str("Crossed"), 0) == PathOf(Int(1), 0) == PathOf(Bool(true), 0) == 1
    ensures PathOf(Str("straight"), 1) == PathOf(Int(0), 1) == PathOf(Bool(false), 1) == 0
    ensures PathOf(Float(1.0), 0) == 0
  {
    assert Lower("Crossed") == "crossed";
    assert Lower("straight") != "crossed" by {
      assert Lower("straight")[0] == 's';
    }
  }

  class OpticalSwitch {
    const link: Connexion
    const slot: int
    const simulation: bool

    var path: int

    /** The path is always 0 or 1. */
    predicate Valid()
      reads this
    {
      path in {0, 1}
    }

    /** "SWI[ss]:", the head of every command of this switch. */
    function Head(): string
    {
      SlotPrefix("SWI", slot)
    }

    constructor (link: Connexion, slot: int, simulation: bool)
      ensures this.link == link && this.slot == slot && this.simulation == simulation
      ensures path == 0 && Valid()
    {
      this.link := link;
      this.slot := slot;
      this.simulation := simulation;
      path := 0;
    }

    /**
     * `SetPath`: the path of `PathOf`, then "CONF<path>" outside simulation, sent even when the
     * argument had a type that left the path unchanged.
     */
    method SetPath(v: Value)
      requires Valid()
      modifies this`path, link
      ensures Valid()
      ensures path == PathOf(v, old(path))
      ensures link.sent == old(link.sent) + Unless(simulation, Head() + "CONF" + IntToString(path) + "\n")
      ensures link.open == old(link.open)
    {
      path := PathOf(v, path);
      Emit(link, simulation, Head() + "CONF" + IntToString(path) + "\n");
    }

    /**
     * `GetPath`: in simulation the cached path (the text `str(path)` read back by `int()`),
     * otherwise "CONF?" and the integer reply without its last character.
     */
    method GetPath(py: Conv, reply: string) returns (r: Result<int, Failure>)
      modifies link
      ensures simulation ==> r == Ok(path) && link.sent == old(link.sent)
      ensures !simulation ==> r == ReadInt(py, reply) && link.sent == old(link.sent) + [Head() + "CONF?\n"]
      ensures link.open == old(link.open)
    {
      if simulation {
        return Ok(path);
      }
      link.Send(Head() + "CONF?\n");
      return ReadInt(py, reply);
    }
  }

  /** In simulation, the path read back is the one last set, whatever the argument spelled. */
  method SimulatedPathReadsBack(link: Connexion, slot: int, py: Conv, v: Value) returns (r: Result<int, Failure>)
    modifies link
    ensures r == Ok(PathOf(v, 0))
    ensures r.value in {0, 1}
  {
    var s := new OpticalSwitch(link, slot, true);
    s.SetPath(v);
    r := s.GetPath(py, "");
  }
}
