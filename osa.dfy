/**
 * The heterodyne OSA of an AP2XXX (`OSA` in AP2XXX/osa.py). It shares the connection of the
 * equipment it is built from and has the same window state, option setters and reply parsers as
 * `AP2XXX.AP2XXX`, so it is that class; what it adds is the type read from the identity string.
 */
module Osa {
  import opened Wrappers
  import opened Text
  import opened Python
  import opened Errors
  import opened Transport
  import opened AP2XXX

  /**
   * `GetType`: "AP" followed by the second "/"-separated field of the identity string; an
   * identity without "/" has no second field (an IndexError).
   */
  function GetType(id: string): (r: Result<string, Failure>)
    ensures r.Err? <==> '/' !in id
    ensures r.Err? ==> r.error == IndexError
    ensures r.Ok? ==> |r.value| >= 2 && r.value[..2] == "AP" && '/' !in r.value
  {
    SplitSingle(id, '/');
    SplitFieldsFree(id, '/');
    var fields := Split(id, '/');
    if |fields| < 2 then Err(IndexError) else Ok("AP" + fields[1])
  }

  /** The type of an identity built from "/"-free fields is "AP" and its second field. */
  lemma GetTypeOfFields(fields: seq<string>)
    requires |fields| >= 2
    requires forall k :: 0 <= k < |fields| ==> '/' !in fields[k]
    ensures GetType(Join(fields, '/')) == Ok("AP" + fields[1])
  {
    SplitJoin(fields, '/');
  }

  /** The identity "a/b/c/d" of four "/"-free fields has the type "AP" + b. */
  lemma GetTypeOfFour(a: string, b: string, c: string, d: string)
    requires '/' !in a && '/' !in b && '/' !in c && '/' !in d
    ensures GetType(a + "/" + b + "/" + c + "/" + d) == Ok("AP" + b)
  {
    var fields := [a, b, c, d];
    assert Join(fields[3..], '/') == d;
    assert Join(fields[2..], '/') == c + "/" + d by { assert fields[2..][1..] == fields[3..]; }
    assert Join(fields[1..], '/') == b + "/" + c + "/" + d by { assert fields[1..][1..] == fields[2..]; }
    assert Join(fields, '/') == a + "/" + b + "/" + c + "/" + d;
    GetTypeOfFields(fields);
  }

  /**
   * The `OSA` constructor: the identity of the equipment is read first and its type computed
   * (failing when the identity has no second field); the analyser then starts on the widest
   * window with the default options and writes to the equipment's connection.
   */
  method NewOSA(link: Connexion, simulation: bool, py: Conv, lim: Limits, id: string) returns (r: Result<(AP2XXX, string), Failure>)
    ensures r.Err? <==> GetType(id).Err?
    ensures r.Err? ==> r.error == IndexError
    ensures r.Ok? ==> var (osa, kind) := r.value;
      fresh(osa) && kind == GetType(id).value && osa.link == link && osa.simulation == simulation
      && osa.CurrentWindow() == MeasurementWindow.Between(lim.wlMin, lim.wlMax) && osa.Valid()
  {
    match GetType(id) {
      case Err(e) => return Err(e);
      case Ok(kind) =>
        var osa := new AP2XXX(link, simulation, py, lim);
        return Ok((osa, kind));
    }
  }
}
