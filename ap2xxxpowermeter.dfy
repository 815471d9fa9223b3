/**
 * The power meter embedded in an AP2XXX analyser (AP2XXX/powermeter.py): a cached power unit
 * and a power query. Whatever the unit and the polarisation channel asked for, the query
 * written is always the total power in dBm; in simulation the random power it draws is a
 * float, which the final `Power[:-1]` cannot slice, so the simulated query always fails.
 */
module ApexPowerMeter {
  import opened Wrappers
  import opened Text
  import opened Python
  import opened Errors
  import opened Transport
  import opened Spectrum
  import opened Slots

  /** The only measurement command the driver writes. */
  const PowerQuery: string := "SPMEASDETECTORDBM1\n"

  class Powermeter {
    const link: Connexion
    const simulation: bool
    const py: Conv
    const id: string

    var unit: string

    /** The constructor: the analyser's connection and identity, unit dBm. */
    constructor (link: Connexion, simulation: bool, py: Conv, id: string)
      ensures this.link == link && this.simulation == simulation && this.py == py && this.id == id
      ensures unit == "dBm"
    {
      this.link := link;
      this.simulation := simulation;
      this.py := py;
      this.id := id;
      unit := "dBm";
    }

    /** `__str__`. */
    function Describe(): (s: string)
      ensures "Powermeter of " <= s
    {
      "Powermeter of " + id
    }

    /** `SetUnit`: `str(Unit)` is kept, with its casing, only when it names dBm or mW in any case. */
    method SetUnit(v: Value)
      modifies this`unit
      ensures unit == ChosenUnit(py, old(unit), v, PowerUnits)
    {
      unit := ChosenUnit(py, unit, v, PowerUnits);
    }

    /** `GetUnit`: the cached unit. */
    function GetUnit(): (u: string)
      reads this
      ensures u == unit
    {
      unit
    }

    /**
     * `GetPower`: a non-int polarisation channel closes the connection and raises ARGUMENT_TYPE.
     * In simulation a unit other than dBm or mW closes and raises VARIABLE_NOT_DEFINED, and a
     * known one yields a float that `[:-1]` cannot slice (TypeError). Outside simulation the
     * fixed query is written and the reply, without its last character, is the power.
     */
    method GetPower(polar: Value, reply: string) returns (r: Result<real, Failure>)
      modifies link
      ensures !IsInt(polar) ==> r == Err(Apex(ARGUMENT_TYPE, "Polar")) && !link.open && link.sent == old(link.sent)
      ensures IsInt(polar) && simulation ==> link.sent == old(link.sent)
      ensures IsInt(polar) && simulation && Lower(unit) in PowerUnits ==>
                r.Err? && r.error.TypeError? && link.open == old(link.open)
      ensures IsInt(polar) && simulation && Lower(unit) !in PowerUnits ==>
                r == Err(Apex(VARIABLE_NOT_DEFINED, "self.Unit")) && !link.open
      ensures IsInt(polar) && !simulation ==>
                r == ReadReal(py, reply) && link.open == old(link.open) && link.sent == old(link.sent) + [PowerQuery]
      ensures r.Ok? ==> !simulation
    {
      if !IsInt(polar) {
        link.Close();
        return Err(Apex(ARGUMENT_TYPE, "Polar"));
      }
      if simulation {
        if Lower(unit) in PowerUnits {
          return Err(TypeError("'float' object is not subscriptable"));
        }
        link.Close();
        return Err(Apex(VARIABLE_NOT_DEFINED, "self.Unit"));
      }
      link.Send(PowerQuery);
      return ReadReal(py, reply);
    }
  }
}
