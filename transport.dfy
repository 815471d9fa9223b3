/**
 * The connection a driver talks through (a TCP socket, a serial port or a USB handle).
 * Only what the drivers do with it is kept: the commands written to it, in order, and
 * whether it has been closed. Replies are inputs of the operations that read them.
 */
module Transport {
  import opened Wrappers

  class Connexion {
    var sent: seq<string>
    var open: bool
    var timeout: Option<real>   // the socket timeout in seconds; None blocks without limit

    constructor ()
      ensures sent == [] && open
    {
      sent := [];
      open := true;
      timeout := None;
    }

    /** `Connexion.settimeout(t)`. */
    method SetTimeout(t: Option<real>)
      modifies this
      ensures timeout == t && sent == old(sent) && open == old(open)
    {
      timeout := t;
    }

    /** `Send(Connexion, Command)`: the command is written to the equipment. */
    method Send(command: string)
      modifies this
      ensures sent == old(sent) + [command] && open == old(open) && timeout == old(timeout)
    {
      sent := sent + [command];
    }

    /** `Connexion.close()`. */
    method Close()
      modifies this
      ensures sent == old(sent) && !open && timeout == old(timeout)
    {
      open := false;
    }
  }

  /** The commands a driver writes for one operation: nothing in simulation mode. */
  function Unless(simulation: bool, command: string): (cmds: seq<string>)
    ensures |cmds| <= 1
    ensures cmds == [] <==> simulation
  {
    if simulation then [] else [command]
  }

  /** `if not self.Simulation: Send(self.Connexion, Command)`. */
  method Emit(link: Connexion, simulation: bool, command: string)
    modifies link
    ensures link.sent == old(link.sent) + Unless(simulation, command) && link.open == old(link.open)
    ensures link.timeout == old(link.timeout)
  {
    if !simulation {
      link.Send(command);
    }
  }
}
