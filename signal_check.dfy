/** The signal comparator item component (`SignalCheckComponent`): it
    compares incoming signals with a target value and answers with its
    output value or "0". */
module SignalCheck {
  import opened Wrappers
  import opened ItemSignals

  class SignalCheckComponent {
    /** The value sent when the incoming signal matches (`Output`). */
    var output: string
    /** The value an incoming signal is compared with (`TargetSignal`). */
    var targetSignal: string

    /** The declared defaults: `Output` is "1", `TargetSignal` is empty. */
    constructor ()
      ensures output == "1" && targetSignal == ""
    {
      output := "1";
      targetSignal := "";
    }

    /** Handles a signal arriving on the named connection and returns the
        signal sent in response, if any. */
    method ReceiveSignal(signal: string, connection: string) returns (sent: Option<Signal>)
      modifies this
      ensures connection == "signal_in" ==>
        && unchanged(this)
        && sent == Some(Signal(if signal == targetSignal then output else "0", "signal_out"))
      ensures connection == "set_output" ==>
        output == signal && targetSignal == old(targetSignal) && sent == None
      ensures connection == "set_targetsignal" ==>
        targetSignal == signal && output == old(output) && sent == None
      ensures connection !in {"signal_in", "set_output", "set_targetsignal"} ==>
        unchanged(this) && sent == None
    {
      sent := None;
      match connection
      case "signal_in" =>
        sent := Some(Signal(if signal == targetSignal then output else "0", "signal_out"));
      case "set_output" =>
        output := signal;
      case "set_targetsignal" =>
        targetSignal := signal;
      case _ =>
    }
  }

  /** Setting the target and then sending it in answers with the output
      value; any other value is answered with "0". */
  method CompareScenario(c: SignalCheckComponent, value: string, other: string)
    returns (hit: Option<Signal>, miss: Option<Signal>)
    requires value != other
    modifies c
    ensures hit == Some(Signal(old(c.output), "signal_out"))
    ensures miss == Some(Signal("0", "signal_out"))
    ensures c.targetSignal == value && c.output == old(c.output)
  {
    var s := c.ReceiveSignal(value, "set_targetsignal");
    hit := c.ReceiveSignal(value, "signal_in");
    miss := c.ReceiveSignal(other, "signal_in");
  }
}
