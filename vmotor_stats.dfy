/*
 * The motor-statistics view: `configure` hands the fields of one motor's
 * status to the view's setters. The setters are the view's own (a widget
 * in the GUI); the model records each call, in order, in `calls`.
 */
module MotorStatsView {
  import opened Common

  /** One setter call on the view. */
  datatype SetterCall =
    | SetCurrentPosition(position: real)
    | SetTargetPosition(position: real)
    | SetTorque(torque: int)
    | SetSpeed(speed: real)
    | SetBrake(brake: LedState)
    | SetEnabled(enabled: LedState)

  /** A motor flag's LED, Off when the status does not hold it. */
  function MotorFlagOrOff(s: SingleMotorStatus, flag: MotorFlag): (led: LedState)
    ensures flag in s.flags ==> led == s.flags[flag]
    ensures flag !in s.flags ==> led == Off
  {
    if flag in s.flags then s.flags[flag] else Off
  }

  /** The setter calls `configure` makes for the status `s`. */
  function ConfigureCalls(s: SingleMotorStatus): seq<SetterCall>
  {
    [SetCurrentPosition(s.currentPosition), SetTargetPosition(s.targetPosition), SetTorque(s.torque),
     SetSpeed(s.speed), SetBrake(MotorFlagOrOff(s, BrakeApplied)), SetEnabled(MotorFlagOrOff(s, Enabled))]
  }

  class VMotorStats {
    var calls: seq<SetterCall>

    constructor ()
      ensures calls == []
    {
      calls := [];
    }

    /** `configure`: one call of each setter, in a fixed order. */
    method Configure(s: SingleMotorStatus)
      modifies this
      ensures calls == old(calls) + ConfigureCalls(s)
    {
      calls := calls + [SetCurrentPosition(s.currentPosition)];
      calls := calls + [SetTargetPosition(s.targetPosition)];
      calls := calls + [SetTorque(s.torque)];
      calls := calls + [SetSpeed(s.speed)];
      if BrakeApplied in s.flags {
        calls := calls + [SetBrake(s.flags[BrakeApplied])];
      } else {
        calls := calls + [SetBrake(Off)];
      }
      if Enabled in s.flags {
        calls := calls + [SetEnabled(s.flags[Enabled])];
      } else {
        calls := calls + [SetEnabled(Off)];
      }
    }
  }

  /** The position of a setter in the order `configure` calls them. */
  function SetterRank(c: SetterCall): nat
  {
    match c
    case SetCurrentPosition(_) => 0
    case SetTargetPosition(_) => 1
    case SetTorque(_) => 2
    case SetSpeed(_) => 3
    case SetBrake(_) => 4
    case SetEnabled(_) => 5
  }

  // ----- Properties -----

  /** Each setter is called once, in the order position, target, torque,
      speed, brake, enabled; the numbers are passed through unchanged, and
      brake and enabled show their flags, Off when missing. */
  lemma ConfigureSetsEveryField(s: SingleMotorStatus)
    ensures var calls := ConfigureCalls(s);
      && |calls| == 6
      && (forall i :: 0 <= i < |calls| ==> SetterRank(calls[i]) == i)
      && calls[0].position == s.currentPosition && calls[1].position == s.targetPosition
      && calls[2].torque == s.torque && calls[3].speed == s.speed
      && (BrakeApplied in s.flags ==> calls[4].brake == s.flags[BrakeApplied])
      && (BrakeApplied !in s.flags ==> calls[4].brake == Off)
      && (Enabled in s.flags ==> calls[5].enabled == s.flags[Enabled])
      && (Enabled !in s.flags ==> calls[5].enabled == Off)
  {
  }

  /** The alarm and warning flags do not reach the view. */
  lemma OtherFlagsIgnored(s: SingleMotorStatus, led: LedState)
    ensures ConfigureCalls(s.(flags := s.flags[Alarm := led])) == ConfigureCalls(s)
    ensures ConfigureCalls(s.(flags := s.flags[MotorFlag.Warning := led])) == ConfigureCalls(s)
  {
  }

  /** A status without flags shows the brake and the enable state Off. */
  method ConfigureWithoutFlags(s: SingleMotorStatus) returns (brake: LedState, enabled: LedState)
    requires s.flags == map[]
    ensures brake == Off && enabled == Off
  {
    var view := new VMotorStats();
    view.Configure(s);
    brake := view.calls[4].brake;
    enabled := view.calls[5].enabled;
  }
}
