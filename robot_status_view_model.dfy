/*
 * The GUI's view of a robot status: the tool-changer panel of one arm and
 * the reset controls. Both are pure functions of the status.
 */
module StatusView {
  import opened Wrappers
  import opened Common

  /** What the tool-changer panel of one arm shows. */
  datatype ToolChangerViewModel = ToolChangerViewModel(
    prox: LedState,
    openSensor: LedState,
    closedSensor: LedState,
    openValve: LedState,
    closedValve: LedState,
    openButtonEnabled: bool,
    closeButtonEnabled: bool)

  /** What the reset controls show. */
  datatype ResetControlsViewModel = ResetControlsViewModel(
    server: LedState,
    contec: LedState,
    motor: LedState,
    controlPanel: LedState,
    resetContecEnabled: bool,
    resetMotorEnabled: bool,
    resetControlPanelEnabled: bool,
    enableAllMotorsEnabled: bool,
    disableAllMotorsEnabled: bool)

  /** A default-constructed reset-controls view: the server in Error, the
      components Off, every button disabled. */
  const DefaultResetControls := ResetControlsViewModel(LedState.Error, Off, Off, Off, false, false, false, false, false)

  /** A tool-changer flag's LED, Off when the flag is missing. */
  function FlagOrOff(tc: ToolChangerStatus, flag: ToolChangerFlag): (led: LedState)
    ensures flag in tc.flags ==> led == tc.flags[flag]
    ensures flag !in tc.flags ==> led == Off
  {
    if flag in tc.flags then tc.flags[flag] else Off
  }

  /** `toolChangerForArm`: none for an arm the status does not hold; a
      button is disabled while its valve is on. */
  function ToolChangerForArm(status: RobotStatus, arm: Arm): (r: Option<ToolChangerViewModel>)
    ensures r.None? <==> arm !in status.toolChangers
  {
    if arm !in status.toolChangers then None
    else
      var tc := status.toolChangers[arm];
      var openValve := FlagOrOff(tc, OpenValve);
      var closedValve := FlagOrOff(tc, ClosedValve);
      Some(ToolChangerViewModel(
        FlagOrOff(tc, ProxSen), FlagOrOff(tc, OpenSen), FlagOrOff(tc, ClosedSen),
        openValve, closedValve,
        openValve != On, closedValve != On))
  }

  /** A component's LED, Off when the status does not hold it. */
  function ComponentOrOff(status: RobotStatus, c: RobotComponent): (led: LedState)
    ensures c in status.robotComponents ==> led == status.robotComponents[c]
    ensures c !in status.robotComponents ==> led == Off
  {
    if c in status.robotComponents then status.robotComponents[c] else Off
  }

  /** The motors can be enabled or disabled while the motor control's LED
      is On or Warning. */
  predicate MotorsSwitchable(motor: LedState)
  {
    motor == On || motor == LedState.Warning
  }

  /** `resetControlsForStatus`: the default view without a status;
      otherwise the server is On, each component shows its LED, its reset
      button is enabled when that LED is Error, and enabling or disabling
      all motors is possible while the motor control runs. */
  function ResetControlsForStatus(status: Option<RobotStatus>): (vm: ResetControlsViewModel)
    ensures status.None? ==> vm == DefaultResetControls
    ensures status.Some? ==> vm.server == On
  {
    if status.None? then DefaultResetControls
    else
      var s := status.value;
      var contec := ComponentOrOff(s, Contec);
      var motor := ComponentOrOff(s, MotorControl);
      var controlPanel := ComponentOrOff(s, ControlPanel);
      ResetControlsViewModel(
        On, contec, motor, controlPanel,
        contec == LedState.Error, motor == LedState.Error, controlPanel == LedState.Error,
        MotorsSwitchable(motor), MotorsSwitchable(motor))
  }

  // ----- Properties -----

  /** The panel shows each flag of the arm's tool changer, Off for a
      missing one, and each button is enabled exactly while its valve is
      not On. */
  lemma ToolChangerPanelShowsFlags(status: RobotStatus, arm: Arm)
    requires arm in status.toolChangers
    ensures var vm := ToolChangerForArm(status, arm).value;
      var flags := status.toolChangers[arm].flags;
      && (ProxSen in flags ==> vm.prox == flags[ProxSen]) && (ProxSen !in flags ==> vm.prox == Off)
      && (OpenSen in flags ==> vm.openSensor == flags[OpenSen]) && (OpenSen !in flags ==> vm.openSensor == Off)
      && (ClosedSen in flags ==> vm.closedSensor == flags[ClosedSen])
      && (ClosedSen !in flags ==> vm.closedSensor == Off)
      && (OpenValve in flags ==> vm.openValve == flags[OpenValve]) && (OpenValve !in flags ==> vm.openValve == Off)
      && (ClosedValve in flags ==> vm.closedValve == flags[ClosedValve])
      && (ClosedValve !in flags ==> vm.closedValve == Off)
      && (vm.openButtonEnabled <==> vm.openValve != On)
      && (vm.closeButtonEnabled <==> vm.closedValve != On)
  {
  }

  /** A tool changer without flags shows every LED Off with both buttons
      enabled. */
  lemma FlaglessToolChanger(status: RobotStatus, arm: Arm)
    requires arm in status.toolChangers && status.toolChangers[arm].flags == map[]
    ensures ToolChangerForArm(status, arm) == Some(ToolChangerViewModel(Off, Off, Off, Off, Off, true, true))
  {
  }

  /** With a status, each component shows its LED (Off when missing), each
      reset button is enabled exactly when that LED is Error, and the
      enable-all and disable-all buttons are enabled together, exactly
      while the motor control's LED is On or Warning. */
  lemma ResetControlsFollowComponents(s: RobotStatus)
    ensures var vm := ResetControlsForStatus(Some(s));
      && vm.server == On
      && vm.contec == ComponentOrOff(s, Contec)
      && vm.motor == ComponentOrOff(s, MotorControl)
      && vm.controlPanel == ComponentOrOff(s, ControlPanel)
      && (vm.resetContecEnabled <==> vm.contec == LedState.Error)
      && (vm.resetMotorEnabled <==> vm.motor == LedState.Error)
      && (vm.resetControlPanelEnabled <==> vm.controlPanel == LedState.Error)
      && (vm.enableAllMotorsEnabled <==> vm.motor == On || vm.motor == LedState.Warning)
      && vm.disableAllMotorsEnabled == vm.enableAllMotorsEnabled
  {
  }

  /** A status that holds no components shows them Off, which disables
      every button although the server is On. */
  lemma MissingComponentsDisableButtons(s: RobotStatus)
    requires s.robotComponents == map[]
    ensures ResetControlsForStatus(Some(s)) ==
      ResetControlsViewModel(On, Off, Off, Off, false, false, false, false, false)
  {
  }

  /** Whatever the status, the motor reset button is never enabled
      together with the enable-all button. */
  lemma MotorResetExcludesEnableAll(status: Option<RobotStatus>)
    ensures var vm := ResetControlsForStatus(status);
      !(vm.resetMotorEnabled && vm.enableAllMotorsEnabled)
  {
  }
}
