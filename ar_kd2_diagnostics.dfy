/*
 * AR-KD2 diagnostic code tables: the alarm, warning and communication-error
 * codes a driver reports, with their linear-search lookups.
 *
 * Each table is written as two columns read by row index: the code of each
 * row, and the three text fields of each row with its code in a trailing
 * comment. The table itself pairs them up in table order.
 */
module ArKd2Diagnostics {
  import opened Wrappers

  /** A diagnostic code is one unsigned byte. */
  type Code = c: int | 0 <= c < 0x100

  /** `ArKd2CodeDomain`. */
  datatype Domain = Alarm | Warning | CommunicationError

  /** The text fields of `ArKd2CodeInfo`: type (short title), cause and remedial action. */
  datatype Description = Description(kind: string, cause: string, remedialAction: string)

  /** `ArKd2CodeInfo`: a code and its description. */
  datatype CodeInfo = CodeInfo(code: Code, description: Description)

  // ---------------------------------------------------------------------
  // The alarm table (`kAlarmCodes`)
  // ---------------------------------------------------------------------

  const AlarmCount := 35

  function AlarmCodeAt(i: int): Code
    requires 0 <= i < AlarmCount
  {
    if i == 0 then 0x10
    else if i == 1 then 0x12
    else if i == 2 then 0x20
    else if i == 3 then 0x21
    else if i == 4 then 0x22
    else if i == 5 then 0x23
    else if i == 6 then 0x25
    else if i == 7 then 0x28
    else if i == 8 then 0x29
    else if i == 9 then 0x30
    else if i == 10 then 0x31
    else if i == 11 then 0x34
    else if i == 12 then 0x41
    else if i == 13 then 0x42
    else if i == 14 then 0x43
    else if i == 15 then 0x45
    else if i == 16 then 0x4A
    else if i == 17 then 0x51
    else if i == 18 then 0x60
    else if i == 19 then 0x61
    else if i == 20 then 0x62
    else if i == 21 then 0x63
    else if i == 22 then 0x64
    else if i == 23 then 0x66
    else if i == 24 then 0x67
    else if i == 25 then 0x6A
    else if i == 26 then 0x70
    else if i == 27 then 0x71
    else if i == 28 then 0x72
    else if i == 29 then 0x81
    else if i == 30 then 0x83
    else if i == 31 then 0x84
    else if i == 32 then 0x85
    else if i == 33 then 0x8E
    else 0xF0
  }

  function AlarmDescription(i: int): Description
    requires 0 <= i < AlarmCount
  {
    if i == 0 then // 0x10
      Description("Excessive position deviation",
        "Deviation exceeded the configured alarm-at-current-ON threshold.",
        "Reduce load, relax accel/decel, verify motor cable.")
    else if i == 1 then // 0x12
      Description("Excessive position deviation during current OFF",
        "C-ON was turned on while excessive-position warning at current OFF was present.",
        "Avoid enabling C-ON in this state; review auto return setting.")
    else if i == 2 then // 0x20
      Description("Overcurrent",
        "Motor/cable/driver output short circuit detected.",
        "Power cycle and verify wiring/shorts before re-enabling.")
    else if i == 3 then // 0x21
      Description("Main circuit overheat",
        "Driver internal temperature exceeded limit.",
        "Improve cabinet cooling and ambient conditions.")
    else if i == 4 then // 0x22
      Description("Overvoltage",
        "Power supply voltage exceeded permitted range.",
        "Check supply voltage and deceleration profile/load.")
    else if i == 5 then // 0x23
      Description("Main power off",
        "Motor start attempted while main power was absent.",
        "Verify main power input and power sequencing.")
    else if i == 6 then // 0x25
      Description("Undervoltage",
        "Main power dropped or fell below permitted range.",
        "Check power supply voltage and source stability.")
    else if i == 7 then // 0x28
      Description("Sensor error",
        "Sensor error occurred during operation.",
        "Power cycle and verify motor/driver cable connection.")
    else if i == 8 then // 0x29
      Description("CPU peripheral circuit error",
        "Internal CPU-side error occurred.",
        "Power cycle and recheck. If persistent, service driver.")
    else if i == 9 then // 0x30
      Description("Overload",
        "Load/torque demand exceeded configured overload window.",
        "Reduce load, increase accel/decel time, review run current.")
    else if i == 10 then // 0x31
      Description("Overspeed",
        "Motor output speed exceeded limit.",
        "Adjust electronic gear/profile so speed stays in range.")
    else if i == 11 then // 0x34
      Description("Command pulse error",
        "Command pulse frequency exceeded specification.",
        "Review electronic gear and commanded speed profile.")
    else if i == 12 then // 0x41
      Description("EEPROM error",
        "Stored parameter data is corrupted.",
        "Initialize parameters and power cycle.")
    else if i == 13 then // 0x42
      Description("Initial sensor error",
        "Sensor error detected at power-on.",
        "Power cycle and verify motor cable/feedback wiring.")
    else if i == 14 then // 0x43
      Description("Initial rotor rotation error",
        "Output shaft was not still at power-on.",
        "Remove external force/load during power-up.")
    else if i == 15 then // 0x45
      Description("Motor combination error",
        "Unsupported motor/driver combination detected.",
        "Check model matching and wiring.")
    else if i == 16 then // 0x4A
      Description("Return-to-home incomplete",
        "Positioning started before origin was set.",
        "Perform preset or return-to-home before positioning.")
    else if i == 17 then // 0x51
      Description("Regeneration resistor overheat",
        "Regeneration resistor connection/thermal issue detected.",
        "Check TH1/TH2 and resistor sizing/wiring.")
    else if i == 18 then // 0x60
      Description("\U{00C2}\U{00B1}LS both sides active",
        "+LS and -LS detected simultaneously.",
        "Verify sensor logic and LS contact configuration.")
    else if i == 19 then // 0x61
      Description("Reverse limit sensor connection",
        "Opposite-direction limit sensor detected during homing.",
        "Check limit sensor wiring and installation.")
    else if i == 20 then // 0x62
      Description("Home seeking error",
        "Return-to-home did not complete normally.",
        "Check load and home/limit sensor geometry and logic.")
    else if i == 21 then // 0x63
      Description("No HOMES",
        "HOMES not detected between positive/negative limit sensors.",
        "Place/adjust mechanical home sensor in expected span.")
    else if i == 22 then // 0x64
      Description("TIM/Z/SLIT signal error",
        "Required TIM/SLIT signals were not detected during homing.",
        "Adjust mechanics/sensors or disable unused detections.")
    else if i == 23 then // 0x66
      Description("Hardware overtravel",
        "+LS/-LS detected while hardware overtravel protection enabled.",
        "Exit limit region and verify LS setup.")
    else if i == 24 then // 0x67
      Description("Software overtravel",
        "Soft limit reached while software overtravel enabled.",
        "Adjust operation data and soft limits.")
    else if i == 25 then // 0x6A
      Description("Home seeking offset error",
        "Limit sensor detected during home offset movement.",
        "Review offset value and sensor placement.")
    else if i == 26 then // 0x70
      Description("Abnormal operation data",
        "Operation data combination is invalid for requested motion.",
        "Validate linked data and speed settings.")
    else if i == 27 then // 0x71
      Description("Electronic gear setting error",
        "Electronic gear resolution is out of specification.",
        "Set resolution to valid range and power cycle.")
    else if i == 28 then // 0x72
      Description("Wrap setting error",
        "Wrap setting range is inconsistent with configured resolution.",
        "Correct wrap parameter values and power cycle.")
    else if i == 29 then // 0x81
      Description("Network bus error",
        "Network converter host link disconnected during operation.",
        "Check network converter cable/connector/controller.")
    else if i == 30 then // 0x83
      Description("Communication switch setting error",
        "Transmission-rate switch setting is out of specification.",
        "Set valid switch value and power cycle.")
    else if i == 31 then // 0x84
      Description("RS-485 communication error",
        "Consecutive RS-485 errors exceeded configured threshold.",
        "Check bus wiring, noise, and communication settings.")
    else if i == 32 then // 0x85
      Description("RS-485 communication timeout",
        "No communication within configured timeout window.",
        "Verify host communication cadence and cable/port.")
    else if i == 33 then // 0x8E
      Description("Network converter error",
        "Network converter reported an alarm.",
        "Check network converter alarm details.")
    else // 0xF0
      Description("CPU error",
        "CPU malfunction detected.",
        "Power cycle. If persistent, service driver.")
  }

  function AlarmCodes(): seq<CodeInfo>
  {
    seq(AlarmCount, i requires 0 <= i < AlarmCount => CodeInfo(AlarmCodeAt(i), AlarmDescription(i)))
  }

  // ---------------------------------------------------------------------
  // The warning table (`kWarningCodes`)
  // ---------------------------------------------------------------------

  const WarningCount := 10

  function WarningCodeAt(i: int): Code
    requires 0 <= i < WarningCount
  {
    if i == 0 then 0x10
    else if i == 1 then 0x12
    else if i == 2 then 0x21
    else if i == 3 then 0x22
    else if i == 4 then 0x25
    else if i == 5 then 0x30
    else if i == 6 then 0x31
    else if i == 7 then 0x71
    else if i == 8 then 0x72
    else 0x84
  }

  function WarningDescription(i: int): Description
    requires 0 <= i < WarningCount
  {
    if i == 0 then // 0x10
      Description("Excessive position deviation",
        "Deviation exceeded configured warning threshold.",
        "Reduce load and adjust accel/decel/current settings.")
    else if i == 1 then // 0x12
      Description("Excessive position deviation during current OFF",
        "Deviation exceeded configured current-OFF threshold.",
        "Reduce drift at current OFF or adjust threshold.")
    else if i == 2 then // 0x21
      Description("Main circuit overheat",
        "Driver temperature exceeded warning setting.",
        "Improve ventilation/thermal conditions.")
    else if i == 3 then // 0x22
      Description("Overvoltage",
        "Power supply exceeded overvoltage warning level.",
        "Check supply and reduce regen stress.")
    else if i == 4 then // 0x25
      Description("Undervoltage",
        "Power supply dropped below warning level.",
        "Check supply sizing/stability.")
    else if i == 5 then // 0x30
      Description("Overload",
        "Load exceeded overload warning conditions.",
        "Reduce load and adjust accel/decel/current.")
    else if i == 6 then // 0x31
      Description("Overspeed",
        "Speed exceeded overspeed warning setting.",
        "Reduce commanded speed and tune profile.")
    else if i == 7 then // 0x71
      Description("Electronic gear setting error",
        "Electronic gear resolution is out of range.",
        "Correct electronic gear settings.")
    else if i == 8 then // 0x72
      Description("Wrap setting error",
        "Wrap range and resolution settings are inconsistent.",
        "Correct wrap/resolution settings.")
    else // 0x84
      Description("RS-485 communication error",
        "RS-485 communication error detected.",
        "Check bus wiring and communication parameters.")
  }

  function WarningCodes(): seq<CodeInfo>
  {
    seq(WarningCount, i requires 0 <= i < WarningCount => CodeInfo(WarningCodeAt(i), WarningDescription(i)))
  }

  // ---------------------------------------------------------------------
  // The communication-error table (`kCommunicationErrorCodes`)
  // ---------------------------------------------------------------------

  const CommunicationErrorCount := 6

  function CommunicationErrorCodeAt(i: int): Code
    requires 0 <= i < CommunicationErrorCount
  {
    if i == 0 then 0x84
    else if i == 1 then 0x88
    else if i == 2 then 0x89
    else if i == 3 then 0x8A
    else if i == 4 then 0x8C
    else 0x8D
  }

  function CommunicationErrorDescription(i: int): Description
    requires 0 <= i < CommunicationErrorCount
  {
    if i == 0 then // 0x84
      Description("RS-485 communication error",
        "Transmission-level communication error (framing/BCC).",
        "Check cable/wiring/termination and serial settings.")
    else if i == 1 then // 0x88
      Description("Command not yet defined",
        "Requested command is not supported/defined.",
        "Validate function/register map and frame payload.")
    else if i == 2 then // 0x89
      Description("Execution disabled (user I/F communication in progress)",
        "Driver is busy with MEXE02/OPX-2A communication.",
        "Retry after external tool communication completes.")
    else if i == 3 then // 0x8A
      Description("Execution disabled (non-volatile memory processing)",
        "Driver is processing non-volatile memory or EEPROM alarm is active.",
        "Wait for S-BSY clear; resolve EEPROM alarm if present.")
    else if i == 4 then // 0x8C
      Description("Outside setting range",
        "Requested setting value is outside allowed range.",
        "Validate and clamp setting data before write.")
    else // 0x8D
      Description("Command execute disable",
        "Command cannot be executed in current driver state.",
        "Check driver state/interlocks and retry when valid.")
  }

  function CommunicationErrorCodes(): seq<CodeInfo>
  {
    seq(CommunicationErrorCount, i requires 0 <= i < CommunicationErrorCount => CodeInfo(CommunicationErrorCodeAt(i), CommunicationErrorDescription(i)))
  }

  /** The table searched for a domain. */
  function Table(domain: Domain): seq<CodeInfo>
  {
    match domain
    case Alarm => AlarmCodes()
    case Warning => WarningCodes()
    case CommunicationError => CommunicationErrorCodes()
  }

  // ---------------------------------------------------------------------
  // Lookups
  // ---------------------------------------------------------------------

  /** The first entry of `entries` whose code is `code`, if any. */
  function Lookup(entries: seq<CodeInfo>, code: int): Option<CodeInfo>
  {
    if |entries| == 0 then None
    else if entries[0].code == code then Some(entries[0])
    else Lookup(entries[1..], code)
  }

  /** `findIn`: scans the table front to back and returns the first match. */
  method FindIn(entries: seq<CodeInfo>, code: Code) returns (r: Option<CodeInfo>)
    ensures r == Lookup(entries, code)
    ensures r.Some? ==> r.value in entries && r.value.code == code
    ensures r.None? <==> forall e :: e in entries ==> e.code != code
  {
    LookupSpec(entries, code);
    var i := 0;
    while i < |entries|
      invariant 0 <= i <= |entries|
      invariant Lookup(entries[i..], code) == Lookup(entries, code)
    {
      if entries[i].code == code {
        return Some(entries[i]);
      }
      assert entries[i..][1..] == entries[i + 1..];
      i := i + 1;
    }
    return None;
  }

  /** `arKd2FindAlarm`. */
  method FindAlarm(code: Code) returns (r: Option<CodeInfo>)
    ensures r == Lookup(AlarmCodes(), code)
  {
    r := FindIn(AlarmCodes(), code);
  }

  /** `arKd2FindWarning`. */
  method FindWarning(code: Code) returns (r: Option<CodeInfo>)
    ensures r == Lookup(WarningCodes(), code)
  {
    r := FindIn(WarningCodes(), code);
  }

  /** `arKd2FindCommunicationError`. */
  method FindCommunicationError(code: Code) returns (r: Option<CodeInfo>)
    ensures r == Lookup(CommunicationErrorCodes(), code)
  {
    r := FindIn(CommunicationErrorCodes(), code);
  }

  /** `arKd2FindCode`: searches exactly the table of the given domain. */
  method FindCode(domain: Domain, code: Code) returns (r: Option<CodeInfo>)
    ensures r == Lookup(Table(domain), code)
  {
    match domain
    case Alarm => r := FindAlarm(code);
    case Warning => r := FindWarning(code);
    case CommunicationError => r := FindCommunicationError(code);
  }

  /** `arKd2DomainName`: the domain's name for log lines. */
  function DomainName(domain: Domain): (name: string)
    ensures name in {"alarm", "warning", "communication error"}
  {
    match domain
    case Alarm => "alarm"
    case Warning => "warning"
    case CommunicationError => "communication error"
  }

  // ---------------------------------------------------------------------
  // Properties of the lookup
  // ---------------------------------------------------------------------

  /** Codes strictly increase along the table. */
  ghost predicate Ascending(entries: seq<CodeInfo>)
  {
    forall i, j :: 0 <= i < j < |entries| ==> entries[i].code < entries[j].code
  }

  /** Neighbouring codes increase. */
  ghost predicate Chain(entries: seq<CodeInfo>)
  {
    forall i :: 0 <= i < |entries| - 1 ==> entries[i].code < entries[i + 1].code
  }

  /** The lookup finds a matching entry of the table, earlier than any other match,
      and finds nothing exactly when no entry has the code. */
  lemma {:induction false} LookupSpec(entries: seq<CodeInfo>, code: int)
    ensures Lookup(entries, code).None? <==> forall e :: e in entries ==> e.code != code
    ensures Lookup(entries, code).Some? ==>
      exists i :: 0 <= i < |entries| && entries[i] == Lookup(entries, code).value &&
        entries[i].code == code && forall j :: 0 <= j < i ==> entries[j].code != code
  {
    if |entries| > 0 && entries[0].code != code {
      var rest := entries[1..];
      LookupSpec(rest, code);
      if Lookup(entries, code).Some? {
        var i :| 0 <= i < |rest| && rest[i] == Lookup(entries, code).value &&
          rest[i].code == code && forall j :: 0 <= j < i ==> rest[j].code != code;
        assert entries[i + 1] == rest[i];
        forall j | 0 <= j < i + 1
          ensures entries[j].code != code
        {
          if j > 0 {
            assert entries[j] == rest[j - 1];
          }
        }
      }
      forall e | e in entries
        ensures Lookup(entries, code).None? ==> e.code != code
      {
        if e != entries[0] {
          assert e in rest;
        }
      }
    }
  }

  /** In an ascending table the lookup of a row's code returns that row. */
  lemma AscendingLookup(entries: seq<CodeInfo>, k: nat, code: int)
    requires Ascending(entries)
    requires k < |entries| && entries[k].code == code
    ensures Lookup(entries, code) == Some(entries[k])
  {
    LookupSpec(entries, code);
    var i :| 0 <= i < |entries| && entries[i] == Lookup(entries, code).value &&
      entries[i].code == code && forall j :: 0 <= j < i ==> entries[j].code != code;
    assert i == k;
  }

  /** A code below the first one of an ascending table is absent. */
  lemma BelowFirstAbsent(entries: seq<CodeInfo>, code: int)
    requires Ascending(entries)
    requires |entries| > 0 && code < entries[0].code
    ensures Lookup(entries, code) == None
  {
    LookupSpec(entries, code);
    forall e | e in entries
      ensures e.code != code
    {
      var i :| 0 <= i < |entries| && entries[i] == e;
      assert i == 0 || entries[0].code < entries[i].code;
    }
  }

  /** Neighbour-wise increase gives increase between any two rows. */
  lemma {:induction false} ChainAscending(entries: seq<CodeInfo>)
    requires Chain(entries)
    ensures Ascending(entries)
  {
    forall i, j | 0 <= i < j < |entries|
      ensures entries[i].code < entries[j].code
    {
      var k := i + 1;
      while k < j
        invariant i < k <= j
        invariant entries[i].code < entries[k].code
      {
        k := k + 1;
      }
    }
  }

  // ---------------------------------------------------------------------
  // Properties of the tables
  // ---------------------------------------------------------------------

  lemma AlarmCodesIncrease()
    ensures forall i | 0 <= i < AlarmCount - 1 :: AlarmCodeAt(i) < AlarmCodeAt(i + 1)
  {
  }

  lemma WarningCodesIncrease()
    ensures forall i | 0 <= i < WarningCount - 1 :: WarningCodeAt(i) < WarningCodeAt(i + 1)
  {
  }

  lemma CommunicationErrorCodesIncrease()
    ensures forall i | 0 <= i < CommunicationErrorCount - 1 :: CommunicationErrorCodeAt(i) < CommunicationErrorCodeAt(i + 1)
  {
  }

  lemma AlarmCodesAscending()
    ensures |AlarmCodes()| == 35 && Ascending(AlarmCodes())
  {
    AlarmCodesIncrease();
    ChainAscending(AlarmCodes());
  }

  lemma WarningCodesAscending()
    ensures |WarningCodes()| == 10 && Ascending(WarningCodes())
  {
    WarningCodesIncrease();
    ChainAscending(WarningCodes());
  }

  lemma CommunicationErrorCodesAscending()
    ensures |CommunicationErrorCodes()| == 6 && Ascending(CommunicationErrorCodes())
  {
    CommunicationErrorCodesIncrease();
    ChainAscending(CommunicationErrorCodes());
  }

  /** The alarm (35), warning (10) and communication-error (6) tables are each
      strictly ascending by code. */
  lemma TableAscending(domain: Domain)
    ensures |Table(domain)| == match domain
      case Alarm => 35
      case Warning => 10
      case CommunicationError => 6
    ensures Ascending(Table(domain))
  {
    match domain
    case Alarm => AlarmCodesAscending();
    case Warning => WarningCodesAscending();
    case CommunicationError => CommunicationErrorCodesAscending();
  }

  /** Within one table a code names at most one entry. */
  lemma CodeMatchesAtMostOneEntry(domain: Domain, i: nat, j: nat)
    requires i < |Table(domain)| && j < |Table(domain)|
    requires Table(domain)[i].code == Table(domain)[j].code
    ensures i == j
  {
    TableAscending(domain);
  }

  /** A lookup in any domain returns an entry of that table carrying the code, and
      finds nothing exactly when no entry carries it. */
  lemma FindCodeSpec(domain: Domain, code: Code)
    ensures Lookup(Table(domain), code).Some? ==>
      Lookup(Table(domain), code).value in Table(domain) && Lookup(Table(domain), code).value.code == code
    ensures Lookup(Table(domain), code).None? <==> forall e :: e in Table(domain) ==> e.code != code
  {
    LookupSpec(Table(domain), code);
  }

  /** Every entry of every table is found by its own code. */
  lemma EveryEntryFound(domain: Domain, k: nat)
    requires k < |Table(domain)|
    ensures Lookup(Table(domain), Table(domain)[k].code) == Some(Table(domain)[k])
  {
    TableAscending(domain);
    AscendingLookup(Table(domain), k, Table(domain)[k].code);
  }

  /** 0x01 is in none of the three tables. */
  lemma CodeOneAbsent(domain: Domain)
    ensures Lookup(Table(domain), 0x01) == None
  {
    TableAscending(domain);
    BelowFirstAbsent(Table(domain), 0x01);
  }

  /** Row `k` of the alarm table pairs the code and the description of that row. */
  lemma AlarmRow(k: nat)
    requires k < AlarmCount
    ensures AlarmCodes()[k] == CodeInfo(AlarmCodeAt(k), AlarmDescription(k))
  {
  }

  /** Row `k` of the warning table pairs the code and the description of that row. */
  lemma WarningRow(k: nat)
    requires k < WarningCount
    ensures WarningCodes()[k] == CodeInfo(WarningCodeAt(k), WarningDescription(k))
  {
  }

  /** Row `k` of the communication-error table pairs the code and the description of that row. */
  lemma CommunicationErrorRow(k: nat)
    requires k < CommunicationErrorCount
    ensures CommunicationErrorCodes()[k] == CodeInfo(CommunicationErrorCodeAt(k), CommunicationErrorDescription(k))
  {
  }

  /** Alarm 0x20 is an overcurrent, with a cause and a remedy. */
  lemma AlarmOvercurrent()
    ensures Lookup(AlarmCodes(), 0x20).Some?
    ensures Lookup(AlarmCodes(), 0x20).value.description.kind == "Overcurrent"
    ensures |Lookup(AlarmCodes(), 0x20).value.description.cause| > 0
    ensures |Lookup(AlarmCodes(), 0x20).value.description.remedialAction| > 0
  {
    AlarmCodesAscending();
    AlarmRow(2);
    AscendingLookup(AlarmCodes(), 2, 0x20);
  }

  /** Alarm 0x10 is an excessive position deviation. */
  lemma AlarmPositionDeviation()
    ensures Lookup(AlarmCodes(), 0x10).Some?
    ensures Lookup(AlarmCodes(), 0x10).value.description.kind == "Excessive position deviation"
  {
    AlarmCodesAscending();
    AlarmRow(0);
    AscendingLookup(AlarmCodes(), 0, 0x10);
  }

  /** Warning 0x31 is overspeed. */
  lemma WarningOverspeed()
    ensures Lookup(WarningCodes(), 0x31).Some?
    ensures Lookup(WarningCodes(), 0x31).value.description.kind == "Overspeed"
  {
    WarningCodesAscending();
    WarningRow(6);
    AscendingLookup(WarningCodes(), 6, 0x31);
  }

  /** Warning 0x10 is an excessive position deviation, like alarm 0x10. */
  lemma WarningPositionDeviation()
    ensures Lookup(WarningCodes(), 0x10).Some?
    ensures Lookup(WarningCodes(), 0x10).value.description.kind == "Excessive position deviation"
  {
    WarningCodesAscending();
    WarningRow(0);
    AscendingLookup(WarningCodes(), 0, 0x10);
  }

  /** Communication error 0x8C is an out-of-range setting. */
  lemma CommunicationErrorOutOfRange()
    ensures Lookup(CommunicationErrorCodes(), 0x8C).Some?
    ensures Lookup(CommunicationErrorCodes(), 0x8C).value.description.kind == "Outside setting range"
  {
    CommunicationErrorCodesAscending();
    CommunicationErrorRow(4);
    AscendingLookup(CommunicationErrorCodes(), 4, 0x8C);
  }

  /** Communication error 0x84 is the RS-485 error. */
  lemma CommunicationErrorRs485()
    ensures Lookup(CommunicationErrorCodes(), 0x84).Some?
    ensures Lookup(CommunicationErrorCodes(), 0x84).value.description.kind == "RS-485 communication error"
  {
    CommunicationErrorCodesAscending();
    CommunicationErrorRow(0);
    AscendingLookup(CommunicationErrorCodes(), 0, 0x84);
  }

  /** The three domains have three different names. */
  lemma DomainNamesDistinct(a: Domain, b: Domain)
    requires a != b
    ensures DomainName(a) != DomainName(b)
  {
  }
}
