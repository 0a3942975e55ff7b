/*
 * The serial transport of the control panel: the settings it reads from the
 * `comm` section of the configuration, the text it describes itself with, and
 * its line terminator.
 *
 * Opening, reading and closing the port go through LibSerial and are not
 * part of this model. The LibSerial enumerations (baud rate, character size,
 * flow control, parity, stop bits) are kept as the names the configuration
 * gives for them.
 */
module SerialComm {
  import opened Wrappers
  import opened Common
  import Panel

  /** The settings of a serial control-panel transport. */
  datatype SerialSettings = SerialSettings(
    port: string,
    baudRate: string,
    characterSize: string,
    flowControl: string,
    parity: string,
    stopBits: string,
    readTimeoutMs: nat,
    lineTerminator: char)

  const MissingSerialMap := "ControlPanel comm.type='serial' requires map 'comm.serial'."
  const MissingKeyPrefix := "Missing required ControlPanel comm.serial."
  const BadConversion := "bad conversion"

  /** `node.as<std::string>()`: a scalar's text; a null node reads as "null";
      a sequence or a map cannot be read as text. */
  function AsString(node: Yaml): (r: Result<string>)
    ensures r.Ok? <==> node.YScalar? || node.YNull?
    ensures node.YScalar? ==> r == Ok(node.text)
  {
    match node
    case YScalar(t) => Ok(t)
    case YNull => Ok("null")
    case _ => Err(BadConversion)
  }

  /** The enumerator names the YAML converters of LibSerial's five setting
      enumerations accept. The enumerations belong to LibSerial, so which
      names they have is the caller's value. */
  datatype SettingNames = SettingNames(
    baudRates: set<string>,
    characterSizes: set<string>,
    flowControls: set<string>,
    parities: set<string>,
    stopBits: set<string>)

  /** `node.as<LibSerial::…>()` through the generic enumeration converter:
      a scalar whose text is exactly one of the enumeration's names, which
      the model keeps as the setting; anything else is a bad conversion. */
  function AsSettingName(node: Yaml, names: set<string>): (r: Result<string>)
    ensures r.Ok? <==> node.YScalar? && node.text in names
    ensures r.Ok? ==> r.value == node.text
    ensures r.Err? ==> r.msg == BadConversion
  {
    if node.YScalar? && node.text in names then Ok(node.text) else Err(BadConversion)
  }

  /** The white space `std::ws` skips in the "C" locale. */
  predicate IsCSpace(c: char)
  {
    c == ' ' || c == '\t' || c == '\n' || c == '\U{000B}' || c == '\U{000C}' || c == '\r'
  }

  /** The text without its trailing white space. */
  function TrimTrailingSpace(s: string): (r: string)
    ensures |r| <= |s| && (r == [] || !IsCSpace(r[|r| - 1]))
    ensures forall i :: 0 <= i < |r| ==> r[i] == s[i]
    ensures forall i :: |r| <= i < |s| ==> IsCSpace(s[i])
  {
    if s != [] && IsCSpace(s[|s| - 1]) then TrimTrailingSpace(s[..|s| - 1]) else s
  }

  predicate IsHexDigit(c: char)
  {
    '0' <= c <= '9' || 'a' <= c <= 'f' || 'A' <= c <= 'F'
  }

  /** Whether `c` is a digit of base 8, 10 or 16. */
  predicate IsDigitOf(c: char, base: nat)
  {
    if base == 8 then '0' <= c <= '7'
    else if base == 10 then '0' <= c <= '9'
    else IsHexDigit(c)
  }

  predicate AllDigitsOf(ds: string, base: nat)
  {
    forall i :: 0 <= i < |ds| ==> IsDigitOf(ds[i], base)
  }

  function HexDigitValue(c: char): nat
  {
    if '0' <= c <= '9' then c as int - '0' as int
    else if 'a' <= c <= 'f' then c as int - 'a' as int + 10
    else if 'A' <= c <= 'F' then c as int - 'A' as int + 10
    else 0
  }

  /** The value of the digits `ds` in base `base`. */
  function NumeralValue(ds: string, base: nat): nat
  {
    if ds == [] then 0 else base * NumeralValue(ds[..|ds| - 1], base) + HexDigitValue(ds[|ds| - 1])
  }

  /** The base an unsigned extraction with the base field cleared reads
      `t` in, and the digits it reads: "0x" or "0X" starts hexadecimal
      digits, any other leading 0 starts octal digits, anything else is
      decimal. */
  function Numeral(t: string): (r: (nat, string))
    ensures r.0 in {8, 10, 16}
  {
    if |t| >= 2 && t[0] == '0' && (t[1] == 'x' || t[1] == 'X') then (16, t[2..])
    else if |t| >= 1 && t[0] == '0' then (8, t[1..])
    else (10, t)
  }

  /** The largest `std::size_t`. */
  const SizeMax: nat := 0xFFFF_FFFF_FFFF_FFFF

  /** `node.as<std::size_t>()`: yaml-cpp streams a scalar's text into the
      number with the base field cleared and white space not skipped, and
      accepts it only when nothing but trailing white space is left. So an
      optional '+', then hexadecimal digits after "0x", octal digits after a
      leading 0, or decimal digits; a '-' sign, leading white space, stray
      characters or a value above `SizeMax` are a bad conversion. */
  function AsCount(node: Yaml): (r: Result<nat>)
    ensures r.Ok? ==> node.YScalar? && r.value <= SizeMax
    ensures r.Err? ==> r.msg == BadConversion
  {
    if !node.YScalar? then Err(BadConversion)
    else
      var t := node.text;
      var unsigned := if t != [] && t[0] == '+' then t[1..] else t;
      var (base, digits) := Numeral(TrimTrailingSpace(unsigned));
      if (base != 8 && digits == []) || !AllDigitsOf(digits, base) then Err(BadConversion)
      else if NumeralValue(digits, base) > SizeMax then Err(BadConversion)
      else Ok(NumeralValue(digits, base))
  }

  /** Decimal digits have the value `Panel.DigitsValue` gives them. */
  lemma {:induction false} DecimalNumeralValue(ds: string)
    requires forall i :: 0 <= i < |ds| ==> Panel.IsDigit(ds[i])
    ensures NumeralValue(ds, 10) == Panel.DigitsValue(ds)
  {
    if ds != [] {
      DecimalNumeralValue(ds[..|ds| - 1]);
    }
  }

  /** A number's decimal text begins with a 0 only when the number is 0. */
  lemma {:induction false} NatTextLead(n: nat)
    ensures n > 0 ==> Panel.NatText(n)[0] != '0'
  {
    if n >= 10 {
      NatTextLead(n / 10);
    }
  }

  /** The decimal text of any count reads back as that count. */
  lemma AsCountOfNatText(n: nat)
    requires n <= SizeMax
    ensures AsCount(YScalar(Panel.NatText(n))) == Ok(n)
  {
    var t := Panel.NatText(n);
    NatTextLead(n);
    Panel.DigitsValueOfNatText(n);
    assert TrimTrailingSpace(t) == t;
    if n > 0 {
      assert t[0] != '+';
      DecimalNumeralValue(t);
    }
  }

  /** Digits carry no trailing white space. */
  lemma {:induction false} DigitsNotTrimmed(ds: string, base: nat)
    requires AllDigitsOf(ds, base)
    ensures TrimTrailingSpace(ds) == ds
  {
    if ds != [] {
      assert IsDigitOf(ds[|ds| - 1], base);
    }
  }

  /** A leading 0 makes the rest octal: "0" followed by octal digits reads
      as their octal value. */
  lemma AsCountOctal(ds: string)
    requires AllDigitsOf(ds, 8) && NumeralValue(ds, 8) <= SizeMax
    ensures AsCount(YScalar("0" + ds)) == Ok(NumeralValue(ds, 8))
  {
    DigitsNotTrimmed("0" + ds, 8);
    assert ("0" + ds)[1..] == ds;
  }

  /** "0x" followed by hexadecimal digits reads as their hexadecimal value. */
  lemma AsCountHex(ds: string)
    requires ds != [] && AllDigitsOf(ds, 16) && NumeralValue(ds, 16) <= SizeMax
    ensures AsCount(YScalar("0x" + ds)) == Ok(NumeralValue(ds, 16))
  {
    var t := "0x" + ds;
    assert TrimTrailingSpace(t) == t by {
      assert t[|t| - 1] == ds[|ds| - 1];
      assert IsDigitOf(ds[|ds| - 1], 16);
    }
    assert t[2..] == ds;
  }

  /** A '-' sign is never read as a count. */
  lemma AsCountRefusesMinus(rest: string)
    ensures AsCount(YScalar("-" + rest)) == Err(BadConversion)
  {
    var t := "-" + rest;
    var trimmed := TrimTrailingSpace(t);
    if trimmed != [] {
      assert trimmed[0] == '-';
      assert !IsDigitOf(trimmed[0], 10);
    }
  }

  /** "010" reads as 8. */
  lemma AsCountOctalExample()
    ensures AsCount(YScalar("010")) == Ok(8)
  {
    assert NumeralValue("10", 8) == 8 by {
      assert "10"[..1] == "1";
    }
    AsCountOctal("10");
    assert "0" + "10" == "010";
  }

  /** "0x10" reads as 16. */
  lemma AsCountHexExample()
    ensures AsCount(YScalar("0x10")) == Ok(16)
  {
    assert NumeralValue("10", 16) == 16 by {
      assert "10"[..1] == "1";
    }
    AsCountHex("10");
    assert "0x" + "10" == "0x10";
  }

  /** "08" is a bad conversion: after the leading 0 only octal digits may follow. */
  lemma AsCountBadOctalExample()
    ensures AsCount(YScalar("08")) == Err(BadConversion)
  {
    DigitsNotTrimmed("08", 10);
    assert Numeral("08") == (8, "8");
    assert !IsDigitOf("8"[0], 8);
  }

  /** `requireNode`: the child under `key`, or the error that names the key. */
  function RequireNode(serial: map<string, Yaml>, key: string): (r: Result<Yaml>)
    ensures r.Ok? <==> key in serial
    ensures r.Ok? ==> r.value == serial[key]
    ensures r.Err? ==> r.msg == MissingKeyPrefix + key
  {
    if key in serial then Ok(serial[key]) else Err(MissingKeyPrefix + key)
  }

  /** An optional enumeration setting: converted when the key is present,
      the default otherwise. */
  function OptionalName(serial: map<string, Yaml>, key: string, names: set<string>, default: string): (r: Result<string>)
    ensures key !in serial ==> r == Ok(default)
    ensures key in serial ==> r == AsSettingName(serial[key], names)
  {
    if key in serial then AsSettingName(serial[key], names) else Ok(default)
  }

  /** The read timeout: the configured count, or 200 when absent, and never
      below 1. */
  function ReadTimeout(serial: map<string, Yaml>): (r: Result<nat>)
    ensures r.Ok? ==> r.value >= 1
    ensures "readTimeoutMS" !in serial ==> r == Ok(200)
    ensures "readTimeoutMS" in serial && AsCount(serial["readTimeoutMS"]).Ok? ==>
      r.Ok? && r.value == (if AsCount(serial["readTimeoutMS"]).value < 1 then 1
                           else AsCount(serial["readTimeoutMS"]).value)
    ensures "readTimeoutMS" in serial && AsCount(serial["readTimeoutMS"]).Err? ==> r.Err?
  {
    var v :- if "readTimeoutMS" in serial then AsCount(serial["readTimeoutMS"]) else Ok(200);
    Ok(if v < 1 then 1 else v)
  }

  /** The constructor: the `serial` map is required, then `port` and
      `baudRate`; the other settings are optional, with the defaults
      CHAR_SIZE_8, FLOW_CONTROL_NONE, PARITY_NONE, STOP_BITS_1, a 200 ms read
      timeout and the terminator "\n". The first failing step decides the
      error. `names` are the names LibSerial's enumerations accept. */
  function Configure(commConfig: Yaml, names: SettingNames): (r: Result<SerialSettings>)
    ensures r.Ok? ==> r.value.readTimeoutMs >= 1
  {
    ConfigureSerial(Child(commConfig, "serial"), names)
  }

  /** The constructor's work on the `serial` entry of the comm configuration. */
  function ConfigureSerial(serialNode: Option<Yaml>, names: SettingNames): (r: Result<SerialSettings>)
    ensures r.Ok? ==> r.value.readTimeoutMs >= 1
    ensures r.Ok? ==> r.value.baudRate in names.baudRates
  {
    if serialNode.None? || !serialNode.value.YMap? then Err(MissingSerialMap)
    else
      var serial := serialNode.value.entries;
      var portNode :- RequireNode(serial, "port");
      var port :- AsString(portNode);
      var baudNode :- RequireNode(serial, "baudRate");
      var baudRate :- AsSettingName(baudNode, names.baudRates);
      var characterSize :- OptionalName(serial, "characterSize", names.characterSizes, "CHAR_SIZE_8");
      var flowControl :- OptionalName(serial, "flowControl", names.flowControls, "FLOW_CONTROL_NONE");
      var parity :- OptionalName(serial, "parity", names.parities, "PARITY_NONE");
      var stopBits :- OptionalName(serial, "stopBits", names.stopBits, "STOP_BITS_1");
      var readTimeoutMs :- ReadTimeout(serial);
      var terminatorText :-
        if "lineTerminator" in serial then AsString(serial["lineTerminator"]) else Ok("\\n");
      Ok(SerialSettings(port, baudRate, characterSize, flowControl, parity, stopBits,
                        readTimeoutMs, ParseLineTerminator(terminatorText)))
  }

  /** The only errors of the constructor: no `serial` map, a missing
      required key, or a value that does not convert (a node of the wrong
      kind, an unknown setting name, a malformed or too large count). */
  lemma ConfigureErrors(commConfig: Yaml, names: SettingNames)
    ensures Configure(commConfig, names).Err? ==>
      Configure(commConfig, names).msg in {MissingSerialMap, BadConversion,
                                           MissingKeyPrefix + "port", MissingKeyPrefix + "baudRate"}
  {
  }

  /** Without a `serial` map under the comm configuration there is no serial
      transport. */
  lemma MissingSerialMapRejected(commConfig: Yaml, names: SettingNames)
    requires Child(commConfig, "serial").None? || !Child(commConfig, "serial").value.YMap?
    ensures Configure(commConfig, names) == Err(MissingSerialMap)
  {
  }

  /** A `serial` map without `port` is rejected naming `port`; one with a
      readable port but without `baudRate` is rejected naming `baudRate`. */
  lemma MissingRequiredKeyRejected(commConfig: Yaml, names: SettingNames)
    requires Child(commConfig, "serial").Some? && Child(commConfig, "serial").value.YMap?
    ensures var serial := Child(commConfig, "serial").value.entries;
      && ("port" !in serial ==> Configure(commConfig, names) == Err(MissingKeyPrefix + "port"))
      && ("port" in serial && AsString(serial["port"]).Ok? && "baudRate" !in serial ==>
            Configure(commConfig, names) == Err(MissingKeyPrefix + "baudRate"))
  {
  }

  /** A baud rate that is not one of the enumeration's names is a bad
      conversion, however the rest of the map looks. */
  lemma UnknownBaudRateRejected(commConfig: Yaml, names: SettingNames)
    requires Child(commConfig, "serial").Some? && Child(commConfig, "serial").value.YMap?
    requires var serial := Child(commConfig, "serial").value.entries;
      && "port" in serial && serial["port"].YScalar?
      && "baudRate" in serial && serial["baudRate"].YScalar? && serial["baudRate"].text !in names.baudRates
    ensures Configure(commConfig, names) == Err(BadConversion)
  {
  }

  /** Only `port` and `baudRate` are needed: every other setting then takes
      its default. */
  lemma DefaultsApply(commConfig: Yaml, names: SettingNames, port: string, baudRate: string)
    requires Child(commConfig, "serial") == Some(YMap(map["port" := YScalar(port), "baudRate" := YScalar(baudRate)]))
    requires baudRate in names.baudRates
    ensures Configure(commConfig, names) ==
      Ok(SerialSettings(port, baudRate, "CHAR_SIZE_8", "FLOW_CONTROL_NONE", "PARITY_NONE",
                        "STOP_BITS_1", 200, '\n'))
  {
    var serial := map["port" := YScalar(port), "baudRate" := YScalar(baudRate)];
    assert "characterSize" !in serial && "flowControl" !in serial && "parity" !in serial;
    assert "stopBits" !in serial && "readTimeoutMS" !in serial && "lineTerminator" !in serial;
  }

  /** A configured read timeout of 0 becomes 1; any other count is kept. */
  lemma ReadTimeoutAtLeastOne(serial: map<string, Yaml>, n: nat)
    requires n <= SizeMax && serial["readTimeoutMS" := YScalar(Panel.NatText(n))] == serial
    ensures ReadTimeout(serial) == Ok(if n == 0 then 1 else n)
  {
    assert "readTimeoutMS" in serial;
    AsCountOfNatText(n);
  }

  /** `describe`: the transport and its port. */
  function Describe(s: SerialSettings): (r: string)
    ensures |r| == |s.port| + 8
    ensures r[..7] == "serial(" && r[|r| - 1] == ')'
  {
    "serial(" + s.port + ")"
  }

  /** The port can be read back from the description. */
  lemma DescribeNamesPort(s: SerialSettings)
    ensures Describe(s)[7..|Describe(s)| - 1] == s.port
  {
  }

  /** A transport built from a configuration describes itself with the
      configured port text. */
  lemma DescribeOfConfigured(commConfig: Yaml, names: SettingNames)
    requires Configure(commConfig, names).Ok?
    ensures var serial := Child(commConfig, "serial").value.entries;
      && "port" in serial && serial["port"].YScalar? ==>
           Describe(Configure(commConfig, names).value) == "serial(" + serial["port"].text + ")"
  {
  }

  /** `parseLineTerminator` of the serial transport. */
  function ParseLineTerminator(token: string): (c: char)
    ensures token == "" || token == "\\n" ==> c == '\n'
    ensures token == "\\r" ==> c == '\r'
    ensures token == "\\0" ==> c == '\0'
    ensures |token| == 1 ==> c == token[0]
  {
    if token == "\\n" then '\n'
    else if token == "\\r" then '\r'
    else if token == "\\0" then '\0'
    else if token == "" then '\n'
    else token[0]
  }

  /** The serial transport reads terminators exactly as the control panel does. */
  lemma SameTerminatorAsPanel(token: string)
    ensures ParseLineTerminator(token) == Panel.ParseLineTerminator(token)
  {
  }
}
