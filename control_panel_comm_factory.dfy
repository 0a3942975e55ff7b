/*
 * The choice of the control panel's transport from the `type` entry of its
 * `comm` configuration. The type is compared case-insensitively; "serial"
 * builds the serial transport, the TCP spellings are known but refused as not
 * implemented, and anything else is unsupported.
 */
module CommFactory {
  import opened Wrappers
  import opened Common
  import SerialComm

  /** `std::tolower` in the C locale: only 'A'..'Z' change. */
  function LowerChar(c: char): (r: char)
    ensures 'A' <= c <= 'Z' ==> r as int == c as int + 32
    ensures !('A' <= c <= 'Z') ==> r == c
  {
    if 'A' <= c <= 'Z' then (c as int + 32) as char else c
  }

  /** `toLower`: every character lowered. */
  function ToLower(s: string): (r: string)
    ensures |r| == |s|
    ensures forall i :: 0 <= i < |s| ==> r[i] == LowerChar(s[i])
  {
    if s == [] then [] else [LowerChar(s[0])] + ToLower(s[1..])
  }

  /** Lowering twice is lowering once, and text without upper-case letters
      is left as it is. */
  lemma ToLowerIdempotent(s: string)
    ensures ToLower(ToLower(s)) == ToLower(s)
    ensures (forall i :: 0 <= i < |s| ==> !('A' <= s[i] <= 'Z')) ==> ToLower(s) == s
  {
  }

  const MissingType := "ControlPanel comm config must define scalar 'type'."
  const TcpNotImplemented := "ControlPanel transport 'tcp' is not implemented yet."
  const UnsupportedPrefix := "Unsupported ControlPanel transport '"

  /** The error for a transport nobody implements, quoting the type as
      configured. */
  function Unsupported(transport: string): string
  {
    UnsupportedPrefix + transport + "'"
  }

  /** The names under which the TCP transport is known. */
  predicate IsTcpName(normalized: string)
  {
    normalized == "tcp" || normalized == "socket" || normalized == "tcpsocket"
  }

  /** `makeControlPanelComm`: the transport the configuration selects, or
      the error that refuses it (`names` are the names LibSerial's
      enumerations accept). */
  function MakeControlPanelComm(commConfig: Yaml, names: SerialComm.SettingNames): (r: Result<SerialComm.SerialSettings>)
    ensures r.Ok? ==> Child(commConfig, "type").Some? && Child(commConfig, "type").value.YScalar?
                      && ToLower(Child(commConfig, "type").value.text) == "serial"
    ensures r.Ok? ==> r == SerialComm.Configure(commConfig, names)
  {
    var transportNode := Child(commConfig, "type");
    if transportNode.None? || !transportNode.value.YScalar? then Err(MissingType)
    else
      var transport := transportNode.value.text;
      var normalized := ToLower(transport);
      if normalized == "serial" then SerialComm.Configure(commConfig, names)
      else if IsTcpName(normalized) then Err(TcpNotImplemented)
      else Err(Unsupported(transport))
  }

  /** A missing or non-scalar `type` is refused before anything else, and
      only then is this error given. */
  lemma TypeMustBeScalar(commConfig: Yaml, names: SerialComm.SettingNames)
    ensures (Child(commConfig, "type").None? || !Child(commConfig, "type").value.YScalar?)
            <==> MakeControlPanelComm(commConfig, names) == Err(MissingType)
  {
    var t := Child(commConfig, "type");
    if t.Some? && t.value.YScalar? {
      var normalized := ToLower(t.value.text);
      if normalized == "serial" {
        SerialComm.ConfigureErrors(commConfig, names);
        assert |MissingType| == 51;
      } else if IsTcpName(normalized) {
        assert |TcpNotImplemented| != |MissingType|;
      } else {
        var m := Unsupported(t.value.text);
        assert m[|m| - 1] == '\'' && MissingType[|MissingType| - 1] == '.';
      }
    }
  }

  /** With a scalar `type`, case does not matter for the choice: the
      configuration behaves as if the type were written in lower case,
      except that an unsupported type is quoted as written. */
  lemma TypeIsCaseInsensitive(commConfig: Yaml, names: SerialComm.SettingNames, transport: string)
    requires commConfig.YMap? && "type" in commConfig.entries
    requires commConfig.entries["type"] == YScalar(transport)
    ensures var lowered := YMap(commConfig.entries["type" := YScalar(ToLower(transport))]);
      && (ToLower(transport) == "serial" ==>
            MakeControlPanelComm(commConfig, names) == MakeControlPanelComm(lowered, names))
      && (IsTcpName(ToLower(transport)) ==>
            MakeControlPanelComm(commConfig, names) == MakeControlPanelComm(lowered, names) == Err(TcpNotImplemented))
      && (ToLower(transport) != "serial" && !IsTcpName(ToLower(transport)) ==>
            && MakeControlPanelComm(commConfig, names) == Err(Unsupported(transport))
            && MakeControlPanelComm(lowered, names) == Err(Unsupported(ToLower(transport))))
  {
    ToLowerIdempotent(transport);
    var lowered := YMap(commConfig.entries["type" := YScalar(ToLower(transport))]);
    assert Child(lowered, "serial") == Child(commConfig, "serial");
  }

  /** "SeRiAl" selects the serial transport. */
  lemma MixedCaseSerialSelected(commConfig: Yaml, names: SerialComm.SettingNames)
    requires Child(commConfig, "type") == Some(YScalar("SeRiAl"))
    ensures MakeControlPanelComm(commConfig, names) == SerialComm.Configure(commConfig, names)
  {
    assert ToLower("SeRiAl") == "serial";
  }

  /** The unsupported-transport error carries the type exactly as written. */
  lemma UnsupportedQuotesType(transport: string)
    ensures var m := Unsupported(transport);
      |m| == |UnsupportedPrefix| + |transport| + 1 && m[|UnsupportedPrefix|..|m| - 1] == transport
  {
  }
}
