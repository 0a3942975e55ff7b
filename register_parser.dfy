/** The AR-KD2 register-list scanner: it walks the text lines of the
    manual's register address list, recognises a record as a decimal line
    directly followed by a hexadecimal line, collects the name fragments
    that follow, and finally keeps one record per decimal index (the one
    with the longest name), sorted by decimal. */
module RegisterParser {

  /** One (decimal index, register address, name) record. */
  datatype Register = Register(dec: nat, addr: nat, name: string)

  // ---------------------------------------------------------------------
  // Characters and text helpers (Python `str` semantics)
  // ---------------------------------------------------------------------

  /** The characters for which Python's `str.isspace()` holds; `strip()`
      and `split()` remove exactly these. */
  predicate IsSpace(c: char) {
    c in {' ', '\t', '\n', '\r', '\U{000B}', '\U{000C}', '\U{001C}', '\U{001D}',
          '\U{001E}', '\U{001F}', '\U{0085}', '\U{00A0}', '\U{1680}', '\U{2000}',
          '\U{2001}', '\U{2002}', '\U{2003}', '\U{2004}', '\U{2005}', '\U{2006}',
          '\U{2007}', '\U{2008}', '\U{2009}', '\U{200A}', '\U{2028}', '\U{2029}',
          '\U{202F}', '\U{205F}', '\U{3000}'}
  }

  predicate IsDigit(c: char) { '0' <= c <= '9' }

  predicate IsHexDigit(c: char) { IsDigit(c) || 'a' <= c <= 'f' || 'A' <= c <= 'F' }

  /** A character of the regular-expression class `\w`. */
  predicate IsWordChar(c: char) { IsDigit(c) || 'a' <= c <= 'z' || 'A' <= c <= 'Z' || c == '_' }

  predicate StartsWith(s: string, prefix: string) {
    |prefix| <= |s| && s[..|prefix|] == prefix
  }

  predicate EndsWith(s: string, suffix: string) {
    |suffix| <= |s| && s[|s| - |suffix|..] == suffix
  }

  predicate HasDigit(s: string) { exists k :: 0 <= k < |s| && IsDigit(s[k]) }

  function TrimStart(s: string): (r: string)
    ensures r == [] || !IsSpace(r[0])
  {
    if s != [] && IsSpace(s[0]) then TrimStart(s[1..]) else s
  }

  function TrimEnd(s: string): (r: string)
    ensures r == [] || !IsSpace(r[|r| - 1])
    ensures |r| <= |s| && (r != [] ==> r[0] == s[0])
  {
    if s != [] && IsSpace(s[|s| - 1]) then TrimEnd(s[..|s| - 1]) else s
  }

  /** Python's `str.strip()`. */
  function Strip(s: string): (r: string)
    ensures r == [] || (!IsSpace(r[0]) && !IsSpace(r[|r| - 1]))
  {
    var t := TrimEnd(TrimStart(s));
    assert t == [] || t[0] == TrimStart(s)[0];
    t
  }

  /** Length of the longest prefix of `s` without a whitespace character. */
  function WordLength(s: string): (n: nat)
    ensures n <= |s| && (n == |s| || IsSpace(s[n]))
    ensures forall k :: 0 <= k < n ==> !IsSpace(s[k])
  {
    if s == [] || IsSpace(s[0]) then 0 else 1 + WordLength(s[1..])
  }

  /** Python's `str.split()` without arguments: the maximal runs of
      non-whitespace characters, in order. */
  function Words(s: string): (ws: seq<string>)
    ensures forall i :: 0 <= i < |ws| ==> ws[i] != [] && NoSpace(ws[i])
    decreases |s|
  {
    if s == [] then []
    else if IsSpace(s[0]) then Words(s[1..])
    else
      var n := WordLength(s);
      [s[..n]] + Words(s[n..])
  }

  predicate NoSpace(w: string) { forall k :: 0 <= k < |w| ==> !IsSpace(w[k]) }

  /** Python's `" ".join(ws)`. */
  function JoinSpace(ws: seq<string>): string {
    if ws == [] then ""
    else if |ws| == 1 then ws[0]
    else ws[0] + " " + JoinSpace(ws[1..])
  }

  /** ASCII upper-casing, which is what `str.upper()` does on a line that
      matched the hexadecimal pattern. */
  function UpperAscii(s: string): (r: string)
    ensures |r| == |s|
    ensures forall k :: 0 <= k < |s| ==> r[k] == if 'a' <= s[k] <= 'z' then (s[k] as int - 32) as char else s[k]
  {
    if s == [] then []
    else [if 'a' <= s[0] <= 'z' then (s[0] as int - 32) as char else s[0]] + UpperAscii(s[1..])
  }

  /** A name with single inner spaces, no other whitespace and no
      surrounding blanks. */
  predicate Normalized(s: string) {
    && (forall k :: 0 <= k < |s| && IsSpace(s[k]) ==> s[k] == ' ')
    && (|s| > 0 ==> s[0] != ' ' && s[|s| - 1] != ' ')
    && (forall k :: 0 < k < |s| && s[k] == ' ' ==> s[k - 1] != ' ')
  }

  // ---------------------------------------------------------------------
  // Line classification
  // ---------------------------------------------------------------------

  /** `NUM_RE`: one to five decimal digits and nothing else. */
  predicate IsNum(t: string) {
    1 <= |t| <= 5 && forall k :: 0 <= k < |t| ==> IsDigit(t[k])
  }

  /** `HEX_RE` (case-insensitive): four hexadecimal digits and an `h`. */
  predicate IsHex(t: string) {
    |t| == 5 && (forall k :: 0 <= k < 4 ==> IsHexDigit(t[k])) && (t[4] == 'h' || t[4] == 'H')
  }

  /** The `\d{3}` test of the name-collection loop. */
  predicate IsThreeDigits(t: string) {
    |t| == 3 && forall k :: 0 <= k < 3 ==> IsDigit(t[k])
  }

  /** Whether `t` is one of `ls`. */
  predicate InList(t: string, ls: seq<string>) {
    ls != [] && (t == ls[0] || InList(t, ls[1..]))
  }

  /** The exact lines `_is_header` treats as page furniture or column titles. */
  const HeaderLines: seq<string> :=
    ["Register address list", "Register address", "Name", "Description", "READ/",
     "WRITE", "Setting range", "Initial value", "Update", "Dec", "Hex",
     "6 Method of control via Modbus RTU (RS-485 communication)"]

  /** The access-letter lines of `_is_setting_line`. */
  const AccessLines: seq<string> := ["R", "W", "R/W", "A", "B", "C"]

  /** `_is_header`: page furniture and column titles. */
  predicate IsHeader(t: string) {
    || InList(t, HeaderLines)
    || StartsWith(t, "8-") || StartsWith(t, "z ") || StartsWith(t, "\U{FFFD}")
  }

  /** `\bto\b`: the word "to" standing on its own. */
  predicate HasWordTo(t: string) {
    exists k :: 0 <= k && k + 2 <= |t| && t[k] == 't' && t[k + 1] == 'o'
      && (k == 0 || !IsWordChar(t[k - 1])) && (k + 2 == |t| || !IsWordChar(t[k + 2]))
  }

  /** `_is_setting_line`: access letters, setting ranges and value lines. */
  predicate IsSettingLine(t: string) {
    || InList(t, AccessLines)
    || StartsWith(t, "Refer to") || StartsWith(t, "\U{201C}Setting range")
    || (HasWordTo(t) && HasDigit(t))
    || (|t| >= 1 && IsDigit(t[0]))
    || (|t| >= 2 && (t[0] == '+' || t[0] == '\U{2212}' || t[0] == '-') && IsDigit(t[1]))
    || ((exists k :: 0 <= k < |t| && t[k] == ':') && HasDigit(t))
    || StartsWith(t, "* ")
  }

  predicate EndsWithHalf(t: string) { EndsWith(t, "(upper)") || EndsWith(t, "(lower)") }

  function DigitValue(c: char): nat { if IsDigit(c) then c as int - '0' as int else 0 }

  function HexDigitValue(c: char): nat {
    if IsDigit(c) then c as int - '0' as int
    else if 'a' <= c <= 'f' then c as int - 'a' as int + 10
    else if 'A' <= c <= 'F' then c as int - 'A' as int + 10
    else 0
  }

  /** `int(t)` for a line of decimal digits. */
  function DecValue(t: string): nat {
    if t == [] then 0 else DecValue(t[..|t| - 1]) * 10 + DigitValue(t[|t| - 1])
  }

  /** `int(t, 16)` for a string of hexadecimal digits. */
  function HexValue(t: string): nat {
    if t == [] then 0 else HexValue(t[..|t| - 1]) * 16 + HexDigitValue(t[|t| - 1])
  }

  // ---------------------------------------------------------------------
  // Specification of the scanner
  // ---------------------------------------------------------------------

  /** What the collection loop does with a stripped line `t`, given
      whether a fragment is already held; the tests are made in the order
      of the loop body. */
  datatype Action = Blank | Stop | Skip | Append

  function Classify(t: string, held: bool): Action {
    if t == [] then Blank
    else if IsNum(t) then Stop
    else if IsHeader(t) then Skip
    else if IsSettingLine(t) && held then Stop
    else if IsThreeDigits(t) then Skip
    else Append
  }

  /** A line as the loops see it: its stripped text, what the collection
      loop does with it with no fragment held (`idle`) and with one held
      (`held`), and whether it ends in "(upper)" or "(lower)". */
  datatype Line = Line(text: string, idle: Action, held: Action, closes: bool)

  function LineOf(s: string): Line {
    var t := Strip(s);
    Line(t, Classify(t, false), Classify(t, true), EndsWithHalf(t))
  }

  /** The lines of a text, as the loops see them. */
  function Prepare(lines: seq<string>): (ls: seq<Line>)
    ensures |ls| == |lines|
  {
    if lines == [] then [] else Prepare(lines[..|lines| - 1]) + [LineOf(lines[|lines| - 1])]
  }

  lemma {:induction false} PreparedLine(lines: seq<string>, k: nat)
    requires k < |lines|
    ensures Prepare(lines)[k] == LineOf(lines[k])
  {
    if k < |lines| - 1 {
      PreparedLine(lines[..|lines| - 1], k);
    }
  }

  function ActionOf(l: Line, held: bool): Action {
    if held then l.held else l.idle
  }

  /** The name-collection loop from cursor `i` with fragments `parts`
      already held: the cursor where it stops and the fragments. */
  function Collect(ls: seq<Line>, i: nat, parts: seq<string>): (res: (nat, seq<string>))
    requires i <= |ls|
    ensures i <= res.0 <= |ls|
    decreases |ls| - i
  {
    if i == |ls| then (i, parts)
    else
      var l := ls[i];
      match ActionOf(l, parts != [])
      case Blank => if parts != [] then (i + 1, parts) else Collect(ls, i + 1, parts)
      case Stop => (i, parts)
      case Skip => Collect(ls, i + 1, parts)
      case Append => if l.closes then (i + 1, parts + [l.text]) else Collect(ls, i + 1, parts + [l.text])
  }

  /** The record name: fragments joined, whitespace runs collapsed, and
      a placeholder built from the hexadecimal line when nothing is left. */
  function NameOf(parts: seq<string>, hexLine: string): string {
    var name := JoinSpace(Words(JoinSpace(parts)));
    if name == [] then "UNKNOWN_" + UpperAscii(hexLine) else name
  }

  /** The raw records the scanning loop appends, from cursor `i` on. */
  function ScanFrom(ls: seq<Line>, i: nat): seq<Register>
    decreases |ls| - i
  {
    if i >= |ls| then []
    else
      var line := ls[i].text;
      if !IsNum(line) then ScanFrom(ls, i + 1)
      else if i + 1 >= |ls| then []
      else
        var hexLine := ls[i + 1].text;
        if !IsHex(hexLine) then ScanFrom(ls, i + 1)
        else
          var (j, parts) := Collect(ls, i + 2, []);
          [Register(DecValue(line), HexValue(hexLine[..4]), NameOf(parts, hexLine))] + ScanFrom(ls, j)
  }

  /** The raw records of a whole text. */
  function Scan(lines: seq<string>): seq<Register> {
    ScanFrom(Prepare(lines), 0)
  }

  /** The `by_dec` dictionary after the raw records `es` were folded in:
      a later record replaces an earlier one only with a strictly longer name. */
  function ByDec(es: seq<Register>): map<nat, (nat, string)> {
    if es == [] then map[]
    else
      var m := ByDec(es[..|es| - 1]);
      var e := es[|es| - 1];
      if e.dec !in m || |e.name| > |m[e.dec].1| then m[e.dec := (e.addr, e.name)] else m
  }

  predicate Ascending(ks: seq<nat>) {
    forall i, j :: 0 <= i < j < |ks| ==> ks[i] < ks[j]
  }

  lemma PrependAscending(x: nat, rest: seq<nat>)
    requires Ascending(rest) && forall y :: y in rest ==> x < y
    ensures Ascending([x] + rest)
  {
    var r := [x] + rest;
    forall i, j | 0 <= i < j < |r| ensures r[i] < r[j] {
      assert r[j] == rest[j - 1] && rest[j - 1] in rest;
      if i > 0 {
        assert r[i] == rest[i - 1];
      }
    }
  }

  /** Inserts `d` into an ascending list of keys unless it is already there. */
  function InsertKey(ks: seq<nat>, d: nat): (r: seq<nat>)
    requires Ascending(ks)
    ensures Ascending(r)
    ensures forall x :: x in r <==> x in ks || x == d
  {
    if ks == [] then [d]
    else if d < ks[0] then [d] + ks
    else if d == ks[0] then ks
    else
      assert forall x :: x in ks[1..] ==> ks[0] < x;
      var rest := InsertKey(ks[1..], d);
      assert forall x :: x in rest ==> ks[0] < x;
      PrependAscending(ks[0], rest);
      [ks[0]] + rest
  }

  /** `sorted(by_dec)`: the distinct decimals of `es` in ascending order. */
  function SortedDecs(es: seq<Register>): (ks: seq<nat>)
    ensures Ascending(ks)
    ensures forall d :: d in ks <==> d in ByDec(es)
  {
    if es == [] then []
    else InsertKey(SortedDecs(es[..|es| - 1]), es[|es| - 1].dec)
  }

  /** The list comprehension of the last line: one record per key, in the
      order of `ks`. */
  function RowsOf(m: map<nat, (nat, string)>, ks: seq<nat>): (rows: seq<Register>)
    requires forall d :: d in ks ==> d in m
    ensures |rows| == |ks|
    ensures forall i :: 0 <= i < |ks| ==> rows[i] == Register(ks[i], m[ks[i]].0, m[ks[i]].1)
  {
    if ks == [] then []
    else [Register(ks[0], m[ks[0]].0, m[ks[0]].1)] + RowsOf(m, ks[1..])
  }

  /** What `parse_registers_from_text` returns for a list of raw records. */
  function Dedup(es: seq<Register>): seq<Register> {
    RowsOf(ByDec(es), SortedDecs(es))
  }

  // ---------------------------------------------------------------------
  // The scanner as written
  // ---------------------------------------------------------------------

  /** The inner loop of the scanner: gathers name fragments from cursor
      `i` until a record boundary. */
  method CollectName(lines: seq<string>, i0: nat) returns (i: nat, parts: seq<string>)
    requires i0 <= |lines|
    ensures (i, parts) == Collect(Prepare(lines), i0, [])
  {
    ghost var ls := Prepare(lines);
    var n := |lines|;
    i := i0;
    parts := [];
    while i < n
      invariant i0 <= i <= n
      invariant Collect(ls, i, parts) == Collect(ls, i0, [])
      decreases n - i
    {
      var t := Strip(lines[i]);
      PreparedLine(lines, i);
      if t == [] {
        i := i + 1;
        if parts != [] {
          break;
        }
        continue;
      }
      if IsNum(t) {
        break;
      }
      if IsHeader(t) {
        i := i + 1;
        continue;
      }
      if IsSettingLine(t) && parts != [] {
        break;
      }
      if IsThreeDigits(t) {
        i := i + 1;
        continue;
      }
      parts := parts + [t];
      i := i + 1;
      if EndsWithHalf(t) {
        break;
      }
    }
  }

  /** The scanning pass: appends one raw record per recognised
      decimal/hexadecimal pair, in line order. */
  method ScanEntries(lines: seq<string>) returns (entries: seq<Register>)
    ensures entries == Scan(lines)
  {
    ghost var ls := Prepare(lines);
    entries := [];
    var i := 0;
    var n := |lines|;
    while i < n
      invariant 0 <= i <= n
      invariant entries + ScanFrom(ls, i) == ScanFrom(ls, 0)
      decreases n - i
    {
      var line := Strip(lines[i]);
      PreparedLine(lines, i);
      if !IsNum(line) {
        i := i + 1;
        continue;
      }
      var dec := DecValue(line);
      if i + 1 >= n {
        break;
      }
      var hexLine := Strip(lines[i + 1]);
      PreparedLine(lines, i + 1);
      if !IsHex(hexLine) {
        i := i + 1;
        continue;
      }
      var parts: seq<string>;
      i, parts := CollectName(lines, i + 2);
      var name := NameOf(parts, hexLine);
      entries := entries + [Register(dec, HexValue(hexLine[..4]), name)];
    }
  }

  /** The deduplication pass: fills `by_dec`, then lists it by ascending
      decimal. */
  method KeepLongestPerDec(entries: seq<Register>) returns (rows: seq<Register>)
    ensures rows == Dedup(entries)
  {
    var byDec: map<nat, (nat, string)> := map[];
    var k := 0;
    while k < |entries|
      invariant 0 <= k <= |entries|
      invariant byDec == ByDec(entries[..k])
    {
      var e := entries[k];
      assert entries[..k + 1][..k] == entries[..k];
      if e.dec !in byDec || |e.name| > |byDec[e.dec].1| {
        byDec := byDec[e.dec := (e.addr, e.name)];
      }
      k := k + 1;
    }
    assert entries[..k] == entries;
    rows := RowsOf(byDec, SortedDecs(entries));
  }

  /** `parse_registers_from_text`. */
  method ParseRegisters(lines: seq<string>) returns (rows: seq<Register>)
    ensures rows == Dedup(Scan(lines))
  {
    var entries := ScanEntries(lines);
    rows := KeepLongestPerDec(entries);
  }
}

/** Properties of the scanner and of the deduplication. */
module RegisterParserFacts {
  import opened RegisterParser

  // ---------------------------------------------------------------------
  // Numbers
  // ---------------------------------------------------------------------

  function Pow(b: nat, e: nat): nat {
    if e == 0 then 1 else b * Pow(b, e - 1)
  }

  /** Any string of at most `e` hexadecimal digits denotes less than 16^e. */
  lemma {:induction false} HexValueBound(t: string)
    ensures HexValue(t) < Pow(16, |t|)
  {
    if t != [] {
      var pre := t[..|t| - 1];
      HexValueBound(pre);
      assert HexValue(t) == HexValue(pre) * 16 + HexDigitValue(t[|t| - 1]);
      assert HexValue(pre) * 16 <= (Pow(16, |pre|) - 1) * 16;
    }
  }

  /** Any string of at most `e` decimal digits denotes less than 10^e. */
  lemma {:induction false} DecValueBound(t: string)
    ensures DecValue(t) < Pow(10, |t|)
  {
    if t != [] {
      var pre := t[..|t| - 1];
      DecValueBound(pre);
      assert DecValue(t) == DecValue(pre) * 10 + DigitValue(t[|t| - 1]);
      assert DecValue(pre) * 10 <= (Pow(10, |pre|) - 1) * 10;
    }
  }

  /** The register address of a record, `int(hex_line[:-1], 16)`, is a
      16-bit value, and its decimal index has at most five digits. */
  lemma RecordValueBounds(line: string, hexLine: string)
    requires IsNum(line) && IsHex(hexLine)
    ensures DecValue(line) < 100000
    ensures HexValue(hexLine[..4]) < 65536
  {
    DecValueBound(line);
    HexValueBound(hexLine[..4]);
    assert Pow(16, 4) == 65536;
    assert Pow(10, |line|) <= Pow(10, 5) == 100000 by {
      PowMonotone(10, |line|, 5);
    }
  }

  lemma {:induction false} PowMonotone(b: nat, e1: nat, e2: nat)
    requires 1 <= b && e1 <= e2
    ensures Pow(b, e1) <= Pow(b, e2)
  {
    if e2 > e1 {
      PowMonotone(b, e1, e2 - 1);
      var p := Pow(b, e2 - 1);
      assert Pow(b, e2) == b * p;
      assert p <= b * p by {
        assert b * p == p + (b - 1) * p;
      }
    }
  }

  /** The `\d{3}` skip of the collection loop can never be taken: every
      three-digit line is already a decimal line, which ends collection
      first. */
  lemma ThreeDigitLineIsDecimal(t: string)
    ensures IsThreeDigits(t) ==> IsNum(t)
  {
  }

  // ---------------------------------------------------------------------
  // Names
  // ---------------------------------------------------------------------

  /** A name fragment: a stripped, non-blank line that is neither a
      decimal line nor page furniture. */
  predicate Fragment(t: string) {
    t != [] && !IsSpace(t[0]) && !IsSpace(t[|t| - 1]) && !IsNum(t) && !IsHeader(t)
  }

  lemma {:induction false} WordsNotEmpty(s: string, k: nat)
    requires k < |s| && !IsSpace(s[k])
    ensures Words(s) != []
    decreases |s|
  {
    if IsSpace(s[0]) {
      WordsNotEmpty(s[1..], k - 1);
    }
  }

  lemma {:induction false} JoinSpaceHead(ws: seq<string>)
    requires ws != [] && ws[0] != []
    ensures JoinSpace(ws) != [] && JoinSpace(ws)[0] == ws[0][0]
  {
  }

  /** Joining non-empty, blank-free words with single spaces gives a
      normalised, non-empty text (when there is a word). */
  lemma {:induction false} JoinWordsNormalized(ws: seq<string>)
    requires forall i :: 0 <= i < |ws| ==> ws[i] != [] && NoSpace(ws[i])
    ensures Normalized(JoinSpace(ws))
    ensures ws != [] ==> JoinSpace(ws) != [] && JoinSpace(ws)[0] == ws[0][0]
    ensures ws != [] ==> JoinSpace(ws)[|JoinSpace(ws)| - 1] == ws[|ws| - 1][|ws[|ws| - 1]| - 1]
  {
    if |ws| >= 2 {
      var w := ws[0];
      var r := JoinSpace(ws[1..]);
      JoinWordsNormalized(ws[1..]);
      var s := w + " " + r;
      assert JoinSpace(ws) == s;
      forall k | 0 <= k < |s| && IsSpace(s[k]) ensures s[k] == ' ' {
        if k > |w| {
          assert s[k] == r[k - |w| - 1];
        }
      }
      forall k | 0 < k < |s| ensures s[k] == ' ' ==> s[k - 1] != ' ' {
        if k > |w| + 1 {
          assert s[k] == r[k - |w| - 1] && s[k - 1] == r[k - |w| - 2];
        } else if k == |w| + 1 {
          assert s[k] == r[0];
        }
      }
    }
  }

  /** A record's name is never empty and is always normalised; the
      placeholder is used only when no fragment was collected. */
  lemma NameWellFormed(parts: seq<string>, hexLine: string)
    requires IsHex(hexLine)
    requires forall k :: 0 <= k < |parts| ==> parts[k] != [] && !IsSpace(parts[k][0])
    ensures NameOf(parts, hexLine) != [] && Normalized(NameOf(parts, hexLine))
    ensures parts != [] ==> NameOf(parts, hexLine) == JoinSpace(Words(JoinSpace(parts)))
    ensures parts == [] ==> NameOf(parts, hexLine) == "UNKNOWN_" + UpperAscii(hexLine)
  {
    var ws := Words(JoinSpace(parts));
    JoinWordsNormalized(ws);
    if parts != [] {
      JoinSpaceHead(parts);
      WordsNotEmpty(JoinSpace(parts), 0);
    } else {
      var u := "UNKNOWN_" + UpperAscii(hexLine);
      assert forall k :: 0 <= k < |u| ==> !IsSpace(u[k]) by {
        forall k | 0 <= k < |u| ensures !IsSpace(u[k]) {
          if k >= 8 {
            assert u[k] == UpperAscii(hexLine)[k - 8];
          }
        }
      }
    }
  }

  // ---------------------------------------------------------------------
  // Name collection
  // ---------------------------------------------------------------------

  /** What a line's classification says about its text. */
  predicate WellClassified(l: Line) {
    && (IsNum(l.text) ==> l.idle == Stop && l.held == Stop)
    && (l.idle == Append ==> Fragment(l.text))
    && (l.held == Append ==> Fragment(l.text) && !IsSettingLine(l.text))
    && (l.closes <==> EndsWithHalf(l.text))
  }

  lemma PreparedWell(lines: seq<string>)
    ensures forall k :: 0 <= k < |lines| ==> WellClassified(Prepare(lines)[k])
  {
    forall k | 0 <= k < |lines| ensures WellClassified(Prepare(lines)[k]) {
      PreparedLine(lines, k);
      var t := Strip(lines[k]);
      ThreeDigitLineIsDecimal(t);
    }
  }

  /** Fragment `m` of `ps` is the text of a line in `ls[i..j]` whose
      action was Append, and one that does not close the name unless it is
      the last fragment. */
  ghost predicate FromAppendedLine(ls: seq<Line>, i: nat, j: nat, ps: seq<string>, m: nat)
    requires m < |ps|
  {
    exists k :: i <= k < j && k < |ls| && ps[m] == ls[k].text && ActionOf(ls[k], m > 0) == Append
                && (m < |ps| - 1 ==> !ls[k].closes)
  }

  /** The collection from cursor `i` holding `parts` stopped at `j` with
      `ps`: it only appended, every new fragment is from an Append line,
      and no consumed line stops collection in both states. */
  ghost predicate Appended(ls: seq<Line>, i: nat, parts: seq<string>, j: nat, ps: seq<string>) {
    && |parts| <= |ps| && ps[..|parts|] == parts
    && (forall m :: |parts| <= m < |ps| ==> FromAppendedLine(ls, i, j, ps, m))
    && (forall k :: i <= k < j && k < |ls| ==> ls[k].idle != Stop || ls[k].held != Stop)
  }

  /** A line that is skipped does not change what the rest gathers. */
  lemma SkippedLine(ls: seq<Line>, i: nat, parts: seq<string>, j: nat, ps: seq<string>)
    requires i < |ls| && ActionOf(ls[i], parts != []) != Stop
    requires Appended(ls, i + 1, parts, j, ps)
    ensures Appended(ls, i, parts, j, ps)
  {
    forall m | |parts| <= m < |ps| ensures FromAppendedLine(ls, i, j, ps, m) {
      assert FromAppendedLine(ls, i + 1, j, ps, m);
      var k :| i + 1 <= k < j && k < |ls| && ps[m] == ls[k].text && ActionOf(ls[k], m > 0) == Append
               && (m < |ps| - 1 ==> !ls[k].closes);
    }
  }

  /** A line that is appended becomes the next fragment. */
  lemma AppendedLine(ls: seq<Line>, i: nat, parts: seq<string>, j: nat, ps: seq<string>)
    requires i < |ls| && ActionOf(ls[i], parts != []) == Append && !ls[i].closes && i < j
    requires Appended(ls, i + 1, parts + [ls[i].text], j, ps)
    ensures Appended(ls, i, parts, j, ps)
  {
    var parts' := parts + [ls[i].text];
    assert ps[..|parts'|][..|parts|] == parts;
    assert ps[|parts|] == parts'[|parts|] == ls[i].text by { assert ps[..|parts'|] == parts'; }
    forall m | |parts| <= m < |ps| ensures FromAppendedLine(ls, i, j, ps, m) {
      if m == |parts| {
        assert (m > 0) == (parts != []);
        assert m < |ps| - 1 ==> !ls[i].closes;
      } else {
        assert FromAppendedLine(ls, i + 1, j, ps, m);
        var k :| i + 1 <= k < j && k < |ls| && ps[m] == ls[k].text && ActionOf(ls[k], m > 0) == Append
                 && (m < |ps| - 1 ==> !ls[k].closes);
      }
    }
  }

  /** The collection loop only appends: what was held stays, and every new
      fragment is the text of a line it consumed, taken when that line's
      action (with or without a fragment held) was Append; only the last
      fragment may close the name; and no line that stops collection in
      either state is ever consumed. */
  lemma {:induction false} CollectParts(ls: seq<Line>, i: nat, parts: seq<string>)
    requires i <= |ls|
    ensures Appended(ls, i, parts, Collect(ls, i, parts).0, Collect(ls, i, parts).1)
    decreases |ls| - i
  {
    if i < |ls| {
      var l := ls[i];
      var a := ActionOf(l, parts != []);
      if (a == Blank && parts == []) || a == Skip {
        CollectParts(ls, i + 1, parts);
        assert Collect(ls, i, parts) == Collect(ls, i + 1, parts);
        SkippedLine(ls, i, parts, Collect(ls, i, parts).0, Collect(ls, i, parts).1);
      } else if a == Append && l.closes {
        var ps := parts + [l.text];
        assert Collect(ls, i, parts) == (i + 1, ps);
        assert ps[..|parts|] == parts;
        assert FromAppendedLine(ls, i, i + 1, ps, |parts|) by {
          assert (|parts| > 0) == (parts != []);
        }
      } else if a == Append {
        var parts' := parts + [l.text];
        CollectParts(ls, i + 1, parts');
        assert Collect(ls, i, parts) == Collect(ls, i + 1, parts');
        AppendedLine(ls, i, parts, Collect(ls, i, parts).0, Collect(ls, i, parts).1);
      } else {
        assert Collect(ls, i, parts) == (if a == Blank then (i + 1, parts) else (i, parts));
      }
    }
  }

  /** What the collection loop gathers: fragments already held stay, every
      fragment is a stripped non-blank line that is not a decimal line or
      page furniture, a fragment ending in "(upper)" or "(lower)" is always
      the last one, a setting line is never a later fragment, and no
      decimal line is ever consumed. */
  lemma CollectFragments(ls: seq<Line>, i: nat, parts: seq<string>)
    requires i <= |ls|
    requires forall k :: 0 <= k < |ls| ==> WellClassified(ls[k])
    requires forall m :: 0 <= m < |parts| ==> Fragment(parts[m]) && !EndsWithHalf(parts[m])
    ensures var (j, ps) := Collect(ls, i, parts);
      && |parts| <= |ps| && ps[..|parts|] == parts
      && (forall m :: 0 <= m < |ps| ==> Fragment(ps[m]))
      && (forall m :: 0 <= m < |ps| - 1 ==> !EndsWithHalf(ps[m]))
      && (forall m :: 1 <= m < |ps| && |parts| <= m ==> !IsSettingLine(ps[m]))
      && (forall k :: i <= k < j ==> !IsNum(ls[k].text))
  {
    CollectParts(ls, i, parts);
    var (j, ps) := Collect(ls, i, parts);
    forall m | 0 <= m < |ps|
      ensures Fragment(ps[m])
      ensures m < |ps| - 1 ==> !EndsWithHalf(ps[m])
      ensures 1 <= m && |parts| <= m ==> !IsSettingLine(ps[m])
    {
      if m < |parts| {
        assert ps[m] == ps[..|parts|][m];
      } else {
        assert FromAppendedLine(ls, i, j, ps, m);
        var k :| i <= k < j && k < |ls| && ps[m] == ls[k].text && ActionOf(ls[k], m > 0) == Append
                 && (m < |ps| - 1 ==> !ls[k].closes);
        assert WellClassified(ls[k]);
      }
    }
    forall k | i <= k < j ensures !IsNum(ls[k].text) {
      assert WellClassified(ls[k]);
    }
  }

  /** The loop stops in front of a line (leaving it unconsumed) exactly
      when the line is a decimal line, or a setting line that is not page
      furniture while a fragment is held. */
  lemma StopMeans(t: string, held: bool)
    ensures Classify(t, held) == Stop <==> t != [] && (IsNum(t) || (held && !IsHeader(t) && IsSettingLine(t)))
  {
  }

  /** Why collection stops: at the end of the input, in front of a line
      whose action is Stop (which is left unconsumed), or just after
      consuming a blank or closing line with a fragment held. */
  lemma {:induction false} CollectStops(ls: seq<Line>, i: nat, parts: seq<string>)
    requires i <= |ls|
    ensures var (j, ps) := Collect(ls, i, parts);
      || j == |ls|
      || ActionOf(ls[j], ps != []) == Stop
      || (ps != [] && i < j && (ls[j - 1].held == Blank || ls[j - 1].closes))
    decreases |ls| - i
  {
    if i < |ls| {
      var l := ls[i];
      match ActionOf(l, parts != [])
      case Blank =>
        if parts == [] {
          CollectStops(ls, i + 1, parts);
          assert Collect(ls, i, parts) == Collect(ls, i + 1, parts);
        } else {
          assert ls[(i + 1) - 1] == l;
        }
      case Stop =>
      case Skip =>
        CollectStops(ls, i + 1, parts);
        assert Collect(ls, i, parts) == Collect(ls, i + 1, parts);
      case Append =>
        if !l.closes {
          CollectStops(ls, i + 1, parts + [l.text]);
          assert Collect(ls, i, parts) == Collect(ls, i + 1, parts + [l.text]);
        } else {
          assert ls[(i + 1) - 1] == l;
        }
    }
  }

  /** A setting or access line that is not page furniture is treated
      according to the state: with no fragment held it becomes a fragment
      (it starts the name), with one held it ends the record. */
  lemma ClassifySettingLine(t: string)
    requires t != [] && !IsNum(t) && !IsHeader(t) && IsSettingLine(t)
    ensures Classify(t, false) == Append && Classify(t, true) == Stop
  {
    ThreeDigitLineIsDecimal(t);
  }

  // ---------------------------------------------------------------------
  // Scanning
  // ---------------------------------------------------------------------

  /** Every raw record comes from a record start at or after the cursor —
      a decimal line directly followed by a hexadecimal line: its decimal
      is the value of the decimal line, its address is the value of the
      four hexadecimal digits (so below 65536), and its name is non-empty
      and normalised. */
  lemma {:induction false} ScanSound(ls: seq<Line>, i: nat)
    requires forall k :: 0 <= k < |ls| ==> WellClassified(ls[k])
    ensures forall e :: e in ScanFrom(ls, i) ==>
      && e.dec < 100000 && e.addr < 65536
      && e.name != [] && Normalized(e.name)
      && exists j :: i <= j && j + 1 < |ls| && IsNum(ls[j].text) && IsHex(ls[j + 1].text)
                     && e.dec == DecValue(ls[j].text)
                     && e.addr == HexValue(ls[j + 1].text[..4])
    decreases |ls| - i
  {
    if i < |ls| {
      var line := ls[i].text;
      if !IsNum(line) {
        ScanSound(ls, i + 1);
      } else if i + 1 < |ls| {
        var hexLine := ls[i + 1].text;
        if !IsHex(hexLine) {
          ScanSound(ls, i + 1);
        } else {
          var (j, parts) := Collect(ls, i + 2, []);
          CollectFragments(ls, i + 2, []);
          NameWellFormed(parts, hexLine);
          RecordValueBounds(line, hexLine);
          ScanSound(ls, j);
        }
      }
    }
  }

  lemma {:induction false} PreparedText(lines: seq<string>, k: nat)
    requires k < |lines|
    ensures Prepare(lines)[k].text == Strip(lines[k])
  {
    PreparedLine(lines, k);
  }

  /** `ScanSound` for a whole text: every raw record comes from a decimal
      line of the text directly followed by a hexadecimal line, with the
      decimal of the one and the address of the other. */
  lemma ScanLinesSound(lines: seq<string>)
    ensures forall e :: e in Scan(lines) ==>
      && e.addr < 65536 && e.name != [] && Normalized(e.name)
      && exists j :: 0 <= j && j + 1 < |lines| && IsNum(Strip(lines[j])) && IsHex(Strip(lines[j + 1]))
                     && e.dec == DecValue(Strip(lines[j]))
                     && e.addr == HexValue(Strip(lines[j + 1])[..4])
  {
    var ls := Prepare(lines);
    PreparedWell(lines);
    ScanSound(ls, 0);
    forall e | e in ScanFrom(ls, 0)
      ensures exists j :: 0 <= j && j + 1 < |lines| && IsNum(Strip(lines[j])) && IsHex(Strip(lines[j + 1]))
                          && e.dec == DecValue(Strip(lines[j]))
                          && e.addr == HexValue(Strip(lines[j + 1])[..4])
    {
      var r :| 0 <= r && r + 1 < |ls| && IsNum(ls[r].text) && IsHex(ls[r + 1].text)
               && e.dec == DecValue(ls[r].text) && e.addr == HexValue(ls[r + 1].text[..4]);
      PreparedText(lines, r);
      PreparedText(lines, r + 1);
    }
  }

  /** A record start: a decimal line directly followed by a hexadecimal line. */
  predicate RecordStart(ls: seq<Line>, k: nat) {
    k + 1 < |ls| && IsNum(ls[k].text) && IsHex(ls[k + 1].text)
  }

  /** Completeness of the scan: from any cursor, the lines before the
      first record start `k` yield nothing, the record start yields the
      record with the decimal of its first line, the address of the four
      hexadecimal digits of its second line and the name collected after
      it, and the scan resumes where that collection stopped. */
  lemma {:induction false} ScanComplete(ls: seq<Line>, i: nat, k: nat)
    requires i <= k && RecordStart(ls, k)
    requires forall j :: i <= j < k ==> !RecordStart(ls, j)
    ensures var (next, parts) := Collect(ls, k + 2, []);
      ScanFrom(ls, i) == [Register(DecValue(ls[k].text), HexValue(ls[k + 1].text[..4]), NameOf(parts, ls[k + 1].text))]
                         + ScanFrom(ls, next)
    decreases k - i
  {
    if i < k {
      assert !RecordStart(ls, i);
      ScanComplete(ls, i + 1, k);
    }
  }

  /** Lines without a record start yield no record. */
  lemma {:induction false} ScanNothing(ls: seq<Line>, i: nat)
    requires forall j :: i <= j < |ls| ==> !RecordStart(ls, j)
    ensures ScanFrom(ls, i) == []
    decreases |ls| - i
  {
    if i < |ls| {
      assert !RecordStart(ls, i);
      ScanNothing(ls, i + 1);
    }
  }

  /** `ScanComplete` for a whole text: the first decimal line of the text
      directly followed by a hexadecimal line gives the first raw record,
      and its decimal is among the decimals of the parser's result. */
  lemma ParseRegistersComplete(lines: seq<string>, k: nat)
    requires k + 1 < |lines| && IsNum(Strip(lines[k])) && IsHex(Strip(lines[k + 1]))
    requires forall j :: 0 <= j < k ==> !(IsNum(Strip(lines[j])) && IsHex(Strip(lines[j + 1])))
    ensures var (next, parts) := Collect(Prepare(lines), k + 2, []);
      && Scan(lines) != []
      && Scan(lines)[0] == Register(DecValue(Strip(lines[k])), HexValue(Strip(lines[k + 1])[..4]),
                                    NameOf(parts, Strip(lines[k + 1])))
    ensures exists r :: r in Dedup(Scan(lines)) && r.dec == DecValue(Strip(lines[k]))
  {
    var ls := Prepare(lines);
    PreparedText(lines, k);
    PreparedText(lines, k + 1);
    forall j | 0 <= j < k ensures !RecordStart(ls, j) {
      PreparedText(lines, j);
      PreparedText(lines, j + 1);
    }
    ScanComplete(ls, 0, k);
    var es := Scan(lines);
    DedupDecs(es);
    assert es[0] in es;
    assert DecValue(Strip(lines[k])) in Decs(Dedup(es));
  }

  // ---------------------------------------------------------------------
  // Deduplication
  // ---------------------------------------------------------------------

  /** The record `by_dec` keeps for decimal `d` is the earliest raw record
      for `d` among those with the longest name. */
  predicate EarliestLongest(es: seq<Register>, d: nat, j: int) {
    && 0 <= j < |es| && es[j].dec == d
    && (forall k :: 0 <= k < |es| && es[k].dec == d ==> |es[k].name| <= |es[j].name|)
    && (forall k :: 0 <= k < j && es[k].dec == d ==> |es[k].name| < |es[j].name|)
  }

  lemma {:induction false} ByDecWinner(es: seq<Register>, d: nat)
    ensures d in ByDec(es) <==> exists k :: 0 <= k < |es| && es[k].dec == d
    ensures d in ByDec(es) ==> exists j :: EarliestLongest(es, d, j) && ByDec(es)[d] == (es[j].addr, es[j].name)
  {
    if es != [] {
      var pre := es[..|es| - 1];
      var e := es[|es| - 1];
      ByDecWinner(pre, d);
      var m := ByDec(pre);
      assert forall k :: 0 <= k < |pre| ==> pre[k] == es[k];
      if d in ByDec(es) {
        if e.dec == d && (d !in m || |e.name| > |m[d].1|) {
          if d in m {
            var j :| EarliestLongest(pre, d, j) && m[d] == (pre[j].addr, pre[j].name);
            assert EarliestLongest(es, d, |es| - 1);
          } else {
            assert EarliestLongest(es, d, |es| - 1);
          }
        } else {
          var j :| EarliestLongest(pre, d, j) && m[d] == (pre[j].addr, pre[j].name);
          assert EarliestLongest(es, d, j);
        }
      }
    }
  }

  /** The decimal indices of a list of records. */
  function Decs(es: seq<Register>): set<nat> {
    set e | e in es :: e.dec
  }

  /** The result of `parse_registers_from_text` lists each decimal of the
      raw records exactly once, strictly ascending, each with the address
      and name of the earliest record of maximal name length. */
  lemma DedupCorrect(es: seq<Register>)
    ensures var rows := Dedup(es);
      && (forall i, j :: 0 <= i < j < |rows| ==> rows[i].dec < rows[j].dec)
      && Decs(rows) == Decs(es)
      && (forall i :: 0 <= i < |rows| ==> exists j :: EarliestLongest(es, rows[i].dec, j)
                                            && rows[i].addr == es[j].addr && rows[i].name == es[j].name)
  {
    DedupDecs(es);
    DedupWinners(es);
  }

  lemma DedupDecs(es: seq<Register>)
    ensures Decs(Dedup(es)) == Decs(es)
  {
    var rows := Dedup(es);
    var ks := SortedDecs(es);
    forall d ensures d in Decs(rows) <==> d in Decs(es) {
      ByDecWinner(es, d);
      if d in ks {
        var i :| 0 <= i < |ks| && ks[i] == d;
        assert rows[i].dec == d && rows[i] in rows;
      }
      if d in Decs(es) {
        var e :| e in es && e.dec == d;
        var k :| 0 <= k < |es| && es[k] == e;
      }
    }
  }

  lemma DedupWinners(es: seq<Register>)
    ensures var rows := Dedup(es);
      forall i :: 0 <= i < |rows| ==> exists j :: EarliestLongest(es, rows[i].dec, j)
                                       && rows[i].addr == es[j].addr && rows[i].name == es[j].name
  {
    var rows := Dedup(es);
    forall i | 0 <= i < |rows| ensures exists j :: EarliestLongest(es, rows[i].dec, j)
                                          && rows[i].addr == es[j].addr && rows[i].name == es[j].name {
      DedupWinner(es, i);
    }
  }

  lemma DedupWinner(es: seq<Register>, i: nat)
    requires i < |Dedup(es)|
    ensures var row := Dedup(es)[i];
      exists j :: EarliestLongest(es, row.dec, j) && row.addr == es[j].addr && row.name == es[j].name
  {
    var ks := SortedDecs(es);
    var m := ByDec(es);
    ByDecWinner(es, ks[i]);
    assert Dedup(es)[i] == Register(ks[i], m[ks[i]].0, m[ks[i]].1);
  }

  /** `r` takes its decimal from a decimal line of `lines` and its address
      from the hexadecimal line directly after it. */
  predicate FromRecordLines(lines: seq<string>, r: Register) {
    exists j :: 0 <= j && j + 1 < |lines| && IsNum(Strip(lines[j])) && IsHex(Strip(lines[j + 1]))
                && r.dec == DecValue(Strip(lines[j]))
                && r.addr == HexValue(Strip(lines[j + 1])[..4])
  }

  /** The whole parser: sorted unique decimals, each taken from a decimal
      line directly followed by a hexadecimal line, with the address of
      that hexadecimal line (so below 65536) and a non-empty normalised name. */
  lemma ParseRegistersCorrect(lines: seq<string>)
    ensures var rows := Dedup(Scan(lines));
      && (forall i, j :: 0 <= i < j < |rows| ==> rows[i].dec < rows[j].dec)
      && (forall i :: 0 <= i < |rows| ==> rows[i].addr < 65536 && rows[i].name != [] && Normalized(rows[i].name))
      && (forall i :: 0 <= i < |rows| ==> FromRecordLines(lines, rows[i]))
  {
    var rows := Dedup(Scan(lines));
    DedupCorrect(Scan(lines));
    forall i | 0 <= i < |rows|
      ensures rows[i].addr < 65536 && rows[i].name != [] && Normalized(rows[i].name)
      ensures FromRecordLines(lines, rows[i])
    {
      ParsedRowSound(lines, i);
    }
  }

  /** One row of the parser's result, as `ParseRegistersCorrect` states it. */
  lemma ParsedRowSound(lines: seq<string>, i: nat)
    requires i < |Dedup(Scan(lines))|
    ensures var row := Dedup(Scan(lines))[i];
      row.addr < 65536 && row.name != [] && Normalized(row.name) && FromRecordLines(lines, row)
  {
    var es := Scan(lines);
    DedupWinner(es, i);
    ScanLinesSound(lines);
    var row := Dedup(es)[i];
    var j :| EarliestLongest(es, row.dec, j) && row.addr == es[j].addr && row.name == es[j].name;
    assert es[j] in es;
  }

  /** Inserting a key larger than every key appends it. */
  lemma {:induction false} InsertKeyLast(ks: seq<nat>, d: nat)
    requires Ascending(ks) && forall x :: x in ks ==> x < d
    ensures InsertKey(ks, d) == ks + [d]
  {
    if ks != [] {
      assert ks[0] in ks && ks[0] < d;
      var rest := ks[1..];
      assert Ascending(rest) by {
        forall i, j | 0 <= i < j < |rest| ensures rest[i] < rest[j] {
          assert rest[i] == ks[i + 1] && rest[j] == ks[j + 1];
        }
      }
      assert forall x :: x in rest ==> x in ks;
      InsertKeyLast(rest, d);
      assert InsertKey(ks, d) == [ks[0]] + InsertKey(rest, d);
      assert [ks[0]] + (rest + [d]) == ks + [d];
    }
  }

  /** On records with strictly ascending decimals, `sorted(by_dec)` lists
      their decimals in the same order. */
  lemma {:induction false} SortedDecsOfAscending(rows: seq<Register>)
    requires forall i, j :: 0 <= i < j < |rows| ==> rows[i].dec < rows[j].dec
    ensures |SortedDecs(rows)| == |rows|
    ensures forall i :: 0 <= i < |rows| ==> SortedDecs(rows)[i] == rows[i].dec
  {
    if rows != [] {
      var pre := rows[..|rows| - 1];
      var d := rows[|rows| - 1].dec;
      assert forall i :: 0 <= i < |pre| ==> pre[i] == rows[i];
      SortedDecsOfAscending(pre);
      var ks := SortedDecs(pre);
      forall x | x in ks ensures x < d {
        var i :| 0 <= i < |ks| && ks[i] == x;
        assert ks[i] == rows[i].dec;
      }
      InsertKeyLast(ks, d);
      assert SortedDecs(rows) == ks + [d];
    }
  }

  /** Deduplication leaves records with strictly ascending decimals as
      they are. */
  lemma DedupOfAscending(rows: seq<Register>)
    requires forall i, j :: 0 <= i < j < |rows| ==> rows[i].dec < rows[j].dec
    ensures Dedup(rows) == rows
  {
    SortedDecsOfAscending(rows);
    var ks := SortedDecs(rows);
    var m := ByDec(rows);
    forall i | 0 <= i < |rows| ensures Dedup(rows)[i] == rows[i] {
      ByDecWinner(rows, rows[i].dec);
      var j :| EarliestLongest(rows, rows[i].dec, j) && m[rows[i].dec] == (rows[j].addr, rows[j].name);
      assert j == i;
    }
  }

  /** Deduplicating the parser's result again changes nothing. */
  lemma DedupIdempotent(es: seq<Register>)
    ensures Dedup(Dedup(es)) == Dedup(es)
  {
    DedupCorrect(es);
    DedupOfAscending(Dedup(es));
  }
}
