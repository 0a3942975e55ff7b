/*
 * The control panel: three joysticks, each reporting two axes and a button,
 * arrive as text lines "x0 y0 b0 x1 y1 b1 x2 y2 b2". An accepted line feeds
 * the baseline estimate (the resting position of each axis, averaged over the
 * first lines), a moving-average window per axis, and a debouncer per button;
 * the published state is each axis's filtered offset from its baseline,
 * scaled to -1..1, and each button's debounced value.
 *
 * Axis readings are integers 0..1023, so their sums are exact. The baseline
 * means and the published axis values are computed over reals here; the
 * system computes them in floating point.
 */
module Panel {
  import opened Wrappers

  // ----- Line text -----

  /** The characters `std::isspace` accepts in the C locale. */
  predicate IsSpace(c: char)
  {
    c == ' ' || c == '\t' || c == '\n' || c == '\U{B}' || c == '\U{C}' || c == '\r'
  }

  /** Length of the run of non-space characters that starts `s`. */
  function WordLength(s: string): (n: nat)
    ensures n <= |s|
    ensures forall i :: 0 <= i < n ==> !IsSpace(s[i])
    ensures n < |s| ==> IsSpace(s[n])
  {
    if s == [] || IsSpace(s[0]) then 0 else 1 + WordLength(s[1..])
  }

  /** The whitespace-separated words of `s`, as repeated `>>` into strings
      reads them. */
  function Words(s: string): (r: seq<string>)
    ensures forall k :: 0 <= k < |r| ==> |r[k]| > 0
    ensures forall k, i :: 0 <= k < |r| && 0 <= i < |r[k]| ==> !IsSpace(r[k][i])
    decreases |s|
  {
    if s == [] then []
    else if IsSpace(s[0]) then Words(s[1..])
    else
      var n := WordLength(s);
      [s[..n]] + Words(s[n..])
  }

  /** Words joined with a single space after each one. */
  function Unwords(ws: seq<string>): string
  {
    if ws == [] then "" else ws[0] + " " + Unwords(ws[1..])
  }

  lemma WordLengthOfWord(w: string, rest: string)
    requires forall i :: 0 <= i < |w| ==> !IsSpace(w[i])
    requires |rest| > 0 && IsSpace(rest[0])
    ensures WordLength(w + rest) == |w|
    decreases |w|
  {
    if w != [] {
      assert (w + rest)[1..] == w[1..] + rest;
      WordLengthOfWord(w[1..], rest);
    } else {
      assert w + rest == rest;
    }
  }

  /** Splitting words that were joined by spaces gives them back. */
  lemma {:induction false} WordsOfUnwords(ws: seq<string>)
    requires forall k :: 0 <= k < |ws| ==> |ws[k]| > 0
    requires forall k, i :: 0 <= k < |ws| && 0 <= i < |ws[k]| ==> !IsSpace(ws[k][i])
    ensures Words(Unwords(ws)) == ws
  {
    if ws != [] {
      var w, rest := ws[0], Unwords(ws[1..]);
      assert Unwords(ws) == w + (" " + rest);
      WordLengthOfWord(w, " " + rest);
      var s := w + (" " + rest);
      assert s[..|w|] == w;
      assert s[|w|..] == " " + rest;
      assert (" " + rest)[1..] == rest;
      WordsOfUnwords(ws[1..]);
      assert Words(s) == [w] + Words(s[|w|..]);
    }
  }

  // ----- Integer conversion, as `std::stoi` does it -----

  predicate IsDigit(c: char) { '0' <= c <= '9' }

  function DigitChar(d: nat): char
    requires d < 10
  {
    ('0' as int + d) as char
  }

  /** The longest prefix of digits. */
  function LeadingDigits(s: string): (r: string)
    ensures forall i :: 0 <= i < |r| ==> IsDigit(r[i])
  {
    if s != [] && IsDigit(s[0]) then [s[0]] + LeadingDigits(s[1..]) else []
  }

  /** The value of a string of decimal digits. */
  function DigitsValue(ds: string): nat
    requires forall i :: 0 <= i < |ds| ==> IsDigit(ds[i])
  {
    if ds == [] then 0
    else 10 * DigitsValue(ds[..|ds| - 1]) + DigitValue(ds[|ds| - 1])
  }

  function DigitValue(c: char): nat
    requires IsDigit(c)
  {
    c as int - '0' as int
  }

  /** The decimal text of a natural number, without leading zeros. */
  function NatText(n: nat): (r: string)
    ensures |r| > 0 && forall i :: 0 <= i < |r| ==> IsDigit(r[i])
  {
    if n < 10 then [DigitChar(n)] else NatText(n / 10) + [DigitChar(n % 10)]
  }

  const IntMin := -0x8000_0000
  const IntMax := 0x7FFF_FFFF

  /** `std::stoi`: after leading white space, an optional sign and at least
      one digit; what follows the digits is ignored. No digits, or a value
      outside the 32-bit `int` range, is an error (none). */
  function Stoi(token: string): (r: Option<int>)
    ensures r.Some? ==> IntMin <= r.value <= IntMax
  {
    var s := SkipSpace(token);
    if s != [] && s[0] == '-' then InIntRange(SignedValue(true, s[1..]))
    else if s != [] && s[0] == '+' then InIntRange(SignedValue(false, s[1..]))
    else InIntRange(SignedValue(false, s))
  }

  /** The value of the digits that start `s`, negated when `negative`; none
      without digits. */
  function SignedValue(negative: bool, s: string): Option<int>
  {
    var digits := LeadingDigits(s);
    if digits == [] then None
    else if negative then Some(-(DigitsValue(digits) as int))
    else Some(DigitsValue(digits))
  }

  function InIntRange(v: Option<int>): (r: Option<int>)
    ensures r.Some? ==> IntMin <= r.value <= IntMax
  {
    if v.Some? && IntMin <= v.value <= IntMax then v else None
  }

  function SkipSpace(s: string): string
  {
    if s != [] && IsSpace(s[0]) then SkipSpace(s[1..]) else s
  }

  /** The digits `std::stoi` reads are the longest run of digits that starts
      the text, after the leading white space, which is all that is skipped. */
  lemma {:induction false} LeadingDigitsSpec(s: string)
    ensures var r := LeadingDigits(s);
      && |r| <= |s| && r == s[..|r|]
      && (|r| < |s| ==> !IsDigit(s[|r|]))
    ensures var r := SkipSpace(s);
      && |r| <= |s| && r == s[|s| - |r|..]
      && (r == [] || !IsSpace(r[0]))
      && forall i :: 0 <= i < |s| - |r| ==> IsSpace(s[i])
  {
    if s != [] {
      LeadingDigitsSpec(s[1..]);
    }
  }

  lemma {:induction false} DigitsValueOfNatText(n: nat)
    ensures DigitsValue(NatText(n)) == n
  {
    if n >= 10 {
      var t := NatText(n);
      assert t[..|t| - 1] == NatText(n / 10);
      DigitsValueOfNatText(n / 10);
    }
  }

  lemma {:induction false} LeadingDigitsOfDigits(s: string)
    requires forall i :: 0 <= i < |s| ==> IsDigit(s[i])
    ensures LeadingDigits(s) == s
  {
    if s != [] {
      LeadingDigitsOfDigits(s[1..]);
    }
  }

  /** A non-empty string of digits reads as its value when that fits. */
  lemma StoiOfDigits(t: string)
    requires t != [] && forall i :: 0 <= i < |t| ==> IsDigit(t[i])
    requires DigitsValue(t) <= IntMax
    ensures Stoi(t) == Some(DigitsValue(t))
  {
    assert !IsSpace(t[0]) && t[0] != '-' && t[0] != '+' by { assert IsDigit(t[0]); }
    assert SkipSpace(t) == t;
    LeadingDigitsOfDigits(t);
  }

  /** `std::stoi` reads back the decimal text of any `int`-sized natural. */
  lemma StoiOfNatText(n: nat)
    requires n <= IntMax
    ensures Stoi(NatText(n)) == Some(n)
  {
    DigitsValueOfNatText(n);
    StoiOfDigits(NatText(n));
  }

  /** Text after the digits is ignored. */
  lemma StoiIgnoresTrailingText(digits: string, rest: string)
    requires digits != [] && forall i :: 0 <= i < |digits| ==> IsDigit(digits[i])
    requires rest == [] || !IsDigit(rest[0])
    ensures Stoi(digits + rest) == Stoi(digits)
  {
    var t := digits + rest;
    assert t[0] == digits[0];
    assert IsDigit(t[0]) && IsDigit(digits[0]);
    assert SkipSpace(t) == t && SkipSpace(digits) == digits;
    LeadingDigitsOfDigitsThen(digits, rest);
    LeadingDigitsOfDigits(digits);
  }

  lemma {:induction false} LeadingDigitsOfDigitsThen(digits: string, rest: string)
    requires forall i :: 0 <= i < |digits| ==> IsDigit(digits[i])
    requires rest == [] || !IsDigit(rest[0])
    ensures LeadingDigits(digits + rest) == digits
  {
    if digits == [] {
      assert digits + rest == rest;
    } else {
      assert (digits + rest)[1..] == digits[1..] + rest;
      LeadingDigitsOfDigitsThen(digits[1..], rest);
    }
  }

  /** "12ab" reads as 12. */
  lemma StoiTrailingTextExample()
    ensures Stoi("12ab") == Some(12)
  {
    assert NatText(12) == "12";
    StoiOfNatText(12);
    StoiIgnoresTrailingText("12", "ab");
    assert "12" + "ab" == "12ab";
  }

  /** A leading minus sign negates the value. */
  lemma StoiReadsSign()
    ensures Stoi("-7") == Some(-7)
  {
    var t := "-7";
    assert SkipSpace(t) == t;
    assert t[1..] == "7";
    assert LeadingDigits("7") == "7" by { assert "7"[1..] == ""; }
  }

  /** Text without digits is refused. */
  lemma StoiRefusesNonNumbers()
    ensures Stoi("abc") == None
    ensures Stoi("-") == None
  {
    assert SkipSpace("abc") == "abc";
    assert LeadingDigits("abc") == [];
    assert SkipSpace("-") == "-";
    assert "-"[1..] == "";
    assert LeadingDigits("") == [];
  }

  // ----- Validation of a line -----

  /** One joystick's reading: two axis values 0..1023 and the button. */
  datatype Reading = Reading(x: int, y: int, pressed: bool)

  predicate InAxisRange(v: int) { 0 <= v <= 1023 }

  /** Joystick `i`'s reading from tokens 3i, 3i+1 and 3i+2, or none when a
      token is not a number, an axis is outside 0..1023 or the button is
      neither 0 nor 1. */
  function ReadingAt(tokens: seq<string>, i: nat): (r: Option<Reading>)
    requires i < 3 && |tokens| >= 9
  {
    var xv, yv, bv := Stoi(tokens[3 * i]), Stoi(tokens[3 * i + 1]), Stoi(tokens[3 * i + 2]);
    if xv.None? || yv.None? || bv.None? then None
    else if !InAxisRange(xv.value) || !InAxisRange(yv.value) || (bv.value != 0 && bv.value != 1) then None
    else Some(Reading(xv.value, yv.value, bv.value == 1))
  }

  /** The three readings of a line, or none when the line has fewer than nine
      words or any joystick's words are invalid. Words after the ninth are
      ignored. */
  function ParseLine(line: string): (r: Option<seq<Reading>>)
    ensures r.Some? ==> |r.value| == 3
    ensures |Words(line)| < 9 ==> r.None?
  {
    ParseWords(Words(line))
  }

  /** The readings that the first nine words give. */
  function ParseWords(t: seq<string>): Option<seq<Reading>>
  {
    if |t| < 9 then None
    else if ReadingAt(t, 0).None? || ReadingAt(t, 1).None? || ReadingAt(t, 2).None? then None
    else Some([ReadingAt(t, 0).value, ReadingAt(t, 1).value, ReadingAt(t, 2).value])
  }

  /** Only the first nine words decide whether and how a line is read. */
  lemma ExtraWordsIgnored(line: string, more: string)
    requires |Words(line)| >= 9
    ensures ParseLine(line + " " + more).Some? <==> ParseLine(line).Some?
    ensures ParseLine(line).Some? ==> ParseLine(line + " " + more) == ParseLine(line)
  {
    WordsAppend(line, more);
    var t, u := Words(line), Words(line + " " + more);
    assert t[..9] == u[..9];
    forall i | 0 <= i < 3 ensures ReadingAt(t, i) == ReadingAt(u, i) {
      assert t[3 * i] == u[3 * i] && t[3 * i + 1] == u[3 * i + 1] && t[3 * i + 2] == u[3 * i + 2];
    }
  }

  /** The words of a line, a space and more text are the line's words
      followed by the words of the rest. */
  lemma {:induction false} WordsAppend(line: string, more: string)
    ensures Words(line + " " + more) == Words(line) + Words(more)
    decreases |line|
  {
    var s := line + " " + more;
    if line == [] {
      assert s == " " + more;
      assert s[1..] == more;
    } else if IsSpace(line[0]) {
      assert s[1..] == line[1..] + " " + more;
      WordsAppend(line[1..], more);
    } else {
      var n := WordLength(line);
      WordLengthPrefix(line, " " + more);
      assert s[..n] == line[..n];
      assert s[n..] == line[n..] + " " + more;
      WordsAppend(line[n..], more);
      assert Words(s) == [line[..n]] + (Words(line[n..]) + Words(more));
      assert Words(line) == [line[..n]] + Words(line[n..]);
    }
  }

  /** A word of `line` ends at the same place when text starting with a space
      follows the line. */
  lemma {:induction false} WordLengthPrefix(line: string, rest: string)
    requires |rest| > 0 && IsSpace(rest[0])
    ensures WordLength(line + rest) == WordLength(line)
    decreases |line|
  {
    if line != [] && !IsSpace(line[0]) {
      assert (line + rest)[1..] == line[1..] + rest;
      WordLengthPrefix(line[1..], rest);
    } else if line == [] {
      assert line + rest == rest;
    }
  }

  /** The words a joystick's reading is written as: both axes and the
      button, 1 when pressed and 0 when released, in decimal. */
  function ReadingWords(r: Reading): seq<string>
    requires InAxisRange(r.x) && InAxisRange(r.y)
  {
    [NatText(r.x), NatText(r.y), NatText(if r.pressed then 1 else 0)]
  }

  /** The line the panel sends for three readings. */
  function LineText(rs: seq<Reading>): string
    requires |rs| == 3 && forall i :: 0 <= i < 3 ==> InAxisRange(rs[i].x) && InAxisRange(rs[i].y)
  {
    Unwords(ReadingWords(rs[0]) + ReadingWords(rs[1]) + ReadingWords(rs[2]))
  }

  lemma ReadingAtOfWords(ws: seq<string>, i: nat, r: Reading)
    requires i < 3 && |ws| >= 9 && InAxisRange(r.x) && InAxisRange(r.y)
    requires ws[3 * i] == NatText(r.x) && ws[3 * i + 1] == NatText(r.y)
    requires ws[3 * i + 2] == NatText(if r.pressed then 1 else 0)
    ensures ReadingAt(ws, i) == Some(r)
  {
    StoiOfNatText(r.x);
    StoiOfNatText(r.y);
    StoiOfNatText(if r.pressed then 1 else 0);
  }

  lemma NatTextHasNoSpace(n: nat)
    ensures |NatText(n)| > 0 && forall i :: 0 <= i < |NatText(n)| ==> !IsSpace(NatText(n)[i])
  {
    var t := NatText(n);
    forall i | 0 <= i < |t| ensures !IsSpace(t[i]) {
      assert IsDigit(t[i]);
    }
  }

  lemma ParseWordsOfReadings(ws: seq<string>, rs: seq<Reading>)
    requires |ws| >= 9 && |rs| == 3
    requires ReadingAt(ws, 0) == Some(rs[0]) && ReadingAt(ws, 1) == Some(rs[1])
    requires ReadingAt(ws, 2) == Some(rs[2])
    ensures ParseWords(ws) == Some(rs)
  {
    assert [rs[0], rs[1], rs[2]] == rs;
  }

  lemma WordsOfLineText(rs: seq<Reading>)
    requires |rs| == 3 && forall i :: 0 <= i < 3 ==> InAxisRange(rs[i].x) && InAxisRange(rs[i].y)
    ensures Words(LineText(rs)) == ReadingWords(rs[0]) + ReadingWords(rs[1]) + ReadingWords(rs[2])
  {
    var ws := ReadingWords(rs[0]) + ReadingWords(rs[1]) + ReadingWords(rs[2]);
    forall k | 0 <= k < 9
      ensures |ws[k]| > 0 && forall i :: 0 <= i < |ws[k]| ==> !IsSpace(ws[k][i])
    {
      var j := k / 3;
      assert ws[k] == ReadingWords(rs[j])[k % 3];
      var r := rs[j];
      NatTextHasNoSpace(r.x);
      NatTextHasNoSpace(r.y);
      NatTextHasNoSpace(if r.pressed then 1 else 0);
    }
    WordsOfUnwords(ws);
  }

  /** Any three in-range readings, written as a line, read back as the same
      three readings. */
  lemma ParseLineOfLineText(rs: seq<Reading>)
    requires |rs| == 3 && forall i :: 0 <= i < 3 ==> InAxisRange(rs[i].x) && InAxisRange(rs[i].y)
    ensures ParseLine(LineText(rs)) == Some(rs)
  {
    var ws := ReadingWords(rs[0]) + ReadingWords(rs[1]) + ReadingWords(rs[2]);
    WordsOfLineText(rs);
    ReadingAtOfWords(ws, 0, rs[0]);
    ReadingAtOfWords(ws, 1, rs[1]);
    ReadingAtOfWords(ws, 2, rs[2]);
    ParseWordsOfReadings(ws, rs);
  }

  // ----- Signal processing -----

  /** A moving-average window and the running sum the panel keeps of it. */
  datatype Window = Window(samples: seq<int>, sum: int)

  function Sum(s: seq<int>): int
  {
    if s == [] then 0 else s[0] + Sum(s[1..])
  }

  lemma {:induction false} SumAppend(s: seq<int>, v: int)
    ensures Sum(s + [v]) == Sum(s) + v
  {
    if s != [] {
      assert (s + [v])[1..] == s[1..] + [v];
      SumAppend(s[1..], v);
    }
  }

  /** Adds a sample at the back and adds it to the sum; when the window then
      holds more than `depth` samples, the front one leaves it and the sum. */
  function PushSample(w: Window, v: int, depth: nat): Window
  {
    var s := w.samples + [v];
    if |s| > depth then Window(s[1..], w.sum + v - s[0]) else Window(s, w.sum + v)
  }

  /** A window whose sum is right and which respects the depth keeps both
      after a push; the new window is the newest samples, ending in `v`. */
  lemma PushSampleKeepsWindow(w: Window, v: int, depth: nat)
    requires depth >= 1 && |w.samples| <= depth && w.sum == Sum(w.samples)
    ensures var w' := PushSample(w, v, depth);
      && |w'.samples| <= depth
      && |w'.samples| == (if |w.samples| < depth then |w.samples| + 1 else depth)
      && w'.sum == Sum(w'.samples)
      && w'.samples[|w'.samples| - 1] == v
      && w'.samples == (w.samples + [v])[|w.samples| + 1 - |w'.samples|..]
  {
    SumAppend(w.samples, v);
  }

  /** The state of one button's debouncer. */
  datatype Debouncer = Debouncer(stable: bool, pending: bool, pendingCount: nat)

  /** One sample of a button: a sample equal to the stable value clears the
      pending run; another one extends the run of equal pending samples (or
      starts one), and a run reaching `threshold` becomes the stable value. */
  function Debounce(d: Debouncer, sample: bool, threshold: nat): (r: Debouncer)
    ensures threshold >= 1 ==> r.pendingCount < threshold
  {
    if sample == d.stable then Debouncer(d.stable, d.stable, 0)
    else
      var count := if sample == d.pending then d.pendingCount + 1 else 1;
      if count >= threshold then Debouncer(sample, sample, 0)
      else Debouncer(d.stable, sample, count)
  }

  /** What a debouncer's state says about the samples it has seen: the last
      `pendingCount` of them all equal the pending value, which differs from
      the stable one, and the run is shorter than the threshold. */
  ghost predicate DebounceAgrees(d: Debouncer, seen: seq<bool>, threshold: nat)
  {
    && d.pendingCount < threshold
    && d.pendingCount <= |seen|
    && (forall i :: |seen| - d.pendingCount <= i < |seen| ==> seen[i] == d.pending && seen[i] != d.stable)
  }

  /** A sample keeps the debouncer in agreement with the samples seen. */
  lemma DebounceKeepsAgreement(d: Debouncer, seen: seq<bool>, sample: bool, threshold: nat)
    requires threshold >= 1 && DebounceAgrees(d, seen, threshold)
    ensures DebounceAgrees(Debounce(d, sample, threshold), seen + [sample], threshold)
  {
    var s := seen + [sample];
    assert forall i :: 0 <= i < |seen| ==> s[i] == seen[i];
  }

  /** The stable value changes only when the last `threshold` samples all
      carry the new value, which differs from the old one; a sample equal to
      the stable value clears the run. */
  lemma DebounceFlipsOnlyAfterRun(d: Debouncer, seen: seq<bool>, sample: bool, threshold: nat)
    requires threshold >= 1 && DebounceAgrees(d, seen, threshold)
    ensures var d' := Debounce(d, sample, threshold);
      && (d'.stable != d.stable ==>
            && |seen| + 1 >= threshold
            && forall i :: |seen| + 1 - threshold <= i < |seen| + 1 ==>
                 (seen + [sample])[i] == d'.stable && (seen + [sample])[i] != d.stable)
      && (sample == d.stable ==> d' == Debouncer(d.stable, d.stable, 0))
  {
    var s := seen + [sample];
    assert forall i :: 0 <= i < |seen| ==> s[i] == seen[i];
  }

  /** Feeds samples to a debouncer in order. */
  function DebounceAll(d: Debouncer, samples: seq<bool>, threshold: nat): Debouncer
    decreases |samples|
  {
    if samples == [] then d else DebounceAll(Debounce(d, samples[0], threshold), samples[1..], threshold)
  }

  /** `threshold` samples in a row that differ from the stable value make
      it change. */
  lemma {:induction false} RunFlipsStable(d: Debouncer, samples: seq<bool>, threshold: nat)
    requires threshold >= 1 && d.pendingCount < threshold
    requires |samples| + (if d.pending != d.stable then d.pendingCount else 0) >= threshold
    requires forall i :: 0 <= i < |samples| ==> samples[i] == !d.stable
    ensures DebounceAll(d, samples, threshold).stable == !d.stable
    decreases |samples|
  {
    var d1 := Debounce(d, samples[0], threshold);
    if d1.stable == !d.stable {
      StaysAfterFlip(d1, samples[1..], threshold);
    } else {
      RunFlipsStable(d1, samples[1..], threshold);
    }
  }

  /** Samples equal to the stable value leave it as it is. */
  lemma {:induction false} StaysAfterFlip(d: Debouncer, samples: seq<bool>, threshold: nat)
    requires forall i :: 0 <= i < |samples| ==> samples[i] == d.stable
    ensures DebounceAll(d, samples, threshold).stable == d.stable
    decreases |samples|
  {
    if samples != [] {
      StaysAfterFlip(Debounce(d, samples[0], threshold), samples[1..], threshold);
    }
  }

  /** The processing state of one joystick. */
  datatype Channel = Channel(
    xWindow: Window,
    yWindow: Window,
    baselineX: real,
    baselineY: real,
    baselineXAcc: int,
    baselineYAcc: int,
    button: Debouncer,
    x: real,
    y: real,
    b: bool)

  /** A channel as `resetSignalProcessingState` leaves it. */
  const ResetChannel := Channel(Window([], 0), Window([], 0), 512.0, 512.0, 0, 0,
                                Debouncer(false, false, 0), 0.0, 0.0, false)

  /** `std::clamp(v, -1, 1)`. */
  function ClipToUnitRange(v: real): (r: real)
    ensures -1.0 <= r <= 1.0
    ensures -1.0 <= v <= 1.0 ==> r == v
  {
    if v < -1.0 then -1.0 else if v > 1.0 then 1.0 else v
  }

  /** Adds the reading to the baseline accumulators. */
  function Accumulate(c: Channel, r: Reading): Channel
  {
    c.(baselineXAcc := c.baselineXAcc + r.x, baselineYAcc := c.baselineYAcc + r.y)
  }

  /** Sets the baselines to the accumulated means over `count` lines. */
  function Finalize(c: Channel, count: nat): Channel
    requires count > 0
  {
    c.(baselineX := c.baselineXAcc as real / count as real,
       baselineY := c.baselineYAcc as real / count as real)
  }

  /** The published axis value: the window mean's offset from the baseline
      over 512, clipped to -1..1; 0 while the baseline is not ready. */
  function AxisOutput(w: Window, baseline: real, ready: bool): (r: real)
    requires |w.samples| > 0
    ensures -1.0 <= r <= 1.0
    ensures !ready ==> r == 0.0
  {
    if ready then ClipToUnitRange((w.sum as real / |w.samples| as real - baseline) / 512.0) else 0.0
  }

  /** Pushes the reading into both windows, publishes the axes and debounces
      the button. */
  function Filter(c: Channel, r: Reading, ready: bool, depth: nat, threshold: nat): Channel
    requires depth >= 1
  {
    var xw := PushSample(c.xWindow, r.x, depth);
    var yw := PushSample(c.yWindow, r.y, depth);
    var button := Debounce(c.button, r.pressed, threshold);
    c.(xWindow := xw, yWindow := yw,
       x := AxisOutput(xw, c.baselineX, ready), y := AxisOutput(yw, c.baselineY, ready),
       button := button, b := button.stable)
  }

  /** The baseline line count after one more accepted line. */
  function NextCount(count: nat, ready: bool): nat
  {
    if ready then count else count + 1
  }

  /** Whether the baseline is ready after one more accepted line. */
  function NextReady(count: nat, ready: bool, samples: nat): bool
  {
    ready || NextCount(count, ready) >= samples
  }

  /** What an accepted line does to one joystick's channel. */
  function StepChannel(c: Channel, r: Reading, count: nat, ready: bool,
                       samples: nat, depth: nat, threshold: nat): Channel
    requires depth >= 1
  {
    Filter(FeedBaseline(c, r, count, ready, samples), r, NextReady(count, ready, samples), depth, threshold)
  }

  /** What an accepted line does to one channel's baseline: accumulated
      while the baseline is not ready, and the means taken once the count
      reaches the number of baseline lines. */
  function FeedBaseline(c: Channel, r: Reading, count: nat, ready: bool, samples: nat): Channel
  {
    var c1 := if ready then c else Accumulate(c, r);
    var count1 := NextCount(count, ready);
    if !ready && count1 >= samples then Finalize(c1, count1) else c1
  }

  /** What the panel keeps true of a channel: the windows respect the depth
      and their sums, the run of the debouncer is below the threshold, the
      published button is the stable one, and the published axes lie in
      -1..1 and are 0 until the baseline is ready. */
  predicate ChannelValid(c: Channel, ready: bool, depth: nat, threshold: nat)
  {
    && |c.xWindow.samples| <= depth && c.xWindow.sum == Sum(c.xWindow.samples)
    && |c.yWindow.samples| <= depth && c.yWindow.sum == Sum(c.yWindow.samples)
    && c.button.pendingCount < threshold
    && c.b == c.button.stable
    && -1.0 <= c.x <= 1.0 && -1.0 <= c.y <= 1.0
    && (!ready ==> c.x == 0.0 && c.y == 0.0)
  }

  /** An accepted line keeps a channel valid. */
  lemma StepChannelKeepsValid(c: Channel, r: Reading, count: nat, ready: bool,
                              samples: nat, depth: nat, threshold: nat)
    requires depth >= 1 && threshold >= 1
    requires ChannelValid(c, ready, depth, threshold)
    ensures ChannelValid(StepChannel(c, r, count, ready, samples, depth, threshold),
                         NextReady(count, ready, samples), depth, threshold)
  {
    var c2 := FeedBaseline(c, r, count, ready, samples);
    assert c2.xWindow == c.xWindow && c2.yWindow == c.yWindow && c2.button == c.button;
    FilterKeepsValid(c2, r, NextReady(count, ready, samples), depth, threshold);
  }

  /** Filtering a reading keeps the windows and the debouncer valid and
      publishes axes that obey the readiness of the baseline. */
  lemma FilterKeepsValid(c: Channel, r: Reading, ready: bool, depth: nat, threshold: nat)
    requires depth >= 1 && threshold >= 1
    requires |c.xWindow.samples| <= depth && c.xWindow.sum == Sum(c.xWindow.samples)
    requires |c.yWindow.samples| <= depth && c.yWindow.sum == Sum(c.yWindow.samples)
    ensures ChannelValid(Filter(c, r, ready, depth, threshold), ready, depth, threshold)
  {
    PushSampleKeepsWindow(c.xWindow, r.x, depth);
    PushSampleKeepsWindow(c.yWindow, r.y, depth);
  }

  /** The baseline's line count and readiness after `n` accepted lines from
      a reset. */
  function BaselineAfter(n: nat, samples: nat): (nat, bool)
  {
    if n == 0 then (0, false)
    else
      var (count, ready) := BaselineAfter(n - 1, samples);
      (NextCount(count, ready), NextReady(count, ready, samples))
  }

  /** The baseline becomes ready after exactly `samples` accepted lines, and
      its count stops there. */
  lemma {:induction false} BaselineReadyAfterSamples(n: nat, samples: nat)
    requires samples >= 1
    ensures BaselineAfter(n, samples).1 <==> n >= samples
    ensures BaselineAfter(n, samples).0 == if n < samples then n else samples
  {
    if n > 0 {
      BaselineReadyAfterSamples(n - 1, samples);
    }
  }

  /** `parseLineTerminator`: the escapes "\n", "\r" and "\0" name those
      characters, the empty text means a newline, and any other text gives
      its first character. */
  function ParseLineTerminator(token: string): (c: char)
    ensures token == "" || token == "\\n" ==> c == '\n'
    ensures token == "\\r" ==> c == '\r'
    ensures token == "\\0" ==> c == '\0'
    ensures |token| == 1 ==> c == token[0]
  {
    if token == "\\n" then '\n'
    else if token == "\\r" then '\r'
    else if token == "\\0" then '\0'
    else if token == "" then '\n'
    else token[0]
  }

  /** How a terminator character is written in the configuration. */
  function TerminatorToken(c: char): string
  {
    if c == '\n' then "\\n" else if c == '\r' then "\\r" else if c == '\0' then "\\0" else [c]
  }

  /** Every character can be configured as the terminator, and reading its
      configured text gives it back; other texts of length 1 name their own
      character. */
  lemma ParseLineTerminatorRoundTrip(c: char)
    ensures ParseLineTerminator(TerminatorToken(c)) == c
    ensures ParseLineTerminator([c]) == c
    ensures ParseLineTerminator("") == '\n'
  {
  }

  /** `sanitizeLine`'s effect: the line without its leading and trailing
      carriage returns, newlines and NULs. */
  predicate IsLineEnd(c: char) { c == '\r' || c == '\n' || c == '\0' }

  /** The length of `s` without its trailing line ends. */
  function EndKept(s: string): (b: nat)
    ensures b <= |s|
  {
    if s != [] && IsLineEnd(s[|s| - 1]) then EndKept(s[..|s| - 1]) else |s|
  }

  /** The number of leading line ends of `s`. */
  function StartCut(s: string): (a: nat)
    ensures a <= |s|
  {
    if s != [] && IsLineEnd(s[0]) then 1 + StartCut(s[1..]) else 0
  }

  /** The line without its trailing, then its leading line ends. */
  function Sanitized(line: string): string
  {
    var e := line[..EndKept(line)];
    e[StartCut(e)..]
  }

  lemma {:induction false} EndKeptSpec(s: string)
    ensures forall i :: EndKept(s) <= i < |s| ==> IsLineEnd(s[i])
    ensures EndKept(s) == 0 || !IsLineEnd(s[EndKept(s) - 1])
  {
    if s != [] && IsLineEnd(s[|s| - 1]) {
      var p := s[..|s| - 1];
      EndKeptSpec(p);
      assert forall i :: 0 <= i < |p| ==> p[i] == s[i];
    }
  }

  lemma {:induction false} StartCutSpec(s: string)
    ensures forall i :: 0 <= i < StartCut(s) ==> IsLineEnd(s[i])
    ensures StartCut(s) == |s| || !IsLineEnd(s[StartCut(s)])
  {
    if s != [] && IsLineEnd(s[0]) {
      StartCutSpec(s[1..]);
      assert forall i :: 0 <= i < |s| - 1 ==> s[1..][i] == s[i + 1];
    }
  }

  /** `sanitizeLine`: strips the trailing, then the leading line-end
      characters, as the reader does to each line before processing it. */
  method SanitizeLine(line: string) returns (r: string)
    ensures r == Sanitized(line)
  {
    r := line;
    while r != [] && IsLineEnd(r[|r| - 1])
      invariant |r| <= |line| && r == line[..|r|]
      invariant EndKept(r) == EndKept(line)
      decreases |r|
    {
      r := r[..|r| - 1];
    }
    ghost var e := r;
    assert e == line[..EndKept(line)];
    while r != [] && IsLineEnd(r[0])
      invariant |r| <= |e| && r == e[|e| - |r|..]
      invariant |e| - |r| + StartCut(r) == StartCut(e)
      decreases |r|
    {
      r := r[1..];
    }
  }

  /** A sanitized line is a piece of the original line with no line-end
      character at either end, and everything cut off is a line end; a line
      without line ends at its edges is left as it is. */
  lemma SanitizedLineSpec(line: string)
    ensures var r := Sanitized(line);
      && (r == [] || (!IsLineEnd(r[0]) && !IsLineEnd(r[|r| - 1])))
      && (exists a, b :: 0 <= a <= b <= |line| && r == line[a..b]
           && (forall i :: 0 <= i < a ==> IsLineEnd(line[i]))
           && (forall i :: b <= i < |line| ==> IsLineEnd(line[i])))
      && (line != [] && !IsLineEnd(line[0]) && !IsLineEnd(line[|line| - 1]) ==> r == line)
  {
    var b := EndKept(line);
    var e := line[..b];
    var a := StartCut(e);
    var r := Sanitized(line);
    EndKeptSpec(line);
    StartCutSpec(e);
    assert r == line[a..b];
    if r != [] {
      assert r[0] == e[a];
      assert r[|r| - 1] == line[b - 1];
    }
    if line != [] && !IsLineEnd(line[0]) && !IsLineEnd(line[|line| - 1]) {
      assert b == |line|;
      assert e == line;
      assert a == 0;
    }
  }

  /** The control panel's configuration and signal-processing state. The
      three joysticks' state lives in `channels`, index 0..2. */
  class ControlPanel {
    const readTimeoutMs: nat
    const movingAverageDepth: nat
    const baselineSamples: nat
    const buttonDebounceSamples: nat
    const lineTerminator: char
    var channels: seq<Channel>
    var baselineCount: nat
    var baselineReady: bool

    predicate Valid()
      reads this
    {
      && movingAverageDepth >= 1 && baselineSamples >= 1 && buttonDebounceSamples >= 1
      && |channels| == 3
      && (baselineReady <==> baselineCount >= baselineSamples)
      && baselineCount <= baselineSamples
      && forall i :: 0 <= i < 3 ==>
           ChannelValid(channels[i], baselineReady, movingAverageDepth, buttonDebounceSamples)
    }

    /** Reads the optional settings, each with its default and at least 1
        (the read timeout 200 ms, the window depth 5, the baseline 50 lines,
        the debounce 3 samples, the terminator "\n"), and resets the signal
        processing. */
    constructor (readTimeoutMsSetting: Option<nat>, depthSetting: Option<nat>,
                 baselineSetting: Option<nat>, debounceSetting: Option<nat>,
                 terminatorSetting: Option<string>)
      ensures readTimeoutMs == AtLeastOne(readTimeoutMsSetting, 200)
      ensures movingAverageDepth == AtLeastOne(depthSetting, 5)
      ensures baselineSamples == AtLeastOne(baselineSetting, 50)
      ensures buttonDebounceSamples == AtLeastOne(debounceSetting, 3)
      ensures lineTerminator == ParseLineTerminator(
                if terminatorSetting.Some? then terminatorSetting.value else "\\n")
      ensures channels == [ResetChannel, ResetChannel, ResetChannel]
      ensures baselineCount == 0 && !baselineReady
      ensures Valid()
    {
      readTimeoutMs := AtLeastOne(readTimeoutMsSetting, 200);
      movingAverageDepth := AtLeastOne(depthSetting, 5);
      baselineSamples := AtLeastOne(baselineSetting, 50);
      buttonDebounceSamples := AtLeastOne(debounceSetting, 3);
      lineTerminator := ParseLineTerminator(
        if terminatorSetting.Some? then terminatorSetting.value else "\\n");
      channels := [ResetChannel, ResetChannel, ResetChannel];
      baselineCount := 0;
      baselineReady := false;
    }

    /** `resetSignalProcessingState`: empty windows, zero sums, accumulators
        and counts, baselines at 512, outputs 0 and released. */
    method ResetSignalProcessingState()
      requires movingAverageDepth >= 1 && baselineSamples >= 1 && buttonDebounceSamples >= 1
      modifies this
      ensures channels == [ResetChannel, ResetChannel, ResetChannel]
      ensures baselineCount == 0 && !baselineReady
      ensures Valid()
    {
      channels := [ResetChannel, ResetChannel, ResetChannel];
      baselineCount := 0;
      baselineReady := false;
    }

    /** `processLine`: a line that does not read as nine valid words changes
        nothing; an accepted line feeds the baseline while it is not ready,
        then each joystick's windows, outputs and debouncer. */
    method ProcessLine(line: string)
      requires Valid()
      modifies this
      ensures Valid()
      ensures ParseLine(line).None? ==>
        channels == old(channels) && baselineCount == old(baselineCount) && baselineReady == old(baselineReady)
      ensures ParseLine(line).Some? ==>
        && baselineCount == NextCount(old(baselineCount), old(baselineReady))
        && baselineReady == NextReady(old(baselineCount), old(baselineReady), baselineSamples)
        && forall i :: 0 <= i < 3 ==>
             channels[i] == StepChannel(old(channels)[i], ParseLine(line).value[i],
                                        old(baselineCount), old(baselineReady),
                                        baselineSamples, movingAverageDepth, buttonDebounceSamples)
    {
      var readings := ReadLine(line);
      if readings.None? {
        return;
      }
      ghost var before := channels;
      FeedBaselines(readings.value);
      FilterChannels(readings.value);
      forall i | 0 <= i < 3
        ensures ChannelValid(channels[i], baselineReady, movingAverageDepth, buttonDebounceSamples)
      {
        StepChannelKeepsValid(before[i], readings.value[i], old(baselineCount), old(baselineReady),
                              baselineSamples, movingAverageDepth, buttonDebounceSamples);
      }
    }

    /** One pass of the reader loop over a line the serial port delivered:
        the line is sanitized, skipped when nothing is left, and processed
        otherwise. */
    method HandleLine(raw: string)
      requires Valid()
      modifies this
      ensures Valid()
      ensures var line := Sanitized(raw);
        && (ParseLine(line).None? ==>
              channels == old(channels) && baselineCount == old(baselineCount) && baselineReady == old(baselineReady))
        && (ParseLine(line).Some? ==>
              && baselineCount == NextCount(old(baselineCount), old(baselineReady))
              && baselineReady == NextReady(old(baselineCount), old(baselineReady), baselineSamples)
              && forall i :: 0 <= i < 3 ==>
                   channels[i] == StepChannel(old(channels)[i], ParseLine(line).value[i],
                                              old(baselineCount), old(baselineReady),
                                              baselineSamples, movingAverageDepth, buttonDebounceSamples))
    {
      var line := SanitizeLine(raw);
      if line == [] {
        assert Words(line) == [];
        return;
      }
      ProcessLine(line);
    }

    /** `getSnapshot`: the published axes and buttons of the three joysticks;
        the axes lie in -1..1 and are 0 until the baseline is ready. */
    function Snapshot(): (s: seq<(real, real, bool)>)
      requires Valid()
      reads this
      ensures |s| == 3
      ensures forall i :: 0 <= i < 3 ==> -1.0 <= s[i].0 <= 1.0 && -1.0 <= s[i].1 <= 1.0
      ensures !baselineReady ==> forall i :: 0 <= i < 3 ==> s[i].0 == 0.0 && s[i].1 == 0.0
      ensures forall i :: 0 <= i < 3 ==> s[i].2 == channels[i].button.stable
    {
      [(channels[0].x, channels[0].y, channels[0].b),
       (channels[1].x, channels[1].y, channels[1].b),
       (channels[2].x, channels[2].y, channels[2].b)]
    }

    /** The baseline half of `processLine` for an accepted line. */
    method FeedBaselines(readings: seq<Reading>)
      requires |readings| == 3 && |channels| == 3
      requires baselineCount <= baselineSamples && (baselineReady <==> baselineCount >= baselineSamples)
      modifies this
      ensures baselineCount == NextCount(old(baselineCount), old(baselineReady))
      ensures baselineReady == NextReady(old(baselineCount), old(baselineReady), baselineSamples)
      ensures |channels| == 3
      ensures forall i :: 0 <= i < 3 ==>
        channels[i] == FeedBaseline(old(channels)[i], readings[i], old(baselineCount), old(baselineReady), baselineSamples)
    {
      if !baselineReady {
        for i := 0 to 3
          invariant |channels| == 3
          invariant baselineCount == old(baselineCount) && baselineReady == old(baselineReady)
          invariant forall j :: 0 <= j < i ==> channels[j] == Accumulate(old(channels)[j], readings[j])
          invariant forall j :: i <= j < 3 ==> channels[j] == old(channels)[j]
        {
          channels := channels[i := Accumulate(channels[i], readings[i])];
        }
        baselineCount := baselineCount + 1;
        if baselineCount >= baselineSamples {
          ghost var accumulated := channels;
          for i := 0 to 3
            invariant |channels| == 3
            invariant baselineCount == old(baselineCount) + 1 && baselineReady == old(baselineReady)
            invariant forall j :: 0 <= j < i ==> channels[j] == Finalize(accumulated[j], baselineCount)
            invariant forall j :: i <= j < 3 ==> channels[j] == accumulated[j]
          {
            channels := channels[i := Finalize(channels[i], baselineCount)];
          }
          baselineReady := true;
        }
      }
    }

    /** The filtering half of `processLine`: windows, outputs and debouncer
        of each joystick. */
    method FilterChannels(readings: seq<Reading>)
      requires |readings| == 3 && |channels| == 3 && movingAverageDepth >= 1
      modifies this
      ensures baselineCount == old(baselineCount) && baselineReady == old(baselineReady)
      ensures |channels| == 3
      ensures forall i :: 0 <= i < 3 ==>
        channels[i] == Filter(old(channels)[i], readings[i], baselineReady, movingAverageDepth, buttonDebounceSamples)
    {
      for i := 0 to 3
        invariant |channels| == 3
        invariant baselineCount == old(baselineCount) && baselineReady == old(baselineReady)
        invariant forall j :: 0 <= j < i ==>
          channels[j] == Filter(old(channels)[j], readings[j], baselineReady, movingAverageDepth, buttonDebounceSamples)
        invariant forall j :: i <= j < 3 ==> channels[j] == old(channels)[j]
      {
        channels := channels[i := Filter(channels[i], readings[i], baselineReady,
                                         movingAverageDepth, buttonDebounceSamples)];
      }
    }
  }

  /** The reading half of `processLine`: splits the line into words and
      converts the first nine, giving up at the first word that is not a
      number or a number out of range. */
  method ReadLine(line: string) returns (r: Option<seq<Reading>>)
    ensures r == ParseLine(line)
  {
    r := ReadTokens(Words(line));
  }

  /** `processLine`'s reading loop over the words of a line. */
  method ReadTokens(tokens: seq<string>) returns (r: Option<seq<Reading>>)
    ensures r == ParseWords(tokens)
  {
    if |tokens| < 9 {
      return None;
    }
    var readings: seq<Reading> := [];
    for i := 0 to 3
      invariant |readings| == i
      invariant forall j :: 0 <= j < i ==> ReadingAt(tokens, j) == Some(readings[j])
    {
      var reading := ReadJoystick(tokens, i);
      if reading.None? {
        InvalidJoystickRefusesLine(tokens, i);
        return None;
      }
      readings := readings + [reading.value];
    }
    ValidJoysticksReadLine(tokens, readings);
    return Some(readings);
  }

  lemma InvalidJoystickRefusesLine(tokens: seq<string>, i: nat)
    requires i < 3 && |tokens| >= 9 && ReadingAt(tokens, i).None?
    ensures ParseWords(tokens).None?
  {
  }

  lemma ValidJoysticksReadLine(tokens: seq<string>, readings: seq<Reading>)
    requires |tokens| >= 9 && |readings| == 3
    requires forall j :: 0 <= j < 3 ==> ReadingAt(tokens, j) == Some(readings[j])
    ensures ParseWords(tokens) == Some(readings)
  {
    assert ReadingAt(tokens, 0) == Some(readings[0]) && ReadingAt(tokens, 1) == Some(readings[1])
      && ReadingAt(tokens, 2) == Some(readings[2]);
    assert readings == [readings[0], readings[1], readings[2]];
  }

  /** One pass of `processLine`'s reading loop: converts joystick `i`'s three
      words and checks their ranges. */
  method ReadJoystick(tokens: seq<string>, i: nat) returns (r: Option<Reading>)
    requires i < 3 && |tokens| >= 9
    ensures r == ReadingAt(tokens, i)
  {
    var xv, yv, bv := Stoi(tokens[3 * i]), Stoi(tokens[3 * i + 1]), Stoi(tokens[3 * i + 2]);
    if xv.None? || yv.None? || bv.None? {
      return None;
    }
    if xv.value < 0 || xv.value > 1023 || yv.value < 0 || yv.value > 1023
       || (bv.value != 0 && bv.value != 1) {
      return None;
    }
    return Some(Reading(xv.value, yv.value, bv.value == 1));
  }

  /** A setting if given, else its default; never below 1. */
  function AtLeastOne(setting: Option<nat>, default: nat): (r: nat)
    ensures r >= 1
    ensures setting.None? ==> r == if default >= 1 then default else 1
    ensures setting.Some? && setting.value >= 1 ==> r == setting.value
  {
    var v := if setting.Some? then setting.value else default;
    if v < 1 then 1 else v
  }
}
