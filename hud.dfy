/**
 * The rep-counter overlay: a colour for the phase, the reps label and the
 * line of coaching tips.  Only the text and colour choices are modelled, not
 * the layout.
 */
module Hud {
  import opened Text
  import opened Schemas

  const UpColor: string := "#2ecc71"
  const DownColor: string := "#e67e22"
  const IdleColor: string := "#95a5a6"

  /** Green while up, orange while down, grey for anything else (including an unexpected phase string). */
  function PhaseColor(phase: string): (color: string)
    ensures phase == "up" ==> color == UpColor
    ensures phase == "down" ==> color == DownColor
    ensures phase != "up" && phase != "down" ==> color == IdleColor
  {
    if phase == "up" then UpColor else if phase == "down" then DownColor else IdleColor
  }

  /** The colour tells the three phases of a tick apart. */
  lemma PhaseColorsDistinguishPhases(p: Phase, q: Phase)
    ensures PhaseColor(PhaseName(p)) == PhaseColor(PhaseName(q)) <==> p == q
    ensures PhaseColor(PhaseName(Idle)) == IdleColor
  {
    assert UpColor[1] != DownColor[1] && UpColor[1] != IdleColor[1] && DownColor[1] != IdleColor[1];
  }

  // ---------------------------------------------------------------------
  // The reps label.
  // ---------------------------------------------------------------------

  predicate IsDigit(c: char) {
    '0' <= c <= '9'
  }

  predicate AllDigits(s: string) {
    forall i :: 0 <= i < |s| ==> IsDigit(s[i])
  }

  function DigitChar(d: nat): (c: char)
    requires d < 10
    ensures IsDigit(c) && c as int - '0' as int == d
  {
    ('0' as int + d) as char
  }

  /** Decimal digits of `n`, most significant first, with no leading zero. */
  function NatDigits(n: nat): (s: string)
    ensures |s| >= 1 && AllDigits(s)
    ensures s[0] == '0' ==> n == 0
    decreases n
  {
    if n < 10 then [DigitChar(n)] else NatDigits(n / 10) + [DigitChar(n % 10)]
  }

  /** The value a string of decimal digits denotes. */
  function DigitsValue(s: string): nat
    requires AllDigits(s)
  {
    if s == [] then 0 else DigitsValue(s[..|s| - 1]) * 10 + (s[|s| - 1] as int - '0' as int)
  }

  lemma {:induction false} DigitsRoundTrip(n: nat)
    ensures DigitsValue(NatDigits(n)) == n
    decreases n
  {
    if n >= 10 {
      var s := NatDigits(n);
      assert s[..|s| - 1] == NatDigits(n / 10);
      DigitsRoundTrip(n / 10);
    }
  }

  /**
   * `String(n)` for an integer `n`: a minus sign for negatives, then the
   * digits.  JavaScript switches to exponent form from 1e21 on; that range is
   * not modelled.
   */
  function DecimalString(n: int): (s: string)
    ensures |s| >= 1
    ensures n < 0 <==> s[0] == '-'
    ensures if s[0] == '-' then AllDigits(s[1..]) else AllDigits(s)
    ensures DecimalValue(s) == n
  {
    DigitsRoundTrip(if n < 0 then -n else n);
    if n < 0 then
      var s := "-" + NatDigits(-n);
      assert s[1..] == NatDigits(-n);
      s
    else NatDigits(n)
  }

  /** Reads back a decimal string: an optional minus sign followed by digits. */
  function DecimalValue(s: string): int
    requires |s| >= 1 && (if s[0] == '-' then AllDigits(s[1..]) else AllDigits(s))
  {
    if s[0] == '-' then -(DigitsValue(s[1..]) as int) else DigitsValue(s)
  }

  const RepsPrefix: string := "Reps: "

  /** `Reps: ` followed by the reps value written in decimal, which reads back as that value. */
  function RepsLabel(reps: int): (text: string)
    ensures |text| > |RepsPrefix| && text[..|RepsPrefix|] == RepsPrefix
    ensures var digits := text[|RepsPrefix|..];
      (if digits[0] == '-' then AllDigits(digits[1..]) else AllDigits(digits)) && DecimalValue(digits) == reps
  {
    var digits := DecimalString(reps);
    var text := RepsPrefix + digits;
    assert text[|RepsPrefix|..] == digits;
    text
  }

  // ---------------------------------------------------------------------
  // The tip line.
  // ---------------------------------------------------------------------

  const Placeholder: string := "Getting ready..."

  /** The separator as the source file spells it: the UTF-8 bytes of a bullet read back as Windows-1252. */
  const SeparatorAsWritten: string := " \U{E2}\U{20AC}\U{A2} "

  /** The bullet separator those bytes were meant to be. */
  const Separator: string := " \U{2022} "

  /** The placeholder while there are no tips, otherwise the tips joined by `sep`. */
  function TipLine(tips: seq<string>, sep: string): (text: string)
    ensures tips == [] ==> text == Placeholder
    ensures |tips| == 1 ==> text == tips[0]
  {
    if |tips| > 0 then JoinWith(tips, sep) else Placeholder
  }

  /** The tip line as written in the source. */
  function TipTextAsWritten(tips: seq<string>): (text: string)
    ensures tips == [] ==> text == Placeholder
    ensures |tips| == 1 ==> text == tips[0]
  {
    TipLine(tips, SeparatorAsWritten)
  }

  /** The tip line with the intended bullet separator. */
  function TipText(tips: seq<string>): (text: string)
    ensures tips == [] ==> text == Placeholder
    ensures |tips| == 1 ==> text == tips[0]
  {
    TipLine(tips, Separator)
  }

  /** Where tip `i` starts in the joined line: the earlier tips and one separator after each. */
  function TipOffset(tips: seq<string>, sep: string, i: nat): nat
    requires i <= |tips|
  {
    if i == 0 then 0 else |tips[0]| + |sep| + TipOffset(tips[1..], sep, i - 1)
  }

  /** A slice of the second half of a concatenation is a slice of that half. */
  lemma SliceOfSecond(a: string, b: string, lo: nat, hi: nat)
    requires lo <= hi <= |b|
    ensures (a + b)[|a| + lo..|a| + hi] == b[lo..hi]
  {
  }

  /** Every tip appears, unchanged and in order, at its offset, with the separator right after it unless it is last. */
  lemma {:induction false} TipAtOffset(tips: seq<string>, sep: string, i: nat)
    requires i < |tips|
    ensures var line, o := TipLine(tips, sep), TipOffset(tips, sep, i);
      && o + |tips[i]| <= |line| && line[o..o + |tips[i]|] == tips[i]
      && (i + 1 < |tips| ==> o + |tips[i]| + |sep| <= |line| && line[o + |tips[i]|..o + |tips[i]| + |sep|] == sep)
    decreases i
  {
    if |tips| == 1 {
      assert TipLine(tips, sep)[0..|tips[0]|] == tips[0];
    } else {
      var head, rest := tips[0] + sep, JoinWith(tips[1..], sep);
      assert TipLine(tips, sep) == head + rest;
      if i == 0 {
        HeadSlices(tips[0], sep, rest);
      } else {
        TipAtOffset(tips[1..], sep, i - 1);
        assert rest == TipLine(tips[1..], sep);
        var o, n := TipOffset(tips[1..], sep, i - 1), |tips[i]|;
        assert tips[1..][i - 1] == tips[i];
        assert TipOffset(tips, sep, i) == |head| + o;
        SliceOfSecond(head, rest, o, o + n);
        if i + 1 < |tips| {
          SliceOfSecond(head, rest, o + n, o + n + |sep|);
        }
      }
    }
  }

  /** The first piece and the separator after it sit at the front of the line. */
  lemma HeadSlices(x: string, sep: string, rest: string)
    ensures (x + sep + rest)[..|x|] == x
    ensures (x + sep + rest)[|x|..|x| + |sep|] == sep
  {
  }

  /** The line for two tip lists in a row is their lines joined by one separator. */
  lemma TipLineAppend(a: seq<string>, b: seq<string>, sep: string)
    requires a != [] && b != []
    ensures TipLine(a + b, sep) == TipLine(a, sep) + sep + TipLine(b, sep)
  {
    JoinWithAppend(a, b, sep);
  }

  /** The as-written separator contains no bullet: two tips show the three stray characters between them. */
  lemma AsWrittenShowsNoBullet(x: string, y: string)
    requires '\U{2022}' !in x && '\U{2022}' !in y
    ensures TipTextAsWritten([x, y]) == x + " \U{E2}\U{20AC}\U{A2} " + y
    ensures '\U{2022}' !in TipTextAsWritten([x, y])
  {
    TwoTips(x, y, SeparatorAsWritten);
    var line := TipTextAsWritten([x, y]);
    assert line == x + SeparatorAsWritten + y;
    forall k | 0 <= k < |line| ensures line[k] != '\U{2022}' {
      if k < |x| {
        assert line[k] == x[k];
      } else if k < |x| + 5 {
        assert line[k] == SeparatorAsWritten[k - |x|];
      } else {
        assert line[k] == y[k - |x| - 5];
      }
    }
  }

  /** With the intended separator, two tips are shown with a bullet between them. */
  lemma BulletBetweenTips(x: string, y: string)
    ensures TipText([x, y]) == x + " \U{2022} " + y
    ensures TipText([x, y])[|x| + 1] == '\U{2022}'
  {
    TwoTips(x, y, Separator);
  }

  lemma TwoTips(x: string, y: string, sep: string)
    ensures TipLine([x, y], sep) == x + sep + y
  {
    assert [x, y][1..] == [y];
    assert JoinWith([y], sep) == y;
    assert JoinWith([x, y], sep) == x + sep + JoinWith([y], sep);
  }
}
