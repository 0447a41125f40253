/**
 * Whitespace trimming shared by the backend (Python `str.strip()`) and the
 * frontend (JavaScript `String.prototype.trim()`).  The two languages
 * disagree on what counts as whitespace, so each gets its own character set.
 */
module Text {

  /** Characters for which Python's `str.isspace()` holds. */
  const PythonWhitespace: set<char> := {
    '\t', '\n', '\U{0B}', '\U{0C}', '\r', '\U{1C}', '\U{1D}', '\U{1E}', '\U{1F}', ' ',
    '\U{85}', '\U{A0}', '\U{1680}', '\U{2000}', '\U{2001}', '\U{2002}', '\U{2003}',
    '\U{2004}', '\U{2005}', '\U{2006}', '\U{2007}', '\U{2008}', '\U{2009}', '\U{200A}',
    '\U{2028}', '\U{2029}', '\U{202F}', '\U{205F}', '\U{3000}'
  }

  /** WhiteSpace and LineTerminator code points stripped by JavaScript's `trim()`. */
  const JsWhitespace: set<char> := {
    '\t', '\n', '\U{0B}', '\U{0C}', '\r', ' ', '\U{A0}', '\U{1680}', '\U{2000}', '\U{2001}',
    '\U{2002}', '\U{2003}', '\U{2004}', '\U{2005}', '\U{2006}', '\U{2007}', '\U{2008}',
    '\U{2009}', '\U{200A}', '\U{2028}', '\U{2029}', '\U{202F}', '\U{205F}', '\U{3000}',
    '\U{FEFF}'
  }

  predicate AllIn(s: string, ws: set<char>) {
    forall k :: 0 <= k < |s| ==> s[k] in ws
  }

  /** Drops the leading characters of `s` that are in `ws`. */
  function TrimStart(s: string, ws: set<char>): (r: string)
    ensures |r| <= |s| && r == s[|s| - |r|..]
    ensures r == [] || r[0] !in ws
    ensures AllIn(s[..|s| - |r|], ws)
  {
    if |s| > 0 && s[0] in ws then
      var r := TrimStart(s[1..], ws);
      DroppedPrefix(s, |s| - |r|, ws);
      r
    else s
  }

  /** A blank first character and a blank rest of the prefix make the whole prefix blank. */
  lemma DroppedPrefix(s: string, k: nat, ws: set<char>)
    requires 0 < k <= |s| && s[0] in ws && AllIn(s[1..][..k - 1], ws)
    ensures s[1..][k - 1..] == s[k..] && AllIn(s[..k], ws)
  {
    forall i | 0 < i < k ensures s[i] in ws {
      assert s[i] == s[1..][..k - 1][i - 1];
    }
  }

  /** Drops the trailing characters of `s` that are in `ws`. */
  function TrimEnd(s: string, ws: set<char>): (r: string)
    ensures |r| <= |s| && r == s[..|r|]
    ensures r == [] || r[|r| - 1] !in ws
    ensures AllIn(s[|r|..], ws)
  {
    if |s| > 0 && s[|s| - 1] in ws then
      var r := TrimEnd(s[..|s| - 1], ws);
      assert s[..|s| - 1][|r|..] + [s[|s| - 1]] == s[|r|..];
      r
    else s
  }

  /** Both ends trimmed; blank exactly when every character is in `ws`. */
  function Strip(s: string, ws: set<char>): (r: string)
    ensures r == [] || (r[0] !in ws && r[|r| - 1] !in ws)
    ensures |r| <= |s|
    ensures r == [] <==> AllIn(s, ws)
  {
    StripBlank(s, ws);
    TrimEnd(TrimStart(s, ws), ws)
  }

  /** Trimming leaves nothing exactly when every character is in `ws`. */
  lemma StripBlank(s: string, ws: set<char>)
    ensures TrimEnd(TrimStart(s, ws), ws) == [] <==> AllIn(s, ws)
  {
    TrimStartKeepsBlank(s, ws);
    TrimEndBlank(TrimStart(s, ws), ws);
  }

  /** Cutting leading whitespace neither makes nor unmakes a blank string. */
  lemma {:induction false} TrimStartKeepsBlank(s: string, ws: set<char>)
    ensures AllIn(s, ws) <==> AllIn(TrimStart(s, ws), ws)
    decreases |s|
  {
    if |s| > 0 && s[0] in ws {
      TrimStartKeepsBlank(s[1..], ws);
      if AllIn(s[1..], ws) {
        forall k | 0 < k < |s| ensures s[k] in ws {
          assert s[k] == s[1..][k - 1];
        }
      }
    }
  }

  /** For a string not starting with whitespace, cutting trailing whitespace leaves nothing only when it was already empty. */
  lemma TrimEndBlank(a: string, ws: set<char>)
    requires a == [] || a[0] !in ws
    ensures TrimEnd(a, ws) == [] <==> AllIn(a, ws)
  {
    if TrimEnd(a, ws) == [] {
      assert a[0..] == a;
    }
  }

  lemma AllInConcat(x: string, y: string, ws: set<char>)
    ensures AllIn(x + y, ws) <==> AllIn(x, ws) && AllIn(y, ws)
  {
    if AllIn(x + y, ws) {
      forall k | 0 <= k < |x| ensures x[k] in ws {
        assert (x + y)[k] == x[k];
      }
      forall k | 0 <= k < |y| ensures y[k] in ws {
        assert (x + y)[|x| + k] == y[k];
      }
    }
    if AllIn(x, ws) && AllIn(y, ws) {
      forall k | 0 <= k < |x + y| ensures (x + y)[k] in ws {
        if k < |x| {
          assert (x + y)[k] == x[k];
        } else {
          assert (x + y)[k] == y[k - |x|];
        }
      }
    }
  }

  /** `r` is `s[i..]` cut short, with only characters of `ws` on either side of it. */
  predicate IsTrimmedInfix(s: string, r: string, i: nat, ws: set<char>) {
    && i + |r| <= |s| && r == s[i..i + |r|]
    && AllIn(s[..i], ws) && AllIn(s[i + |r|..], ws)
  }

  /** The trimmed string is what is left of `s` once the leading and trailing characters in `ws` are removed. */
  lemma StripInfix(s: string, ws: set<char>)
    ensures var a := TrimStart(s, ws); IsTrimmedInfix(s, TrimEnd(a, ws), |s| - |a|, ws)
  {
    var a := TrimStart(s, ws);
    var r := TrimEnd(a, ws);
    InfixOfTrims(s, a, r, ws);
  }

  /** A whitespace prefix cut from `s`, then a whitespace suffix cut from the rest, leave an infix of `s`. */
  lemma InfixOfTrims(s: string, a: string, r: string, ws: set<char>)
    requires |a| <= |s| && a == s[|s| - |a|..] && AllIn(s[..|s| - |a|], ws)
    requires |r| <= |a| && r == a[..|r|] && AllIn(a[|r|..], ws)
    ensures IsTrimmedInfix(s, r, |s| - |a|, ws)
  {
    assert a[|r|..] == s[|s| - |a| + |r|..];
  }

  /** Trimming a string that neither starts nor ends with whitespace changes nothing. */
  lemma StripUntouched(s: string, ws: set<char>)
    requires s == [] || (s[0] !in ws && s[|s| - 1] !in ws)
    ensures Strip(s, ws) == s
  {
  }

  /** Trimming twice is trimming once. */
  lemma StripIdempotent(s: string, ws: set<char>)
    ensures Strip(Strip(s, ws), ws) == Strip(s, ws)
  {
    var t := Strip(s, ws);
    assert t == [] || (t[0] !in ws && t[|t| - 1] !in ws);
    StripUntouched(t, ws);
  }

  /** The pieces with `sep` between neighbours: Python's `sep.join(pieces)` and JavaScript's `pieces.join(sep)`. */
  function JoinWith(pieces: seq<string>, sep: string): (s: string)
    ensures pieces == [] ==> s == []
    ensures |pieces| >= 1 ==> |pieces[0]| <= |s| && s[..|pieces[0]|] == pieces[0]
  {
    if |pieces| == 0 then []
    else if |pieces| == 1 then pieces[0]
    else pieces[0] + sep + JoinWith(pieces[1..], sep)
  }

  /** Joining a concatenation puts one separator between the two joined halves. */
  lemma {:induction false} JoinWithAppend(p1: seq<string>, p2: seq<string>, sep: string)
    requires |p1| >= 1 && |p2| >= 1
    ensures JoinWith(p1 + p2, sep) == JoinWith(p1, sep) + sep + JoinWith(p2, sep)
  {
    if |p1| > 1 {
      JoinWithAppend(p1[1..], p2, sep);
      assert (p1 + p2)[1..] == p1[1..] + p2;
    } else {
      assert (p1 + p2)[1..] == p2;
    }
  }
}
