/**
 * The backend's CORS configuration: the allowed origins are read from the
 * `CORS_ORIGINS` environment variable (or a built-in default), split on
 * commas, stripped of whitespace, with blank pieces dropped.
 */
module Cors {
  import opened Wrappers
  import opened Text

  const DefaultOrigins: string := "http://localhost:5173,http://127.0.0.1:5173"

  /**
   * Python's `s.split(sep)` for a one-character separator: always at least
   * one piece, no piece contains the separator, and joining the pieces
   * gives back `s`.
   */
  function Split(s: string, sep: char): (r: seq<string>)
    ensures |r| >= 1
    ensures forall i :: 0 <= i < |r| ==> sep !in r[i]
    ensures JoinWith(r, [sep]) == s
    decreases |s|
  {
    if s == [] then [[]]
    else
      var rest := Split(s[1..], sep);
      if s[0] == sep then
        assert s == [sep] + s[1..];
        [[]] + rest
      else
        var r := [[s[0]] + rest[0]] + rest[1..];
        assert r[1..] == rest[1..];
        assert s == [s[0]] + s[1..];
        r
  }

  /** Splitting is the inverse of joining pieces that do not contain the separator. */
  lemma {:induction false} SplitJoin(pieces: seq<string>, sep: char)
    requires |pieces| >= 1
    requires forall i :: 0 <= i < |pieces| ==> sep !in pieces[i]
    ensures Split(JoinWith(pieces, [sep]), sep) == pieces
    decreases |JoinWith(pieces, [sep])|, |pieces|
  {
    var s := JoinWith(pieces, [sep]);
    if pieces[0] == [] {
      if |pieces| > 1 {
        assert s == [sep] + JoinWith(pieces[1..], [sep]);
        assert s[1..] == JoinWith(pieces[1..], [sep]);
        SplitJoin(pieces[1..], sep);
        assert pieces == [[]] + pieces[1..];
      }
    } else {
      var c := pieces[0][0];
      var shorter := [pieces[0][1..]] + pieces[1..];
      assert pieces[0] == [c] + pieces[0][1..];
      assert shorter[1..] == pieces[1..];
      assert s == [c] + JoinWith(shorter, [sep]);
      assert s[1..] == JoinWith(shorter, [sep]);
      SplitJoin(shorter, sep);
      assert pieces == [[c] + shorter[0]] + shorter[1..];
    }
  }

  /** `[o.strip() for o in pieces if o.strip()]` */
  function StrippedNonBlank(pieces: seq<string>, ws: set<char>): (r: seq<string>)
    ensures |r| <= |pieces|
    ensures forall i :: 0 <= i < |r| ==> r[i] != [] && r[i][0] !in ws && r[i][|r[i]| - 1] !in ws
  {
    if pieces == [] then []
    else
      var o := Strip(pieces[0], ws);
      (if o != [] then [o] else []) + StrippedNonBlank(pieces[1..], ws)
  }

  /** Nothing is kept exactly when every piece is blank. */
  lemma {:induction false} NothingKeptIffAllBlank(pieces: seq<string>, ws: set<char>)
    ensures StrippedNonBlank(pieces, ws) == [] <==> forall j :: 0 <= j < |pieces| ==> AllIn(pieces[j], ws)
  {
    if pieces != [] {
      NothingKeptIffAllBlank(pieces[1..], ws);
      assert forall j :: 1 <= j < |pieces| ==> pieces[j] == pieces[1..][j - 1];
    }
  }

  /** The origin list for the raw configuration string. */
  function CorsOrigins(raw: string): (r: seq<string>)
    ensures forall i :: 0 <= i < |r| ==> r[i] != [] && r[i][0] !in PythonWhitespace && r[i][|r[i]| - 1] !in PythonWhitespace
  {
    StrippedNonBlank(Split(raw, ','), PythonWhitespace)
  }

  /** `os.getenv("CORS_ORIGINS", default)`: the default applies only when the variable is unset. */
  function GetCorsOrigins(env: Option<string>): (origins: seq<string>)
    ensures env.None? ==> origins == CorsOrigins(DefaultOrigins)
    ensures env.Some? ==> origins == CorsOrigins(env.value)
  {
    CorsOrigins(env.GetOr(DefaultOrigins))
  }

  /** Splitting `a`, separator, `b` gives the pieces of `a` followed by the pieces of `b`. */
  lemma SplitAppend(a: string, b: string, sep: char)
    ensures Split(a + [sep] + b, sep) == Split(a, sep) + Split(b, sep)
  {
    var pieces := Split(a, sep) + Split(b, sep);
    JoinWithAppend(Split(a, sep), Split(b, sep), [sep]);
    SplitJoin(pieces, sep);
  }

  lemma {:induction false} StrippedNonBlankAppend(p1: seq<string>, p2: seq<string>, ws: set<char>)
    ensures StrippedNonBlank(p1 + p2, ws) == StrippedNonBlank(p1, ws) + StrippedNonBlank(p2, ws)
  {
    if p1 == [] {
      assert p1 + p2 == p2;
    } else {
      var o := Strip(p1[0], ws);
      var head: seq<string> := if o != [] then [o] else [];
      assert StrippedNonBlank(p1 + p2, ws) == head + StrippedNonBlank(p1[1..] + p2, ws) by {
        assert (p1 + p2)[1..] == p1[1..] + p2 && (p1 + p2)[0] == p1[0];
      }
      StrippedNonBlankAppend(p1[1..], p2, ws);
      assert head + (StrippedNonBlank(p1[1..], ws) + StrippedNonBlank(p2, ws))
          == (head + StrippedNonBlank(p1[1..], ws)) + StrippedNonBlank(p2, ws);
    }
  }

  /**
   * Origins keep the configuration's order: the origins of `a,b` are the
   * origins of `a` followed by those of `b`.
   */
  lemma OriginsOfJoinedConfig(a: string, b: string)
    ensures CorsOrigins(a + "," + b) == CorsOrigins(a) + CorsOrigins(b)
  {
    SplitAppend(a, b, ',');
    StrippedNonBlankAppend(Split(a, ','), Split(b, ','), PythonWhitespace);
  }

  /** A comma-free segment contributes its stripped form, or nothing when it is blank. */
  lemma OriginsOfSegment(s: string)
    requires ',' !in s
    ensures CorsOrigins(s) == if AllIn(s, PythonWhitespace) then [] else [Strip(s, PythonWhitespace)]
  {
    SplitJoin([s], ',');
    assert [s][1..] == [];
  }

  /** Blank input, or input of only commas and whitespace, allows no origin at all. */
  lemma {:induction false} NoOriginsIffBlank(raw: string)
    ensures CorsOrigins(raw) == [] <==> AllIn(raw, PythonWhitespace + {','})
  {
    var pieces := Split(raw, ',');
    NothingKeptIffAllBlank(pieces, PythonWhitespace);
    JoinAllIn(pieces, ',', PythonWhitespace);
  }

  /** A joined string is all whitespace-or-separator exactly when every piece is all whitespace. */
  lemma {:induction false} JoinAllIn(pieces: seq<string>, sep: char, ws: set<char>)
    requires forall i :: 0 <= i < |pieces| ==> sep !in pieces[i]
    ensures AllIn(JoinWith(pieces, [sep]), ws + {sep}) <==> forall j :: 0 <= j < |pieces| ==> AllIn(pieces[j], ws)
  {
    if |pieces| > 1 {
      JoinAllIn(pieces[1..], sep, ws);
      var s := JoinWith(pieces, [sep]);
      var rest := JoinWith(pieces[1..], [sep]);
      assert s == pieces[0] + [sep] + rest;
      assert forall j :: 1 <= j < |pieces| ==> pieces[j] == pieces[1..][j - 1];
      if AllIn(s, ws + {sep}) {
        forall k | 0 <= k < |pieces[0]| ensures pieces[0][k] in ws {
          assert s[k] == pieces[0][k];
        }
        forall k | 0 <= k < |rest| ensures rest[k] in ws + {sep} {
          assert s[|pieces[0]| + 1 + k] == rest[k];
        }
      }
    } else if |pieces| == 1 {
      assert JoinWith(pieces, [sep]) == pieces[0];
      if AllIn(pieces[0], ws + {sep}) {
        forall k | 0 <= k < |pieces[0]| ensures pieces[0][k] in ws {
          assert pieces[0][k] != sep;
        }
      }
    }
  }

  /** A comma-free segment with no surrounding whitespace is kept as it is. */
  lemma OriginsOfCleanSegment(s: string)
    requires ',' !in s && s != [] && s[0] !in PythonWhitespace && s[|s| - 1] !in PythonWhitespace
    ensures CorsOrigins(s) == [s]
  {
    OriginsOfSegment(s);
    StripUntouched(s, PythonWhitespace);
  }

  /** The default configuration is two segments joined by a comma. */
  lemma DefaultOriginsSegments()
    ensures DefaultOrigins == "http://localhost:5173" + "," + "http://127.0.0.1:5173"
  {
  }

  /** Each default origin is a clean comma-free segment, so it is kept as it is. */
  lemma DefaultSegmentsKept()
    ensures CorsOrigins("http://localhost:5173") == ["http://localhost:5173"]
    ensures CorsOrigins("http://127.0.0.1:5173") == ["http://127.0.0.1:5173"]
  {
    var a, b := "http://localhost:5173", "http://127.0.0.1:5173";
    assert ',' !in a && a[0] == 'h' && a[|a| - 1] == '3';
    assert ',' !in b && b[0] == 'h' && b[|b| - 1] == '3';
    OriginsOfCleanSegment(a);
    OriginsOfCleanSegment(b);
  }

  /** A variable that is set but empty does not fall back to the default: it allows no origin. */
  lemma EmptySettingAllowsNothing()
    ensures GetCorsOrigins(Some("")) == []
  {
    NoOriginsIffBlank("");
  }

  /** With the variable unset, exactly the two local development origins are allowed. */
  lemma DefaultCorsOrigins()
    ensures GetCorsOrigins(None) == ["http://localhost:5173", "http://127.0.0.1:5173"]
  {
    DefaultSegmentsKept();
    DefaultOriginsSegments();
    OriginsOfJoinedConfig("http://localhost:5173", "http://127.0.0.1:5173");
  }
}
