/** The string operations the workflow scripts use: prefix and substring
    tests, `str.lstrip`, `str.split`/`str.join` on one separator character,
    `os.path.join`, decimal rendering of a port and ASCII lower-casing. */
module Text {

  predicate IsPrefix(p: string, s: string) { |p| <= |s| && s[..|p|] == p }

  predicate IsSuffix(p: string, s: string) { |p| <= |s| && s[|s| - |p|..] == p }

  lemma PrefixOfConcat(a: string, b: string)
    ensures IsPrefix(a, a + b)
  {
    assert (a + b)[..|a|] == a;
  }

  lemma SuffixOfConcat(a: string, b: string)
    ensures IsSuffix(b, a + b)
  {
    assert (a + b)[|a|..] == b;
  }

  /** Python's `pat in s` for strings. */
  predicate Contains(s: string, pat: string)
    decreases |s|
  {
    IsPrefix(pat, s) || (|s| > 0 && Contains(s[1..], pat))
  }

  /** `s.lstrip(c)`. */
  function LStrip(s: string, c: char): (r: string)
    ensures |r| <= |s|
    ensures r == [] || r[0] != c
    decreases |s|
  {
    if |s| > 0 && s[0] == c then LStrip(s[1..], c) else s
  }

  /** `LStrip` removes a prefix of `s`, and all of it is `c`. */
  lemma {:induction false} LStripRemovesOnly(s: string, c: char)
    ensures IsSuffix(LStrip(s, c), s)
    ensures forall i :: 0 <= i < |s| - |LStrip(s, c)| ==> s[i] == c
    decreases |s|
  {
    if |s| > 0 && s[0] == c {
      LStripRemovesOnly(s[1..], c);
      var r := LStrip(s, c);
      assert s[1..][|s| - 1 - |r|..] == s[|s| - |r|..];
      forall i | 0 <= i < |s| - |LStrip(s, c)| ensures s[i] == c {
        if i > 0 {
          assert s[i] == s[1..][i - 1];
        }
      }
    }
  }

  /** `s.split(c)[-1]`: what follows the last `c` (all of `s` when there is none). */
  function AfterLast(s: string, c: char): (r: string)
    ensures c !in r && |r| <= |s|
  {
    if |s| == 0 then ""
    else if s[|s| - 1] == c then ""
    else AfterLast(s[..|s| - 1], c) + [s[|s| - 1]]
  }

  /** `AfterLast` is a suffix of `s` that is all of `s` or follows a `c`. */
  lemma {:induction false} AfterLastIsSuffix(s: string, c: char)
    ensures var r := AfterLast(s, c);
      IsSuffix(r, s) && (r == s || s[|s| - |r| - 1] == c)
    decreases |s|
  {
    if |s| > 0 && s[|s| - 1] != c {
      var s' := s[..|s| - 1];
      AfterLastIsSuffix(s', c);
      var r' := AfterLast(s', c);
      var r := AfterLast(s, c);
      assert r == r' + [s[|s| - 1]];
      assert s[|s| - |r|..] == s'[|s'| - |r'|..] + [s[|s| - 1]];
      if r' != s' {
        assert s[|s| - |r| - 1] == s'[|s'| - |r'| - 1];
      }
    }
  }

  /** `AfterLast` is the only suffix of `s` free of `c` that is all of `s`
      or follows a `c`. */
  lemma {:induction false} AfterLastUnique(s: string, x: string, c: char)
    requires c !in x && IsSuffix(x, s)
    requires x == s || s[|s| - |x| - 1] == c
    ensures AfterLast(s, c) == x
    decreases |s|
  {
    if |s| > 0 && s[|s| - 1] != c {
      assert |x| > 0;
      var s' := s[..|s| - 1];
      var x' := x[..|x| - 1];
      assert x[|x| - 1] == s[|s| - 1];
      assert s'[|s'| - |x'|..] == x';
      if x != s {
        assert s'[|s'| - |x'| - 1] == s[|s| - |x| - 1];
      } else {
        assert x' == s';
      }
      AfterLastUnique(s', x', c);
      assert x' + [x[|x| - 1]] == x;
    }
  }

  /** A leading `c` does not change the last `c`-separated piece. */
  lemma {:induction false} AfterLastDropFirst(s: string, c: char)
    requires |s| > 0 && s[0] == c
    ensures AfterLast(s[1..], c) == AfterLast(s, c)
  {
    var t := s[1..];
    assert s == [c] + t;
    var x := AfterLast(t, c);
    AfterLastIsSuffix(t, c);
    assert |x| <= |t| < |s|;
    assert s[|s| - |x|..] == t[|t| - |x|..] == x;
    assert IsSuffix(x, s) && c !in x;
    if x == t {
      assert |s| - |x| - 1 == 0;
      assert s[|s| - |x| - 1] == c;
    } else {
      assert s[|s| - |x| - 1] == t[|t| - |x| - 1] == c;
    }
    AfterLastUnique(s, x, c);
  }

  /** The last `c`-separated piece of `s` survives stripping `c` from the front. */
  lemma {:induction false} AfterLastOfLStrip(s: string, c: char)
    ensures AfterLast(LStrip(s, c), c) == AfterLast(s, c)
    decreases |s|
  {
    if |s| > 0 && s[0] == c {
      AfterLastOfLStrip(s[1..], c);
      AfterLastDropFirst(s, c);
    }
  }

  /** Stripping `c` from the front of `s + t` leaves `t` in place when `t`
      holds no `c`. */
  lemma {:induction false} LStripKeepsTail(s: string, t: string, c: char)
    requires c !in t
    ensures IsSuffix(t, LStrip(s + t, c))
    decreases |s|
  {
    if |s| == 0 {
      assert s + t == t;
    } else if s[0] == c {
      assert (s + t)[1..] == s[1..] + t;
      LStripKeepsTail(s[1..], t, c);
    } else {
      assert LStrip(s + t, c) == s + t;
    }
  }

  /** `sep.join(ws)` for a one-character separator. */
  function Join(ws: seq<string>, sep: char): string
    decreases |ws|
  {
    if |ws| == 0 then ""
    else if |ws| == 1 then ws[0]
    else ws[0] + [sep] + Join(ws[1..], sep)
  }

  /** `s.split(sep)`: the pieces between occurrences of `sep`, empty ones included. */
  function Split(s: string, sep: char): (r: seq<string>)
    ensures |r| > 0
    decreases |s|
  {
    if |s| == 0 then [""]
    else if s[0] == sep then [""] + Split(s[1..], sep)
    else var rest := Split(s[1..], sep); [[s[0]] + rest[0]] + rest[1..]
  }

  lemma {:induction false} SplitWord(w: string, sep: char)
    requires sep !in w
    ensures Split(w, sep) == [w]
    decreases |w|
  {
    if |w| > 0 {
      SplitWord(w[1..], sep);
      assert [w[0]] + w[1..] == w;
    }
  }

  lemma {:induction false} SplitAfterWord(w: string, rest: string, sep: char)
    requires sep !in w
    ensures Split(w + [sep] + rest, sep) == [w] + Split(rest, sep)
    decreases |w|
  {
    if |w| == 0 {
      assert w + [sep] + rest == [sep] + rest;
      assert ([sep] + rest)[1..] == rest;
    } else {
      var s := w + [sep] + rest;
      assert s[1..] == w[1..] + [sep] + rest;
      SplitAfterWord(w[1..], rest, sep);
      assert [w[0]] + w[1..] == w;
    }
  }

  /** Splitting a joined list on the separator gives the list back, as long as
      no piece holds the separator. */
  lemma {:induction false} SplitJoin(ws: seq<string>, sep: char)
    requires |ws| > 0
    requires forall i :: 0 <= i < |ws| ==> sep !in ws[i]
    ensures Split(Join(ws, sep), sep) == ws
    decreases |ws|
  {
    if |ws| == 1 {
      SplitWord(ws[0], sep);
    } else {
      SplitJoin(ws[1..], sep);
      SplitAfterWord(ws[0], Join(ws[1..], sep), sep);
      assert [ws[0]] + ws[1..] == ws;
    }
  }

  /** `s.partition(c)[0]`: what precedes the first `c` (all of `s` when there is none). */
  function Before(s: string, c: char): (r: string)
    ensures c !in r
    ensures IsPrefix(r, s)
    ensures r == s || (|r| < |s| && s[|r|] == c)
    decreases |s|
  {
    if |s| == 0 then ""
    else if s[0] == c then ""
    else [s[0]] + Before(s[1..], c)
  }

  lemma {:induction false} BeforeCut(x: string, r: string, c: char)
    requires c !in x
    ensures Before(x + [c] + r, c) == x
    decreases |x|
  {
    if |x| == 0 {
      assert (x + [c] + r)[0] == c;
    } else {
      assert (x + [c] + r)[1..] == x[1..] + [c] + r;
      BeforeCut(x[1..], r, c);
      assert [x[0]] + x[1..] == x;
    }
  }

  /** Two strings cut at their first `c` agree piece by piece when they are equal. */
  lemma CutAtFirst(x: string, r: string, y: string, s: string, c: char)
    requires c !in x && c !in y
    requires x + [c] + r == y + [c] + s
    ensures x == y && r == s
  {
    BeforeCut(x, r, c);
    BeforeCut(y, s, c);
    var t := x + [c] + r;
    assert r == t[|x| + 1..] && s == t[|y| + 1..];
  }

  /** `os.path.join(a, b)` on POSIX for two strings. */
  function PathJoin(a: string, b: string): (r: string)
    ensures IsSuffix(b, r)
    ensures IsPrefix("/", b) ==> r == b
  {
    if IsPrefix("/", b) then b
    else if a == "" || a[|a| - 1] == '/' then a + b
    else a + "/" + b
  }

  /** `os.path.join(a, b)` of a directory that does not end in '/' and a
      relative name puts one '/' between them. */
  lemma PathJoinChild(a: string, b: string)
    requires a != [] && a[|a| - 1] != '/' && b != [] && b[0] != '/'
    ensures PathJoin(a, b) == a + "/" + b
  {
    assert !IsPrefix("/", b) by {
      assert b[..1][0] != "/"[0];
    }
  }

  function DigitChar(d: nat): char
    requires d < 10
  {
    "0123456789"[d]
  }

  /** The decimal rendering of `n`, as `str(n)` gives it. */
  function Decimal(n: nat): (r: string)
    ensures |r| > 0
    ensures forall i :: 0 <= i < |r| ==> '0' <= r[i] <= '9'
  {
    if n < 10 then [DigitChar(n)] else Decimal(n / 10) + [DigitChar(n % 10)]
  }

  function LowerChar(c: char): char
  {
    if 'A' <= c <= 'Z' then (c as int + 32) as char else c
  }

  /** `s.lower()` on ASCII text. */
  function Lower(s: string): (r: string)
    ensures |r| == |s|
    ensures forall i :: 0 <= i < |s| ==> r[i] == LowerChar(s[i])
  {
    seq(|s|, i requires 0 <= i < |s| => LowerChar(s[i]))
  }

  /** `str(b).lower()`, the form the scripts pass a boolean flag in. */
  function BoolFlag(b: bool): (r: string)
    ensures r == (if b then "true" else "false")
  {
    var shown := if b then "True" else "False";
    assert Lower("True") == "true";
    assert Lower("False") == "false";
    Lower(shown)
  }
}
