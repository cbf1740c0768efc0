/**
 * The Python string operations the modelled code relies on: `str.split`
 * with a one-character separator, `str.join`, `str.replace` of one
 * character, `str(n)` and `int(s)` for integers, and the path rebuild
 * (`basefp = basefp + a + "/"`) of the analysis apps.
 */
module Text {
  import opened Wrappers

  /** Python's `s.split(d)`: the pieces between the separators, in order. */
  function Split(s: string, d: char): (r: seq<string>)
    ensures |r| >= 1
    decreases |s|
  {
    if |s| == 0 then [""]
    else
      var rest := Split(s[1..], d);
      if s[0] == d then [""] + rest
      else [[s[0]] + rest[0]] + rest[1..]
  }

  /** Python's `d.join(parts)` for a one-character separator. */
  function Join(parts: seq<string>, d: char): string
  {
    if |parts| == 0 then ""
    else if |parts| == 1 then parts[0]
    else parts[0] + [d] + Join(parts[1..], d)
  }

  /** Python's `s[-1]`. */
  function Last<T>(s: seq<T>): T
    requires |s| > 0
  {
    s[|s| - 1]
  }

  /** Every segment followed by the separator: the string the analysis apps'
      `reconstruct_basefilepath` loop accumulates. */
  function Terminated(segments: seq<string>, d: char): string
  {
    if |segments| == 0 then ""
    else Terminated(segments[..|segments| - 1], d) + Last(segments) + [d]
  }

  lemma {:induction false} SplitWithoutSeparator(s: string, d: char)
    requires d !in s
    ensures Split(s, d) == [s]
  {
    if |s| > 0 {
      SplitWithoutSeparator(s[1..], d);
      assert [s[0]] + s[1..] == s;
    }
  }

  /** A split yields more than one piece exactly when the separator occurs. */
  lemma {:induction false} SplitSingleIff(s: string, d: char)
    ensures |Split(s, d)| == 1 <==> d !in s
  {
    if |s| > 0 {
      SplitSingleIff(s[1..], d);
      assert s == [s[0]] + s[1..];
    }
  }

  /** A prefix free of the separator is glued onto the first piece. */
  lemma {:induction false} SplitPrefix(a: string, b: string, d: char)
    requires d !in a
    ensures Split(a + b, d) == [a + Split(b, d)[0]] + Split(b, d)[1..]
  {
    if |a| == 0 {
      assert a + b == b;
      assert a + Split(b, d)[0] == Split(b, d)[0];
      assert [Split(b, d)[0]] + Split(b, d)[1..] == Split(b, d);
    } else {
      assert (a + b)[1..] == a[1..] + b;
      SplitPrefix(a[1..], b, d);
      assert [a[0]] + (a[1..] + Split(b, d)[0]) == a + Split(b, d)[0];
    }
  }

  /** Splitting at a separator splits the two sides independently. */
  lemma {:induction false} SplitConcat(a: string, b: string, d: char)
    ensures Split(a + [d] + b, d) == Split(a, d) + Split(b, d)
  {
    if |a| == 0 {
      assert a + [d] + b == [d] + b;
      assert ([d] + b)[1..] == b;
    } else {
      var t := a[1..] + [d] + b;
      assert a + [d] + b == [a[0]] + t;
      assert a == [a[0]] + a[1..];
      SplitConcat(a[1..], b, d);
      SplitCons(a[0], t, d);
      SplitCons(a[0], a[1..], d);
      PushFront(a[0], Split(a[1..], d), Split(b, d), d);
    }
  }

  /** The step of SplitCons commutes with appending further pieces. */
  lemma PushFront(c: char, ra: seq<string>, rb: seq<string>, d: char)
    requires |ra| >= 1
    ensures (if c == d then [""] + (ra + rb) else [[c] + (ra + rb)[0]] + (ra + rb)[1..])
            == (if c == d then [""] + ra else [[c] + ra[0]] + ra[1..]) + rb
  {
    if c != d {
      assert (ra + rb)[1..] == ra[1..] + rb;
    }
  }

  /** One step of the split: the first character either ends a piece or joins the first one. */
  lemma SplitCons(c: char, t: string, d: char)
    ensures Split([c] + t, d) == if c == d then [""] + Split(t, d)
                                 else [[c] + Split(t, d)[0]] + Split(t, d)[1..]
  {
    assert ([c] + t)[1..] == t;
  }

  /** `d.join(s.split(d)) == s`. */
  lemma {:induction false} JoinSplit(s: string, d: char)
    ensures Join(Split(s, d), d) == s
  {
    if |s| > 0 {
      var rest := Split(s[1..], d);
      JoinSplit(s[1..], d);
      if s[0] == d {
        assert Join([""] + rest, d) == "" + [d] + Join(rest, d);
      } else {
        var parts := [[s[0]] + rest[0]] + rest[1..];
        if |rest| == 1 {
          assert Join(parts, d) == [s[0]] + rest[0];
        } else {
          assert parts[1..] == rest[1..];
          assert Join(parts, d) == [s[0]] + rest[0] + [d] + Join(rest[1..], d);
        }
      }
      assert [s[0]] + s[1..] == s;
    }
  }

  /** No piece of a split contains the separator. */
  lemma {:induction false} SplitPiecesLackSeparator(s: string, d: char)
    ensures forall i :: 0 <= i < |Split(s, d)| ==> d !in Split(s, d)[i]
  {
    if |s| > 0 {
      SplitPiecesLackSeparator(s[1..], d);
    }
  }

  /** Every character of a piece comes from the split string. */
  lemma {:induction false} SplitPiecesWithin(s: string, d: char)
    ensures forall i, c :: 0 <= i < |Split(s, d)| && c in Split(s, d)[i] ==> c in s
  {
    if |s| > 0 {
      var rest := Split(s[1..], d);
      SplitPiecesWithin(s[1..], d);
      forall i, c | 0 <= i < |Split(s, d)| && c in Split(s, d)[i]
        ensures c in s
      {
        assert s == [s[0]] + s[1..];
        if s[0] != d && i == 0 {
          assert Split(s, d)[0] == [s[0]] + rest[0];
        } else if s[0] != d {
          assert Split(s, d)[i] == rest[i];
        } else if i > 0 {
          assert Split(s, d)[i] == rest[i - 1];
        }
      }
    }
  }

  lemma {:induction false} JoinSnoc(p: seq<string>, x: string, d: char)
    requires |p| >= 1
    ensures Join(p + [x], d) == Join(p, d) + [d] + x
  {
    if |p| > 1 {
      assert (p + [x])[1..] == p[1..] + [x];
      JoinSnoc(p[1..], x, d);
    }
  }

  /** The segments before the last, each terminated, then the last one: the joined string. */
  lemma {:induction false} TerminatedThenLast(segments: seq<string>, d: char)
    requires |segments| >= 1
    ensures Terminated(segments[..|segments| - 1], d) + Last(segments) == Join(segments, d)
  {
    var n := |segments|;
    if n > 1 {
      var p := segments[..n - 1];
      TerminatedThenLast(p, d);
      assert p[..|p| - 1] == segments[..n - 2];
      JoinSnoc(p, Last(segments), d);
      assert p + [Last(segments)] == segments;
    }
  }

  /** Popping the last segment of `s.split(d)` and rebuilding the rest reproduces `s`. */
  lemma PathRebuild(s: string, d: char)
    ensures var parts := Split(s, d);
            Terminated(parts[..|parts| - 1], d) + Last(parts) == s
  {
    TerminatedThenLast(Split(s, d), d);
    JoinSplit(s, d);
  }

  /** The last piece after a separator-terminated prefix is the part after it. */
  lemma LastSegmentAfterPrefix(dir: string, name: string, d: char)
    requires dir == [] || Last(dir) == d
    requires d !in name
    ensures Last(Split(dir + name, d)) == name
  {
    SplitWithoutSeparator(name, d);
    if dir != [] {
      var front := dir[..|dir| - 1];
      assert dir + name == front + [d] + name;
      SplitConcat(front, name, d);
    } else {
      assert dir + name == name;
    }
  }

  /** Python's `s.replace(from, to)` for single characters. */
  function ReplaceChar(s: string, from: char, to: char): (r: string)
    ensures |r| == |s|
    ensures forall i :: 0 <= i < |s| ==> r[i] == (if s[i] == from then to else s[i])
  {
    if |s| == 0 then ""
    else [if s[0] == from then to else s[0]] + ReplaceChar(s[1..], from, to)
  }

  /** Python's `s.replace(c, '')`. */
  function RemoveChar(s: string, c: char): (r: string)
    ensures c !in r
    ensures |r| <= |s|
    ensures c !in s ==> r == s
  {
    if |s| == 0 then ""
    else if s[0] == c then RemoveChar(s[1..], c)
    else assert [s[0]] + s[1..] == s; [s[0]] + RemoveChar(s[1..], c)
  }

  predicate IsDigit(ch: char) {
    '0' <= ch <= '9'
  }

  predicate AllDigits(s: string) {
    forall i :: 0 <= i < |s| ==> IsDigit(s[i])
  }

  function DigitChar(k: nat): (ch: char)
    requires k < 10
    ensures IsDigit(ch) && ch as int - '0' as int == k
  {
    (48 + k) as char
  }

  /** Python's `str(n)` for a non-negative integer. */
  function NatToString(n: nat): (r: string)
    ensures |r| >= 1 && AllDigits(r)
  {
    if n < 10 then [DigitChar(n)]
    else NatToString(n / 10) + [DigitChar(n % 10)]
  }

  /** Python's `str(n)`. */
  function IntToString(n: int): string {
    if n < 0 then "-" + NatToString(-n) else NatToString(n)
  }

  /** The value of a string of decimal digits, most significant first. */
  function DigitsValue(s: string): nat
    requires AllDigits(s)
  {
    if |s| == 0 then 0
    else DigitsValue(s[..|s| - 1]) * 10 + (Last(s) as int - '0' as int)
  }

  /**
   * Python's `int(s)` on text that is an optional sign followed by ASCII
   * decimal digits. On text outside this grammar the result is `None`,
   * treated as Python's ValueError; surrounding whitespace, '_' between
   * digits and non-ASCII digits, which `int()` also accepts, are outside it.
   */
  function ParseInt(s: string): Option<int> {
    if |s| > 0 && (s[0] == '-' || s[0] == '+') then
      var body := s[1..];
      if |body| > 0 && AllDigits(body) then
        var v: int := DigitsValue(body);
        Some(if s[0] == '-' then -v else v)
      else None
    else if |s| > 0 && AllDigits(s) then Some(DigitsValue(s))
    else None
  }

  lemma {:induction false} DigitsValueOfNatToString(n: nat)
    ensures DigitsValue(NatToString(n)) == n
  {
    if n >= 10 {
      var s := NatToString(n);
      DigitsValueOfNatToString(n / 10);
      assert s[..|s| - 1] == NatToString(n / 10);
    }
  }

  /** `int(str(n)) == n`. */
  lemma ParseIntOfIntToString(n: int)
    ensures ParseInt(IntToString(n)) == Some(n)
  {
    if n < 0 {
      DigitsValueOfNatToString(-n);
      assert ("-" + NatToString(-n))[1..] == NatToString(-n);
    } else {
      DigitsValueOfNatToString(n);
    }
  }

  /** A string of digits has none of the characters the file-name parsers split on. */
  lemma DigitsHaveNoSeparators(s: string)
    requires AllDigits(s)
    ensures '/' !in s && '_' !in s && '.' !in s && '-' !in s
  {
  }
}
