/** String helpers standing for the parts of Go's `strings`, `fmt` and
    `regexp` packages that the build core uses: `strings.Join`,
    `strings.ToLower`, literal `ReplaceAllString`, `%d` and `%02d`. `Split`
    and the digit parsers are not called by the build core: they are the
    readers the model's round-trip lemmas invert its formats with. */
module Text {

  datatype Option<T> = None | Some(value: T)

  /** `strings.Join(parts, sep)`. */
  function Join(parts: seq<string>, sep: string): string
  {
    if |parts| == 0 then ""
    else if |parts| == 1 then parts[0]
    else parts[0] + sep + Join(parts[1..], sep)
  }

  /** Joining one more part adds exactly the separator and that part. */
  lemma {:induction false} JoinSnoc(parts: seq<string>, p: string, sep: string)
    requires |parts| > 0
    ensures Join(parts + [p], sep) == Join(parts, sep) + sep + p
  {
    if |parts| == 1 {
      assert parts + [p] == [parts[0], p];
      assert [p][1..] == [];
    } else {
      assert (parts + [p])[1..] == parts[1..] + [p];
      JoinSnoc(parts[1..], p, sep);
    }
  }

  /** `pat` occurs in `s` starting at index `i`. */
  predicate OccursAt(s: string, pat: string, i: int)
  {
    0 <= i <= |s| - |pat| && s[i..i + |pat|] == pat
  }

  /** `pat` occurs somewhere in `s`. */
  ghost predicate Contains(s: string, pat: string)
  {
    exists i :: OccursAt(s, pat, i)
  }

  /** Go's `regexp.MustCompile(pat).ReplaceAllString(s, rep)` for a pattern
      that matches only itself and a replacement without `$`: every
      leftmost, non-overlapping occurrence of `pat`, scanning from the left,
      is replaced by `rep`. */
  function ReplaceAll(s: string, pat: string, rep: string): string
    requires |pat| > 0
    decreases |s|
  {
    if |s| < |pat| then s
    else if s[..|pat|] == pat then rep + ReplaceAll(s[|pat|..], pat, rep)
    else [s[0]] + ReplaceAll(s[1..], pat, rep)
  }

  /** `ReplaceAll` changes its input only where the placeholder occurs. */
  lemma {:induction false} ReplaceAllChangesOnlyAtOccurrence(s: string, pat: string, rep: string)
    requires |pat| > 0
    ensures ReplaceAll(s, pat, rep) != s ==> Contains(s, pat)
    decreases |s|
  {
    if |s| >= |pat| {
      assert s[0..0 + |pat|] == s[..|pat|];
      if s[..|pat|] == pat {
        assert OccursAt(s, pat, 0);
      } else {
        ReplaceAllChangesOnlyAtOccurrence(s[1..], pat, rep);
        assert [s[0]] + s[1..] == s;
        if ReplaceAll(s[1..], pat, rep) != s[1..] {
          var i :| OccursAt(s[1..], pat, i);
          assert s[i + 1..i + 1 + |pat|] == s[1..][i..i + |pat|];
          assert OccursAt(s, pat, i + 1);
        }
      }
    }
  }

  /** A text without the placeholder comes back unchanged. */
  lemma ReplaceAllAbsent(s: string, pat: string, rep: string)
    requires |pat| > 0 && !Contains(s, pat)
    ensures ReplaceAll(s, pat, rep) == s
  {
    ReplaceAllChangesOnlyAtOccurrence(s, pat, rep);
  }

  /** A prefix holding no character that could start the placeholder is
      copied through untouched. */
  lemma {:induction false} ReplaceAllSkipsPrefix(x: string, s: string, pat: string, rep: string)
    requires |pat| > 0 && pat[0] !in x
    ensures ReplaceAll(x + s, pat, rep) == x + ReplaceAll(s, pat, rep)
    decreases |x|
  {
    if |x| > 0 {
      var t := x + s;
      assert t[0] == x[0];
      if |t| >= |pat| {
        assert t[..|pat|][0] == x[0] != pat[0];
      }
      assert t[1..] == x[1..] + s;
      ReplaceAllSkipsPrefix(x[1..], s, pat, rep);
      assert [x[0]] + x[1..] == x;
    } else {
      assert x + s == s;
    }
  }

  /** A template `x + pat + y` whose fixed parts cannot start the
      placeholder resolves to `x + rep + y`. */
  lemma TemplateResolves(x: string, y: string, pat: string, rep: string)
    requires |pat| > 0 && pat[0] !in x && pat[0] !in y
    ensures ReplaceAll(x + pat + y, pat, rep) == x + rep + y
  {
    assert x + pat + y == x + (pat + y);
    ReplaceAllSkipsPrefix(x, pat + y, pat, rep);
    var t := pat + y;
    assert t[..|pat|] == pat;
    assert t[|pat|..] == y;
    ReplaceAllSkipsPrefix(y, [], pat, rep);
    assert y + [] == y;
  }

  lemma ReplaceAllAtStart(pat: string, y: string, rep: string)
    requires |pat| > 0
    ensures ReplaceAll(pat + y, pat, rep) == rep + ReplaceAll(y, pat, rep)
  {
    assert (pat + y)[..|pat|] == pat;
    assert (pat + y)[|pat|..] == y;
  }

  lemma NoStartUnchanged(s: string, pat: string, rep: string)
    requires |pat| > 0 && pat[0] !in s
    ensures ReplaceAll(s, pat, rep) == s
  {
    ReplaceAllSkipsPrefix(s, [], pat, rep);
    assert s + [] == s;
  }

  /** One substitution on a template `x pat y t` whose fixed parts cannot
      start the pattern and whose tail `t` it leaves alone. */
  lemma ReplaceOnce(x: string, y: string, t: string, pat: string, rep: string)
    requires |pat| > 0 && pat[0] !in x && pat[0] !in y
    requires ReplaceAll(t, pat, rep) == t
    ensures ReplaceAll(x + pat + y + t, pat, rep) == x + rep + y + t
  {
    assert x + pat + y + t == x + (pat + (y + t));
    ReplaceAllSkipsPrefix(x, pat + (y + t), pat, rep);
    ReplaceAllAtStart(pat, y + t, rep);
    ReplaceAllSkipsPrefix(y, t, pat, rep);
    assert x + (rep + (y + t)) == x + rep + y + t;
  }

  /** Two substitutions in a row on a template `x p1 y p2 z`, when the
      fixed parts and the first replacement cannot start either pattern and
      `p1` does not occur in `p2 z`. */
  lemma ReplaceTwoInOrder(x: string, y: string, z: string, p1: string, r1: string, p2: string, r2: string)
    requires |p1| > 0 && |p2| > 0
    requires p1[0] !in x && p1[0] !in y
    requires p2[0] !in x && p2[0] !in r1 && p2[0] !in y && p2[0] !in z
    requires ReplaceAll(p2 + z, p1, r1) == p2 + z
    ensures ReplaceAll(ReplaceAll(x + p1 + y + p2 + z, p1, r1), p2, r2) == x + r1 + y + r2 + z
  {
    var t := p2 + z;
    var mid := x + r1 + y;
    assert x + p1 + y + p2 + z == x + p1 + y + t;
    ReplaceOnce(x, y, t, p1, r1);
    assert x + r1 + y + t == mid + t;
    assert p2[0] !in mid;
    ReplaceAllSkipsPrefix(mid, t, p2, r2);
    ReplaceAllAtStart(p2, z, r2);
    NoStartUnchanged(z, p2, r2);
    assert mid + (r2 + z) == x + r1 + y + r2 + z;
  }

  /** Every occurrence is replaced: parts that cannot start the pattern,
      joined by it, come out joined by the replacement instead. */
  lemma {:induction false} ReplaceAllJoin(parts: seq<string>, pat: string, rep: string)
    requires |pat| > 0
    requires forall i :: 0 <= i < |parts| ==> pat[0] !in parts[i]
    ensures ReplaceAll(Join(parts, pat), pat, rep) == Join(parts, rep)
    decreases |parts|
  {
    if |parts| == 1 {
      NoStartUnchanged(parts[0], pat, rep);
    } else if |parts| > 1 {
      var rest := Join(parts[1..], pat);
      assert Join(parts, pat) == parts[0] + (pat + rest);
      ReplaceAllSkipsPrefix(parts[0], pat + rest, pat, rep);
      ReplaceAllAtStart(pat, rest, rep);
      ReplaceAllJoin(parts[1..], pat, rep);
      assert Join(parts, rep) == parts[0] + (rep + Join(parts[1..], rep));
    }
  }

  /** ASCII part of `strings.ToLower`. */
  function LowerChar(c: char): char
  {
    if 'A' <= c <= 'Z' then (c as int + 32) as char else c
  }

  function Lower(s: string): (r: string)
    ensures |r| == |s|
  {
    if |s| == 0 then "" else [LowerChar(s[0])] + Lower(s[1..])
  }

  /** `Lower` maps every character through `LowerChar`, in place. */
  lemma {:induction false} LowerAt(s: string)
    ensures forall i :: 0 <= i < |s| ==> Lower(s)[i] == LowerChar(s[i])
    decreases |s|
  {
    if |s| > 0 {
      LowerAt(s[1..]);
      assert Lower(s) == [LowerChar(s[0])] + Lower(s[1..]);
    }
  }

  /** Lower-casing twice is lower-casing once. */
  lemma LowerIdempotent(s: string)
    ensures Lower(Lower(s)) == Lower(s)
  {
    LowerAt(s);
    LowerAt(Lower(s));
    assert forall i :: 0 <= i < |s| ==> Lower(Lower(s))[i] == Lower(s)[i];
  }

  /** Lower-casing keeps a character that is not a letter where it was,
      and brings in no new one. */
  lemma LowerKeeps(s: string, c: char)
    requires !('A' <= c <= 'Z') && !('a' <= c <= 'z')
    ensures c in Lower(s) <==> c in s
  {
    LowerAt(s);
    if c in s {
      var i :| 0 <= i < |s| && s[i] == c;
      assert Lower(s)[i] == c;
    }
    if c in Lower(s) {
      var i :| 0 <= i < |Lower(s)| && Lower(s)[i] == c;
      assert s[i] == c;
    }
  }

  predicate IsDigit(c: char)
  {
    '0' <= c <= '9'
  }

  function Digit(d: nat): (c: char)
    requires d < 10
    ensures IsDigit(c)
  {
    ('0' as int + d) as char
  }

  function DigitValue(c: char): nat
    requires IsDigit(c)
  {
    c as int - '0' as int
  }

  /** Decimal digits of a natural number, as `%d` prints it. */
  function NatStr(n: nat): (r: string)
    ensures |r| > 0
    ensures forall i :: 0 <= i < |r| ==> IsDigit(r[i])
    ensures r[|r| - 1] == Digit(n % 10)
    decreases n
  {
    if n < 10 then [Digit(n)] else NatStr(n / 10) + [Digit(n % 10)]
  }

  /** `fmt.Sprintf("%d", n)`. */
  function IntStr(n: int): (r: string)
    ensures |r| > 0
    ensures forall i :: 0 <= i < |r| ==> IsDigit(r[i]) || r[i] == '-'
  {
    if n < 0 then "-" + NatStr(-n) else NatStr(n)
  }

  /** Go's `n % 100`, which truncates toward zero. */
  function GoRem100(n: int): (r: int)
    ensures -100 < r < 100
    ensures n >= 0 ==> r >= 0
  {
    if n >= 0 then n % 100 else -((-n) % 100)
  }

  /** `fmt.Sprintf("%02d", n)`: at least two characters, zeros after the sign. */
  function Pad2(n: int): (r: string)
    ensures |r| >= 2
    ensures forall i :: 0 <= i < |r| ==> IsDigit(r[i]) || r[i] == '-'
  {
    if n < 0 then IntStr(n) else if n < 10 then "0" + NatStr(n) else NatStr(n)
  }

  /** Value of a string of decimal digits. */
  function DigitsValue(s: string): nat
    requires forall i :: 0 <= i < |s| ==> IsDigit(s[i])
  {
    if |s| == 0 then 0 else DigitsValue(s[..|s| - 1]) * 10 + DigitValue(s[|s| - 1])
  }

  function ParseNat(s: string): Option<nat>
  {
    if |s| > 0 && forall i :: 0 <= i < |s| ==> IsDigit(s[i]) then Some(DigitsValue(s)) else None
  }

  function ParseInt(s: string): Option<int>
  {
    if |s| > 0 && s[0] == '-' then
      match ParseNat(s[1..])
      case Some(m) => Some(-(m as int))
      case None => None
    else
      match ParseNat(s)
      case Some(m) => Some(m)
      case None => None
  }

  lemma {:induction false} NatStrRoundTrip(n: nat)
    ensures ParseNat(NatStr(n)) == Some(n)
    decreases n
  {
    if n >= 10 {
      NatStrRoundTrip(n / 10);
      NatStrSnoc(n);
    } else {
      var s := [Digit(n)];
      assert NatStr(n) == s;
      assert s[..0] == [];
      assert DigitValue(s[0]) == n;
      assert DigitsValue(s) == n;
    }
  }

  /** The value of the digits of `n / 10` followed by the last digit of `n`. */
  lemma NatStrSnoc(n: nat)
    requires n >= 10
    requires ParseNat(NatStr(n / 10)) == Some(n / 10)
    ensures ParseNat(NatStr(n)) == Some(n)
  {
    var q := n / 10;
    var r := n % 10;
    var a := NatStr(q);
    var s := a + [Digit(r)];
    assert NatStr(n) == s;
    assert DigitsValue(a) == q;
    assert s[..|s| - 1] == a;
    assert DigitValue(s[|s| - 1]) == r;
    assert DigitsValue(s) == q * 10 + r;
    assert forall i :: 0 <= i < |s| ==> IsDigit(s[i]);
  }

  lemma IntStrRoundTrip(n: int)
    ensures ParseInt(IntStr(n)) == Some(n)
  {
    if n < 0 {
      NatStrRoundTrip(-n);
      assert ("-" + NatStr(-n))[1..] == NatStr(-n);
    } else {
      NatStrRoundTrip(n);
      assert IsDigit(NatStr(n)[0]);
    }
  }

  /** The last two decimal digits of `n` are `n % 100`. */
  lemma LastTwoDigits(n: nat)
    requires n >= 10
    ensures n % 100 == 10 * ((n / 10) % 10) + n % 10
  {
    var q := n / 10;
    var r0 := n % 10;
    var p := q / 10;
    var r1 := q % 10;
    assert n == 10 * q + r0;
    assert q == 10 * p + r1;
    Rem100(n, p, 10 * r1 + r0);
  }

  lemma Rem100(n: nat, p: nat, r: nat)
    requires r < 100 && n == 100 * p + r
    ensures n % 100 == r
  {
  }

  /** For a non-negative number, `%02d` of `n % 100` is exactly two digits:
      the last two decimal digits of `n`, with a leading zero when `n` has
      only one. */
  lemma Pad2IsLastTwoDigits(n: nat)
    ensures |Pad2(GoRem100(n))| == 2
    ensures Pad2(GoRem100(n)) == ("0" + NatStr(n))[|NatStr(n)| - 1..]
  {
    if n < 10 {
      Pad2OneDigit(n);
    } else {
      Pad2ManyDigits(n);
    }
  }

  lemma Pad2OneDigit(n: nat)
    requires n < 10
    ensures Pad2(GoRem100(n)) == "0" + [Digit(n)] == ("0" + NatStr(n))[|NatStr(n)| - 1..]
  {
    Rem100(n, 0, n);
    assert GoRem100(n) == n;
    var d := [Digit(n)];
    assert NatStr(n) == d;
    assert Pad2(n) == "0" + d;
    assert ("0" + d)[0..] == "0" + d;
  }

  lemma Pad2ManyDigits(n: nat)
    requires n >= 10
    ensures Pad2(GoRem100(n)) == [Digit((n / 10) % 10), Digit(n % 10)] == ("0" + NatStr(n))[|NatStr(n)| - 1..]
  {
    var q := n / 10;
    var a := NatStr(q);
    assert NatStr(n) == a + [Digit(n % 10)];
    assert ("0" + NatStr(n))[|NatStr(n)| - 1..] == [Digit(q % 10), Digit(n % 10)];
    LastTwoDigits(n);
    assert GoRem100(n) == 10 * (q % 10) + n % 10;
    Pad2TwoDigits(q % 10, n % 10);
  }

  /** `%02d` of the number with digits `d1 d0`. */
  lemma Pad2TwoDigits(d1: nat, d0: nat)
    requires d1 < 10 && d0 < 10
    ensures Pad2(10 * d1 + d0) == [Digit(d1), Digit(d0)]
  {
    var v := 10 * d1 + d0;
    if d1 > 0 {
      assert v / 10 == d1 && v % 10 == d0;
      assert NatStr(v) == NatStr(d1) + [Digit(d0)];
    }
  }


  /** The pieces of `s` between occurrences of `sep`, as `strings.Split` cuts
      them; the model's reader for the formats it round-trips. */
  function Split(s: string, sep: char): (r: seq<string>)
    ensures |r| > 0
    decreases |s|
  {
    if |s| == 0 then [""]
    else if s[0] == sep then [""] + Split(s[1..], sep)
    else
      var rest := Split(s[1..], sep);
      [[s[0]] + rest[0]] + rest[1..]
  }

  lemma {:induction false} SplitNoSep(a: string, sep: char)
    requires sep !in a
    ensures Split(a, sep) == [a]
    decreases |a|
  {
    if |a| > 0 {
      SplitNoSep(a[1..], sep);
      assert [a[0]] + a[1..] == a;
    }
  }

  /** Splitting at the first separator gives the piece before it, then the
      split of the rest. */
  lemma {:induction false} SplitAtFirst(a: string, b: string, sep: char)
    requires sep !in a
    ensures Split(a + [sep] + b, sep) == [a] + Split(b, sep)
    decreases |a|
  {
    var s := a + [sep] + b;
    if |a| == 0 {
      assert s == [sep] + b;
      assert s[1..] == b;
    } else {
      assert s[0] == a[0];
      assert s[1..] == a[1..] + [sep] + b;
      SplitAtFirst(a[1..], b, sep);
      assert [a[0]] + a[1..] == a;
    }
  }
}
