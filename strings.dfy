/** The Python string operations the core relies on, stated over `seq<char>`:
    `str.lower`, the `in` operator on strings, `str.split`, `str.join`,
    `str * n`, `str(int)` and `int(digits)`. */
module Strings {

  /** `c.lower()` for one character; only the ASCII letters are case-mapped. */
  function LowerChar(c: char): (r: char)
    ensures 'A' <= c <= 'Z' ==> r as int == c as int + 32
    ensures !('A' <= c <= 'Z') ==> r == c
  {
    if 'A' <= c <= 'Z' then (c as int + 32) as char else c
  }

  /** `s.lower()`: same length, every character lower-cased in place. */
  function Lower(s: string): (r: string)
    ensures |r| == |s|
    ensures forall i :: 0 <= i < |s| ==> r[i] == LowerChar(s[i])
  {
    seq(|s|, i requires 0 <= i < |s| => LowerChar(s[i]))
  }

  /** `needle` occurs in `hay` starting at position `i`. */
  predicate OccursAt(hay: string, needle: string, i: int)
  {
    0 <= i && i + |needle| <= |hay| && hay[i..i + |needle|] == needle
  }

  /** `needle in hay`. */
  predicate Contains(hay: string, needle: string)
    decreases |hay|
  {
    if |hay| < |needle| then false
    else hay[..|needle|] == needle || Contains(hay[1..], needle)
  }

  /** `Contains` holds exactly when the needle occurs at some position. */
  lemma {:induction false} ContainsIff(hay: string, needle: string)
    ensures Contains(hay, needle) <==> exists i :: OccursAt(hay, needle, i)
    decreases |hay|
  {
    if |hay| < |needle| {
      forall i ensures !OccursAt(hay, needle, i) {}
    } else if hay[..|needle|] == needle {
      assert OccursAt(hay, needle, 0);
    } else {
      ContainsIff(hay[1..], needle);
      if Contains(hay[1..], needle) {
        var i :| OccursAt(hay[1..], needle, i);
        assert hay[1..][i..i + |needle|] == hay[i + 1..i + 1 + |needle|];
        assert OccursAt(hay, needle, i + 1);
      } else {
        forall i | OccursAt(hay, needle, i) ensures false {
          assert i != 0;
          assert hay[1..][i - 1..i - 1 + |needle|] == hay[i..i + |needle|];
          assert OccursAt(hay[1..], needle, i - 1);
        }
      }
    }
  }

  /** A text that contains a needle is at least as long as the needle. */
  lemma ContainsLength(hay: string, needle: string)
    requires Contains(hay, needle)
    ensures |needle| <= |hay|
  {
  }

  /** Whatever is concatenated around a string contains it. */
  lemma {:induction false} ContainsInfix(a: string, needle: string, b: string)
    ensures Contains(a + needle + b, needle)
    decreases |a|
  {
    if a == [] {
      assert (a + needle + b)[..|needle|] == needle;
    } else {
      assert (a + needle + b)[1..] == a[1..] + needle + b;
      ContainsInfix(a[1..], needle, b);
    }
  }

  /** A text that is made of `a`, `needle` and `b` holds `needle` right after `a`. */
  lemma InfixAt(text: string, a: string, needle: string, b: string)
    requires text == a + needle + b
    ensures OccursAt(text, needle, |a|) && Contains(text, needle)
  {
    assert text[|a|..|a| + |needle|] == needle;
    ContainsInfix(a, needle, b);
  }

  /** Text added after a string that contains a needle keeps it. */
  lemma ContainsPrefix(x: string, y: string, needle: string)
    requires Contains(x, needle)
    ensures Contains(x + y, needle)
  {
    ContainsWithin([], x, y, needle);
    assert [] + x + y == x + y;
  }

  /** An occurrence inside a part is an occurrence inside the whole. */
  lemma ContainsWithin(a: string, part: string, b: string, needle: string)
    requires Contains(part, needle)
    ensures Contains(a + part + b, needle)
  {
    ContainsIff(part, needle);
    var i :| OccursAt(part, needle, i);
    assert (a + part + b)[|a| + i..|a| + i + |needle|] == part[i..i + |needle|];
    assert OccursAt(a + part + b, needle, |a| + i);
    ContainsIff(a + part + b, needle);
  }

  /** `sep.join(xs)`. */
  function Join(sep: string, xs: seq<string>): string
    decreases |xs|
  {
    if |xs| == 0 then ""
    else if |xs| == 1 then xs[0]
    else xs[0] + sep + Join(sep, xs[1..])
  }

  /** Every joined item occurs in the joined string. */
  lemma {:induction false} JoinContainsEach(sep: string, xs: seq<string>, k: nat)
    requires k < |xs|
    ensures Contains(Join(sep, xs), xs[k])
    decreases |xs|
  {
    if |xs| == 1 {
      ContainsInfix([], xs[0], []);
      assert [] + xs[0] + [] == xs[0];
    } else if k == 0 {
      ContainsInfix([], xs[0], sep + Join(sep, xs[1..]));
      assert [] + xs[0] + (sep + Join(sep, xs[1..])) == Join(sep, xs);
    } else {
      JoinContainsEach(sep, xs[1..], k - 1);
      ContainsWithin(xs[0] + sep, Join(sep, xs[1..]), [], xs[k]);
      assert xs[0] + sep + Join(sep, xs[1..]) + [] == Join(sep, xs);
    }
  }

  /** A join of two or more items starts with the first item and a separator. */
  lemma JoinFirst(sep: string, xs: seq<string>)
    requires |xs| >= 2
    ensures Join(sep, xs) == xs[0] + sep + Join(sep, xs[1..])
    ensures Join(sep, xs)[..|xs[0]| + |sep|] == xs[0] + sep
  {
  }

  /** A join of two or more items ends with a separator and the last item. */
  lemma {:induction false} JoinLast(sep: string, xs: seq<string>)
    requires |xs| >= 2
    ensures Join(sep, xs) == Join(sep, xs[..|xs| - 1]) + sep + xs[|xs| - 1]
    decreases |xs|
  {
    var n := |xs| - 1;
    if |xs| > 2 {
      JoinLast(sep, xs[1..]);
      assert xs[1..][..n - 1] == xs[..n][1..];
      assert xs[1..][n - 1] == xs[n];
    } else {
      assert xs[1..] == [xs[1]];
      assert xs[..n] == [xs[0]];
    }
  }

  /** A join of two or more items opens with the first item and a separator
      and closes with a separator and the last item. */
  lemma JoinEnds(sep: string, xs: seq<string>, first: string, last: string)
    requires |xs| >= 2 && xs[0] == first && xs[|xs| - 1] == last
    ensures |Join(sep, xs)| >= |first| + |sep| + |last|
    ensures Join(sep, xs)[..|first| + |sep|] == first + sep
    ensures Join(sep, xs)[|Join(sep, xs)| - |sep| - |last|..] == sep + last
  {
    JoinFirst(sep, xs);
    JoinLast(sep, xs);
    var text := Join(sep, xs);
    var front := Join(sep, xs[..|xs| - 1]);
    assert |front| >= |first| by {
      if |xs| > 2 {
        JoinFirst(sep, xs[..|xs| - 1]);
      }
    }
    assert text == front + (sep + last);
    assert text[|front|..] == sep + last;
  }

  /** A text that embeds a joined list mentions every item of it. */
  lemma JoinedItemsWithin(text: string, a: string, list: string, b: string, sep: string, xs: seq<string>)
    requires text == a + list + b
    requires list == Join(sep, xs)
    ensures Contains(text, list)
    ensures forall k :: 0 <= k < |xs| ==> Contains(text, xs[k])
  {
    ContainsInfix(a, list, b);
    forall k | 0 <= k < |xs| ensures Contains(text, xs[k]) {
      JoinContainsEach(sep, xs, k);
      ContainsWithin(a, list, b, xs[k]);
    }
  }

  /** `s.split(sep)` for a non-empty separator: the pieces between the
      non-overlapping occurrences of `sep`, found from left to right. */
  function Split(s: string, sep: string): (pieces: seq<string>)
    requires |sep| > 0
    ensures |pieces| >= 1
    decreases |s|
  {
    if |s| < |sep| then [s]
    else if s[..|sep|] == sep then [""] + Split(s[|sep|..], sep)
    else
      var rest := Split(s[1..], sep);
      [[s[0]] + rest[0]] + rest[1..]
  }

  /** Joining an item in front of a list. */
  lemma JoinCons(sep: string, x: string, xs: seq<string>)
    ensures xs == [] ==> Join(sep, [x] + xs) == x
    ensures xs != [] ==> Join(sep, [x] + xs) == x + sep + Join(sep, xs)
  {
    assert ([x] + xs)[1..] == xs;
  }

  /** Joining the pieces with the separator gives back the text. */
  lemma {:induction false} JoinSplit(s: string, sep: string)
    requires |sep| > 0
    ensures Join(sep, Split(s, sep)) == s
    decreases |s|
  {
    if |s| < |sep| {
    } else if s[..|sep|] == sep {
      JoinSplit(s[|sep|..], sep);
      JoinSplitAtSeparator(s, sep);
    } else {
      JoinSplit(s[1..], sep);
      JoinSplitPastChar(s, sep);
    }
  }

  /** The step of `JoinSplit` where the text opens with the separator. */
  lemma JoinSplitAtSeparator(s: string, sep: string)
    requires 0 < |sep| <= |s| && s[..|sep|] == sep
    requires Join(sep, Split(s[|sep|..], sep)) == s[|sep|..]
    ensures Join(sep, Split(s, sep)) == s
  {
    var tail := s[|sep|..];
    var rest := Split(tail, sep);
    assert Split(s, sep) == [""] + rest;
    JoinCons(sep, "", rest);
    assert s == s[..|sep|] + tail;
  }

  lemma ConcatRegroup(a: string, b: string, c: string, d: string)
    ensures a + b + c + d == a + (b + c + d)
  {
  }

  /** The step of `JoinSplit` where the first character starts no separator. */
  lemma JoinSplitPastChar(s: string, sep: string)
    requires 0 < |sep| <= |s| && s[..|sep|] != sep
    requires Join(sep, Split(s[1..], sep)) == s[1..]
    ensures Join(sep, Split(s, sep)) == s
  {
    var rest := Split(s[1..], sep);
    JoinPrepend(sep, s[0], rest, s[1..]);
    assert Split(s, sep) == [[s[0]] + rest[0]] + rest[1..];
    assert s == [s[0]] + s[1..];
  }

  /** Putting a character in front of the first item puts it in front of the join. */
  lemma JoinPrepend(sep: string, c: char, xs: seq<string>, joined: string)
    requires |xs| >= 1 && Join(sep, xs) == joined
    ensures Join(sep, [[c] + xs[0]] + xs[1..]) == [c] + joined
  {
    var x, r := xs[0], xs[1..];
    assert xs == [x] + r;
    JoinCons(sep, [c] + x, r);
    JoinCons(sep, x, r);
    if r != [] {
      ConcatRegroup([c], x, sep, Join(sep, r));
    }
  }

  /** The first piece is a prefix of the text. */
  lemma {:induction false} SplitFirstIsPrefix(s: string, sep: string)
    requires |sep| > 0
    ensures |Split(s, sep)[0]| <= |s| && s[..|Split(s, sep)[0]|] == Split(s, sep)[0]
    decreases |s|
  {
    if |s| < |sep| {
    } else if s[..|sep|] == sep {
    } else {
      SplitFirstIsPrefix(s[1..], sep);
    }
  }

  /** The first cut is at the leftmost occurrence of the separator: none
      starts inside the first piece, one starts right after it when there
      is a second piece, and a single piece is the whole text. */
  lemma {:induction false} SplitFirstCut(s: string, sep: string)
    requires |sep| > 0
    ensures forall i :: 0 <= i < |Split(s, sep)[0]| ==> !OccursAt(s, sep, i)
    ensures |Split(s, sep)| == 1 ==> Split(s, sep)[0] == s
    ensures |Split(s, sep)| > 1 ==> OccursAt(s, sep, |Split(s, sep)[0]|)
    decreases |s|
  {
    if |s| < |sep| {
    } else if s[..|sep|] == sep {
      assert s[0..|sep|] == sep;
    } else {
      var rest := Split(s[1..], sep);
      SplitFirstCut(s[1..], sep);
      assert Split(s, sep)[0] == [s[0]] + rest[0];
      forall i | 0 <= i < |Split(s, sep)[0]| ensures !OccursAt(s, sep, i) {
        if i > 0 && i + |sep| <= |s| {
          assert !OccursAt(s[1..], sep, i - 1);
          var here, there := s[i..i + |sep|], s[1..][i - 1..i - 1 + |sep|];
          assert forall k :: 0 <= k < |sep| ==> here[k] == there[k];
          assert here == there;
        } else if i == 0 {
          assert s[0..|sep|] == s[..|sep|];
        }
      }
      if |rest| > 1 {
        var k := |rest[0]|;
        assert s[k + 1..k + 1 + |sep|] == s[1..][k..k + |sep|];
      } else {
        assert s == [s[0]] + s[1..];
      }
    }
  }

  /** No piece contains the separator. */
  lemma {:induction false} SplitPiecesHaveNoSeparator(s: string, sep: string, k: nat)
    requires |sep| > 0 && k < |Split(s, sep)|
    ensures !Contains(Split(s, sep)[k], sep)
    decreases |s|
  {
    var pieces := Split(s, sep);
    if |s| < |sep| {
      NotContainsShort(s, sep);
    } else if s[..|sep|] == sep {
      if k == 0 {
        NotContainsShort("", sep);
      } else {
        SplitPiecesHaveNoSeparator(s[|sep|..], sep, k - 1);
      }
    } else {
      var rest := Split(s[1..], sep);
      if k == 0 {
        SplitPiecesHaveNoSeparator(s[1..], sep, 0);
        SplitFirstIsPrefix(s[1..], sep);
        var first := [s[0]] + rest[0];
        assert pieces[0] == first;
        if |first| >= |sep| {
          assert first[..|sep|] == s[..|sep|];
        }
        assert first[1..] == rest[0];
      } else {
        SplitPiecesHaveNoSeparator(s[1..], sep, k);
      }
    }
  }

  lemma NotContainsShort(s: string, needle: string)
    requires |s| < |needle|
    ensures !Contains(s, needle)
  {
  }

  /** `c * n` for a one-character string. */
  function Repeat(c: char, n: nat): (r: string)
    ensures |r| == n && forall i :: 0 <= i < n ==> r[i] == c
  {
    seq(n, _ => c)
  }

  predicate IsDigit(c: char)
  {
    '0' <= c <= '9'
  }

  predicate AllDigits(s: string)
  {
    forall i :: 0 <= i < |s| ==> IsDigit(s[i])
  }

  predicate NoDigits(s: string)
  {
    forall i :: 0 <= i < |s| ==> !IsDigit(s[i])
  }

  /** `int(d)` for a string of decimal digits (leading zeros allowed). */
  function DigitsValue(d: string): nat
    requires AllDigits(d)
    decreases |d|
  {
    if d == [] then 0
    else DigitsValue(d[..|d| - 1]) * 10 + (d[|d| - 1] as int - '0' as int)
  }

  function DigitChar(n: nat): (c: char)
    requires n < 10
    ensures IsDigit(c) && c as int - '0' as int == n
  {
    ('0' as int + n) as char
  }

  /** `str(n)` for a non-negative integer. */
  function NatToString(n: nat): (s: string)
    decreases n
  {
    if n < 10 then [DigitChar(n)] else NatToString(n / 10) + [DigitChar(n % 10)]
  }

  /** `str(i)` for any integer. */
  function IntToString(i: int): string
  {
    if i < 0 then "-" + NatToString(-i) else NatToString(i)
  }

  /** Reading back what `str` writes for a natural number gives the number. */
  lemma {:induction false} NatToStringRoundTrip(n: nat)
    ensures |NatToString(n)| > 0 && AllDigits(NatToString(n))
    ensures DigitsValue(NatToString(n)) == n
    decreases n
  {
    if n >= 10 {
      NatToStringRoundTrip(n / 10);
      var s := NatToString(n);
      assert s[..|s| - 1] == NatToString(n / 10);
    }
  }
}
