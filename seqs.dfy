/** Sequence and string helpers standing for the JavaScript built-ins the viewer
    relies on: `Array.from(new Set(xs))`, `flat`, `join` and `split`. */
module Seqs {

  ghost predicate NoDup<T>(s: seq<T>) {
    forall i, j :: 0 <= i < j < |s| ==> s[i] != s[j]
  }

  /** `Array.from(new Set(s))`: the distinct elements of `s`, each at the place of
      its first occurrence (a JavaScript Set iterates in insertion order). */
  function Distinct<T(==)>(s: seq<T>): (r: seq<T>)
    ensures NoDup(r)
    ensures forall i :: 0 <= i < |r| ==> r[i] in s
    ensures forall i :: 0 <= i < |s| ==> s[i] in r
    ensures |r| <= |s|
  {
    if s == [] then []
    else
      var init := s[..|s| - 1];
      var d := Distinct(init);
      assert s == init + [s[|s| - 1]];
      if s[|s| - 1] in d then d else d + [s[|s| - 1]]
  }

  /** Adding elements at the end never reorders what is already there: the distinct
      elements of a prefix are a prefix of the distinct elements of the whole. */
  lemma {:induction false} DistinctPrefix<T>(s: seq<T>, t: seq<T>)
    ensures |Distinct(s)| <= |Distinct(s + t)|
    ensures Distinct(s + t)[..|Distinct(s)|] == Distinct(s)
    decreases |t|
  {
    if t == [] {
      assert s + t == s;
    } else {
      var t0 := t[..|t| - 1];
      DistinctPrefix(s, t0);
      assert (s + t)[..|s + t| - 1] == s + t0;
    }
  }

  /** Deduplicating a prefix first does not change the distinct elements of the
      whole: only first occurrences count. */
  lemma {:induction false} DistinctOfDistinct<T>(s: seq<T>, t: seq<T>)
    ensures Distinct(Distinct(s) + t) == Distinct(s + t)
    decreases |t|
  {
    if t == [] {
      assert Distinct(s) + t == Distinct(s);
      assert s + t == s;
      DistinctOfNoDup(Distinct(s));
    } else {
      var t0, e := t[..|t| - 1], t[|t| - 1];
      DistinctOfDistinct(s, t0);
      assert (Distinct(s) + t)[..|Distinct(s) + t| - 1] == Distinct(s) + t0;
      assert (s + t)[..|s + t| - 1] == s + t0;
    }
  }

  /** A sequence without duplicates is its own distinct-element list. */
  lemma {:induction false} DistinctOfNoDup<T>(s: seq<T>)
    requires NoDup(s)
    ensures Distinct(s) == s
  {
    if s != [] {
      var init := s[..|s| - 1];
      assert NoDup(init);
      DistinctOfNoDup(init);
      assert s[|s| - 1] !in init;
      assert s == init + [s[|s| - 1]];
    }
  }

  /** A non-empty sequence of one repeated value has that value as its only
      distinct element. */
  lemma {:induction false} DistinctConstant<T>(s: seq<T>, x: T)
    requires s != [] && forall i :: 0 <= i < |s| ==> s[i] == x
    ensures Distinct(s) == [x]
  {
    var init := s[..|s| - 1];
    if init != [] {
      DistinctConstant(init, x);
    }
  }

  /** `ss.flat()`: the concatenation of a sequence of sequences. */
  function Concat<T>(ss: seq<seq<T>>): (r: seq<T>)
    ensures |ss| == 1 ==> r == ss[0]
  {
    if ss == [] then [] else Concat(ss[..|ss| - 1]) + ss[|ss| - 1]
  }

  lemma {:induction false} ConcatAppend<T>(a: seq<seq<T>>, b: seq<seq<T>>)
    ensures Concat(a + b) == Concat(a) + Concat(b)
    decreases |b|
  {
    if b == [] {
      assert a + b == a;
    } else {
      var b0 := b[..|b| - 1];
      ConcatAppend(a, b0);
      assert (a + b)[..|a + b| - 1] == a + b0;
    }
  }

  /** Extending a prefix by one part extends its concatenation by that part. */
  lemma ConcatPrefixStep<T>(ss: seq<seq<T>>, i: nat)
    requires i < |ss|
    ensures Concat(ss[..i + 1]) == Concat(ss[..i]) + ss[i]
  {
    assert ss[..i + 1][..i] == ss[..i];
  }

  /** Every element of the concatenation comes from one of the parts. */
  lemma {:induction false} InConcat<T>(ss: seq<seq<T>>, x: T)
    requires x in Concat(ss)
    ensures exists i :: 0 <= i < |ss| && x in ss[i]
  {
    if ss != [] {
      var init := ss[..|ss| - 1];
      if x in Concat(init) {
        InConcat(init, x);
        var i :| 0 <= i < |init| && x in init[i];
        assert ss[i] == init[i];
      } else {
        assert x in ss[|ss| - 1];
      }
    }
  }

  /** `xs.join(sep)`. */
  function Join(xs: seq<string>, sep: string): string {
    if xs == [] then ""
    else if |xs| == 1 then xs[0]
    else xs[0] + sep + Join(xs[1..], sep)
  }

  /** `s.split(c)` for a one-character separator: the pieces between separators,
      always at least one. */
  function Split(s: string, c: char): (r: seq<string>)
    ensures |r| >= 1
  {
    if s == [] then [""]
    else if s[0] == c then [""] + Split(s[1..], c)
    else
      var rest := Split(s[1..], c);
      [[s[0]] + rest[0]] + rest[1..]
  }

  /** A text that holds no separator splits into itself. */
  lemma {:induction false} SplitWhole(a: string, c: char)
    requires c !in a
    ensures Split(a, c) == [a]
  {
    if a != [] {
      SplitWhole(a[1..], c);
      assert a == [a[0]] + a[1..];
    }
  }

  /** Splitting stops at the first separator. */
  lemma {:induction false} SplitFirst(a: string, b: string, c: char)
    requires c !in a
    ensures Split(a + [c] + b, c) == [a] + Split(b, c)
  {
    if a == [] {
      assert a + [c] + b == [c] + b;
    } else {
      SplitFirst(a[1..], b, c);
      assert (a + [c] + b)[1..] == a[1..] + [c] + b;
      assert a == [a[0]] + a[1..];
    }
  }

  /** Splitting undoes joining, when no piece holds the separator. */
  lemma {:induction false} SplitJoin(xs: seq<string>, c: char)
    requires |xs| >= 1
    requires forall i :: 0 <= i < |xs| ==> c !in xs[i]
    ensures Split(Join(xs, [c]), c) == xs
  {
    if |xs| == 1 {
      SplitWhole(xs[0], c);
    } else {
      SplitJoin(xs[1..], c);
      SplitFirst(xs[0], Join(xs[1..], [c]), c);
      assert xs == [xs[0]] + xs[1..];
    }
  }

  /** A joined text holds the separator only where it was put or inside a piece. */
  lemma {:induction false} JoinFree(xs: seq<string>, sep: string, c: char)
    requires c !in sep
    requires forall i :: 0 <= i < |xs| ==> c !in xs[i]
    ensures c !in Join(xs, sep)
  {
    if |xs| > 1 {
      JoinFree(xs[1..], sep, c);
    }
  }

  /** `hay.includes(needle)`, searching from the front. */
  function Includes(hay: string, needle: string): bool
    decreases |hay|
  {
    if |needle| > |hay| then false
    else hay[..|needle|] == needle || (hay != [] && Includes(hay[1..], needle))
  }

  /** `needle` occurs in `hay` starting at position `k`. */
  ghost predicate OccursAt(hay: string, needle: string, k: int)
  {
    0 <= k && k + |needle| <= |hay| && hay[k..k + |needle|] == needle
  }

  /** `Includes` finds exactly the occurrences at some position. */
  lemma {:induction false} IncludesAt(hay: string, needle: string)
    ensures Includes(hay, needle) <==> exists k :: OccursAt(hay, needle, k)
    decreases |hay|
  {
    if |needle| <= |hay| && hay != [] {
      IncludesAt(hay[1..], needle);
      if hay[..|needle|] == needle {
        assert OccursAt(hay, needle, 0);
      }
      if Includes(hay[1..], needle) {
        var k :| OccursAt(hay[1..], needle, k);
        assert OccursAt(hay, needle, k + 1);
      }
      if exists k :: OccursAt(hay, needle, k) {
        var k :| OccursAt(hay, needle, k);
        if k > 0 {
          assert OccursAt(hay[1..], needle, k - 1);
        } else {
          assert hay[..|needle|] == needle;
        }
      }
    } else if |needle| <= |hay| {
      assert OccursAt(hay, needle, 0);
    } else {
      forall k ensures !OccursAt(hay, needle, k) {}
    }
  }

  /** A needle whose first character is absent from the text is not found. */
  lemma {:induction false} FirstCharAbsent(hay: string, needle: string)
    requires needle != [] && needle[0] !in hay
    ensures !Includes(hay, needle)
    decreases |hay|
  {
    if |needle| <= |hay| {
      assert hay[..|needle|][0] == hay[0];
      FirstCharAbsent(hay[1..], needle);
    }
  }
}
