/** Small facts about sequences and strings shared by the deployment model. */
module Seqs {

  /** No element of `s` occurs twice. */
  predicate Distinct<T(==)>(s: seq<T>) {
    forall i, j :: 0 <= i < j < |s| ==> s[i] != s[j]
  }

  /** `s` with every repeated element dropped, each element kept where it first appears. */
  function Dedup<T(==, !new)>(s: seq<T>): (r: seq<T>)
    ensures Distinct(r)
    ensures forall x :: x in r <==> x in s
    ensures |r| <= |s|
  {
    if s == [] then []
    else
      var d := Dedup(s[..|s| - 1]);
      var x := s[|s| - 1];
      assert s == s[..|s| - 1] + [x];
      if x in d then d else d + [x]
  }

  /** Dedup leaves a sequence that has no repetitions unchanged. */
  lemma {:induction false} DedupOfDistinct<T(!new)>(s: seq<T>)
    requires Distinct(s)
    ensures Dedup(s) == s
  {
    if s != [] {
      var p := s[..|s| - 1];
      assert Distinct(p);
      DedupOfDistinct(p);
      assert s[|s| - 1] !in p;
      assert p + [s[|s| - 1]] == s;
    }
  }

  /** A non-empty sequence of copies of one value deduplicates to that single value. */
  lemma {:induction false} DedupOfCopies<T(!new)>(s: seq<T>, x: T)
    requires x in s
    requires forall y :: y in s ==> y == x
    ensures Dedup(s) == [x]
  {
    var p := s[..|s| - 1];
    assert s == p + [s[|s| - 1]];
    if p != [] {
      assert p[0] in s && p[0] in p;
      assert forall y :: y in p ==> y in s;
      DedupOfCopies(p, x);
      assert s[|s| - 1] in s;
      assert Dedup(s) == Dedup(p);
    }
  }

  /** `s` ends with `t`. */
  predicate EndsWith<T(==)>(s: seq<T>, t: seq<T>) {
    |t| <= |s| && s[|s| - |t|..] == t
  }

  lemma EndsWithAppend<T>(s: seq<T>, t: seq<T>)
    ensures EndsWith(s + t, t)
  {
    assert (s + t)[|s|..] == t;
  }

  /** `t` occurs in `s` as a contiguous slice. */
  predicate Contains<T(==)>(s: seq<T>, t: seq<T>)
    decreases |s|
  {
    (|t| <= |s| && s[..|t|] == t) || (s != [] && Contains(s[1..], t))
  }

  lemma {:induction false} ContainsItself<T>(t: seq<T>)
    ensures Contains(t, t)
  {
    assert t[..|t|] == t;
  }

  lemma {:induction false} ContainsAfterPrefix<T>(a: seq<T>, s: seq<T>, t: seq<T>)
    requires Contains(s, t)
    ensures Contains(a + s, t)
    decreases |a|
  {
    if a != [] {
      assert (a + s)[1..] == a[1..] + s;
      ContainsAfterPrefix(a[1..], s, t);
    } else {
      assert a + s == s;
    }
  }

  lemma {:induction false} ContainsBeforeSuffix<T>(s: seq<T>, b: seq<T>, t: seq<T>)
    requires Contains(s, t)
    ensures Contains(s + b, t)
    decreases |s|
  {
    if |t| <= |s| && s[..|t|] == t {
      assert (s + b)[..|t|] == s[..|t|];
    } else {
      assert (s + b)[1..] == s[1..] + b;
      ContainsBeforeSuffix(s[1..], b, t);
    }
  }

  /** Whatever occurs in `s` occurs in `a + s + b`. */
  lemma ContainsWithin<T>(a: seq<T>, s: seq<T>, b: seq<T>, t: seq<T>)
    requires Contains(s, t)
    ensures Contains(a + s + b, t)
  {
    ContainsBeforeSuffix(s, b, t);
    ContainsAfterPrefix(a, s + b, t);
    assert a + s + b == a + (s + b);
  }

  /** The strings of `parts`, with `sep` between consecutive ones (Go's strings.Join). */
  function Join(parts: seq<string>, sep: string): string
    decreases |parts|
  {
    if parts == [] then ""
    else if |parts| == 1 then parts[0]
    else parts[0] + sep + Join(parts[1..], sep)
  }

  /** Every part appears verbatim in the joined string. */
  lemma {:induction false} JoinContainsPart(parts: seq<string>, sep: string, p: string)
    requires p in parts
    ensures Contains(Join(parts, sep), p)
    decreases |parts|
  {
    if |parts| == 1 {
      ContainsItself(p);
    } else if parts[0] == p {
      ContainsItself(p);
      ContainsWithin([], p, sep + Join(parts[1..], sep), p);
      assert [] + p + (sep + Join(parts[1..], sep)) == Join(parts, sep);
    } else {
      JoinContainsPart(parts[1..], sep, p);
      ContainsAfterPrefix(parts[0] + sep, Join(parts[1..], sep), p);
      assert (parts[0] + sep) + Join(parts[1..], sep) == Join(parts, sep);
    }
  }
}
