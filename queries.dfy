/** The three queries over the reference data: the stable filter of liquids by
    class name, the first-match lookup of a class by name, and the projection
    of names. The Python database and the React component both reduce to
    these. */
module Queries {
  import opened Records

  /** The liquids of `s` whose class is exactly `c`, in their original order. */
  function OfClass<W>(s: seq<Liquid<W>>, c: string): (r: seq<Liquid<W>>)
    ensures |r| <= |s|
    ensures forall k :: 0 <= k < |r| ==> r[k].liquidClass == c && r[k] in s
  {
    if s == [] then []
    else
      var rest := OfClass(s[..|s| - 1], c);
      if s[|s| - 1].liquidClass == c then rest + [s[|s| - 1]] else rest
  }

  /** The positions in `s` of the liquids whose class is `c`, ascending. */
  function MatchIndices<W>(s: seq<Liquid<W>>, c: string): (idx: seq<nat>)
    ensures forall k :: 0 <= k < |idx| ==> idx[k] < |s|
  {
    if s == [] then []
    else
      var rest := MatchIndices(s[..|s| - 1], c);
      if s[|s| - 1].liquidClass == c then rest + [|s| - 1] else rest
  }

  /** `r` is the selection from `s` at the positions `idx`: the positions are
      strictly increasing (so the order of `s` is kept) and they are exactly
      the positions of the liquids of class `c` (nothing missed, nothing
      extra). */
  ghost predicate IsSelection<W>(r: seq<Liquid<W>>, s: seq<Liquid<W>>, c: string, idx: seq<nat>) {
    && |idx| == |r|
    && (forall k :: 0 <= k < |idx| ==> idx[k] < |s| && r[k] == s[idx[k]])
    && Increasing(idx)
    && (forall i :: 0 <= i < |s| ==> (s[i].liquidClass == c <==> i in idx))
  }

  /** The positions are strictly increasing and are exactly the positions of
      the liquids of class `c`. */
  lemma {:induction false} MatchIndicesExact<W>(s: seq<Liquid<W>>, c: string)
    ensures var idx := MatchIndices(s, c);
      && Increasing(idx)
      && (forall i :: 0 <= i < |s| ==> (s[i].liquidClass == c <==> i in idx))
  {
    if s != [] {
      var n := |s| - 1;
      var p := s[..n];
      MatchIndicesExact(p, c);
      var idx, ip := MatchIndices(s, c), MatchIndices(p, c);
      assert forall i :: 0 <= i < n ==> p[i] == s[i];
      if s[n].liquidClass == c {
        assert idx == ip + [n];
        forall i | 0 <= i < |s|
          ensures s[i].liquidClass == c <==> i in idx
        {
          if i < n { assert i in idx <==> i in ip; }
        }
      } else {
        assert idx == ip;
        forall i | 0 <= i < |s|
          ensures s[i].liquidClass == c <==> i in idx
        {
          if i == n { assert i !in ip; }
        }
      }
    }
  }

  /** The k-th liquid the filter returns is the liquid at the k-th matching
      position. */
  lemma {:induction false} OfClassAtMatchIndices<W>(s: seq<Liquid<W>>, c: string)
    ensures var r, idx := OfClass(s, c), MatchIndices(s, c);
      |idx| == |r| && forall k :: 0 <= k < |idx| ==> r[k] == s[idx[k]]
  {
    if s != [] {
      var n := |s| - 1;
      var p := s[..n];
      OfClassAtMatchIndices(p, c);
      var r, idx := OfClass(s, c), MatchIndices(s, c);
      var rp, ip := OfClass(p, c), MatchIndices(p, c);
      if s[n].liquidClass == c {
        assert r == rp + [s[n]] && idx == ip + [n];
        forall k | 0 <= k < |idx|
          ensures r[k] == s[idx[k]]
        {
          if k < |ip| { assert r[k] == rp[k] && idx[k] == ip[k] && p[ip[k]] == s[ip[k]]; }
        }
      }
    }
  }

  /** The filter returns exactly the order-preserving subsequence of the
      liquids of class `c`. */
  lemma OfClassIsSelection<W>(s: seq<Liquid<W>>, c: string)
    ensures IsSelection(OfClass(s, c), s, c, MatchIndices(s, c))
  {
    MatchIndicesExact(s, c);
    OfClassAtMatchIndices(s, c);
  }

  ghost predicate Increasing(idx: seq<nat>) {
    forall k, l :: 0 <= k < l < |idx| ==> idx[k] < idx[l]
  }

  /** Positions that increase at every step increase throughout. */
  lemma {:induction false} IncreasingFromSteps(idx: seq<nat>)
    requires forall k :: 0 < k < |idx| ==> idx[k - 1] < idx[k]
    ensures Increasing(idx)
  {
    if |idx| > 1 {
      var n := |idx| - 1;
      var p := idx[..n];
      IncreasingFromSteps(p);
      forall k, l | 0 <= k < l < |idx| ensures idx[k] < idx[l] {
        if l < n {
          assert p[k] < p[l];
        } else if k < n - 1 {
          assert p[k] < p[n - 1];
        }
      }
    }
  }

  lemma HeadIsLeast(a: seq<nat>, k: nat)
    requires Increasing(a) && k < |a|
    ensures a[0] <= a[k]
  {
  }

  lemma HeadIsMember(a: seq<nat>)
    requires a != []
    ensures a[0] in a
  {
  }

  /** Two strictly increasing lists with the same elements are equal. */
  lemma {:induction false} IncreasingUnique(a: seq<nat>, b: seq<nat>)
    requires Increasing(a) && Increasing(b)
    requires forall x :: x in a <==> x in b
    ensures a == b
  {
    if a == [] {
      if b != [] {
        HeadIsMember(b);
        assert false;
      }
    } else {
      assert a[0] in b;
      var j :| 0 <= j < |b| && b[j] == a[0];
      assert b[0] in b;
      var i :| 0 <= i < |a| && a[i] == b[0];
      HeadIsLeast(b, j);
      HeadIsLeast(a, i);
      forall x ensures x in a[1..] <==> x in b[1..] {
        if x in a[1..] {
          var j :| 1 <= j < |a| && a[j] == x;
          assert a[0] < a[j];
          assert x in b;
          var m :| 0 <= m < |b| && b[m] == x;
          assert m != 0;
        }
        if x in b[1..] {
          var j :| 1 <= j < |b| && b[j] == x;
          assert b[0] < b[j];
          assert x in a;
          var m :| 0 <= m < |a| && a[m] == x;
          assert m != 0;
        }
      }
      IncreasingUnique(a[1..], b[1..]);
      assert a == [a[0]] + a[1..] && b == [b[0]] + b[1..];
    }
  }

  /** A selection is determined by the list and the class: any `r` and `idx`
      meeting the description are the filter's own result and positions. */
  lemma SelectionUnique<W>(r: seq<Liquid<W>>, s: seq<Liquid<W>>, c: string, idx: seq<nat>)
    requires IsSelection(r, s, c, idx)
    ensures idx == MatchIndices(s, c) && r == OfClass(s, c)
  {
    var m := MatchIndices(s, c);
    OfClassIsSelection(s, c);
    forall x ensures x in idx <==> x in m {
      if x in idx {
        var k :| 0 <= k < |idx| && idx[k] == x;
        assert s[x].liquidClass == c;
      }
      if x in m {
        var k :| 0 <= k < |m| && m[k] == x;
        assert s[x].liquidClass == c;
      }
    }
    IncreasingUnique(idx, m);
  }

  /** A list whose liquids all have class `c` passes the filter unchanged. */
  lemma {:induction false} OfClassKeepsMatching<W>(s: seq<Liquid<W>>, c: string)
    requires forall k :: 0 <= k < |s| ==> s[k].liquidClass == c
    ensures OfClass(s, c) == s
  {
    if s != [] {
      OfClassKeepsMatching(s[..|s| - 1], c);
      assert s[..|s| - 1] + [s[|s| - 1]] == s;
    }
  }

  /** Filtering twice by the same class is filtering once. */
  lemma OfClassIdempotent<W>(s: seq<Liquid<W>>, c: string)
    ensures OfClass(OfClass(s, c), c) == OfClass(s, c)
  {
    OfClassKeepsMatching(OfClass(s, c), c);
  }

  /** No liquid of a class nobody has survives the filter. */
  lemma {:induction false} OfClassEmpty<W>(s: seq<Liquid<W>>, c: string)
    requires forall k :: 0 <= k < |s| ==> s[k].liquidClass != c
    ensures OfClass(s, c) == []
  {
    if s != [] {
      OfClassEmpty(s[..|s| - 1], c);
    }
  }

  /** The filter of a concatenation is the concatenation of the filters. */
  lemma {:induction false} OfClassAppend<W>(a: seq<Liquid<W>>, b: seq<Liquid<W>>, c: string)
    ensures OfClass(a + b, c) == OfClass(a, c) + OfClass(b, c)
  {
    if b != [] {
      var n := |b| - 1;
      assert (a + b)[..|a + b| - 1] == a + b[..n];
      OfClassAppend(a, b[..n], c);
    } else {
      assert a + b == a;
    }
  }

  /** The names the filter keeps depend only on the names and classes of the
      list, not on the other fields. */
  lemma {:induction false} OfClassNamesAgree<V, W>(a: seq<Liquid<V>>, b: seq<Liquid<W>>, c: string)
    requires |a| == |b|
    requires forall i :: 0 <= i < |a| ==> a[i].name == b[i].name && a[i].liquidClass == b[i].liquidClass
    ensures LiquidNames(OfClass(a, c)) == LiquidNames(OfClass(b, c))
  {
    if a != [] {
      var n := |a| - 1;
      OfClassNamesAgree(a[..n], b[..n], c);
      var ra, rb := OfClass(a[..n], c), OfClass(b[..n], c);
      if a[n].liquidClass == c {
        assert LiquidNames(ra + [a[n]]) == LiquidNames(ra) + [a[n].name];
        assert LiquidNames(rb + [b[n]]) == LiquidNames(rb) + [b[n].name];
      }
    }
  }

  /** The names of `s`, in order. */
  function ClassNames(s: seq<LiquidClass>): (r: seq<string>)
    ensures |r| == |s|
    ensures forall i :: 0 <= i < |s| ==> r[i] == s[i].name
  {
    seq(|s|, i requires 0 <= i < |s| => s[i].name)
  }

  /** The names of `s`, in order. Liquids and liquid classes are separate
      records with no common type, so the same projection is written for
      each. */
  function LiquidNames<W>(s: seq<Liquid<W>>): (r: seq<string>)
    ensures |r| == |s|
    ensures forall i :: 0 <= i < |s| ==> r[i] == s[i].name
  {
    seq(|s|, i requires 0 <= i < |s| => s[i].name)
  }

  ghost predicate Distinct(names: seq<string>) {
    forall i, j :: 0 <= i < j < |names| ==> names[i] != names[j]
  }

  /** The first class of `s` named exactly `name`, if any. */
  function FindClass(s: seq<LiquidClass>, name: string): (r: Option<LiquidClass>)
    ensures r.None? <==> forall i :: 0 <= i < |s| ==> s[i].name != name
    ensures r.Some? ==> r.value.name == name && r.value in s
  {
    if s == [] then None
    else if s[0].name == name then Some(s[0])
    else FindClass(s[1..], name)
  }

  /** The lookup returns the FIRST match: the class at the smallest position
      whose name is `name`. */
  lemma {:induction false} FindClassFirst(s: seq<LiquidClass>, name: string, i: nat)
    requires i < |s| && s[i].name == name
    requires forall j :: 0 <= j < i ==> s[j].name != name
    ensures FindClass(s, name) == Some(s[i])
  {
    if i > 0 {
      assert s[0].name != name;
      FindClassFirst(s[1..], name, i - 1);
    }
  }

  /** With unique names, looking up the i-th listed name gives back the i-th
      class: names and lookup are inverse. */
  lemma FindClassNamesRoundTrip(s: seq<LiquidClass>, i: nat)
    requires Distinct(ClassNames(s))
    requires i < |s|
    ensures FindClass(s, ClassNames(s)[i]) == Some(s[i])
  {
    var names := ClassNames(s);
    var name := names[i];
    assert name == s[i].name;
    forall j | 0 <= j < i ensures s[j].name != name {
      assert names[j] != name;
    }
    FindClassFirst(s, name, i);
  }
}
