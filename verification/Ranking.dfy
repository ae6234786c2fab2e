/**
 The candidate order: by confidence downwards, then estimated cost, then first-token time,
 with ties left in their original order, as Python's stable sort does.
 */
module Ranking {
  import opened Schemas

  /** The sort key of `a` is at most that of `b`. */
  predicate KeyLe(a: Candidate, b: Candidate) {
    || a.confidence > b.confidence
    || (&& a.confidence == b.confidence
        && (|| a.estimatedCostUsd < b.estimatedCostUsd
            || (a.estimatedCostUsd == b.estimatedCostUsd && a.expectedTtfbMs <= b.expectedTtfbMs)))
  }

  predicate SameKey(a: Candidate, b: Candidate) {
    a.confidence == b.confidence && a.estimatedCostUsd == b.estimatedCostUsd && a.expectedTtfbMs == b.expectedTtfbMs
  }

  ghost predicate Sorted(s: seq<Candidate>) {
    forall i, j :: 0 <= i < j < |s| ==> KeyLe(s[i], s[j])
  }

  /** The candidates tied with `c`, in order. */
  ghost function Tied(s: seq<Candidate>, c: Candidate): seq<Candidate> {
    if s == [] then []
    else Tied(s[..|s| - 1], c) + (if SameKey(s[|s| - 1], c) then [s[|s| - 1]] else [])
  }

  /** `ranked` lists `cs` by key and keeps tied candidates in the order `cs` had them. */
  ghost predicate IsStableSort(ranked: seq<Candidate>, cs: seq<Candidate>) {
    Sorted(ranked) && forall c :: Tied(ranked, c) == Tied(cs, c)
  }

  function Insert(s: seq<Candidate>, c: Candidate): (r: seq<Candidate>)
    ensures |r| == |s| + 1
    ensures multiset(r) == multiset(s) + multiset{c}
  {
    if s == [] then [c]
    else
      var last := |s| - 1;
      assert s == s[..last] + [s[last]];
      if KeyLe(s[last], c) then s + [c] else Insert(s[..last], c) + [s[last]]
  }

  function StableSort(cs: seq<Candidate>): (r: seq<Candidate>)
    ensures |r| == |cs|
    ensures multiset(r) == multiset(cs)
  {
    if cs == [] then []
    else
      assert cs == cs[..|cs| - 1] + [cs[|cs| - 1]];
      Insert(StableSort(cs[..|cs| - 1]), cs[|cs| - 1])
  }

  lemma TiedLast(s: seq<Candidate>, x: Candidate, c: Candidate)
    ensures Tied(s + [x], c) == Tied(s, c) + (if SameKey(x, c) then [x] else [])
  {
    assert (s + [x])[..|s|] == s;
  }

  lemma {:induction false} NoneTied(s: seq<Candidate>, c: Candidate)
    requires forall i :: 0 <= i < |s| ==> !SameKey(s[i], c)
    ensures Tied(s, c) == []
  {
    if s != [] {
      NoneTied(s[..|s| - 1], c);
    }
  }

  lemma TiedKeysLe(a: Candidate, b: Candidate, d: Candidate)
    requires SameKey(a, d) && SameKey(b, d)
    ensures KeyLe(a, b)
  {
  }

  lemma {:induction false} InsertTied(s: seq<Candidate>, c: Candidate, d: Candidate)
    requires Sorted(s)
    ensures Tied(Insert(s, c), d) == Tied(s, d) + (if SameKey(c, d) then [c] else [])
  {
    hide KeyLe, SameKey, Tied;
    if s == [] || KeyLe(s[|s| - 1], c) {
      TiedLast(s, c, d);
      assert Insert(s, c) == s + [c];
    } else {
      var last, front := s[|s| - 1], s[..|s| - 1];
      var r := Insert(front, c);
      assert s == front + [last] && Insert(s, c) == r + [last];
      InsertTied(front, c, d);
      TiedLast(r, last, d);
      TiedLast(front, last, d);
      if SameKey(last, d) && SameKey(c, d) {
        TiedKeysLe(last, c, d);
      }
    }
  }

  lemma {:induction false} InsertSorted(s: seq<Candidate>, c: Candidate)
    requires Sorted(s)
    ensures Sorted(Insert(s, c))
  {
    if s != [] && !KeyLe(s[|s| - 1], c) {
      var last, front := s[|s| - 1], s[..|s| - 1];
      InsertSorted(front, c);
      var r := Insert(front, c);
      assert Insert(s, c) == r + [last];
      forall i | 0 <= i < |r|
        ensures KeyLe(r[i], last)
      {
        assert r[i] in multiset(r);
      }
    }
  }

  /** What the key order means for two candidates. */
  lemma KeyOrder(a: Candidate, b: Candidate)
    ensures KeyLe(a, b) <==>
            && a.confidence >= b.confidence
            && (a.confidence == b.confidence ==> a.estimatedCostUsd <= b.estimatedCostUsd)
            && (a.confidence == b.confidence && a.estimatedCostUsd == b.estimatedCostUsd ==>
                  a.expectedTtfbMs <= b.expectedTtfbMs)
  {
  }

  /** The sort is by confidence downwards, then by cost, then by time to the first token, and stable. */
  lemma StableSortIsStable(cs: seq<Candidate>)
    ensures IsStableSort(StableSort(cs), cs)
    ensures forall i, j :: 0 <= i < j < |cs| ==>
              var (a, b) := (StableSort(cs)[i], StableSort(cs)[j]);
              && a.confidence >= b.confidence
              && (a.confidence == b.confidence ==> a.estimatedCostUsd <= b.estimatedCostUsd)
              && (a.confidence == b.confidence && a.estimatedCostUsd == b.estimatedCostUsd ==>
                    a.expectedTtfbMs <= b.expectedTtfbMs)
  {
    StableSortSorts(cs);
    var ranked := StableSort(cs);
    hide KeyLe, StableSort, Tied;
    forall i, j | 0 <= i < j < |cs|
      ensures KeyLe(ranked[i], ranked[j])
    {
    }
    forall i, j | 0 <= i < j < |cs| {
      KeyOrder(ranked[i], ranked[j]);
    }
  }

  lemma {:induction false} StableSortSorts(cs: seq<Candidate>)
    ensures IsStableSort(StableSort(cs), cs)
  {
    if cs != [] {
      StableSortSorts(cs[..|cs| - 1]);
      var front, last := StableSort(cs[..|cs| - 1]), cs[|cs| - 1];
      InsertSorted(front, last);
      forall d: Candidate
        ensures Tied(StableSort(cs), d) == Tied(cs, d)
      {
        InsertTied(front, last, d);
      }
    }
  }

  lemma {:induction false} TiedMember(s: seq<Candidate>, c: Candidate)
    ensures forall x :: x in Tied(s, c) ==> x in s && SameKey(x, c)
    ensures forall x :: x in s && SameKey(x, c) ==> x in Tied(s, c)
  {
    if s != [] {
      TiedMember(s[..|s| - 1], c);
      assert s == s[..|s| - 1] + [s[|s| - 1]];
    }
  }

  /** Tied candidates of which one comes first do so in the list of ties as well ... */
  lemma {:induction false} TiedInOrder(s: seq<Candidate>, c: Candidate, i: nat, j: nat) returns (u: nat, v: nat)
    requires i < j < |s| && SameKey(s[i], c) && SameKey(s[j], c)
    ensures u < v < |Tied(s, c)| && Tied(s, c)[u] == s[i] && Tied(s, c)[v] == s[j]
  {
    hide SameKey;
    var n := |s| - 1;
    if j < n {
      u, v := TiedInOrder(s[..n], c, i, j);
    } else {
      u := TiedPosition(s[..n], c, i);
      v := |Tied(s, c)| - 1;
    }
  }

  lemma {:induction false} TiedPosition(s: seq<Candidate>, c: Candidate, i: nat) returns (u: nat)
    requires i < |s| && SameKey(s[i], c)
    ensures u < |Tied(s, c)| && Tied(s, c)[u] == s[i]
  {
    hide SameKey;
    if i < |s| - 1 {
      u := TiedPosition(s[..|s| - 1], c, i);
    } else {
      u := |Tied(s, c)| - 1;
    }
  }

  /** ... and the other way round. */
  lemma {:induction false} TiedFrom(s: seq<Candidate>, c: Candidate, u: nat, v: nat) returns (i: nat, j: nat)
    requires u < v < |Tied(s, c)|
    ensures i < j < |s| && s[i] == Tied(s, c)[u] && s[j] == Tied(s, c)[v]
  {
    hide SameKey;
    var n := |s| - 1;
    if v < |Tied(s[..n], c)| {
      i, j := TiedFrom(s[..n], c, u, v);
    } else {
      i := TiedSource(s[..n], c, u);
      j := n;
    }
  }

  lemma {:induction false} TiedSource(s: seq<Candidate>, c: Candidate, u: nat) returns (i: nat)
    requires u < |Tied(s, c)|
    ensures i < |s| && s[i] == Tied(s, c)[u]
  {
    hide SameKey;
    var n := |s| - 1;
    if u < |Tied(s[..n], c)| {
      i := TiedSource(s[..n], c, u);
    } else {
      i := n;
    }
  }

  /** Of two tied candidates the one that a stable sort lists first came first. */
  lemma TiesKeepOrder(ranked: seq<Candidate>, cs: seq<Candidate>, i: nat, j: nat) returns (a: nat, b: nat)
    requires IsStableSort(ranked, cs) && i < j < |ranked| && SameKey(ranked[i], ranked[j])
    ensures a < b < |cs| && cs[a] == ranked[i] && cs[b] == ranked[j]
  {
    SameKeyLaws(ranked[j], ranked[j], ranked[j]);
    hide SameKey, Tied, Sorted;
    var u, v := TiedInOrder(ranked, ranked[j], i, j);
    assert Tied(ranked, ranked[j]) == Tied(cs, ranked[j]);
    a, b := TiedFrom(cs, ranked[j], u, v);
  }

  lemma LastIsGreatest(s: seq<Candidate>, x: Candidate)
    requires Sorted(s) && x in s
    ensures KeyLe(x, s[|s| - 1])
  {
  }

  lemma KeysAntisymmetric(a: Candidate, b: Candidate)
    requires KeyLe(a, b) && KeyLe(b, a)
    ensures SameKey(a, b)
  {
  }

  lemma SameKeyLaws(a: Candidate, b: Candidate, c: Candidate)
    ensures SameKey(a, a)
    ensures SameKey(a, b) ==> SameKey(b, a)
    ensures SameKey(a, b) && KeyLe(b, c) ==> KeyLe(a, c)
  {
  }

  lemma LastTied(s: seq<Candidate>, c: Candidate)
    requires s != [] && SameKey(s[|s| - 1], c)
    ensures Tied(s, c) != [] && Tied(s, c)[|Tied(s, c)| - 1] == s[|s| - 1]
  {
  }

  /** With the same ties throughout, the two last candidates are one and the same. */
  lemma SameLast(s: seq<Candidate>, t: seq<Candidate>)
    requires Sorted(s) && Sorted(t) && s != []
    requires forall c :: Tied(s, c) == Tied(t, c)
    ensures t != [] && s[|s| - 1] == t[|t| - 1]
  {
    hide KeyLe, SameKey, Tied;
    var x := s[|s| - 1];
    SameKeyLaws(x, x, x);
    LastTied(s, x);
    var x' := Tied(s, x)[0];
    assert Tied(s, x) == Tied(t, x);
    TiedMember(s, x);
    TiedMember(t, x);
    assert x' in t;
    var y := t[|t| - 1];
    SameKeyLaws(y, y, y);
    LastTied(t, y);
    var y' := Tied(t, y)[0];
    assert Tied(s, y) == Tied(t, y);
    TiedMember(s, y);
    TiedMember(t, y);
    assert y' in s;
    LastIsGreatest(t, x');
    LastIsGreatest(s, y');
    SameKeyLaws(x', x, y);
    SameKeyLaws(x, x', y);
    SameKeyLaws(y', y, x);
    SameKeyLaws(y, y', x);
    KeysAntisymmetric(x, y);
    KeysAntisymmetric(y, x);
    LastTied(t, x);
  }

  lemma TiedFront(s: seq<Candidate>, t: seq<Candidate>, c: Candidate)
    requires s != [] && t != [] && s[|s| - 1] == t[|t| - 1]
    requires Tied(s, c) == Tied(t, c)
    ensures Tied(s[..|s| - 1], c) == Tied(t[..|t| - 1], c)
  {
    var tail := if SameKey(s[|s| - 1], c) then [s[|s| - 1]] else [];
    assert Tied(s[..|s| - 1], c) == Tied(s, c)[..|Tied(s, c)| - |tail|];
    assert Tied(t[..|t| - 1], c) == Tied(t, c)[..|Tied(t, c)| - |tail|];
  }

  /** Being a stable sort of the same candidates leaves no freedom at all. */
  lemma {:induction false} StableSortUnique(s: seq<Candidate>, t: seq<Candidate>)
    requires Sorted(s) && Sorted(t)
    requires forall c :: Tied(s, c) == Tied(t, c)
    ensures s == t
  {
    if s == [] {
      if t != [] {
        SameLast(t, s);
      }
    } else {
      SameLast(s, t);
      var s', t' := s[..|s| - 1], t[..|t| - 1];
      forall c: Candidate
        ensures Tied(s', c) == Tied(t', c)
      {
        TiedFront(s, t, c);
      }
      StableSortUnique(s', t');
      assert s == s' + [s[|s| - 1]];
      assert t == t' + [t[|t| - 1]];
    }
  }
}
