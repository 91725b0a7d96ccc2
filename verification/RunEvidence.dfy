/** Evidence references of autonomy runs and the bounded de-duplication a checkpoint applies to them. */
module RunEvidence {
  import opened Tails

  /** Distinct evidence items and evicted run ids that a checkpoint keeps at most. */
  const CHECKPOINT_REFERENCE_LIMIT := 200

  datatype Kind = Task | Receipt | Artifact | Run

  datatype Evidence = Evidence(kind: Kind, id: string)

  function KindName(kind: Kind): string {
    match kind
    case Task => "task"
    case Receipt => "receipt"
    case Artifact => "artifact"
    case Run => "run"
  }

  /** The string that de-duplication compares. */
  function Key(e: Evidence): string {
    KindName(e.kind) + ":" + e.id
  }

  lemma KeyIdentifiesEvidence(a: Evidence, b: Evidence)
    ensures Key(a) == Key(b) <==> a == b
  {
    if Key(a) == Key(b) {
      var n, m := |KindName(a.kind)|, |KindName(b.kind)|;
      assert Key(a)[0] == KindName(a.kind)[0] && Key(b)[0] == KindName(b.kind)[0];
      assert Key(a)[1] == KindName(a.kind)[1] && Key(b)[1] == KindName(b.kind)[1];
      assert a.kind == b.kind;
      assert Key(a)[n + 1..] == a.id && Key(b)[m + 1..] == b.id;
    }
  }

  /** Every item once, at the place of its last occurrence. */
  ghost function Distinct<T(!new)>(s: seq<T>): seq<T> {
    if s == [] then []
    else if s[0] in s[1..] then Distinct(s[1..])
    else [s[0]] + Distinct(s[1..])
  }

  /** What a checkpoint keeps of a list of references: its newest distinct ones. */
  ghost function Newest(s: seq<Evidence>): seq<Evidence> {
    Last(Distinct(s), CHECKPOINT_REFERENCE_LIMIT)
  }

  ghost predicate NoDuplicates<T(!new)>(s: seq<T>) {
    forall i, j :: 0 <= i < j < |s| ==> s[i] != s[j]
  }

  /** The items of `a` that do not occur in `b`. */
  ghost function Without<T(!new)>(a: seq<T>, b: seq<T>): seq<T> {
    if a == [] then []
    else (if a[0] in b then [] else [a[0]]) + Without(a[1..], b)
  }

  lemma {:induction false} DistinctKeepsMembers<T(!new)>(s: seq<T>)
    ensures forall x :: x in Distinct(s) <==> x in s
    ensures NoDuplicates(Distinct(s))
  {
    if s != [] {
      DistinctKeepsMembers(s[1..]);
      assert s == [s[0]] + s[1..];
    }
  }

  /** Where `x` occurs last in `s`. */
  ghost function LastIndex<T(!new)>(s: seq<T>, x: T): (i: nat)
    requires x in s
    ensures i < |s| && s[i] == x && x !in s[i + 1..]
  {
    if x in s[1..] then 1 + LastIndex(s[1..], x) else 0
  }

  lemma DistinctMemberAt<T(!new)>(s: seq<T>, i: nat)
    requires i < |Distinct(s)|
    ensures Distinct(s)[i] in s
  {
    DistinctKeepsMembers(s);
  }

  /** The kept items stand in the order of their last occurrences. */
  lemma {:induction false} DistinctInLastOccurrenceOrder<T(!new)>(s: seq<T>, i: nat, j: nat, x: T, y: T)
    requires i < j < |Distinct(s)| && x == Distinct(s)[i] && y == Distinct(s)[j]
    requires x in s && y in s
    ensures LastIndex(s, x) < LastIndex(s, y)
  {
    var tail := s[1..];
    if s[0] in tail {
      DistinctMemberAt(tail, i);
      DistinctMemberAt(tail, j);
      DistinctInLastOccurrenceOrder(tail, i, j, x, y);
    } else {
      DistinctMemberAt(tail, j - 1);
      if i > 0 {
        DistinctMemberAt(tail, i - 1);
        DistinctInLastOccurrenceOrder(tail, i - 1, j - 1, x, y);
      }
    }
  }

  lemma {:induction false} DistinctOfNoDuplicates<T(!new)>(s: seq<T>)
    requires NoDuplicates(s)
    ensures Distinct(s) == s
  {
    if s != [] {
      DistinctOfNoDuplicates(s[1..]);
    }
  }

  lemma DistinctOfCons<T(!new)>(x: T, s: seq<T>)
    ensures Distinct([x] + s) == if x in s then Distinct(s) else [x] + Distinct(s)
  {
    assert ([x] + s)[1..] == s;
  }

  lemma WithoutOfCons<T(!new)>(x: T, s: seq<T>, b: seq<T>)
    ensures Without([x] + s, b) == (if x in b then [] else [x]) + Without(s, b)
  {
    assert ([x] + s)[1..] == s;
  }

  lemma {:induction false} DistinctOfConcat<T(!new)>(a: seq<T>, b: seq<T>)
    ensures Distinct(a + b) == Without(Distinct(a), b) + Distinct(b)
  {
    if a == [] {
      assert a + b == b;
    } else {
      var x, rest := a[0], a[1..];
      DistinctOfConcat(rest, b);
      DistinctConsConcat(x, rest, b);
      assert a == [x] + rest;
    }
  }

  lemma DistinctConsConcat<T(!new)>(x: T, rest: seq<T>, b: seq<T>)
    requires Distinct(rest + b) == Without(Distinct(rest), b) + Distinct(b)
    ensures Distinct([x] + rest + b) == Without(Distinct([x] + rest), b) + Distinct(b)
  {
    hide Distinct, Without;
    var tail := Without(Distinct(rest), b);
    assert [x] + rest + b == [x] + (rest + b);
    DistinctOfCons(x, rest);
    DistinctOfCons(x, rest + b);
    if x !in rest {
      WithoutOfCons(x, Distinct(rest), b);
      if x in b {
        assert Without(Distinct([x] + rest), b) == [] + tail == tail;
      } else {
        assert [x] + (tail + Distinct(b)) == [x] + tail + Distinct(b);
      }
    }
  }

  lemma {:induction false} WithoutOfConcat<T(!new)>(a1: seq<T>, a2: seq<T>, b: seq<T>)
    ensures Without(a1 + a2, b) == Without(a1, b) + Without(a2, b)
  {
    if a1 == [] {
      assert a1 + a2 == a2;
    } else {
      assert (a1 + a2)[1..] == a1[1..] + a2;
      WithoutOfConcat(a1[1..], a2, b);
    }
  }

  /** Removing the members of `b` costs a duplicate-free list at most the distinct members of `b`. */
  lemma {:induction false} WithoutKeepsEnough<T(!new)>(a: seq<T>, b: seq<T>)
    requires NoDuplicates(a)
    ensures |Without(a, b)| + |Distinct(b)| >= |a|
  {
    var common := set x | x in a && x in b;
    WithoutCounts(a, b);
    DistinctKeepsMembers(b);
    var d := Distinct(b);
    var all := set x | x in d;
    assert common <= all;
    SetOfDistinct(d);
    SubsetSize(common, all);
  }

  lemma {:induction false} WithoutCounts<T(!new)>(a: seq<T>, b: seq<T>)
    requires NoDuplicates(a)
    ensures |Without(a, b)| + |set x | x in a && x in b| == |a|
  {
    if a != [] {
      WithoutCounts(a[1..], b);
      var rest := set x | x in a[1..] && x in b;
      var whole := set x | x in a && x in b;
      assert forall x :: x in a <==> x == a[0] || x in a[1..];
      if a[0] in b {
        assert whole == rest + {a[0]} && a[0] !in rest;
      } else {
        assert whole == rest;
      }
    } else {
      assert (set x | x in a && x in b) == {};
    }
  }

  lemma {:induction false} SetOfDistinct<T(!new)>(s: seq<T>)
    requires NoDuplicates(s)
    ensures |set x | x in s| == |s|
  {
    if s != [] {
      SetOfDistinct(s[1..]);
      assert (set x | x in s) == (set x | x in s[1..]) + {s[0]};
    }
  }

  lemma SubsetSize<T>(a: set<T>, b: set<T>)
    requires a <= b
    ensures |a| <= |b|
  {
    assert b == a + (b - a);
  }

  /**
   * Compacting step by step keeps what compacting once would keep: references that a truncation
   * dropped can never come back into the newest `CHECKPOINT_REFERENCE_LIMIT`.
   */
  lemma NewestAbsorbs(a: seq<Evidence>, b: seq<Evidence>)
    ensures Newest(Newest(a) + b) == Newest(a + b)
  {
    hide Distinct, Without;
    var d := Distinct(a);
    var kept := Newest(a);
    var dropped := d[..|d| - |kept|];
    KeptIsDistinct(a);
    DistinctOfConcat(kept, b);
    DistinctOfConcat(a, b);
    WithoutOfConcat(dropped, kept, b);
    var tail := Without(kept, b) + Distinct(b);
    assert d == dropped + kept;
    assert Distinct(a + b) == Without(dropped, b) + tail;
    if |kept| < CHECKPOINT_REFERENCE_LIMIT {
      WithoutNothing(b);
      assert dropped == [] && [] + tail == tail;
    } else {
      WithoutKeepsEnough(kept, b);
      LastOfConcat(Without(dropped, b), tail, CHECKPOINT_REFERENCE_LIMIT);
    }
  }

  lemma KeptIsDistinct(a: seq<Evidence>)
    ensures NoDuplicates(Newest(a)) && Distinct(Newest(a)) == Newest(a)
  {
    DistinctKeepsMembers(a);
    DistinctOfNoDuplicates(Newest(a));
  }

  lemma WithoutNothing<T(!new)>(b: seq<T>)
    ensures Without([], b) == []
  {
  }

  /** `dedupeEvidence`: scan from the newest reference, keep unseen ones, stop at the limit. */
  method DedupeEvidence(values: seq<Evidence>) returns (result: seq<Evidence>)
    ensures result == Newest(values)
  {
    var seen: set<string> := {};
    result := [];
    var index := |values|;
    while index > 0
      invariant 0 <= index <= |values|
      invariant result == Distinct(values[index..]) && |result| < CHECKPOINT_REFERENCE_LIMIT
      invariant forall e :: Key(e) in seen <==> e in result
    {
      index := index - 1;
      var evidence := values[index];
      ghost var rest := values[index..];
      assert rest[0] == evidence && rest[1..] == values[index + 1..];
      DistinctKeepsMembers(values[index + 1..]);
      var key := Key(evidence);
      if key !in seen {
        forall e | Key(e) == key ensures e == evidence { KeyIdentifiesEvidence(e, evidence); }
        seen := seen + {key};
        result := [evidence] + result;
        if |result| >= CHECKPOINT_REFERENCE_LIMIT {
          assert values == values[..index] + rest;
          DistinctOfConcat(values[..index], rest);
          LastOfConcat(Without(Distinct(values[..index]), rest), result, CHECKPOINT_REFERENCE_LIMIT);
          return;
        }
      }
    }
    assert values[0..] == values;
  }
}
