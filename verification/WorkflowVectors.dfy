/**
 The vectors of an embedding reply, put into request order: items carry an index, all or none of them, and every position must
 be filled exactly once.
 */
module WorkflowVectors {
  import opened Wrappers

  /** A non-empty vector of numbers. */
  type Vector = v: seq<real> | v != [] witness [0.0]

  /** index: as far as the field can be read; Malformed is anything but a non-negative whole number. */
  datatype Index = Absent | Malformed | At(position: nat)

  /** vector: None when it is missing, empty, or not made of numbers. */
  datatype Item = Item(vector: Option<Vector>, index: Index)

  predicate Indexed(i: Item) { !i.index.Absent? }

  /** Where an item goes. */
  function Target(items: seq<Item>, p: nat): nat
    requires p < |items|
  {
    if items[p].index.At? then items[p].index.position else p
  }

  predicate Readable(items: seq<Item>, p: nat)
    requires p < |items|
  {
    items[p].vector.Some? && !items[p].index.Malformed? && Target(items, p) < |items| &&
    (Indexed(items[p]) <==> Indexed(items[0]))
  }

  predicate Apart(items: seq<Item>, p: nat, q: nat)
    requires p < |items| && q < |items|
  {
    Target(items, p) == Target(items, q) ==> p == q
  }

  /** All indices or none, whole numbers within the list, no two alike; nothing is said about gaps. */
  predicate Placeable(items: seq<Item>) {
    (forall p: nat :: p < |items| ==> Readable(items, p)) &&
    forall p: nat, q: nat :: p < |items| && q < |items| ==> Apart(items, p, q)
  }

  function Range(n: nat): (r: set<nat>)
    ensures forall i: nat :: i in r <==> i < n
    ensures |r| == n
  {
    if n == 0 then {} else Range(n - 1) + {n - 1}
  }

  lemma {:induction false} Full(a: set<nat>, b: set<nat>)
    requires a <= b && |a| == |b|
    ensures a == b
    decreases |a|
  {
    if a != {} {
      var x :| x in a;
      Full(a - {x}, b - {x});
      assert a == a - {x} + {x} && b == b - {x} + {x};
    }
  }

  /** The positions that the first n items fill. */
  predicate FilledBy(items: seq<Item>, n: nat, v: seq<Option<Vector>>, filled: set<nat>)
    requires n <= |items|
  {
    |v| == |items| && |filled| == n && filled <= Range(|items|) &&
    (forall i :: 0 <= i < |v| ==> (v[i].Some? <==> i in filled)) &&
    (forall p: nat :: p < n ==> Readable(items, p) && Target(items, p) in filled && v[Target(items, p)] == items[p].vector) &&
    forall p: nat, q: nat :: p < n && q < n ==> Apart(items, p, q)
  }

  lemma FillOne(items: seq<Item>, n: nat, v: seq<Option<Vector>>, filled: set<nat>)
    requires n < |items| && FilledBy(items, n, v, filled) && Readable(items, n) && v[Target(items, n)].None?
    ensures FilledBy(items, n + 1, v[Target(items, n) := items[n].vector], filled + {Target(items, n)})
  {
    forall p: nat | p < n ensures Target(items, p) != Target(items, n) { assert Readable(items, p); }
  }

  lemma Duplicate(items: seq<Item>, n: nat, v: seq<Option<Vector>>, filled: set<nat>)
    requires n < |items| && FilledBy(items, n, v, filled) && Readable(items, n) && v[Target(items, n)].Some?
    ensures !Placeable(items)
  {
    if forall p: nat :: p < n ==> Target(items, p) != Target(items, n) {
      Origins(items, n, v, filled, Target(items, n));
    } else {
      var p: nat :| p < n && Target(items, p) == Target(items, n);
      assert !Apart(items, p, n);
    }
  }

  function Targets(items: seq<Item>, n: nat): set<nat>
    requires n <= |items|
  {
    set p: nat | p < n :: Target(items, p)
  }

  lemma {:induction false} TargetCount(items: seq<Item>, n: nat)
    requires n <= |items| && forall p: nat, q: nat :: p < n && q < n ==> Apart(items, p, q)
    ensures |Targets(items, n)| == n
  {
    if n > 0 {
      TargetCount(items, n - 1);
      assert Targets(items, n) == Targets(items, n - 1) + {Target(items, n - 1)};
      assert Target(items, n - 1) !in Targets(items, n - 1) by {
        forall p: nat | p < n - 1 ensures Target(items, p) != Target(items, n - 1) { assert Apart(items, p, n - 1); }
      }
    }
  }

  /** Every filled position was filled by an item. */
  lemma Origins(items: seq<Item>, n: nat, v: seq<Option<Vector>>, filled: set<nat>, at: nat)
    requires n <= |items| && FilledBy(items, n, v, filled) && at in filled
    ensures exists p: nat :: p < n && Target(items, p) == at
  {
    TargetCount(items, n);
    Full(Targets(items, n), filled);
    assert at in Targets(items, n);
  }

  /** When no index is repeated no position can be missing: the check that follows the placement loop never fails. */
  lemma NothingMissing(items: seq<Item>, v: seq<Option<Vector>>, filled: set<nat>)
    requires FilledBy(items, |items|, v, filled)
    ensures forall i :: 0 <= i < |v| ==> v[i].Some?
  {
    Full(filled, Range(|items|));
  }

  /** The checks on one item, in the order in which they are made. */
  predicate IsReadable(items: seq<Item>, p: nat): (r: bool)
    requires p < |items|
    ensures r <==> Readable(items, p)
  {
    if items[p].vector.None? then false
    else if Indexed(items[p]) != Indexed(items[0]) then false
    else if items[p].index.Malformed? then false
    else Target(items, p) < |items|
  }

  function Values(v: seq<Option<Vector>>): seq<Vector>
    requires forall i :: 0 <= i < |v| ==> v[i].Some?
  {
    seq(|v|, i requires 0 <= i < |v| => v[i].value)
  }

  lemma Finished(items: seq<Item>, v: seq<Option<Vector>>, filled: set<nat>)
    requires FilledBy(items, |items|, v, filled) && forall i :: 0 <= i < |v| ==> v[i].Some?
    ensures Placeable(items) && |Values(v)| == |items| && forall p: nat :: p < |items| ==> Lands(items, p, Values(v))
  {
  }

  predicate Lands(items: seq<Item>, p: nat, vectors: seq<Vector>)
    requires p < |items|
  {
    Target(items, p) < |vectors| && items[p].vector == Some(vectors[Target(items, p)])
  }

  /** Succeeds exactly for placeable lists; each vector ends up where its item says. */
  method ParseWorkflowEmbeddingResponse(items: seq<Item>) returns (vectors: Option<seq<Vector>>)
    ensures vectors.Some? <==> Placeable(items)
    ensures vectors.Some? ==> |vectors.value| == |items|
    ensures vectors.Some? ==> forall p: nat :: p < |items| ==> Lands(items, p, vectors.value)
  {
    var slots := new Option<Vector>[|items|](_ => None);
    ghost var filled: set<nat> := {};
    for position := 0 to |items|
      invariant FilledBy(items, position, slots[..], filled)
    {
      if !IsReadable(items, position) { return None; }
      var target := Target(items, position);
      ghost var before := slots[..];
      if slots[target].Some? {
        Duplicate(items, position, before, filled);
        return None;
      }
      FillOne(items, position, before, filled);
      slots[target] := items[position].vector;
      assert slots[..] == before[target := items[position].vector];
      filled := filled + {target};
    }
    NothingMissing(items, slots[..], filled);
    vectors := Some(Values(slots[..]));
    Finished(items, slots[..], filled);
  }
}
