/** A queue of distinct ids: one leaves, the others keep their order, new ones come last. */
module ReadyQueue {
  import opened Types
  import opened SchedulerSpec
  import opened SchedulerInvariant

  // ----- leaving

  /** One id leaves the queue if it is there; the others keep their order. */
  ghost predicate TakenOut(before: seq<Id>, after: seq<Id>, id: Id) {
    if id in before then exists i :: 0 <= i < |before| && before[i] == id && after == before[..i] + before[i + 1..]
    else after == before
  }

  lemma {:induction false} WithoutOne(front: seq<Id>, id: Id, back: seq<Id>)
    requires id !in front && id !in back
    ensures Without(front + [id] + back, id) == front + back
    decreases |front|
  {
    var ids := front + [id] + back;
    assert Without(ids, id) == (if ids[0] == id then [] else [ids[0]]) + Without(ids[1..], id);
    if front == [] {
      assert ids[1..] == back;
      WithoutIs(back, id);
      assert front + back == back;
    } else {
      assert ids[1..] == front[1..] + [id] + back;
      WithoutOne(front[1..], id, back);
      assert front + back == [front[0]] + (front[1..] + back);
    }
  }

  lemma WithoutTakesOut(ids: seq<Id>, id: Id)
    requires Distinct(ids)
    ensures TakenOut(ids, Without(ids, id), id)
  {
    if id in ids {
      var k :| 0 <= k < |ids| && ids[k] == id;
      hide Without;
      assert ids == ids[..k] + [id] + ids[k + 1..];
      WithoutOne(ids[..k], id, ids[k + 1..]);
    } else {
      WithoutIs(ids, id);
    }
  }

  // ----- order

  predicate Ahead(ids: seq<Id>, a: Id, b: Id) {
    exists i, j :: 0 <= i < j < |ids| && ids[i] == a && ids[j] == b
  }

  /** Ids may leave the queue; those that stay keep their order, and those that enter come after them. */
  ghost predicate KeepsOrder(before: seq<Id>, after: seq<Id>) {
    && (forall a, b :: a in before && b in before && Ahead(after, a, b) ==> Ahead(before, a, b))
    && (forall a, b :: a in before && b !in before && a in after && b in after ==> Ahead(after, a, b))
  }

  lemma SameKeepsOrder(ids: seq<Id>)
    ensures KeepsOrder(ids, ids)
  {
  }

  lemma EntryKeepsOrder(ids: seq<Id>, id: Id)
    requires id !in ids
    ensures KeepsOrder(ids, ids + [id])
  {
    var after := ids + [id];
    forall a, b | a in ids && b in ids && Ahead(after, a, b)
      ensures Ahead(ids, a, b)
    {
      var i, j :| 0 <= i < j < |after| && after[i] == a && after[j] == b;
      assert ids[i] == a && ids[j] == b;
    }
    forall a, b | a in ids && b !in ids && b in after
      ensures Ahead(after, a, b)
    {
      var i :| 0 <= i < |ids| && ids[i] == a;
      assert after[i] == a && after[|ids|] == b;
    }
  }

  lemma LeavingKeepsOrder(before: seq<Id>, after: seq<Id>, k: nat)
    requires k < |before| && after == before[..k] + before[k + 1..]
    ensures KeepsOrder(before, after)
    ensures forall x :: x in after ==> x in before
    ensures forall x :: x in before && x != before[k] ==> x in after
  {
    assert before == before[..k] + [before[k]] + before[k + 1..];
    forall a, b | Ahead(after, a, b)
      ensures Ahead(before, a, b)
    {
      var i, j :| 0 <= i < j < |after| && after[i] == a && after[j] == b;
      var p := if i < k then i else i + 1;
      var q := if j < k then j else j + 1;
      assert before[p] == a && before[q] == b;
    }
  }

  lemma TakenOutKeepsOrder(before: seq<Id>, after: seq<Id>, id: Id)
    requires TakenOut(before, after, id)
    ensures KeepsOrder(before, after)
    ensures forall x :: x in after ==> x in before
    ensures forall x :: x in before && x != id ==> x in after
  {
    if id in before {
      var k :| 0 <= k < |before| && before[k] == id && after == before[..k] + before[k + 1..];
      LeavingKeepsOrder(before, after, k);
    }
  }

  lemma EmptyKeepsOrder(ids: seq<Id>)
    ensures KeepsOrder(ids, [])
  {
  }

  lemma Ordered(ids: seq<Id>, a: Id, b: Id)
    requires a in ids && b in ids && a != b
    ensures Ahead(ids, a, b) || Ahead(ids, b, a)
  {
    var i :| 0 <= i < |ids| && ids[i] == a;
    var j :| 0 <= j < |ids| && ids[j] == b;
    if i < j {
      assert Ahead(ids, a, b);
    } else {
      assert Ahead(ids, b, a);
    }
  }

  lemma NotBoth(ids: seq<Id>, a: Id, b: Id)
    requires Distinct(ids) && Ahead(ids, a, b) && a != b
    ensures !Ahead(ids, b, a)
  {
  }
}
