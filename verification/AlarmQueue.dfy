/** The alarm ids, the service's lifecycle and the deadline-ordered alarm list.

    `std::multimap::emplace` puts a new element after every element with an equal key, and ids
    grow with every registration, so the list is ordered by deadline and then by id.  The
    payload type is left open: the sequential model stores a callback script, the interleaving
    model stores nothing. */
module AlarmQueue {
  import opened Int64

  datatype Service = Running | Closing | Stopped

  /** `kNextAlarmId++` on an unsigned 64-bit counter; zero means that the ids are used up. */
  function NextId(id: nat): nat {
    if id + 1 == UINT64_SPAN then 0 else id + 1
  }

  /** One more than the largest id handed out so far. */
  function IdBound(nextId: nat): nat {
    if nextId == 0 then UINT64_SPAN else nextId
  }

  datatype Entry<T> = Entry(deadline: int, id: nat, payload: T)

  /** Delivery order: deadline first, registration order second. */
  predicate Before<T>(a: Entry<T>, b: Entry<T>) {
    a.deadline < b.deadline || (a.deadline == b.deadline && a.id < b.id)
  }

  ghost predicate Sorted<T>(q: seq<Entry<T>>) {
    forall i, j :: 0 <= i < j < |q| ==> Before(q[i], q[j])
  }

  function Ids<T>(q: seq<Entry<T>>): set<nat> {
    set i | 0 <= i < |q| :: q[i].id
  }

  ghost predicate DistinctIds<T>(q: seq<Entry<T>>) {
    forall i, j :: 0 <= i < j < |q| ==> q[i].id != q[j].id
  }

  /** The position `multimap` inserts at: after the last key not above `deadline`. */
  function UpperBound<T>(q: seq<Entry<T>>, deadline: int): (k: nat)
    ensures k <= |q|
    ensures forall i :: 0 <= i < k ==> q[i].deadline <= deadline
    ensures k < |q| ==> deadline < q[k].deadline
  {
    if |q| == 0 || deadline < q[0].deadline then 0 else 1 + UpperBound(q[1..], deadline)
  }

  function Insert<T>(q: seq<Entry<T>>, e: Entry<T>): seq<Entry<T>> {
    var k := UpperBound(q, e.deadline);
    q[..k] + [e] + q[k..]
  }

  function RemoveAt<T>(q: seq<Entry<T>>, i: nat): seq<Entry<T>>
    requires i < |q|
  {
    q[..i] + q[i + 1..]
  }

  /** The position of alarm `id`, or `|q|` when it is not pending. */
  function Find<T>(q: seq<Entry<T>>, id: nat): (k: nat)
    ensures k <= |q|
    ensures k < |q| ==> q[k].id == id
    ensures forall i :: 0 <= i < k ==> q[i].id != id
  {
    if |q| == 0 || q[0].id == id then 0 else 1 + Find(q[1..], id)
  }

  /** Registering a fresh, larger id keeps the delivery order and adds exactly that alarm. */
  lemma InsertKeepsOrder<T>(q: seq<Entry<T>>, e: Entry<T>)
    requires Sorted(q)
    requires forall i :: 0 <= i < |q| ==> q[i].id < e.id
    ensures Sorted(Insert(q, e))
    ensures DistinctIds(q) ==> DistinctIds(Insert(q, e))
    ensures Ids(Insert(q, e)) == Ids(q) + {e.id}
    ensures forall x :: x in Insert(q, e) <==> x == e || x in q
  {
    var k := UpperBound(q, e.deadline);
    InsertAtKeepsOrder(q, k, e);
    InsertAtAddsOne(q, k, e);
  }

  lemma InsertAtKeepsOrder<T>(q: seq<Entry<T>>, k: nat, e: Entry<T>)
    requires Sorted(q) && k <= |q|
    requires forall i :: 0 <= i < |q| ==> q[i].id < e.id
    requires forall i :: 0 <= i < k ==> q[i].deadline <= e.deadline
    requires k < |q| ==> e.deadline < q[k].deadline
    ensures Sorted(q[..k] + [e] + q[k..])
    ensures DistinctIds(q) ==> DistinctIds(q[..k] + [e] + q[k..])
  {
    var r := q[..k] + [e] + q[k..];
    forall i, j | 0 <= i < j < |r| ensures Before(r[i], r[j]) {
      assert j > k ==> r[j] == q[j - 1];
      assert i < k ==> r[i] == q[i];
      if i == k && j > k + 1 {
        assert Before(q[k], q[j - 1]);
      }
    }
  }

  lemma InsertAtAddsOne<T>(q: seq<Entry<T>>, k: nat, e: Entry<T>)
    requires k <= |q|
    ensures Ids(q[..k] + [e] + q[k..]) == Ids(q) + {e.id}
    ensures forall x :: x in q[..k] + [e] + q[k..] <==> x == e || x in q
  {
    var r := q[..k] + [e] + q[k..];
    assert q == q[..k] + q[k..];
    assert r[k] == e;
    forall x | x in Ids(q) ensures x in Ids(r) {
      var i :| 0 <= i < |q| && q[i].id == x;
      assert r[if i < k then i else i + 1].id == x;
    }
    forall x | x in Ids(r) ensures x in Ids(q) + {e.id} {
      var i :| 0 <= i < |r| && r[i].id == x;
      assert i != k ==> q[if i < k then i else i - 1].id == x;
    }
  }

  /** Removing one alarm keeps the order of the others and removes exactly its id. */
  lemma RemoveKeepsOrder<T>(q: seq<Entry<T>>, i: nat)
    requires Sorted(q) && DistinctIds(q) && i < |q|
    ensures Sorted(RemoveAt(q, i)) && DistinctIds(RemoveAt(q, i))
    ensures Ids(RemoveAt(q, i)) == Ids(q) - {q[i].id}
    ensures forall x :: x in RemoveAt(q, i) <==> x in q && x != q[i]
  {
    var r := RemoveAt(q, i);
    assert q == q[..i] + [q[i]] + q[i + 1..];
    assert forall j :: 0 <= j < i ==> r[j] == q[j];
    assert forall j :: i <= j < |r| ==> r[j] == q[j + 1];
    forall x | x in Ids(q) - {q[i].id} ensures x in Ids(r) {
      var j :| 0 <= j < |q| && q[j].id == x;
      assert r[if j < i then j else j - 1].id == x;
    }
  }

  /** The list is determined by the set of pending alarms: two delivery-ordered lists over the
      same alarms are the same list, so its head is the earliest alarm, first registered first. */
  lemma {:induction false} OrderIsCanonical<T>(p: seq<Entry<T>>, q: seq<Entry<T>>)
    requires Sorted(p) && Sorted(q)
    requires forall e :: e in p <==> e in q
    ensures p == q
  {
    if |q| > 0 { assert q[0] in q; }
    if |p| > 0 {
      assert p[0] in p;
      var j :| 0 <= j < |q| && q[j] == p[0];
      assert q[0] in p;
      var i :| 0 <= i < |p| && p[i] == q[0];
      assert i == 0 && j == 0;
      forall e ensures e in p[1..] <==> e in q[1..] {
        TailMembers(p, e);
        TailMembers(q, e);
      }
      OrderIsCanonical(p[1..], q[1..]);
      assert p == [p[0]] + p[1..] && q == [q[0]] + q[1..];
    }
  }

  lemma TailMembers<T>(q: seq<Entry<T>>, e: Entry<T>)
    requires Sorted(q) && |q| > 0
    ensures e in q[1..] <==> e in q && e != q[0]
  {
    assert q == [q[0]] + q[1..];
  }

  /** The total of a per-alarm cost, used by the termination and work bounds. */
  function Sum<T>(q: seq<Entry<T>>, cost: Entry<T> -> nat): nat {
    if |q| == 0 then 0 else cost(q[0]) + Sum(q[1..], cost)
  }

  lemma {:induction false} SumConcat<T>(p: seq<Entry<T>>, q: seq<Entry<T>>, cost: Entry<T> -> nat)
    ensures Sum(p + q, cost) == Sum(p, cost) + Sum(q, cost)
  {
    if |p| == 0 {
      assert p + q == q;
    } else {
      assert (p + q)[1..] == p[1..] + q;
      SumConcat(p[1..], q, cost);
    }
  }

  lemma SumInsert<T>(q: seq<Entry<T>>, e: Entry<T>, cost: Entry<T> -> nat)
    ensures Sum(Insert(q, e), cost) == Sum(q, cost) + cost(e)
  {
    var k := UpperBound(q, e.deadline);
    assert q == q[..k] + q[k..];
    SumConcat(q[..k], q[k..], cost);
    SumConcat(q[..k] + [e], q[k..], cost);
    SumConcat(q[..k], [e], cost);
    assert [e][1..] == [];
  }

  lemma SumRemove<T>(q: seq<Entry<T>>, i: nat, cost: Entry<T> -> nat)
    requires i < |q|
    ensures Sum(q, cost) == Sum(RemoveAt(q, i), cost) + cost(q[i])
  {
    assert q == q[..i] + q[i..];
    SumConcat(q[..i], q[i..], cost);
    SumConcat(q[..i], q[i + 1..], cost);
    assert q[i..][1..] == q[i + 1..];
  }
}
