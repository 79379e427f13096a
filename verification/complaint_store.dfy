/**
  The complaint collection as the route handlers use it: an append-only
  sequence of stored documents with a server clock that stamps each insert,
  and the two queries "all" and "by owner", both sorted newest first.
  Among records with equal `createdAt` the order is left unspecified: the
  contracts below only promise a non-increasing `createdAt`.
*/
module ComplaintStore {
  import opened ComplaintSchema

  /** A saved document: its id and the server-assigned timestamps around the validated complaint. */
  datatype Record = Record(id: nat, doc: Complaint, createdAt: nat, updatedAt: nat)

  /** The collection and the server clock that stamps the next insert. */
  datatype Store = Store(records: seq<Record>, clock: nat)

  const Empty := Store([], 0)

  /** Every record was stamped before the current clock. */
  predicate Valid(st: Store) {
    forall i :: 0 <= i < |st.records| ==> st.records[i].id < st.clock && st.records[i].createdAt < st.clock
  }

  /**
    Insert a validated complaint: the server, not the caller, assigns the id
    and both timestamps, from the clock, which then advances.
  */
  function Insert(st: Store, c: Complaint): (r: (Record, Store))
    ensures r.0.doc == c
    ensures r.0.id == st.clock && r.0.createdAt == st.clock && r.0.updatedAt == st.clock
    ensures r.1.records == st.records + [r.0]
    ensures r.1.clock > st.clock
    ensures Valid(st) ==> Valid(r.1)
  {
    var rec := Record(st.clock, c, st.clock, st.clock);
    (rec, Store(st.records + [rec], st.clock + 1))
  }

  /** A valid store does not yet hold the record the next insert creates. */
  lemma InsertIsNew(st: Store, c: Complaint)
    requires Valid(st)
    ensures Insert(st, c).0 !in st.records
    ensures multiset(Insert(st, c).1.records)[Insert(st, c).0] == 1
  {
    var rec := Insert(st, c).0;
    assert multiset(st.records + [rec]) == multiset(st.records) + multiset{rec};
  }

  /** Newest first: `createdAt` never increases along the sequence. */
  predicate NewestFirst(rs: seq<Record>) {
    forall i, j :: 0 <= i < j < |rs| ==> rs[i].createdAt >= rs[j].createdAt
  }

  /** A record no older than anything in a newest-first sequence can go in front of it. */
  lemma ConsNewestFirst(h: Record, t: seq<Record>)
    requires NewestFirst(t)
    requires forall y :: y in t ==> y.createdAt <= h.createdAt
    ensures NewestFirst([h] + t)
  {
    forall i, j | 0 <= i < j < |[h] + t| ensures ([h] + t)[i].createdAt >= ([h] + t)[j].createdAt {
      if i == 0 {
        assert ([h] + t)[j] == t[j - 1];
      }
    }
  }

  /** What `x` joins after the head of `rs` is no newer than that head. */
  lemma TailNotNewer(x: Record, rs: seq<Record>, tail: seq<Record>)
    requires NewestFirst(rs) && |rs| > 0 && x.createdAt < rs[0].createdAt
    requires multiset(tail) == multiset(rs[1..]) + multiset{x}
    ensures forall y :: y in tail ==> y.createdAt <= rs[0].createdAt
  {
    forall y | y in tail ensures y.createdAt <= rs[0].createdAt {
      assert y in multiset(tail);
      if y != x {
        assert y in rs[1..];
      }
    }
  }

  /** Place `x` into a newest-first sequence, before every record that is not newer. */
  function InsertByRecency(x: Record, rs: seq<Record>): (r: seq<Record>)
    requires NewestFirst(rs)
    ensures NewestFirst(r)
    ensures multiset(r) == multiset(rs) + multiset{x}
  {
    if rs == [] then [x]
    else if x.createdAt >= rs[0].createdAt then
      ConsNewestFirst(x, rs);
      [x] + rs
    else
      var tail := InsertByRecency(x, rs[1..]);
      TailNotNewer(x, rs, tail);
      ConsNewestFirst(rs[0], tail);
      assert multiset([rs[0]] + tail) == multiset{rs[0]} + multiset(tail);
      assert multiset(rs) == multiset{rs[0]} + multiset(rs[1..]) by { assert rs == [rs[0]] + rs[1..]; }
      [rs[0]] + tail
  }

  /** The sort applied by both list queries: newest first, same records. */
  function SortNewestFirst(rs: seq<Record>): (r: seq<Record>)
    ensures NewestFirst(r)
    ensures multiset(r) == multiset(rs)
  {
    if rs == [] then []
    else
      assert rs == [rs[0]] + rs[1..];
      InsertByRecency(rs[0], SortNewestFirst(rs[1..]))
  }

  /** The records whose owner is `owner`, in their stored order. */
  function OwnedBy(rs: seq<Record>, owner: UserId): (r: seq<Record>)
    ensures forall x :: x in r ==> x.doc.user == owner
    ensures forall x {:trigger multiset(r)[x]} :: multiset(r)[x] == if x.doc.user == owner then multiset(rs)[x] else 0
  {
    if rs == [] then []
    else
      assert rs == [rs[0]] + rs[1..];
      if rs[0].doc.user == owner then [rs[0]] + OwnedBy(rs[1..], owner) else OwnedBy(rs[1..], owner)
  }

  /** Every complaint, newest first. */
  function FindAll(st: Store): (r: seq<Record>)
    ensures NewestFirst(r)
    ensures multiset(r) == multiset(st.records)
  {
    SortNewestFirst(st.records)
  }

  /** The complaints of one owner, newest first; nobody else's. */
  function FindByOwner(st: Store, owner: UserId): (r: seq<Record>)
    ensures NewestFirst(r)
    ensures forall x :: x in r ==> x.doc.user == owner
    ensures forall x {:trigger multiset(r)[x]} :: multiset(r)[x] == if x.doc.user == owner then multiset(st.records)[x] else 0
  {
    var mine := OwnedBy(st.records, owner);
    var r := SortNewestFirst(mine);
    assert forall x :: x in r ==> x in multiset(mine);
    r
  }
}
