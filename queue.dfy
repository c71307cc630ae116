/**
 * The shop's document queue (App.tsx): rebuilding it from a store snapshot,
 * looking a document up by its collection code and filtering one out.
 */
module Queue {
  import opened Types

  /** One stored record as the snapshot handler maps it: a missing status reads as pending. */
  function ToDocument(r: StoredRecord): (d: DocumentItem)
    ensures d.id == r.id && d.uploadTimestamp == r.uploadTimestamp
    ensures d.status.Completed? <==> r.status.Some? && r.status.value.Completed?
  {
    var status := if r.status.Some? then r.status.value else Pending;
    DocumentItem(r.id, r.fileName, r.fileSize, r.fileTypeDisplay, r.uploadTimestamp,
                 status, r.fileData)
  }

  function ToDocuments(rs: seq<StoredRecord>): (ds: seq<DocumentItem>)
    ensures |ds| == |rs|
    ensures forall i | 0 <= i < |rs| :: ds[i] == ToDocument(rs[i])
  {
    seq(|rs|, i requires 0 <= i < |rs| => ToDocument(rs[i]))
  }

  predicate SortedByUpload(q: seq<DocumentItem>) {
    forall i, j | 0 <= i < j < |q| :: q[i].uploadTimestamp <= q[j].uploadTimestamp
  }

  /** The documents of `q` that carry upload time `t`, in their order in `q`. */
  function WithTimestamp(q: seq<DocumentItem>, t: int): seq<DocumentItem> {
    if q == [] then []
    else (if q[0].uploadTimestamp == t then [q[0]] else []) + WithTimestamp(q[1..], t)
  }

  /**
   * Places `x` in front of the first element that is not earlier than it:
   * one step of a stable insertion sort keyed on upload time.
   */
  function Insert(x: DocumentItem, q: seq<DocumentItem>): (r: seq<DocumentItem>)
    ensures |r| == |q| + 1
  {
    if q == [] then [x]
    else if x.uploadTimestamp <= q[0].uploadTimestamp then [x] + q
    else [q[0]] + Insert(x, q[1..])
  }

  /** Inserting adds `x` and loses nothing. */
  lemma {:induction false} InsertPermutes(x: DocumentItem, q: seq<DocumentItem>)
    ensures multiset(Insert(x, q)) == multiset(q) + multiset{x}
  {
    if q != [] && x.uploadTimestamp > q[0].uploadTimestamp {
      InsertPermutes(x, q[1..]);
      assert q == [q[0]] + q[1..];
    }
  }

  /** Inserting into an ordered queue keeps it ordered. */
  lemma {:induction false} InsertSorted(x: DocumentItem, q: seq<DocumentItem>)
    requires SortedByUpload(q)
    ensures SortedByUpload(Insert(x, q))
  {
    if q != [] && x.uploadTimestamp > q[0].uploadTimestamp {
      var rest := Insert(x, q[1..]);
      InsertSorted(x, q[1..]);
      // The inserted sequence starts with `x` or with the old second element.
      assert rest[0] == x || rest[0] == q[1];
      var r := [q[0]] + rest;
      forall i, j | 0 <= i < j < |r|
        ensures r[i].uploadTimestamp <= r[j].uploadTimestamp
      {
        if i == 0 {
          assert r[1] == rest[0] && r[j] == rest[j - 1];
        } else {
          assert r[i] == rest[i - 1] && r[j] == rest[j - 1];
        }
      }
    }
  }

  /**
   * `documents.sort((a, b) => a.uploadTimestamp - b.uploadTimestamp)`:
   * ordered by upload time and a permutation of its input.
   */
  function SortByUpload(q: seq<DocumentItem>): (r: seq<DocumentItem>)
    ensures multiset(r) == multiset(q)
    ensures SortedByUpload(r)
  {
    if q == [] then []
    else
      assert q == [q[0]] + q[1..];
      var rest := SortByUpload(q[1..]);
      InsertSorted(q[0], rest);
      InsertPermutes(q[0], rest);
      Insert(q[0], rest)
  }

  /** Selecting by upload time, one element at a time from the front. */
  lemma WithTimestampCons(d: DocumentItem, q: seq<DocumentItem>, t: int)
    ensures WithTimestamp([d] + q, t) == (if d.uploadTimestamp == t then [d] else []) + WithTimestamp(q, t)
  {
    assert ([d] + q)[0] == d && ([d] + q)[1..] == q;
  }

  lemma {:induction false} InsertStable(x: DocumentItem, q: seq<DocumentItem>, t: int)
    ensures WithTimestamp(Insert(x, q), t)
         == (if x.uploadTimestamp == t then [x] else []) + WithTimestamp(q, t)
  {
    if q == [] {
      WithTimestampCons(x, [], t);
      assert [x] + [] == [x];
    } else if x.uploadTimestamp <= q[0].uploadTimestamp {
      WithTimestampCons(x, q, t);
    } else {
      var head := q[0];
      var tail := q[1..];
      assert q == [head] + tail;
      InsertStable(x, tail, t);
      WithTimestampCons(head, Insert(x, tail), t);
      WithTimestampCons(head, tail, t);
      var here := if x.uploadTimestamp == t then [x] else [];
      var first := if head.uploadTimestamp == t then [head] else [];
      assert here == [] || first == [];
    }
  }

  /**
   * The sort is stable: documents with equal upload times keep the order in
   * which the snapshot listed them.
   */
  lemma {:induction false} SortStable(q: seq<DocumentItem>, t: int)
    ensures WithTimestamp(SortByUpload(q), t) == WithTimestamp(q, t)
  {
    if q != [] {
      SortStable(q[1..], t);
      InsertStable(q[0], SortByUpload(q[1..]), t);
    }
  }

  /**
   * The snapshot handler: no data gives an empty queue; otherwise every
   * record, completed or not, becomes a document, in upload-time order.
   * `snapshot` lists the records in the order the store delivers them.
   */
  function Reconcile(snapshot: Option<seq<StoredRecord>>): (q: seq<DocumentItem>)
    ensures snapshot.None? ==> q == []
    ensures snapshot.Some? ==> multiset(q) == multiset(ToDocuments(snapshot.value))
    ensures SortedByUpload(q)
  {
    match snapshot
    case None => []
    case Some(rs) => SortByUpload(ToDocuments(rs))
  }

  /** The queue is the stable order of the snapshot by upload time. */
  lemma ReconcileStable(rs: seq<StoredRecord>, t: int)
    ensures WithTimestamp(Reconcile(Some(rs)), t) == WithTimestamp(ToDocuments(rs), t)
  {
    SortStable(ToDocuments(rs), t);
  }

  /** Completed records are not filtered out: they stay in the queue. */
  lemma CompletedRecordsStay(rs: seq<StoredRecord>, k: nat)
    requires k < |rs| && rs[k].status.Some? && rs[k].status.value.Completed?
    ensures ToDocument(rs[k]) in Reconcile(Some(rs))
    ensures ToDocument(rs[k]).status == Completed
  {
    var ds := ToDocuments(rs);
    assert ds[k] in multiset(ds);
  }

  /** A snapshot of one record is a queue of that one document. */
  lemma ReconcileSingle(r: StoredRecord)
    ensures Reconcile(Some([r])) == [ToDocument(r)]
  {
    assert ToDocuments([r]) == [ToDocument(r)];
    SortSingle(ToDocument(r));
  }

  lemma SortSingle(d: DocumentItem)
    ensures SortByUpload([d]) == [d]
  {
    assert [d][1..] == [];
  }

  lemma SortSwapsPair(x: DocumentItem, y: DocumentItem)
    requires y.uploadTimestamp < x.uploadTimestamp
    ensures SortByUpload([x, y]) == [y, x]
  {
    assert [x, y][1..] == [y];
    SortSingle(y);
    assert Insert(x, [y]) == [y] + Insert(x, []);
  }

  /** Two pending records at 200 and 100 come out as [the one at 100, the one at 200]. */
  lemma ReconcileExample(a: StoredRecord, b: StoredRecord)
    requires a.uploadTimestamp == 200 && b.uploadTimestamp == 100
    ensures Reconcile(Some([a, b])) == [ToDocument(b), ToDocument(a)]
  {
    assert ToDocuments([a, b]) == [ToDocument(a), ToDocument(b)];
    SortSwapsPair(ToDocument(a), ToDocument(b));
  }

  // ---------------------------------------------------------------------
  // Lookup and removal by collection code
  // ---------------------------------------------------------------------

  /** The position of the first document with this id, or |q| if none has it. */
  function IndexOfId(q: seq<DocumentItem>, id: string): (k: nat)
    ensures k <= |q|
    ensures k < |q| ==> q[k].id == id
    ensures forall j | 0 <= j < k :: q[j].id != id
  {
    if q == [] then 0
    else if q[0].id == id then 0
    else 1 + IndexOfId(q[1..], id)
  }

  /** `documentQueue.find(d => d.id === id)`. */
  function FindById(q: seq<DocumentItem>, id: string): (r: Option<DocumentItem>)
    ensures r.None? <==> forall j | 0 <= j < |q| :: q[j].id != id
    ensures r.Some? ==> r.value.id == id && r.value in q
    ensures r.Some? ==> r.value == q[IndexOfId(q, id)]
  {
    var k := IndexOfId(q, id);
    if k < |q| then Some(q[k]) else None
  }

  /** A one-document queue finds that document by its own id. */
  lemma FindSingle(d: DocumentItem)
    ensures FindById([d], d.id) == Some(d)
  {
    assert IndexOfId([d], d.id) == 0;
  }

  /** `q.filter(d => d.id !== id)`. */
  function RemoveId(q: seq<DocumentItem>, id: string): (r: seq<DocumentItem>)
    ensures |r| <= |q|
  {
    if q == [] then []
    else
      var init := q[..|q| - 1];
      var last := q[|q| - 1];
      RemoveId(init, id) + (if last.id == id then [] else [last])
  }

  /** No document with the id is left. */
  lemma {:induction false} RemoveIdRemoves(q: seq<DocumentItem>, id: string)
    ensures forall j | 0 <= j < |RemoveId(q, id)| :: RemoveId(q, id)[j].id != id
  {
    if q != [] {
      var init := q[..|q| - 1];
      var last := q[|q| - 1];
      assert q == init + [last];
      RemoveIdSnoc(init, last, id);
      RemoveIdRemoves(init, id);
    }
  }

  /** A queue without the id comes through unchanged. */
  lemma {:induction false} RemoveIdWithoutId(q: seq<DocumentItem>, id: string)
    requires forall j | 0 <= j < |q| :: q[j].id != id
    ensures RemoveId(q, id) == q
  {
    if q != [] {
      var init := q[..|q| - 1];
      var last := q[|q| - 1];
      assert q == init + [last];
      RemoveIdSnoc(init, last, id);
      RemoveIdWithoutId(init, id);
    }
  }

  /** The filter takes a queue one element at a time from the back. */
  lemma RemoveIdSnoc(q: seq<DocumentItem>, d: DocumentItem, id: string)
    ensures RemoveId(q + [d], id) == RemoveId(q, id) + (if d.id == id then [] else [d])
  {
    assert (q + [d])[..|q|] == q;
  }

  /** Every document with another id survives the filter, as often as it occurred. */
  lemma {:induction false} RemoveIdKeepsOthers(q: seq<DocumentItem>, id: string, d: DocumentItem)
    requires d.id != id
    ensures multiset(RemoveId(q, id))[d] == multiset(q)[d]
  {
    if q != [] {
      var init := q[..|q| - 1];
      assert q == init + [q[|q| - 1]];
      RemoveIdKeepsOthers(init, id, d);
    }
  }

  /** The filter keeps the order of what it keeps: it distributes over concatenation. */
  lemma {:induction false} RemoveIdConcat(a: seq<DocumentItem>, b: seq<DocumentItem>, id: string)
    ensures RemoveId(a + b, id) == RemoveId(a, id) + RemoveId(b, id)
  {
    if b == [] {
      assert a + b == a;
    } else {
      var b' := b[..|b| - 1];
      var last := b[|b| - 1];
      var tail := if last.id == id then [] else [last];
      assert (a + b)[..|a + b| - 1] == a + b';
      assert (a + b)[|a + b| - 1] == last;
      RemoveIdConcat(a, b', id);
      assert RemoveId(a + b, id) == RemoveId(a + b', id) + tail;
      assert RemoveId(b, id) == RemoveId(b', id) + tail;
    }
  }

  /** Whatever survives the filter was in the queue. */
  lemma RemoveIdSubset(q: seq<DocumentItem>, id: string, j: nat)
    requires j < |RemoveId(q, id)|
    ensures RemoveId(q, id)[j] in q
  {
    var r := RemoveId(q, id);
    RemoveIdRemoves(q, id);
    RemoveIdKeepsOthers(q, id, r[j]);
    assert r[j] in multiset(r);
  }

  /** Filtering an ordered queue leaves it ordered. */
  lemma {:induction false} RemoveIdSorted(q: seq<DocumentItem>, id: string)
    requires SortedByUpload(q)
    ensures SortedByUpload(RemoveId(q, id))
  {
    if q != [] {
      var init := q[..|q| - 1];
      var last := q[|q| - 1];
      assert q == init + [last];
      assert SortedByUpload(init);
      RemoveIdSorted(init, id);
      var r := RemoveId(init, id);
      forall j | 0 <= j < |r| ensures r[j].uploadTimestamp <= last.uploadTimestamp {
        RemoveIdSubset(init, id, j);
      }
    }
  }

  /** The filter as the loop that runs it, one document at a time. */
  method FilterOutId(q: seq<DocumentItem>, id: string) returns (r: seq<DocumentItem>)
    ensures r == RemoveId(q, id)
  {
    r := [];
    var i := 0;
    while i < |q|
      invariant 0 <= i <= |q|
      invariant r == RemoveId(q[..i], id)
    {
      ghost var before := q[..i];
      assert q[..i + 1] == before + [q[i]];
      RemoveIdSnoc(before, q[i], id);
      if q[i].id != id {
        r := r + [q[i]];
      }
      i := i + 1;
    }
    assert q[..|q|] == q;
  }

  /** Minutes between upload and `now`, both in epoch milliseconds. */
  function WaitMinutes(uploadTimestamp: int, now: int): real {
    (now - uploadTimestamp) as real / 60000.0
  }

  /** The wait is the elapsed milliseconds in minutes, never negative when time moved on. */
  lemma WaitMinutesScale(uploadTimestamp: int, now: int)
    ensures WaitMinutes(uploadTimestamp, now) * 60000.0 == (now - uploadTimestamp) as real
    ensures uploadTimestamp <= now ==> WaitMinutes(uploadTimestamp, now) >= 0.0
  {
  }
}
