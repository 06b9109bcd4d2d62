/** The in-memory outbox: entries are shared objects that its one lock lets it update in place. */
module MemoryOutbox {
  import opened Base
  import opened Outbox
  import R = MemoryRuns

  /** The inner removal loop: moves the elements other than one down, within the array. */
  method Compact(slots: array<Handler>, n: nat, processed: Handler) returns (j: nat)
    requires n <= slots.Length
    modifies slots
    ensures j <= n && slots[..j] == PullAll(old(slots[..n]), [processed])
  {
    ghost var was := slots[..n];
    j := 0;
    for i := 0 to n
      invariant j <= i && slots[..j] == PullAll(was[..i], [processed])
      invariant slots[i..n] == was[i..]
    {
      var h := slots[i];
      assert slots[i..n][0] == h && was[i..][0] == was[i] && slots[i + 1..n] == slots[i..n][1..] && was[i + 1..] == was[i..][1..];
      PullNext(was, i, processed);
      if h != processed {
        slots[j] := h;
        j := j + 1;
      }
    }
    assert was[..n] == was;
  }

  /** The outer removal loop, once for every processed handler. */
  method CompactAll(slots: array<Handler>, n: nat, processed: seq<Handler>) returns (j: nat)
    requires n <= slots.Length
    modifies slots
    ensures j <= n && slots[..j] == PullAll(old(slots[..n]), processed)
  {
    ghost var was, left := slots[..n], slots[..n];
    PullNone(was);
    j := n;
    for k := 0 to |processed|
      invariant j <= n && slots[..j] == left
      invariant left == PullAll(was, processed[..k])
    {
      j := Compact(slots, j, processed[k]);
      PullStep(was, processed, k);
      left := PullAll(left, [processed[k]]);
    }
    assert processed[..|processed|] == processed;
  }

  lemma PullStep(handlers: seq<Handler>, processed: seq<Handler>, k: nat)
    requires k < |processed|
    ensures PullAll(PullAll(handlers, processed[..k]), [processed[k]]) == PullAll(handlers, processed[..k + 1])
  {
    PullOneMore(handlers, processed[..k], processed[k]);
    assert processed[..k + 1] == processed[..k] + [processed[k]];
  }

  /** An entry; its handlers are a slice, the first `count` elements of an array. */
  class Entry {
    const id: nat
    const createdAt: int
    var slots: array<Handler>
    var count: nat
    var takenAt: Option<int>

    constructor (id: nat, handlers: seq<Handler>, createdAt: int)
      ensures Valid() && fresh(slots) && Handlers() == handlers
      ensures this.id == id && this.createdAt == createdAt && takenAt == None
    {
      this.id, this.createdAt, takenAt := id, createdAt, None;
      slots := new Handler[|handlers|](i requires 0 <= i < |handlers| => handlers[i]);
      count := |handlers|;
    }

    ghost predicate Valid()
      reads this
    {
      count <= slots.Length
    }

    ghost function Handlers(): seq<Handler>
      requires Valid()
      reads this, slots
    {
      slots[..count]
    }

    ghost function AsDoc(): Doc
      requires Valid()
      reads this, slots
    {
      Doc(Handlers(), createdAt, takenAt)
    }

    /** Keeps the elements other than one, moving them down within the same array. */
    method Remove(processed: Handler)
      requires Valid()
      modifies this`count, slots
      ensures Valid()
      ensures Handlers() == PullAll(old(Handlers()), [processed])
    {
      count := Compact(slots, count, processed);
    }

    /** Calls every handler, whatever the others do, and collects those that succeed. */
    method CallHandlers(outcomes: seq<bool>) returns (processed: seq<Handler>)
      requires Valid() && |outcomes| == count
      ensures processed == Successes(Handlers(), outcomes)
    {
      processed := [];
      ghost var handlers := Handlers();
      for k := 0 to count
        invariant processed == Successes(handlers[..k], outcomes[..k])
      {
        assert handlers[..k + 1][..k] == handlers[..k] && outcomes[..k + 1][..k] == outcomes[..k];
        if outcomes[k] {
          processed := processed + [slots[k]];
        }
      }
      assert handlers[..count] == handlers && outcomes[..count] == outcomes;
    }

    /** The removal loops: exactly the unprocessed handlers remain, in order. */
    method RemoveAll(processed: seq<Handler>)
      requires Valid()
      modifies this`count, slots
      ensures Valid()
      ensures Handlers() == PullAll(old(Handlers()), processed)
    {
      count := CompactAll(slots, count, processed);
    }

    /**
     The effect of processing on the entry: nothing while its lease is held, else a
     new lease, and the successful handlers gone unless there is nothing left to do.
     */
    method Process(now: int, outcomes: seq<bool>) returns (taken: bool, processed: seq<Handler>)
      requires Valid() && |outcomes| == count
      modifies this, slots
      ensures Valid() && slots == old(slots)
      ensures taken == old(Free(AsDoc(), now))
      ensures !taken ==> processed == [] && AsDoc() == old(AsDoc())
      ensures taken ==> processed == Successes(old(Handlers()), outcomes)
      ensures taken ==> AsDoc() == R.AfterCalls(old(AsDoc()), now, processed)
    {
      if !(takenAt.None? || Before(takenAt, now - PERIODIC_SWEEP_AGE)
           || (takenAt.None? && createdAt < now - PERIODIC_CLEANUP_AGE)) {
        return false, [];
      }
      takenAt := Some(now);
      processed := CallHandlers(outcomes);
      if |processed| != count && |processed| > 0 {
        RemoveAll(processed);
      }
      return true, processed;
    }
  }

  lemma PullNext(handlers: seq<Handler>, i: nat, h: Handler)
    requires i < |handlers|
    ensures PullAll(handlers[..i + 1], [h])
         == if handlers[i] == h then PullAll(handlers[..i], [h]) else PullAll(handlers[..i], [h]) + [handlers[i]]
  {
    assert handlers[..i + 1][..i] == handlers[..i];
  }

  lemma {:induction false} PullNone(handlers: seq<Handler>)
    ensures PullAll(handlers, []) == handlers
  {
    if handlers != [] {
      PullNone(handlers[..|handlers| - 1]);
    }
  }

  lemma {:induction false} PullOneMore(handlers: seq<Handler>, processed: seq<Handler>, h: Handler)
    ensures PullAll(PullAll(handlers, processed), [h]) == PullAll(handlers, processed + [h])
  {
    if handlers != [] {
      var k := |handlers| - 1;
      var before := PullAll(handlers[..k], processed);
      PullOneMore(handlers[..k], processed, h);
      if handlers[k] !in processed {
        assert (before + [handlers[k]])[..|before|] == before;
      }
    }
  }

  /** With distinct handlers, what the removal leaves is exactly what did not succeed. */
  lemma {:induction false} PullLeavesFailures(handlers: seq<Handler>, outcomes: seq<bool>)
    requires |handlers| == |outcomes|
    requires forall i, j :: 0 <= i < j < |handlers| ==> handlers[i] != handlers[j]
    ensures PullAll(handlers, Successes(handlers, outcomes)) == Failures(handlers, outcomes)
  {
    PullPrefixLeavesFailures(handlers, outcomes, |handlers|);
    assert handlers[..|handlers|] == handlers && outcomes[..|handlers|] == outcomes;
  }

  function Failures(handlers: seq<Handler>, outcomes: seq<bool>): seq<Handler>
    requires |handlers| == |outcomes|
  {
    if handlers == [] then []
    else
      var k := |handlers| - 1;
      var before := Failures(handlers[..k], outcomes[..k]);
      if outcomes[k] then before else before + [handlers[k]]
  }

  lemma {:induction false} SuccessesMembers(handlers: seq<Handler>, outcomes: seq<bool>)
    requires |handlers| == |outcomes|
    ensures forall h :: h in Successes(handlers, outcomes) <==>
              exists i :: 0 <= i < |handlers| && handlers[i] == h && outcomes[i]
  {
    if handlers != [] {
      var k := |handlers| - 1;
      SuccessesMembers(handlers[..k], outcomes[..k]);
      forall h
        ensures h in Successes(handlers, outcomes) <==>
                  exists i :: 0 <= i < |handlers| && handlers[i] == h && outcomes[i]
      {
        if h in Successes(handlers[..k], outcomes[..k]) {
          var i :| 0 <= i < k && handlers[..k][i] == h && outcomes[..k][i];
          assert handlers[i] == h && outcomes[i];
        }
        if i :| 0 <= i < |handlers| && handlers[i] == h && outcomes[i] {
          if i < k {
            assert handlers[..k][i] == h && outcomes[..k][i];
          }
        }
      }
    }
  }

  lemma {:induction false} PullPrefixLeavesFailures(handlers: seq<Handler>, outcomes: seq<bool>, n: nat)
    requires |handlers| == |outcomes| && n <= |handlers|
    requires forall i, j :: 0 <= i < j < |handlers| ==> handlers[i] != handlers[j]
    ensures PullAll(handlers[..n], Successes(handlers, outcomes)) == Failures(handlers[..n], outcomes[..n])
  {
    if n > 0 {
      PullPrefixLeavesFailures(handlers, outcomes, n - 1);
      SuccessesMembers(handlers, outcomes);
      assert handlers[..n][..n - 1] == handlers[..n - 1] && outcomes[..n][..n - 1] == outcomes[..n - 1];
      assert handlers[n - 1] in Successes(handlers, outcomes) <==> outcomes[n - 1];
    }
  }

  // ----- The periodic sweep -----

  /** Go's Before on a time that may be the zero time. */
  predicate Before(t: Option<int>, limit: int) {
    t.None? || t.value < limit
  }

  /** Whether the in-memory sweep processes an entry. */
  predicate SweptInMemory(doc: Doc, now: int) {
    !(!Before(doc.takenAt, now - PERIODIC_SWEEP_AGE)
      && (doc.takenAt.Some? || !(doc.createdAt < now - PERIODIC_CLEANUP_AGE)))
  }

  /**
   The zero time is before every other, so the in-memory sweep processes every
   entry that is free; it agrees with the distributed sweep except on entries
   never taken and younger than the cleanup age.
   */
  lemma MemorySweepsEverythingFree(doc: Doc, now: int)
    ensures SweptInMemory(doc, now) <==> Free(doc, now)
    ensures SweptInMemory(doc, now) == Swept(doc, now)
       <==> doc.takenAt.Some? || doc.createdAt < now - PERIODIC_CLEANUP_AGE
  {
  }

  class MemoryOutbox {
    var db: map<nat, Entry>

    constructor ()
      ensures Valid() && db == map[]
    {
      db := map[];
    }

    ghost predicate Valid()
      reads this, db.Values
    {
      && (forall i <- db :: db[i].Valid() && db[i].id == i)
      && (forall i <- db, j <- db :: i != j ==> db[i].slots != db[j].slots)
    }

    /** The stored collection. */
    ghost function Docs(): map<nat, Doc>
      requires Valid()
      reads this, db.Values, set i <- db :: db[i].slots
    {
      map i <- db :: db[i].AsDoc()
    }

    /**
     One entry, given the outcome of each handler call: on the whole collection,
     the step of the in-memory outbox that refines the distributed one.  An entry
     already deleted, reached through the watch channel, changes nothing stored.
     */
    method ProcessOutboxEvent(r: Entry, now: int, outcomes: nat -> bool) returns (processed: seq<Handler>)
      requires Valid() && r.Valid()
      requires r.id in db ==> db[r.id] == r
      requires r.id !in db ==> forall i <- db :: db[i].slots != r.slots
      modifies this, r, r.slots
      ensures Valid() && r.Valid()
      ensures processed == if old(Free(r.AsDoc(), now)) then R.Succeeding(old(r.AsDoc()), outcomes) else []
      ensures r.AsDoc() == if old(Free(r.AsDoc(), now)) then R.AfterCalls(old(r.AsDoc()), now, processed) else old(r.AsDoc())
      ensures Docs() == if r.id in old(db) && old(Free(r.AsDoc(), now)) then R.Settled(old(Docs()), r.id, now, processed)
                        else old(Docs())
    {
      var n, taken := r.count, false;
      ghost var was, doc := Docs(), r.AsDoc();
      taken, processed := ProcessEntry(r, now, outcomes);
      if r.id in was {
        R.SettledAt(was, r.id, now, processed);
      }
      if taken && |processed| == n {
        DropEntry(r.id);
      }
    }

    /** The entry in place: its lease, its calls and what they leave of it; the rest of the collection stays. */
    method ProcessEntry(r: Entry, now: int, outcomes: nat -> bool) returns (taken: bool, processed: seq<Handler>)
      requires Valid() && r.Valid()
      requires r.id in db ==> db[r.id] == r
      requires r.id !in db ==> forall i <- db :: db[i].slots != r.slots
      modifies r, r.slots
      ensures Valid() && r.Valid() && taken == old(Free(r.AsDoc(), now))
      ensures processed == if taken then R.Succeeding(old(r.AsDoc()), outcomes) else []
      ensures r.AsDoc() == if taken then R.AfterCalls(old(r.AsDoc()), now, processed) else old(r.AsDoc())
      ensures Docs() == if r.id in db then old(Docs())[r.id := r.AsDoc()] else old(Docs())
    {
      label before:
      taken, processed := r.Process(now, seq(r.count, outcomes));
      OneEntryChanged@before(r);
    }

    /** The entry is deleted from the collection, if it is there. */
    method DropEntry(id: nat)
      requires Valid()
      modifies this
      ensures Valid() && Docs() == old(Docs()) - {id}
    {
      db := db - {id};
    }

    /** A change to one entry and its own slots is a change to one document. */
    twostate lemma OneEntryChanged(r: Entry)
      requires old(Valid()) && old(r.Valid()) && r.Valid() && unchanged(this) && r.slots == old(r.slots)
      requires r.id in db ==> db[r.id] == r
      requires r.id !in db ==> forall i <- db :: db[i].slots != r.slots
      requires forall i <- db :: db[i] != r ==> unchanged(db[i]) && unchanged(db[i].slots)
      ensures Valid() && Docs() == if r.id in db then old(Docs())[r.id := r.AsDoc()] else old(Docs())
    {
    }
  }
}
