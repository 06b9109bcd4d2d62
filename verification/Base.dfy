/** Types shared by every part of the model. */
module Base {

  datatype Option<+T> = None | Some(value: T)

  datatype Result<+T, +E> = Ok(value: T) | Err(error: E)

  /** Identifiers are only ever compared, so any countable type will do. */
  type Uuid = nat

  /** An event as an aggregate emits it; `kind` is its event type together with its data. */
  datatype Event<+K> = Event(kind: K, at: string, id: Uuid, version: int, metadata: map<string, int>)

  /** An event as the event store keeps it: the same, with a global position. */
  datatype Record<+K> = Record(position: int, kind: K, at: string, id: Uuid, version: int, metadata: map<string, int>)

  /** The events of one aggregate, in the order in which they were inserted. */
  function Log<K>(events: seq<Record<K>>, id: Uuid): (log: seq<Record<K>>)
    ensures |log| <= |events|
  {
    if events == [] then []
    else
      var last := events[|events| - 1];
      var rest := Log(events[..|events| - 1], id);
      if last.id == id then rest + [last] else rest
  }

  lemma {:induction false} LogMembers<K>(events: seq<Record<K>>, id: Uuid)
    ensures forall r <- Log(events, id) :: r in events && r.id == id
    ensures forall r <- events :: r.id == id ==> r in Log(events, id)
  {
    if events != [] {
      LogMembers(events[..|events| - 1], id);
    }
  }

  lemma {:induction false} LogAppend<K>(a: seq<Record<K>>, b: seq<Record<K>>, id: Uuid)
    ensures Log(a + b, id) == Log(a, id) + Log(b, id)
  {
    if b == [] {
      assert a + b == a;
    } else {
      assert (a + b)[..|a + b| - 1] == a + b[..|b| - 1];
      LogAppend(a, b[..|b| - 1], id);
    }
  }

  /** Appending one aggregate's batch extends that aggregate's log and no other. */
  lemma {:induction false} LogAppendBatch<K>(a: seq<Record<K>>, b: seq<Record<K>>, who: Uuid, id: Uuid)
    requires forall i :: 0 <= i < |b| ==> b[i].id == who
    ensures Log(a + b, id) == if id == who then Log(a, id) + b else Log(a, id)
  {
    LogAppend(a, b, id);
    LogOfBatch(b, who, id);
  }

  lemma {:induction false} LogOfBatch<K>(b: seq<Record<K>>, who: Uuid, id: Uuid)
    requires forall i :: 0 <= i < |b| ==> b[i].id == who
    ensures Log(b, id) == if id == who then b else []
  {
    if b != [] {
      LogOfBatch(b[..|b| - 1], who, id);
      assert b == b[..|b| - 1] + [b[|b| - 1]];
    }
  }
}
