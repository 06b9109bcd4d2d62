/** The in-memory repository with its index of IDs, behind the caching repository. */
module CachedRepo {
  import opened Base

  const NIL_UUID: Uuid := 0

  datatype Entity<+M> = Entity(id: Uuid, body: M)

  datatype RepoError = ModelNotSet | EntityNotFound | MissingEntityId

  datatype Op<+M> = Find(id: Uuid) | FindAll | Save(e: Entity<M>) | Remove(id: Uuid) | HandleEvent(id: Uuid) | SetEntityFactory

  datatype Answer<+M> = One(e: Entity<M>) | Many(es: seq<Entity<M>>) | Done | Failed(error: RepoError)

  // ----- Specification: an ordered map -----

  /** Entities in the order in which they were first saved. */
  datatype Table<+M> = Table(entities: seq<Entity<M>>, factory: bool)

  function IndexOf<M>(entities: seq<Entity<M>>, id: Uuid): (k: nat)
    ensures k <= |entities|
    ensures forall i :: 0 <= i < k ==> entities[i].id != id
    ensures k < |entities| ==> entities[k].id == id
  {
    if entities == [] || entities[0].id == id then 0 else 1 + IndexOf(entities[1..], id)
  }

  function Specified<M>(t: Table<M>, op: Op<M>): (Table<M>, Answer<M>) {
    match op
    case Find(id) =>
      var k := IndexOf(t.entities, id);
      (t, if !t.factory then Failed(ModelNotSet) else if k == |t.entities| then Failed(EntityNotFound) else One(t.entities[k]))
    case FindAll => (t, if !t.factory then Failed(ModelNotSet) else Many(t.entities))
    case Save(e) =>
      if !t.factory then (t, Failed(ModelNotSet))
      else if e.id == NIL_UUID then (t, Failed(MissingEntityId))
      else
        var k := IndexOf(t.entities, e.id);
        (t.(entities := if k == |t.entities| then t.entities + [e] else t.entities[k := e]), Done)
    case Remove(id) =>
      var k := IndexOf(t.entities, id);
      if k == |t.entities| then (t, Failed(EntityNotFound))
      else (t.(entities := t.entities[..k] + t.entities[k + 1..]), Done)
    case HandleEvent(_) => (t, Done)
    case SetEntityFactory => (t.(factory := true), Done)
  }

  function Lookup<M>(t: Table<M>, id: Uuid): Option<Entity<M>> {
    var k := IndexOf(t.entities, id);
    if k < |t.entities| then Some(t.entities[k]) else None
  }

  ghost predicate DistinctEntities<M>(es: seq<Entity<M>>) {
    forall i, j :: 0 <= i < j < |es| ==> es[i].id != es[j].id
  }

  /** Finding answers with the stored entity, and changes nothing; without one, or without a factory, it fails. */
  lemma FindTells<M>(t: Table<M>, id: Uuid)
    ensures var (u, answer) := Specified(t, Find(id));
            && u == t
            && (t.factory && Lookup(t, id).Some? ==> answer == One(Lookup(t, id).value) && answer.e.id == id)
            && (t.factory && Lookup(t, id).None? ==> answer == Failed(EntityNotFound))
            && (!t.factory ==> answer == Failed(ModelNotSet))
  {
  }

  /** A saved entity is found again, in the place of the one it replaces or at the end; the others stay. */
  lemma SaveTells<M>(t: Table<M>, e: Entity<M>, other: Uuid)
    requires t.factory && e.id != NIL_UUID
    ensures var (u, answer) := Specified(t, Save(e));
            && answer == Done && u.factory && Lookup(u, e.id) == Some(e)
            && (other != e.id ==> Lookup(u, other) == Lookup(t, other))
            && |u.entities| == |t.entities| + (if Lookup(t, e.id).None? then 1 else 0)
            && (forall i :: 0 <= i < |t.entities| ==> u.entities[i].id == t.entities[i].id)
  {
    var u, k := Specified(t, Save(e)).0, IndexOf(t.entities, e.id);
    IndexIs(u.entities, e.id, k);
    if other != e.id {
      SameIndex(t.entities, u.entities, other);
    }
  }

  lemma IndexIs<M>(es: seq<Entity<M>>, id: Uuid, k: nat)
    requires k < |es| && es[k].id == id && forall i :: 0 <= i < k ==> es[i].id != id
    ensures IndexOf(es, id) == k
  {
  }

  /** If two lists have the same IDs up to the end of the shorter, an ID that is not beyond it has the same index. */
  lemma SameIndex<M>(a: seq<Entity<M>>, b: seq<Entity<M>>, id: Uuid)
    requires |a| <= |b| && forall i :: 0 <= i < |a| ==> a[i].id == b[i].id
    requires forall i :: |a| <= i < |b| ==> b[i].id != id
    ensures IndexOf(b, id) == if IndexOf(a, id) < |a| then IndexOf(a, id) else |b|
  {
  }

  /** What cannot be saved changes nothing: without a factory, or without an ID. */
  lemma SaveFails<M>(t: Table<M>, e: Entity<M>)
    ensures !t.factory ==> Specified(t, Save(e)) == (t, Failed(ModelNotSet))
    ensures t.factory && e.id == NIL_UUID ==> Specified(t, Save(e)) == (t, Failed(MissingEntityId))
  {
  }

  /** A removed entity is not found any more, and the others stay, in their order; a missing one is an error. */
  lemma RemoveTells<M>(t: Table<M>, id: Uuid)
    requires DistinctEntities(t.entities)
    ensures var (u, answer) := Specified(t, Remove(id));
            && (Lookup(t, id).None? ==> u == t && answer == Failed(EntityNotFound))
            && (Lookup(t, id).Some? ==>
                && answer == Done && u.factory == t.factory && |u.entities| == |t.entities| - 1 && Lookup(u, id) == None
                && exists k :: 0 <= k < |t.entities| && t.entities[k].id == id
                     && (forall i :: 0 <= i < k ==> u.entities[i] == t.entities[i])
                     && (forall i :: k <= i < |u.entities| ==> u.entities[i] == t.entities[i + 1]))
  {
    var u, k := Specified(t, Remove(id)).0, IndexOf(t.entities, id);
    if k < |t.entities| {
      assert forall i :: 0 <= i < k ==> u.entities[i] == t.entities[i];
      assert forall i :: k <= i < |u.entities| ==> u.entities[i] == t.entities[i + 1];
    }
  }

  /** The rest: everything in order, busting changes nothing stored, and the factory is set for good. */
  lemma OthersTell<M>(t: Table<M>, id: Uuid)
    ensures Specified(t, FindAll) == (t, if t.factory then Many(t.entities) else Failed(ModelNotSet))
    ensures Specified(t, HandleEvent(id)) == (t, Done)
    ensures Specified(t, SetEntityFactory) == (Table(t.entities, true), Done)
  {
  }

  // ----- The repositories -----

  /** The memory repository's map and index, and the cache in front of it. */
  datatype Repo<+M> = Repo(db: map<Uuid, Entity<M>>, ids: seq<Uuid>, factory: bool, cache: map<Uuid, Entity<M>>)

  function DropAt(ids: seq<Uuid>, k: nat): seq<Uuid>
    requires k < |ids|
  {
    ids[..k] + ids[k + 1..]
  }

  function IndexOfId(ids: seq<Uuid>, id: Uuid): (k: nat)
    ensures k <= |ids|
    ensures forall i :: 0 <= i < k ==> ids[i] != id
    ensures k < |ids| ==> ids[k] == id
  {
    if ids == [] || ids[0] == id then 0 else 1 + IndexOfId(ids[1..], id)
  }

  ghost predicate Distinct(ids: seq<Uuid>) {
    forall i, j :: 0 <= i < j < |ids| ==> ids[i] != ids[j]
  }

  /** The index lists the keys without duplicates. */
  ghost predicate Indexed<M>(r: Repo<M>) {
    && Distinct(r.ids)
    && (forall id :: id in r.ids <==> id in r.db)
    && (forall id <- r.db :: r.db[id].id == id)
    && (r.db != map[] ==> r.factory)
  }

  /** What the cache holds of an entity, if anything, is what is stored. */
  ghost predicate Coherent<M>(r: Repo<M>, id: Uuid) {
    id in r.cache ==> id in r.db && r.cache[id] == r.db[id]
  }

  ghost predicate Valid<M>(r: Repo<M>) {
    Indexed(r) && forall id <- r.cache :: Coherent(r, id)
  }

  function Listed<M>(db: map<Uuid, Entity<M>>, ids: seq<Uuid>): (es: seq<Entity<M>>)
    requires forall i :: 0 <= i < |ids| ==> ids[i] in db
    ensures |es| == |ids| && forall i :: 0 <= i < |ids| ==> es[i] == db[ids[i]]
  {
    seq(|ids|, i requires 0 <= i < |ids| => db[ids[i]])
  }

  ghost function Contents<M>(r: Repo<M>): Table<M>
    requires Valid(r)
  {
    Table(Listed(r.db, r.ids), r.factory)
  }

  function CachedAll<M>(cache: map<Uuid, Entity<M>>, es: seq<Entity<M>>): map<Uuid, Entity<M>> {
    if es == [] then cache
    else CachedAll(cache, es[..|es| - 1])[es[|es| - 1].id := es[|es| - 1]]
  }

  function DoFind<M>(r: Repo<M>, id: Uuid): (Repo<M>, Answer<M>) {
    if id in r.cache then (r, One(r.cache[id]))
    else if !r.factory then (r, Failed(ModelNotSet))
    else if id !in r.db then (r, Failed(EntityNotFound))
    else (r.(cache := r.cache[id := r.db[id]]), One(r.db[id]))
  }

  function Present<M>(db: map<Uuid, Entity<M>>, ids: seq<Uuid>): seq<Entity<M>> {
    if ids == [] then []
    else
      var before, last := Present(db, ids[..|ids| - 1]), ids[|ids| - 1];
      if last in db then before + [db[last]] else before
  }

  function DoFindAll<M>(r: Repo<M>): (Repo<M>, Answer<M>) {
    if !r.factory then (r, Failed(ModelNotSet))
    else
      var es := Present(r.db, r.ids);
      (r.(cache := CachedAll(r.cache, es)), Many(es))
  }

  function Busted<M>(r: Repo<M>, id: Uuid): Repo<M> {
    r.(cache := r.cache - {id})
  }

  /** Save in the memory repository. */
  function InnerSave<M>(r: Repo<M>, e: Entity<M>): (Repo<M>, Answer<M>) {
    if !r.factory then (r, Failed(ModelNotSet))
    else if e.id == NIL_UUID then (r, Failed(MissingEntityId))
    else (r.(db := r.db[e.id := e], ids := if e.id in r.db then r.ids else r.ids + [e.id]), Done)
  }

  /** Remove in the memory repository. */
  function InnerRemove<M>(r: Repo<M>, id: Uuid): (Repo<M>, Answer<M>) {
    if id !in r.db then (r, Failed(EntityNotFound))
    else
      var k := IndexOfId(r.ids, id);
      // Slicing at an index that was not found would panic; Valid rules that out.
      if k == |r.ids| then (r, Failed(EntityNotFound))
      else (r.(db := r.db - {id}, ids := DropAt(r.ids, k)), Done)
  }

  function DoSave<M>(r: Repo<M>, e: Entity<M>): (Repo<M>, Answer<M>) {
    InnerSave(Busted(r, e.id), e)
  }

  function DoRemove<M>(r: Repo<M>, id: Uuid): (Repo<M>, Answer<M>) {
    InnerRemove(Busted(r, id), id)
  }

  function Do<M>(r: Repo<M>, op: Op<M>): (Repo<M>, Answer<M>) {
    match op
    case Find(id) => DoFind(r, id)
    case FindAll => DoFindAll(r)
    case Save(e) => DoSave(r, e)
    case Remove(id) => DoRemove(r, id)
    case HandleEvent(id) => (Busted(r, id), Done)
    case SetEntityFactory => (r.(factory := true), Done)
  }

  // ----- Refinement -----

  lemma IndexesAgree<M>(r: Repo<M>, id: Uuid)
    requires Valid(r)
    ensures IndexOf(Contents(r).entities, id) == IndexOfId(r.ids, id)
    ensures IndexOfId(r.ids, id) < |r.ids| <==> id in r.db
  {
    var es, k := Contents(r).entities, IndexOfId(r.ids, id);
    assert forall i :: 0 <= i < |es| ==> es[i].id == r.ids[i] by {
      forall i | 0 <= i < |es|
        ensures es[i].id == r.ids[i]
      {
        assert r.ids[i] in r.ids;
      }
    }
    if k < |r.ids| {
      assert r.ids[k] in r.ids;
    }
  }

  lemma {:induction false} PresentIsListed<M>(db: map<Uuid, Entity<M>>, ids: seq<Uuid>)
    requires forall i :: 0 <= i < |ids| ==> ids[i] in db
    ensures Present(db, ids) == Listed(db, ids)
  {
    if ids != [] {
      PresentIsListed(db, ids[..|ids| - 1]);
    }
  }

  lemma {:induction false} CachedAllAgrees<M>(db: map<Uuid, Entity<M>>, cache: map<Uuid, Entity<M>>, es: seq<Entity<M>>)
    requires forall id <- cache :: id in db && cache[id] == db[id]
    requires forall i :: 0 <= i < |es| ==> es[i].id in db && db[es[i].id] == es[i]
    ensures forall id <- CachedAll(cache, es) :: id in db && CachedAll(cache, es)[id] == db[id]
  {
    if es != [] {
      CachedAllAgrees(db, cache, es[..|es| - 1]);
    }
  }

  lemma FindRefines<M>(r: Repo<M>, id: Uuid)
    requires Valid(r)
    ensures Valid(DoFind(r, id).0) && Specified(Contents(r), Find(id)) == (Contents(DoFind(r, id).0), DoFind(r, id).1)
  {
    IndexesAgree(r, id);
  }

  lemma FindAllRefines<M>(r: Repo<M>)
    requires Valid(r)
    ensures Valid(DoFindAll(r).0) && Specified(Contents(r), FindAll) == (Contents(DoFindAll(r).0), DoFindAll(r).1)
  {
    forall i | 0 <= i < |r.ids|
      ensures r.ids[i] in r.db
    {
      assert r.ids[i] in r.ids;
    }
    PresentIsListed(r.db, r.ids);
    CachedAllAgrees(r.db, r.cache, Listed(r.db, r.ids));
  }

  lemma SaveKeepsIndexed<M>(r: Repo<M>, e: Entity<M>)
    requires Indexed(r)
    ensures Indexed(InnerSave(r, e).0)
  {
  }

  lemma SaveKeepsValid<M>(r: Repo<M>, e: Entity<M>)
    requires Valid(r)
    ensures Valid(DoSave(r, e).0)
  {
    SaveKeepsIndexed(Busted(r, e.id), e);
  }

  lemma SaveRefines<M>(r: Repo<M>, e: Entity<M>)
    requires Valid(r)
    ensures Valid(DoSave(r, e).0) && Specified(Contents(r), Save(e)) == (Contents(DoSave(r, e).0), DoSave(r, e).1)
  {
    SaveKeepsValid(r, e);
    IndexesAgree(r, e.id);
    var t, k := DoSave(r, e).0, IndexOfId(r.ids, e.id);
    if r.factory && e.id != NIL_UUID {
      var was, now := Contents(r).entities, Contents(t).entities;
      if e.id in r.db {
        assert now == was[k := e];
      } else {
        assert now == was + [e];
      }
    }
  }

  lemma DropAtRemovesOne(ids: seq<Uuid>, k: nat)
    requires Distinct(ids) && k < |ids|
    ensures Distinct(DropAt(ids, k))
    ensures forall x :: x in DropAt(ids, k) <==> x in ids && x != ids[k]
  {
    var rest := DropAt(ids, k);
    forall x
      ensures x in rest <==> x in ids && x != ids[k]
    {
      if x in ids && x != ids[k] {
        var i :| 0 <= i < |ids| && ids[i] == x;
        assert rest[if i < k then i else i - 1] == x;
      }
    }
  }

  /** The search of Remove finds every stored ID. */
  lemma IndexFinds<M>(r: Repo<M>, id: Uuid)
    requires Indexed(r)
    ensures IndexOfId(r.ids, id) < |r.ids| <==> id in r.db
  {
    var k := IndexOfId(r.ids, id);
    if k < |r.ids| {
      assert r.ids[k] in r.ids;
    }
  }

  lemma RemoveKeepsIndexed<M>(r: Repo<M>, id: Uuid)
    requires Indexed(r)
    ensures Indexed(InnerRemove(r, id).0)
    ensures InnerRemove(r, id).0.db == r.db - {id}
  {
    IndexFinds(r, id);
    if id in r.db {
      DropAtRemovesOne(r.ids, IndexOfId(r.ids, id));
    }
  }

  lemma ListedDrop<M>(db: map<Uuid, Entity<M>>, ids: seq<Uuid>, k: nat)
    requires k < |ids| && Distinct(ids)
    requires forall i :: 0 <= i < |ids| ==> ids[i] in db
    ensures forall i :: 0 <= i < |DropAt(ids, k)| ==> DropAt(ids, k)[i] in db - {ids[k]}
    ensures Listed(db - {ids[k]}, DropAt(ids, k)) == Listed(db, ids)[..k] + Listed(db, ids)[k + 1..]
  {
    forall i | 0 <= i < |DropAt(ids, k)|
      ensures DropAt(ids, k)[i] in db - {ids[k]}
    {
      assert DropAt(ids, k)[i] == ids[if i < k then i else i + 1];
    }
  }

  lemma RemoveRefines<M>(r: Repo<M>, id: Uuid)
    requires Valid(r)
    ensures Valid(DoRemove(r, id).0) && Specified(Contents(r), Remove(id)) == (Contents(DoRemove(r, id).0), DoRemove(r, id).1)
  {
    RemoveKeepsIndexed(Busted(r, id), id);
    IndexesAgree(r, id);
    if id in r.db {
      var k := IndexOfId(r.ids, id);
      DropAtRemovesOne(r.ids, k);
      ListedDrop(r.db, r.ids, k);
    }
  }

  /** One operation, failing or not, does to the repositories what it does to the ordered map. */
  lemma StepRefines<M>(r: Repo<M>, op: Op<M>)
    requires Valid(r)
    ensures Valid(Do(r, op).0)
    ensures Specified(Contents(r), op) == (Contents(Do(r, op).0), Do(r, op).1)
  {
    match op
    case Find(id) => FindRefines(r, id);
    case FindAll => FindAllRefines(r);
    case Save(e) => SaveRefines(r, e);
    case Remove(id) => RemoveRefines(r, id);
    case HandleEvent(_) =>
    case SetEntityFactory =>
  }

  function Run<M>(ops: seq<Op<M>>): (Repo<M>, seq<Answer<M>>) {
    if ops == [] then (Repo(map[], [], false, map[]), [])
    else
      var (r, answers) := Run(ops[..|ops| - 1]);
      var (t, answer) := Do(r, ops[|ops| - 1]);
      (t, answers + [answer])
  }

  function SpecifiedRun<M>(ops: seq<Op<M>>): (Table<M>, seq<Answer<M>>) {
    if ops == [] then (Table([], false), [])
    else
      var (t, answers) := SpecifiedRun(ops[..|ops| - 1]);
      var (u, answer) := Specified(t, ops[|ops| - 1]);
      (u, answers + [answer])
  }

  /** Every sequence of operations gives the answers of a plain ordered map. */
  lemma {:induction false} RepoIsOrderedMap<M>(ops: seq<Op<M>>)
    ensures Valid(Run(ops).0)
    ensures SpecifiedRun(ops) == (Contents(Run(ops).0), Run(ops).1)
  {
    if ops == [] {
      assert Listed<M>(map[], []) == [];
    } else {
      RepoIsOrderedMap(ops[..|ops| - 1]);
      StepRefines(Run(ops[..|ops| - 1]).0, ops[|ops| - 1]);
    }
  }

  /** What each operation does to the cache: finding fills it, writing and events bust exactly the one entity. */
  lemma CacheTells<M>(r: Repo<M>, id: Uuid, e: Entity<M>)
    requires Valid(r)
    ensures var (t, a) := Do(r, Find(id));
            && (a.One? ==> id in t.cache && t.cache[id] == a.e) && t.db == r.db
            && (forall x <- r.cache :: x in t.cache && t.cache[x] == r.cache[x]) && t.cache.Keys <= r.cache.Keys + {id}
    ensures Do(r, HandleEvent(id)).0 == r.(cache := r.cache - {id})
    ensures Do(r, Save(e)).0.cache == r.cache - {e.id}
    ensures Do(r, Remove(id)).0.cache == r.cache - {id}
  {
  }

  lemma {:induction false} CachedAllHolds<M>(cache: map<Uuid, Entity<M>>, es: seq<Entity<M>>, i: nat)
    requires i < |es| && forall j, k :: 0 <= j < k < |es| ==> es[j].id != es[k].id
    ensures es[i].id in CachedAll(cache, es) && CachedAll(cache, es)[es[i].id] == es[i]
  {
    if i < |es| - 1 {
      CachedAllHolds(cache, es[..|es| - 1], i);
    }
  }

  /** FindAll caches everything it returns. */
  lemma FindAllFills<M>(r: Repo<M>, i: nat)
    requires Valid(r) && r.factory && i < |r.ids|
    ensures var (t, a) := Do(r, FindAll);
            && a == Many(Listed(r.db, r.ids)) && r.ids[i] in t.cache && t.cache[r.ids[i]] == r.db[r.ids[i]]
  {
    FindAllRefines(r);
    var es := Listed(r.db, r.ids);
    PresentIsListed(r.db, r.ids);
    assert forall j :: 0 <= j < |es| ==> es[j].id == r.ids[j] by {
      forall j | 0 <= j < |es|
        ensures es[j].id == r.ids[j]
      {
        assert r.ids[j] in r.ids;
      }
    }
    CachedAllHolds(r.cache, es, i);
  }

  // ----- The objects -----

  /** The search of Remove, which always succeeds because the index lists every key. */
  method FindIndex(ids: seq<Uuid>, id: Uuid) returns (index: int)
    requires id in ids
    ensures 0 <= index < |ids| && index == IndexOfId(ids, id)
  {
    index := -1;
    for i := 0 to |ids|
      invariant index == -1 && forall j :: 0 <= j < i ==> ids[j] != id
    {
      if ids[i] == id {
        return i;
      }
    }
  }

  class MemoryRepo<M> {
    var db: map<Uuid, Entity<M>>
    var ids: seq<Uuid>
    var factory: bool

    constructor ()
      ensures db == map[] && ids == [] && !factory
    {
      db, ids, factory := map[], [], false;
    }

    /** Collects what the index lists and the map still holds. */
    method FindAll() returns (r: Answer<M>)
      ensures r == if !factory then Failed(ModelNotSet) else Many(Present(db, ids))
    {
      if !factory {
        return Failed(ModelNotSet);
      }
      var result: seq<Entity<M>> := [];
      for i := 0 to |ids|
        invariant result == Present(db, ids[..i])
      {
        assert ids[..i + 1][..i] == ids[..i];
        if ids[i] in db {
          result := result + [db[ids[i]]];
        }
      }
      assert ids[..|ids|] == ids;
      return Many(result);
    }

    method Save(e: Entity<M>) returns (r: Answer<M>)
      modifies this
      ensures var (t, a) := InnerSave(Repo(old(db), old(ids), old(factory), map[]), e);
              r == a && db == t.db && ids == t.ids && factory == t.factory
    {
      if !factory {
        return Failed(ModelNotSet);
      }
      if e.id == NIL_UUID {
        return Failed(MissingEntityId);
      }
      if e.id !in db {
        ids := ids + [e.id];
      }
      db := db[e.id := e];
      return Done;
    }

    method Remove(id: Uuid) returns (r: Answer<M>)
      requires forall x <- db :: x in ids
      modifies this
      ensures var (t, a) := InnerRemove(Repo(old(db), old(ids), old(factory), map[]), id);
              r == a && db == t.db && ids == t.ids && factory == t.factory
    {
      if id in db {
        db := db - {id};
        var index := FindIndex(ids, id);
        ids := ids[..index] + ids[index + 1..];
        return Done;
      }
      return Failed(EntityNotFound);
    }
  }

  /** The caching repository over a memory repository. */
  class CacheRepo<M> {
    const inner: MemoryRepo<M>
    var cache: map<Uuid, Entity<M>>

    constructor (inner: MemoryRepo<M>)
      ensures this.inner == inner && cache == map[]
    {
      this.inner, cache := inner, map[];
    }

    ghost function State(): Repo<M>
      reads this, inner
    {
      Repo(inner.db, inner.ids, inner.factory, cache)
    }

    method HandleEvent(id: Uuid)
      modifies this
      ensures State() == Do(old(State()), Op.HandleEvent(id)).0
    {
      cache := cache - {id};
    }

    method Find(id: Uuid) returns (r: Answer<M>)
      modifies this
      ensures (State(), r) == Do(old(State()), Op.Find(id))
    {
      if id in cache {
        return One(cache[id]);
      }
      if !inner.factory {
        return Failed(ModelNotSet);
      }
      if id !in inner.db {
        return Failed(EntityNotFound);
      }
      cache := cache[id := inner.db[id]];
      return One(inner.db[id]);
    }

    method FindAll() returns (r: Answer<M>)
      modifies this
      ensures (State(), r) == Do(old(State()), Op.FindAll)
    {
      r := inner.FindAll();
      if r.Failed? {
        return;
      }
      var es := r.es;
      for i := 0 to |es|
        invariant cache == CachedAll(old(cache), es[..i])
      {
        assert es[..i + 1][..i] == es[..i];
        cache := cache[es[i].id := es[i]];
      }
      assert es[..|es|] == es;
    }

    method Save(e: Entity<M>) returns (r: Answer<M>)
      modifies this, inner
      ensures (State(), r) == Do(old(State()), Op.Save(e))
    {
      cache := cache - {e.id};
      r := inner.Save(e);
    }

    method Remove(id: Uuid) returns (r: Answer<M>)
      requires forall x <- inner.db :: x in inner.ids
      modifies this, inner
      ensures (State(), r) == Do(old(State()), Op.Remove(id))
    {
      cache := cache - {id};
      r := inner.Remove(id);
    }
  }
}
