/**
 Overlapping calls of the caching repository: any number of callers, one
 critical section at a time.
 */
module CacheRaces {
  import opened Base
  import opened CachedRepo

  type Caller = nat

  /**
   Where a call stands: a Find that missed the cache, a Find or FindAll that has
   read entities and not yet cached them, a Save or Remove that has busted the
   cache and not yet written.
   */
  datatype Call<+M> =
    | Idle
    | Missed(id: Uuid)
    | Fetched(es: seq<Entity<M>>)
    | Writing(op: Op<M>)

  datatype State<+M> = State(repo: Repo<M>, calls: map<Caller, Call<M>>)

  /** The first critical section of a call, or the next one of the call in progress. */
  datatype Action<+M> =
    | Begin(c: Caller, op: Op<M>)
    | Next(c: Caller)

  function CallOf<M>(s: State<M>, c: Caller): Call<M> {
    if c in s.calls then s.calls[c] else Idle
  }

  function DoBegin<M>(r: Repo<M>, op: Op<M>): (Repo<M>, Call<M>) {
    match op
    case Find(id) => (r, if id in r.cache then Idle else Missed(id))
    case FindAll => (r, if r.factory then Fetched(Present(r.db, r.ids)) else Idle)
    case Save(e) => (Busted(r, e.id), Writing(op))
    case Remove(id) => (Busted(r, id), Writing(op))
    case _ => (CachedRepo.Do(r, op).0, Idle)
  }

  function DoNext<M>(r: Repo<M>, call: Call<M>): (Repo<M>, Call<M>) {
    match call
    case Missed(id) => (r, if r.factory && id in r.db then Fetched([r.db[id]]) else Idle)
    case Fetched(es) => (r.(cache := CachedAll(r.cache, es)), Idle)
    case Writing(Save(e)) => (InnerSave(r, e).0, Idle)
    case Writing(Remove(id)) => (InnerRemove(r, id).0, Idle)
    case _ => (r, Idle)
  }

  function Do<M>(s: State<M>, a: Action<M>): State<M> {
    var call := CallOf(s, a.c);
    if a.Begin? && !call.Idle? then s
    else
      var (repo, now) := if a.Begin? then DoBegin(s.repo, a.op) else DoNext(s.repo, call);
      State(repo, s.calls[a.c := now])
  }

  function Exec<M>(s: State<M>, actions: seq<Action<M>>): State<M> {
    if actions == [] then s else Do(Exec(s, actions[..|actions| - 1]), actions[|actions| - 1])
  }

  function Init<M>(): State<M> {
    State(Repo(map[], [], false, map[]), map[])
  }

  lemma ExecNext<M>(s: State<M>, actions: seq<Action<M>>, k: nat)
    requires k < |actions|
    ensures Exec(s, actions[..k + 1]) == Do(Exec(s, actions[..k]), actions[k])
  {
    assert actions[..k + 1][..k] == actions[..k];
  }

  // ----- One entity -----

  function Lookup<M>(m: map<Uuid, Entity<M>>, id: Uuid): Option<Entity<M>> {
    if id in m then Some(m[id]) else None
  }

  /** The entity of an ID among those read; the last one wins, as it does in the cache. */
  function Pick<M>(es: seq<Entity<M>>, id: Uuid): Option<Entity<M>> {
    if es == [] then None
    else if es[|es| - 1].id == id then Some(es[|es| - 1])
    else Pick(es[..|es| - 1], id)
  }

  /** What a call has read of an entity and will put into the cache. */
  function Copy<M>(call: Call<M>, id: Uuid): Option<Entity<M>> {
    if call.Fetched? then Pick(call.es, id) else None
  }

  /** Whether a call has busted the entity and is about to write it. */
  predicate Writes<M>(call: Call<M>, id: Uuid) {
    call.Writing? && match call.op
                     case Save(e) => e.id == id
                     case Remove(x) => x == id
                     case _ => false
  }

  lemma {:induction false} CachedAllAt<M>(cache: map<Uuid, Entity<M>>, es: seq<Entity<M>>, id: Uuid)
    ensures Lookup(CachedAll(cache, es), id) == if Pick(es, id).Some? then Pick(es, id) else Lookup(cache, id)
  {
    if es != [] {
      CachedAllAt(cache, es[..|es| - 1], id);
    }
  }

  lemma {:induction false} PresentAt<M>(db: map<Uuid, Entity<M>>, ids: seq<Uuid>, id: Uuid)
    requires forall x <- db :: db[x].id == x
    ensures Pick(Present(db, ids), id) == if id in ids then Lookup(db, id) else None
  {
    if ids != [] {
      var n := |ids| - 1;
      PresentAt(db, ids[..n], id);
      var before := Present(db, ids[..n]);
      if ids[n] in db {
        assert (before + [db[ids[n]]])[..|before|] == before;
      }
    }
  }

  lemma PickOne<M>(e: Entity<M>, id: Uuid)
    ensures Pick([e], id) == if e.id == id then Some(e) else None
  {
    assert [e][..0] == [];
  }

  /** What a read brings: exactly what is stored. */
  lemma ReadIsStored<M>(r: Repo<M>, id: Uuid)
    requires Indexed(r)
    ensures Pick(Present(r.db, r.ids), id) == Lookup(r.db, id)
  {
    PresentAt(r.db, r.ids, id);
  }

  /** Whatever overlaps, the index stays in step with the map. */
  lemma StepKeepsIndexed<M>(s: State<M>, a: Action<M>)
    requires Indexed(s.repo)
    ensures Indexed(Do(s, a).repo)
  {
    var call := CallOf(s, a.c);
    if a.Next? && call.Writing? && call.op.Save? {
      SaveKeepsIndexed(s.repo, call.op.e);
    } else if a.Next? && call.Writing? && call.op.Remove? {
      RemoveKeepsIndexed(s.repo, call.op.id);
    }
  }

  // ----- Without overlap -----

  /** The sections of one call after another are the operation of the sequential model. */
  lemma UndividedCallIsDo<M>(s: State<M>, c: Caller, op: Op<M>)
    requires CallOf(s, c).Idle? && Indexed(s.repo)
    ensures Do(Do(Do(s, Begin(c, op)), Next(c)), Next(c)).repo == CachedRepo.Do(s.repo, op).0
  {
    if op.Find? && op.id !in s.repo.cache && s.repo.factory && op.id in s.repo.db {
      var es := [s.repo.db[op.id]];
      assert es[..0] == [];
      assert CachedAll(s.repo.cache, es) == s.repo.cache[es[0].id := es[0]];
    }
  }

  /** No call holds a copy of an entity that another is about to write. */
  ghost predicate Apart<M>(s: State<M>) {
    forall c, d, id: Uuid :: c in s.calls && d in s.calls && Copy(s.calls[c], id).Some? ==> !Writes(s.calls[d], id)
  }

  /** Reading and caching never overlap with busting and writing of the same entity. */
  ghost predicate Disjoint<M>(actions: seq<Action<M>>) {
    forall k :: 0 <= k <= |actions| ==> Apart(Exec(Init(), actions[..k]))
  }

  /** What a call has read is still what is stored. */
  ghost predicate Current<M>(r: Repo<M>, call: Call<M>) {
    forall id: Uuid :: Copy(call, id).Some? ==> Copy(call, id) == Lookup(r.db, id)
  }

  /** What a call has busted is still out of the cache. */
  ghost predicate Cleared<M>(r: Repo<M>, call: Call<M>) {
    forall id: Uuid :: Writes(call, id) ==> id !in r.cache
  }

  ghost predicate Inv<M>(s: State<M>) {
    Valid(s.repo) && forall c <- s.calls :: Current(s.repo, s.calls[c]) && Cleared(s.repo, s.calls[c])
  }

  /** A step of one call leaves the others as they are if it keeps clear of their copies and their writes. */
  lemma OthersStay<M>(s: State<M>, t: State<M>, c: Caller)
    requires Inv(s) && c in t.calls && t.calls == s.calls[c := t.calls[c]]
    requires Valid(t.repo) && Current(t.repo, t.calls[c]) && Cleared(t.repo, t.calls[c])
    requires forall d, id: Uuid :: d in s.calls && d != c && Copy(s.calls[d], id).Some? ==> Lookup(t.repo.db, id) == Lookup(s.repo.db, id)
    requires forall d, id: Uuid :: d in s.calls && d != c && Writes(s.calls[d], id) ==> id !in t.repo.cache
    ensures Inv(t)
  {
    forall d <- t.calls
      ensures Current(t.repo, t.calls[d]) && Cleared(t.repo, t.calls[d])
    {
      if d != c {
        assert Current(s.repo, s.calls[d]) && Cleared(s.repo, s.calls[d]);
      }
    }
  }

  lemma FillIsCoherent<M>(r: Repo<M>, es: seq<Entity<M>>)
    requires Valid(r) && Current(r, Fetched(es))
    ensures Valid(r.(cache := CachedAll(r.cache, es)))
  {
    var t := r.(cache := CachedAll(r.cache, es));
    forall id <- t.cache
      ensures Coherent(t, id)
    {
      CachedAllAt(r.cache, es, id);
      assert Copy(Fetched(es), id) == Pick(es, id);
      assert Lookup(t.cache, id) == Some(t.cache[id]);
      assert id in r.cache ==> Coherent(r, id);
    }
  }

  lemma FillKeepsInv<M>(s: State<M>, c: Caller)
    requires Inv(s) && Apart(s) && CallOf(s, c).Fetched?
    ensures Inv(Do(s, Next(c)))
  {
    var t, es := Do(s, Next(c)), CallOf(s, c).es;
    FillIsCoherent(s.repo, es);
    forall d, id: Uuid | d in s.calls && d != c && Writes(s.calls[d], id)
      ensures id !in t.repo.cache
    {
      CachedAllAt(s.repo.cache, es, id);
      assert Copy(s.calls[c], id) == Pick(es, id) && Cleared(s.repo, s.calls[d]);
    }
    OthersStay(s, t, c);
  }

  /** What a write does to the map. */
  lemma WriteAt<M>(s: State<M>, c: Caller, id: Uuid)
    requires Indexed(s.repo) && CallOf(s, c).Writing?
    ensures !Writes(CallOf(s, c), id) ==> Lookup(Do(s, Next(c)).repo.db, id) == Lookup(s.repo.db, id)
    ensures Do(s, Next(c)).repo.cache == s.repo.cache
  {
    var op := CallOf(s, c).op;
    if op.Remove? {
      RemoveKeepsIndexed(s.repo, op.id);
    }
  }

  lemma WriteKeepsInv<M>(s: State<M>, c: Caller)
    requires Inv(s) && Apart(s) && CallOf(s, c).Writing?
    ensures Inv(Do(s, Next(c)))
  {
    var t := Do(s, Next(c));
    StepKeepsIndexed(s, Next(c));
    assert Cleared(s.repo, s.calls[c]);
    forall id: Uuid
      ensures !Writes(s.calls[c], id) ==> Lookup(t.repo.db, id) == Lookup(s.repo.db, id)
      ensures t.repo.cache == s.repo.cache
    {
      WriteAt(s, c, id);
    }
    forall id <- t.repo.cache
      ensures Coherent(t.repo, id)
    {
      assert Coherent(s.repo, id) && !Writes(s.calls[c], id);
      assert Lookup(t.repo.db, id) == Lookup(s.repo.db, id);
    }
    OthersStay(s, t, c);
  }

  lemma ReadKeepsInv<M>(s: State<M>, a: Action<M>)
    requires Inv(s) && (if a.Next? then CallOf(s, a.c).Missed? else CallOf(s, a.c).Idle? && a.op.FindAll?)
    ensures Inv(Do(s, a))
  {
    var t := Do(s, a);
    forall id: Uuid
      ensures Copy(t.calls[a.c], id).Some? ==> Copy(t.calls[a.c], id) == Lookup(t.repo.db, id)
    {
      if a.Next? {
        var x := CallOf(s, a.c).id;
        if CallOf(t, a.c).Fetched? {
          PickOne(s.repo.db[x], id);
        }
      } else {
        ReadIsStored(s.repo, id);
      }
    }
    OthersStay(s, t, a.c);
  }

  lemma BeginKeepsInv<M>(s: State<M>, c: Caller, op: Op<M>)
    requires Inv(s) && CallOf(s, c).Idle? && !op.FindAll?
    ensures Inv(Do(s, Begin(c, op)))
  {
    var t := Do(s, Begin(c, op));
    StepKeepsIndexed(s, Begin(c, op));
    assert forall id <- t.repo.cache :: id in s.repo.cache && Coherent(s.repo, id);
    OthersStay(s, t, c);
  }

  lemma StepKeepsInv<M>(s: State<M>, a: Action<M>)
    requires Inv(s) && Apart(s)
    ensures Inv(Do(s, a))
  {
    var call := CallOf(s, a.c);
    if a.Next? && call.Fetched? {
      FillKeepsInv(s, a.c);
    } else if a.Next? && call.Writing? {
      WriteKeepsInv(s, a.c);
    } else if (a.Next? && call.Missed?) || (a.Begin? && call.Idle? && a.op.FindAll?) {
      ReadKeepsInv(s, a);
    } else if a.Begin? && call.Idle? {
      BeginKeepsInv(s, a.c, a.op);
    } else if a.Next? {
      OthersStay(s, Do(s, a), a.c);
    }
  }

  /** With any number of callers whose reads and writes do not overlap, the cache is right in every state. */
  lemma {:induction false} DisjointIsCoherent<M>(actions: seq<Action<M>>)
    requires Disjoint(actions)
    ensures Inv(Exec(Init(), actions))
  {
    if actions != [] {
      var n := |actions| - 1;
      forall k | 0 <= k <= n
        ensures Apart(Exec(Init(), actions[..n][..k]))
      {
        assert actions[..n][..k] == actions[..k];
      }
      DisjointIsCoherent(actions[..n]);
      StepKeepsInv(Exec(Init(), actions[..n]), actions[n]);
    }
  }

  // ----- One reader against one writer -----

  /**
   A Find or FindAll that reads and caches an entity, and a Save or Remove that
   busts and writes it, at these four positions of a run.
   */
  datatype Contest<+M> = Contest(
    reader: Caller, writer: Caller, was: Entity<M>, op: Op<M>, read: nat, fill: nat, bust: nat, write: nat)

  function Written<M>(op: Op<M>): Option<Entity<M>> {
    if op.Save? then Some(op.e) else None
  }

  ghost predicate SameView<M>(r: Repo<M>, t: Repo<M>, id: Uuid) {
    Lookup(r.db, id) == Lookup(t.db, id) && Lookup(r.cache, id) == Lookup(t.cache, id)
  }

  /** The entity is stored and not cached, the reader is about to read it and the writer is idle. */
  ghost predicate Ready<M>(x: Contest<M>, s: State<M>) {
    && x.reader != x.writer && CallOf(s, x.writer).Idle?
    && (CallOf(s, x.reader).Idle? || CallOf(s, x.reader) == Missed(x.was.id))
    && Indexed(s.repo) && Lookup(s.repo.db, x.was.id) == Some(x.was) && x.was.id !in s.repo.cache
    && x.was.id != NIL_UUID && Writes(Writing(x.op), x.was.id)
  }

  predicate IsContestant<M>(x: Contest<M>, k: int) {
    k == x.read || k == x.fill || k == x.bust || k == x.write
  }

  /** Only these four steps touch the entity; everybody else may do anything to others. */
  ghost predicate Contested<M>(x: Contest<M>, s: State<M>, actions: seq<Action<M>>) {
    Scheduled(x, s, actions) && forall k :: 0 <= k < |actions| ==> IsContestant(x, k) || Bystands(x, Exec(s, actions[..k]), actions[k])
  }

  ghost predicate Scheduled<M>(x: Contest<M>, s: State<M>, actions: seq<Action<M>>) {
    && x.read < x.fill < |actions| && x.bust < x.write < |actions|
    && x.read != x.bust && x.read != x.write && x.fill != x.bust && x.fill != x.write
    && actions[x.read] == (if CallOf(s, x.reader).Idle? then Begin(x.reader, FindAll) else Next(x.reader))
    && actions[x.fill] == Next(x.reader)
    && actions[x.bust] == Begin(x.writer, x.op) && actions[x.write] == Next(x.writer)
  }

  ghost predicate Bystands<M>(x: Contest<M>, s: State<M>, a: Action<M>) {
    a.c != x.reader && a.c != x.writer && SameView(s.repo, Do(s, a).repo, x.was.id)
  }

  /** What the reader finds. */
  function Found<M>(x: Contest<M>): Option<Entity<M>> {
    if x.write < x.read then Written(x.op) else Some(x.was)
  }

  ghost predicate ReaderAt<M>(x: Contest<M>, s0: State<M>, call: Call<M>, k: nat) {
    if k <= x.read then call == CallOf(s0, x.reader)
    else if k <= x.fill then Copy(call, x.was.id) == Found(x) && (call.Fetched? || call.Idle?)
    else call.Idle?
  }

  ghost predicate WriterAt<M>(x: Contest<M>, call: Call<M>, k: nat) {
    call == if x.bust < k <= x.write then Writing(x.op) else Idle
  }

  /** Everything there is to know about the entity after k steps. */
  ghost predicate At<M>(x: Contest<M>, s0: State<M>, s: State<M>, k: nat) {
    && Indexed(s.repo) && s.repo.factory
    && Lookup(s.repo.db, x.was.id) == (if x.write < k then Written(x.op) else Some(x.was))
    && Lookup(s.repo.cache, x.was.id) == (if x.fill < k && !(x.fill < x.bust < k) then Found(x) else None)
    && ReaderAt(x, s0, CallOf(s, x.reader), k)
    && WriterAt(x, CallOf(s, x.writer), k)
  }

  lemma StepAside<M>(x: Contest<M>, s0: State<M>, s: State<M>, a: Action<M>, k: nat)
    requires At(x, s0, s, k) && !IsContestant(x, k) && Bystands(x, s, a) && x.reader != x.writer
    ensures At(x, s0, Do(s, a), k + 1)
  {
    StepKeepsIndexed(s, a);
  }

  lemma ReadStep<M>(x: Contest<M>, s0: State<M>, s: State<M>, a: Action<M>)
    requires Ready(x, s0) && At(x, s0, s, x.read) && x.read < x.fill && x.read != x.bust && x.read != x.write
    requires a == if CallOf(s0, x.reader).Idle? then Begin(x.reader, FindAll) else Next(x.reader)
    ensures At(x, s0, Do(s, a), x.read + 1)
  {
    ReadIsStored(s.repo, x.was.id);
    if x.was.id in s.repo.db {
      PickOne(s.repo.db[x.was.id], x.was.id);
    }
  }

  lemma FillStep<M>(x: Contest<M>, s0: State<M>, s: State<M>)
    requires Ready(x, s0) && At(x, s0, s, x.fill) && x.read < x.fill && x.fill != x.bust && x.fill != x.write
    ensures At(x, s0, Do(s, Next(x.reader)), x.fill + 1)
  {
    var call := CallOf(s, x.reader);
    if call.Fetched? {
      CachedAllAt(s.repo.cache, call.es, x.was.id);
    }
  }

  lemma BustStep<M>(x: Contest<M>, s0: State<M>, s: State<M>)
    requires Ready(x, s0) && At(x, s0, s, x.bust) && x.bust < x.write && x.bust != x.read && x.bust != x.fill
    ensures At(x, s0, Do(s, Begin(x.writer, x.op)), x.bust + 1)
  {
  }

  lemma WriteStep<M>(x: Contest<M>, s0: State<M>, s: State<M>)
    requires Ready(x, s0) && At(x, s0, s, x.write) && x.bust < x.write && x.write != x.read && x.write != x.fill
    ensures At(x, s0, Do(s, Next(x.writer)), x.write + 1)
  {
    StepKeepsIndexed(s, Next(x.writer));
    if x.op.Remove? {
      RemoveKeepsIndexed(s.repo, x.op.id);
    }
  }

  lemma ContestStep<M>(x: Contest<M>, s0: State<M>, actions: seq<Action<M>>, s: State<M>, k: nat)
    requires Ready(x, s0) && Scheduled(x, s0, actions) && k < |actions| && At(x, s0, s, k)
    requires IsContestant(x, k) || Bystands(x, s, actions[k])
    ensures At(x, s0, Do(s, actions[k]), k + 1)
  {
    if k == x.read {
      ReadStep(x, s0, s, actions[k]);
    } else if k == x.fill {
      FillStep(x, s0, s);
    } else if k == x.bust {
      BustStep(x, s0, s);
    } else if k == x.write {
      WriteStep(x, s0, s);
    } else {
      StepAside(x, s0, s, actions[k], k);
    }
  }

  lemma StartsAt<M>(x: Contest<M>, s: State<M>)
    requires Ready(x, s)
    ensures At(x, s, s, 0)
  {
    assert x.was.id in s.repo.db;
  }

  lemma ContestNext<M>(x: Contest<M>, s0: State<M>, actions: seq<Action<M>>, k: nat)
    requires Ready(x, s0) && Contested(x, s0, actions) && k < |actions| && At(x, s0, Exec(s0, actions[..k]), k)
    ensures At(x, s0, Exec(s0, actions[..k + 1]), k + 1)
  {
    var s := Exec(s0, actions[..k]);
    assert IsContestant(x, k) || Bystands(x, s, actions[k]);
    ContestStep(x, s0, actions, s, k);
    ExecNext(s0, actions, k);
  }

  lemma {:induction false} ContestAt<M>(x: Contest<M>, s0: State<M>, actions: seq<Action<M>>, k: nat)
    requires Ready(x, s0) && Contested(x, s0, actions) && k <= |actions|
    ensures At(x, s0, Exec(s0, actions[..k]), k)
  {
    if k == 0 {
      StartsAt(x, s0);
      assert actions[..k] == [];
      assert Exec(s0, actions[..k]) == s0;
    } else {
      ContestAt(x, s0, actions, k - 1);
      ContestNext(x, s0, actions, k - 1);
    }
  }

  /**
   Among any other calls, a read against a write that changes the entity leaves
   the cache right if and only if reading and caching end before the bust, or
   begin after the write.
   */
  lemma CoherentIffDisjoint<M>(x: Contest<M>, s: State<M>, actions: seq<Action<M>>)
    requires Ready(x, s) && Contested(x, s, actions) && Written(x.op) != Some(x.was)
    ensures Coherent(Exec(s, actions).repo, x.was.id) <==> x.fill < x.bust || x.write < x.read
  {
    ContestAt(x, s, actions, |actions|);
    assert actions[..|actions|] == actions;
    var r, id := Exec(s, actions).repo, x.was.id;
    assert Coherent(r, id) <==> Lookup(r.cache, id).None? || Lookup(r.cache, id) == Lookup(r.db, id);
  }

  /** The two ways to overlap: a late caching, and a whole Find between the bust and the write. */
  lemma OverlappingFindCachesStale<M>(s: State<M>, c: Caller, d: Caller, was: Entity<M>, op: Op<M>)
    requires Ready(Contest(c, d, was, op, 0, 3, 1, 2), s) && CallOf(s, c).Missed? && Written(op) != Some(was)
    ensures !Coherent(Exec(s, [Next(c), Begin(d, op), Next(d), Next(c)]).repo, was.id)
    ensures !Coherent(Exec(s, [Begin(d, op), Next(c), Next(c), Next(d)]).repo, was.id)
  {
    CoherentIffDisjoint(Contest(c, d, was, op, 0, 3, 1, 2), s, [Next(c), Begin(d, op), Next(d), Next(c)]);
    CoherentIffDisjoint(Contest(c, d, was, op, 1, 2, 0, 3), s, [Begin(d, op), Next(c), Next(c), Next(d)]);
  }
}
