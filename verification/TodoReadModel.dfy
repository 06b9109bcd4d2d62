/** The read model of the todo list: how it is projected, and how it follows the aggregate. */
module TodoReadModel {
  import opened Base
  import opened EventStore
  import opened Aggregates
  import opened Todo
  import C = Commands
  import P = Projector

  datatype TodoList = TodoList(id: Uuid, version: int, items: seq<Item>)

  const NIL_UUID: Uuid := 0

  function Project(e: Event<TodoKind>, m: TodoList): P.Projected<TodoList> {
    var data, next := e.kind.data, m.(version := m.version + 1);
    match e.kind.etype
    case Created => P.Keep(next.(id := e.id, items := []))
    case Deleted => P.Remove
    case ItemAdded =>
      if !data.ItemAddedData? then P.Error
      else P.Keep(next.(items := m.items + [Item(data.itemId, data.description, false)]))
    case ItemRemoved =>
      if !data.ItemRemovedData? then P.Error else P.Keep(next.(items := Without(m.items, data.itemId)))
    case ItemDescriptionSet =>
      if !data.ItemDescriptionSetData? then P.Error
      else P.Keep(next.(items := Described(m.items, data.itemId, data.description)))
    case ItemChecked =>
      if !data.ItemCheckedData? then P.Error else P.Keep(next.(items := Checked(m.items, data.itemId, data.checked)))
    case OtherType => P.Error
  }

  function Cfg(): P.Config<TodoList, TodoKind> {
    P.Config((e, m) => Project(e, m), (m: TodoList) => m.version, (m: TodoList) => m.id, Some(TodoList(NIL_UUID, 0, [])))
  }

  /** The model object, which a projection edits in place. */
  class Model {
    var id: Uuid
    var version: int
    var items: seq<Item>

    constructor ()
      ensures Value() == TodoList(NIL_UUID, 0, [])
    {
      id, version, items := NIL_UUID, 0, [];
    }

    ghost function Value(): TodoList
      reads this
    {
      TodoList(id, version, items)
    }

    /** After a projection that keeps the model, it is the projected one; otherwise it is left alone. */
    method ProjectEvent(e: Event<TodoKind>) returns (kept: bool, removed: bool)
      modifies this
      ensures kept == Project(e, old(Value())).Keep? && removed == Project(e, old(Value())).Remove?
      ensures Value() == if kept then Project(e, old(Value())).model else old(Value())
    {
      var data := e.kind.data;
      match e.kind.etype {
      case Created => id, items := e.id, [];
      case Deleted => return false, true;
      case ItemAdded =>
        if !data.ItemAddedData? {
          return false, false;
        }
        items := items + [Item(data.itemId, data.description, false)];
      case ItemRemoved =>
        if !data.ItemRemovedData? {
          return false, false;
        }
        items := RemoveFirst(items, data.itemId);
      case ItemDescriptionSet =>
        if !data.ItemDescriptionSetData? {
          return false, false;
        }
        items := DescribeAll(items, data.itemId, data.description);
      case ItemChecked =>
        if !data.ItemCheckedData? {
          return false, false;
        }
        items := CheckAll(items, data.itemId, data.checked);
      case OtherType => return false, false;
      }
      version := version + 1;
      return true, false;
    }
  }

  // ----- Agreement with the aggregate -----

  /** The events of an aggregate as a projector receives them. */
  function Feed(log: seq<Record<TodoKind>>): (events: seq<Event<TodoKind>>)
    ensures |events| == |log|
    ensures forall i :: 0 <= i < |log| ==> Reads(events[i], log[i])
  {
    seq(|log|, i requires 0 <= i < |log| => EventOf(log[i]))
  }

  /** The state of the aggregate after its first v events. */
  function After(kinds: seq<TodoKind>, v: nat): Option<Todo>
    requires v <= |kinds|
  {
    ApplyAll(Todo(false, 0, []), kinds[..v])
  }

  lemma AfterNext(kinds: seq<TodoKind>, v: nat)
    requires v < |kinds|
    ensures After(kinds, v + 1) == if After(kinds, v).None? then None else Apply(After(kinds, v).value, kinds[v])
  {
    assert kinds[..v + 1] == kinds[..v] + [kinds[v]];
    ApplyAllNext(Todo(false, 0, []), kinds[..v], kinds[v]);
  }

  /** If a log can be applied to its end, so can every prefix. */
  lemma {:induction false} PrefixesApply(kinds: seq<TodoKind>, v: nat)
    requires v <= |kinds| && After(kinds, |kinds|).Some?
    ensures After(kinds, v).Some?
    decreases |kinds| - v
  {
    if v < |kinds| {
      PrefixesApply(kinds, v + 1);
      AfterNext(kinds, v);
    }
  }

  /** One event moves the aggregate and the list in the same way. */
  lemma StepsAgree(s: Todo, m: TodoList, e: Event<TodoKind>)
    requires Apply(s, e.kind).Some? && !e.kind.etype.Deleted?
    requires e.kind.etype.Created? ==> s.items == []
    requires m.items == s.items && (e.kind.etype.Created? || m.id == e.id)
    ensures Project(e, m) == P.Keep(TodoList(e.id, m.version + 1, Apply(s, e.kind).value.items))
  {
  }

  /**
   Up to the first Deleted, the projected list has the aggregate's items in the
   same order, and a version equal to the number of events.
   */
  lemma {:induction false} ListFollowsAggregate(log: seq<Record<TodoKind>>, id: Uuid, v: nat)
    requires v <= |log| && P.IsLog(Feed(log), id)
    requires StartsOnce(Kinds(log)) && After(Kinds(log), |log|).Some? && NoneDeleted(Kinds(log), v)
    ensures After(Kinds(log), v).Some?
    ensures P.Prefix(Cfg(), Feed(log), v)
         == Some(TodoList(if v == 0 then NIL_UUID else id, v, After(Kinds(log), v).value.items))
  {
    var kinds := Kinds(log);
    PrefixesApply(kinds, v);
    if v == 0 {
      assert kinds[..0] == [];
    } else {
      ListFollowsAggregate(log, id, v - 1);
      AfterNext(kinds, v - 1);
      var s, e := After(kinds, v - 1).value, Feed(log)[v - 1];
      assert e.kind == kinds[v - 1];
      if e.kind.etype.Created? {
        assert NoneDeleted(kinds, v - 1);
        assert v == 1;
        assert kinds[..0] == [];
      } else {
        assert v > 1;
      }
      StepsAgree(s, P.Prefix(Cfg(), Feed(log), v - 1).value, e);
    }
  }

  /** A prefix that still has a model contains no Deleted. */
  lemma {:induction false} PrefixHasNoneDeleted(log: seq<Record<TodoKind>>, v: nat)
    requires v <= |log| && P.Prefix(Cfg(), Feed(log), v).Some?
    ensures NoneDeleted(Kinds(log), v)
  {
    if v > 0 {
      PrefixHasNoneDeleted(log, v - 1);
    }
  }

  /**
   Write and read side together: with commands and projection workers racing in
   any way, a stored list of version v shows the aggregate after v events.
   */
  lemma StoredListShowsAggregate(
    cfg: C.Config<Todo, Command, TodoKind>, actions: seq<C.Action<Command>>,
    logs: Uuid -> seq<Event<TodoKind>>, work: seq<P.Action>, id: Uuid)
    requires cfg.dom == Dom() && OfType(Log(C.Events(C.Exec(cfg, actions)), id), AGGREGATE_TYPE)
    requires forall i: Uuid :: logs(i) == Feed(Log(C.Events(C.Exec(cfg, actions)), i))
    requires id in P.Exec(Cfg(), logs, work).repo
    ensures var list, kinds := P.Exec(Cfg(), logs, work).repo[id], Kinds(Log(C.Events(C.Exec(cfg, actions)), id));
            && 1 <= list.version <= |kinds|
            && After(kinds, list.version).Some?
            && list == TodoList(id, list.version, After(kinds, list.version).value.items)
  {
    var events := C.Events(C.Exec(cfg, actions));
    forall i: Uuid
      ensures P.IsLog(logs(i), i)
    {
      FeedIsLog(cfg, actions, i);
    }
    P.ProjectionIsSafe(Cfg(), logs, work);
    var list, log := P.Exec(Cfg(), logs, work).repo[id], Log(events, id);
    ReachableTodosAreWellFormed(cfg, actions, id);
    PrefixHasNoneDeleted(log, list.version);
    assert Kinds(log)[..|log|] == Kinds(log);
    ListFollowsAggregate(log, id, list.version);
  }

  lemma FeedIsLog(cfg: C.Config<Todo, Command, TodoKind>, actions: seq<C.Action<Command>>, id: Uuid)
    ensures P.IsLog(Feed(Log(C.Events(C.Exec(cfg, actions)), id)), id)
  {
    C.RunKeepsSnapshots(cfg, actions);
    C.LogsAreConsecutive(C.Exec(cfg, actions).log, id);
    LogMembers(C.Events(C.Exec(cfg, actions)), id);
  }

  // ----- Deleting -----

  /** When a projection fails and when it removes the model; a created list starts empty, whatever the model was. */
  lemma ProjectTells(e: Event<TodoKind>, m: TodoList)
    ensures e.kind.etype.Created? ==> Project(e, m) == P.Keep(TodoList(e.id, m.version + 1, []))
    ensures Project(e, m).Remove? <==> e.kind.etype.Deleted?
    ensures Project(e, m).Error? <==>
              match e.kind.etype
              case Created => false
              case Deleted => false
              case ItemAdded => !e.kind.data.ItemAddedData?
              case ItemRemoved => !e.kind.data.ItemRemovedData?
              case ItemDescriptionSet => !e.kind.data.ItemDescriptionSetData?
              case ItemChecked => !e.kind.data.ItemCheckedData?
              case OtherType => true
  {
  }

  /** Once the first Deleted is delivered in its turn, the list is gone from the repository. */
  lemma DeletedListIsGone(
    versioned: bool, retry: bool, log: seq<Record<TodoKind>>, id: Uuid, v: nat, versions: seq<nat>, at: seq<nat>)
    requires 1 <= v <= |log| && P.IsLog(Feed(log), id) && StartsOnce(Kinds(log)) && After(Kinds(log), |log|).Some?
    requires NoneDeleted(Kinds(log), v - 1) && Kinds(log)[v - 1].etype.Deleted?
    requires P.AllWithin(versions, v - 1) && P.ContainsInOrder(versions, at, v - 1)
    ensures id !in P.ReceiveAll(Cfg(), versioned, retry, map[], P.Alone(Feed(log), versions + [v]))
  {
    forall u: nat | u <= v - 1
      ensures P.Prefix(Cfg(), Feed(log), u).Some?
    {
      ListFollowsAggregate(log, id, u);
    }
    ProjectTells(Feed(log)[v - 1], P.Prefix(Cfg(), Feed(log), v - 1).value);
    P.RemovedModelIsGone(Cfg(), versioned, retry, Feed(log), id, v, versions, at);
  }
}
