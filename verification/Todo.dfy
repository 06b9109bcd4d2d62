/** The todo list aggregate. */
module Todo {
  import opened Base
  import opened EventStore
  import opened Aggregates
  import C = Commands

  const AGGREGATE_TYPE := "todolist"

  datatype Item = Item(id: int, description: string, completed: bool)

  datatype EventType = Created | Deleted | ItemAdded | ItemRemoved | ItemDescriptionSet | ItemChecked | OtherType

  datatype Data =
    | NoData
    | ItemAddedData(itemId: int, description: string)
    | ItemRemovedData(itemId: int)
    | ItemDescriptionSetData(itemId: int, description: string)
    | ItemCheckedData(itemId: int, checked: bool)

  type TodoKind = Kind<EventType, Data>

  datatype Command =
    | Create
    | Delete
    | AddItem(description: string)
    | RemoveItem(itemId: int)
    | RemoveCompletedItems
    | SetItemDescription(itemId: int, description: string)
    | CheckItem(itemId: int, checked: bool)
    | CheckAllItems(checked: bool)
    | OtherCommand

  datatype Todo = Todo(created: bool, nextItemId: int, items: seq<Item>)

  // ----- Lists of items -----

  function IndexOf(items: seq<Item>, id: int): (k: nat)
    ensures k <= |items|
    ensures forall i :: 0 <= i < k ==> items[i].id != id
    ensures k < |items| ==> items[k].id == id
  {
    if items == [] || items[0].id == id then 0 else 1 + IndexOf(items[1..], id)
  }

  /** Without the first item of an ID. */
  function Without(items: seq<Item>, id: int): seq<Item> {
    var k := IndexOf(items, id);
    if k < |items| then items[..k] + items[k + 1..] else items
  }

  function Described(items: seq<Item>, id: int, description: string): (r: seq<Item>)
    ensures |r| == |items|
    ensures forall i :: 0 <= i < |items| ==>
              r[i] == if items[i].id == id then items[i].(description := description) else items[i]
  {
    seq(|items|, i requires 0 <= i < |items| =>
      if items[i].id == id then items[i].(description := description) else items[i])
  }

  function Checked(items: seq<Item>, id: int, checked: bool): (r: seq<Item>)
    ensures |r| == |items|
    ensures forall i :: 0 <= i < |items| ==>
              r[i] == if items[i].id == id then items[i].(completed := checked) else items[i]
  {
    seq(|items|, i requires 0 <= i < |items| =>
      if items[i].id == id then items[i].(completed := checked) else items[i])
  }

  // ----- Deciding and applying -----

  function RemovalEvents(items: seq<Item>): seq<TodoKind> {
    if items == [] then []
    else
      var last, before := items[|items| - 1], RemovalEvents(items[..|items| - 1]);
      if last.completed then before + [Kind(ItemRemoved, ItemRemovedData(last.id))] else before
  }

  function CheckEvents(items: seq<Item>, checked: bool): seq<TodoKind> {
    if items == [] then []
    else
      var last, before := items[|items| - 1], CheckEvents(items[..|items| - 1], checked);
      if last.completed != checked then before + [Kind(ItemChecked, ItemCheckedData(last.id, checked))] else before
  }

  /** The events of a command, or a refusal. */
  function Decide(s: Todo, cmd: Command): Option<seq<TodoKind>> {
    if s.created == cmd.Create? then None
    else
      match cmd
      case Create => Some([Kind(Created, NoData)])
      case Delete => Some([Kind(Deleted, NoData)])
      case AddItem(description) => Some([Kind(ItemAdded, ItemAddedData(s.nextItemId, description))])
      case RemoveItem(id) =>
        if IndexOf(s.items, id) == |s.items| then None else Some([Kind(ItemRemoved, ItemRemovedData(id))])
      case RemoveCompletedItems => Some(RemovalEvents(s.items))
      case SetItemDescription(id, description) =>
        var k := IndexOf(s.items, id);
        if k == |s.items| then None
        else if s.items[k].description == description then Some([])
        else Some([Kind(ItemDescriptionSet, ItemDescriptionSetData(id, description))])
      case CheckItem(id, checked) =>
        var k := IndexOf(s.items, id);
        if k == |s.items| then None
        else if s.items[k].completed == checked then Some([])
        else Some([Kind(ItemChecked, ItemCheckedData(id, checked))])
      case CheckAllItems(checked) => Some(CheckEvents(s.items, checked))
      case OtherCommand => None
  }

  function Apply(s: Todo, k: TodoKind): Option<Todo> {
    match k.etype
    case Created => Some(s.(created := true))
    case Deleted => Some(s.(created := false))
    case ItemAdded =>
      if !k.data.ItemAddedData? then None
      else Some(s.(items := s.items + [Item(k.data.itemId, k.data.description, false)], nextItemId := s.nextItemId + 1))
    case ItemRemoved =>
      if !k.data.ItemRemovedData? then None else Some(s.(items := Without(s.items, k.data.itemId)))
    case ItemDescriptionSet =>
      if !k.data.ItemDescriptionSetData? then None
      else Some(s.(items := Described(s.items, k.data.itemId, k.data.description)))
    case ItemChecked =>
      if !k.data.ItemCheckedData? then None
      else Some(s.(items := Checked(s.items, k.data.itemId, k.data.checked)))
    case OtherType => None
  }

  function Dom(): Domain<Todo, Command, TodoKind> {
    Domain(_ => Todo(false, 0, []), (_, s, cmd) => Decide(s, cmd), (_, s, k) => Apply(s, k))
  }

  function ApplyAll(s: Todo, kinds: seq<TodoKind>): Option<Todo> {
    ApplyKinds(Dom(), AGGREGATE_TYPE, s, kinds)
  }

  // ----- The loops over items -----

  /** The search of the single-item commands. */
  method FindItem(items: seq<Item>, id: int) returns (found: bool, k: nat)
    ensures k == IndexOf(items, id) && found == (k < |items|)
  {
    for i := 0 to |items|
      invariant forall j :: 0 <= j < i ==> items[j].id != id
    {
      if items[i].id == id {
        return true, i;
      }
    }
    return false, |items|;
  }

  method RemoveFirst(items: seq<Item>, id: int) returns (r: seq<Item>)
    ensures r == Without(items, id)
  {
    for i := 0 to |items|
      invariant forall j :: 0 <= j < i ==> items[j].id != id
    {
      if items[i].id == id {
        return items[..i] + items[i + 1..];
      }
    }
    return items;
  }

  method DescribeAll(items: seq<Item>, id: int, description: string) returns (r: seq<Item>)
    ensures r == Described(items, id, description)
  {
    r := items;
    for i := 0 to |items|
      invariant |r| == |items|
      invariant forall j :: 0 <= j < i ==> r[j] == Described(items, id, description)[j]
      invariant forall j :: i <= j < |items| ==> r[j] == items[j]
    {
      if r[i].id == id {
        r := r[i := r[i].(description := description)];
      }
    }
  }

  method CheckAll(items: seq<Item>, id: int, checked: bool) returns (r: seq<Item>)
    ensures r == Checked(items, id, checked)
  {
    r := items;
    for i := 0 to |items|
      invariant |r| == |items|
      invariant forall j :: 0 <= j < i ==> r[j] == Checked(items, id, checked)[j]
      invariant forall j :: i <= j < |items| ==> r[j] == items[j]
    {
      if r[i].id == id {
        r := r[i := r[i].(completed := checked)];
      }
    }
  }

  // ----- The aggregate itself -----

  /** The aggregate with its loops; `emitted` are the events not yet saved. */
  class Aggregate {
    var created: bool
    var nextItemId: int
    var items: seq<Item>
    var emitted: seq<TodoKind>

    constructor ()
      ensures State() == Todo(false, 0, []) && emitted == []
    {
      created, nextItemId, items, emitted := false, 0, [], [];
    }

    ghost function State(): Todo
      reads this
    {
      Todo(created, nextItemId, items)
    }

    method EmitRemovals()
      modifies this`emitted
      ensures emitted == old(emitted) + RemovalEvents(items)
    {
      for i := 0 to |items|
        invariant emitted == old(emitted) + RemovalEvents(items[..i])
      {
        assert items[..i + 1][..i] == items[..i];
        if items[i].completed {
          emitted := emitted + [Kind(ItemRemoved, ItemRemovedData(items[i].id))];
        }
      }
      assert items[..|items|] == items;
    }

    method EmitChecks(checked: bool)
      modifies this`emitted
      ensures emitted == old(emitted) + CheckEvents(items, checked)
    {
      for i := 0 to |items|
        invariant emitted == old(emitted) + CheckEvents(items[..i], checked)
      {
        assert items[..i + 1][..i] == items[..i];
        if items[i].completed != checked {
          emitted := emitted + [Kind(ItemChecked, ItemCheckedData(items[i].id, checked))];
        }
      }
      assert items[..|items|] == items;
    }

    /** Emits exactly the decision on the current state, and changes nothing else. */
    method HandleCommand(cmd: Command) returns (ok: bool)
      modifies this`emitted
      ensures ok == Decide(State(), cmd).Some?
      ensures emitted == old(emitted) + if ok then Decide(State(), cmd).value else []
    {
      if created == cmd.Create? {
        return false;
      }
      match cmd {
      case Create => emitted := emitted + [Kind(Created, NoData)];
      case Delete => emitted := emitted + [Kind(Deleted, NoData)];
      case AddItem(description) =>
        emitted := emitted + [Kind(ItemAdded, ItemAddedData(nextItemId, description))];
      case RemoveItem(id) =>
        var found, _ := FindItem(items, id);
        if !found {
          return false;
        }
        emitted := emitted + [Kind(ItemRemoved, ItemRemovedData(id))];
      case RemoveCompletedItems => EmitRemovals();
      case SetItemDescription(id, description) =>
        var found, k := FindItem(items, id);
        if !found {
          return false;
        }
        if items[k].description != description {
          emitted := emitted + [Kind(ItemDescriptionSet, ItemDescriptionSetData(id, description))];
        }
      case CheckItem(id, checked) =>
        var found, k := FindItem(items, id);
        if !found {
          return false;
        }
        if items[k].completed != checked {
          emitted := emitted + [Kind(ItemChecked, ItemCheckedData(id, checked))];
        }
      case CheckAllItems(checked) => EmitChecks(checked);
      case OtherCommand => return false;
      }
      return true;
    }

    /** Applies an event in place; an event that cannot be applied changes nothing. */
    method ApplyEvent(k: TodoKind) returns (ok: bool)
      modifies this`created, this`nextItemId, this`items
      ensures ok == Apply(old(State()), k).Some?
      ensures State() == if ok then Apply(old(State()), k).value else old(State())
    {
      match k.etype {
      case Created => created := true;
      case Deleted => created := false;
      case ItemAdded =>
        if !k.data.ItemAddedData? {
          return false;
        }
        items := items + [Item(k.data.itemId, k.data.description, false)];
        nextItemId := nextItemId + 1;
      case ItemRemoved =>
        if !k.data.ItemRemovedData? {
          return false;
        }
        items := RemoveFirst(items, k.data.itemId);
      case ItemDescriptionSet =>
        if !k.data.ItemDescriptionSetData? {
          return false;
        }
        items := DescribeAll(items, k.data.itemId, k.data.description);
      case ItemChecked =>
        if !k.data.ItemCheckedData? {
          return false;
        }
        items := CheckAll(items, k.data.itemId, k.data.checked);
      case OtherType => return false;
      }
      return true;
    }
  }

  // ----- Invariant -----

  ghost predicate DistinctIds(items: seq<Item>) {
    forall i, j :: 0 <= i < j < |items| ==> items[i].id != items[j].id
  }

  /** Item IDs are distinct and below the next one to be given. */
  ghost predicate WellFormed(s: Todo) {
    DistinctIds(s.items) && forall i :: 0 <= i < |s.items| ==> s.items[i].id < s.nextItemId
  }

  /** An event that adds an item takes the next ID. */
  ghost predicate Fits(s: Todo, k: TodoKind) {
    k.etype.ItemAdded? && k.data.ItemAddedData? ==> k.data.itemId == s.nextItemId
  }

  lemma ApplyKeepsWellFormed(s: Todo, k: TodoKind)
    requires WellFormed(s) && Fits(s, k) && Apply(s, k).Some?
    ensures WellFormed(Apply(s, k).value)
  {
    if k.etype.ItemRemoved? {
      WithoutKeepsWellFormed(s, k.data.itemId);
    }
  }

  lemma WithoutKeepsWellFormed(s: Todo, id: int)
    requires WellFormed(s)
    ensures WellFormed(s.(items := Without(s.items, id)))
  {
    var k, rest := IndexOf(s.items, id), Without(s.items, id);
    assert k < |s.items| ==> forall i :: 0 <= i < |rest| ==> rest[i] == s.items[if i < k then i else i + 1];
  }

  // ----- The bulk commands -----

  function Uncompleted(items: seq<Item>): seq<Item> {
    if items == [] then []
    else
      var last, before := items[|items| - 1], Uncompleted(items[..|items| - 1]);
      if last.completed then before else before + [last]
  }

  function AllChecked(items: seq<Item>, checked: bool): (r: seq<Item>)
    ensures |r| == |items|
    ensures forall i :: 0 <= i < |items| ==> r[i] == items[i].(completed := checked)
  {
    seq(|items|, i requires 0 <= i < |items| => items[i].(completed := checked))
  }

  lemma {:induction false} UncompletedMembers(items: seq<Item>)
    ensures forall x <- Uncompleted(items) :: x in items && !x.completed
    ensures forall x <- items :: !x.completed ==> x in Uncompleted(items)
  {
    if items != [] {
      UncompletedMembers(items[..|items| - 1]);
    }
  }

  lemma WithoutMiddle(a: seq<Item>, x: Item, b: seq<Item>)
    requires forall y <- a :: y.id != x.id
    ensures Without(a + [x] + b, x.id) == a + b
  {
    var items := a + [x] + b;
    var k := IndexOf(items, x.id);
    assert items[|a|] == x;
    assert forall i :: 0 <= i < |a| ==> items[i] == a[i] && a[i] in a;
    assert k == |a|;
  }

  lemma ApplyAllNext(s: Todo, kinds: seq<TodoKind>, k: TodoKind)
    ensures ApplyAll(s, kinds + [k])
         == if ApplyAll(s, kinds).None? then None else Apply(ApplyAll(s, kinds).value, k)
  {
    ApplyNext(Dom(), AGGREGATE_TYPE, s, kinds, k);
  }

  /** Items before a given one, completed or not, have other IDs. */
  lemma UncompletedAvoids(a: seq<Item>, x: Item, b: seq<Item>)
    requires DistinctIds(a + ([x] + b))
    ensures forall y <- Uncompleted(a) :: y.id != x.id
  {
    UncompletedMembers(a);
    forall y <- Uncompleted(a)
      ensures y.id != x.id
    {
      var j :| 0 <= j < |a| && a[j] == y;
      assert (a + ([x] + b))[j] == y && (a + ([x] + b))[|a|] == x;
    }
  }

  lemma RemovalStep(s: Todo, a: seq<Item>, x: Item, b: seq<Item>)
    requires DistinctIds(a + ([x] + b)) && s.items == Uncompleted(a) + ([x] + b)
    ensures Apply(s, Kind(ItemRemoved, ItemRemovedData(x.id))) == Some(s.(items := Uncompleted(a) + b))
  {
    UncompletedAvoids(a, x, b);
    assert s.items == Uncompleted(a) + [x] + b;
    WithoutMiddle(Uncompleted(a), x, b);
  }

  /** After the removals for the first items, exactly their completed ones are gone. */
  lemma {:induction false} RemovalsSoFar(s: Todo, first: seq<Item>, rest: seq<Item>)
    requires DistinctIds(s.items) && s.items == first + rest
    ensures ApplyAll(s, RemovalEvents(first)) == Some(s.(items := Uncompleted(first) + rest))
  {
    if first == [] {
      assert [] + rest == rest;
    } else {
      var n := |first| - 1;
      var a, x := first[..n], first[n];
      assert s.items == a + ([x] + rest);
      RemovalsSoFar(s, a, [x] + rest);
      if x.completed {
        RemovalStep(s.(items := Uncompleted(a) + ([x] + rest)), a, x, rest);
        ApplyAllNext(s, RemovalEvents(a), Kind(ItemRemoved, ItemRemovedData(x.id)));
      } else {
        assert Uncompleted(a) + ([x] + rest) == Uncompleted(first) + rest;
      }
    }
  }

  lemma CheckedMiddle(a: seq<Item>, x: Item, b: seq<Item>, checked: bool)
    requires DistinctIds(a + [x] + b)
    ensures Checked(a + [x] + b, x.id, checked) == a + [x.(completed := checked)] + b
  {
    var items, want := a + [x] + b, a + [x.(completed := checked)] + b;
    forall i | 0 <= i < |items|
      ensures Checked(items, x.id, checked)[i] == want[i]
    {
      assert items[|a|] == x;
    }
  }

  lemma CheckStep(s: Todo, a: seq<Item>, x: Item, b: seq<Item>, checked: bool)
    requires DistinctIds(a + ([x] + b)) && s.items == AllChecked(a, checked) + ([x] + b)
    ensures Apply(s, Kind(ItemChecked, ItemCheckedData(x.id, checked)))
         == Some(s.(items := AllChecked(a + [x], checked) + b))
  {
    var c := AllChecked(a, checked);
    assert s.items == c + [x] + b;
    forall i, j | 0 <= i < j < |s.items|
      ensures s.items[i].id != s.items[j].id
    {
      assert s.items[i].id == (a + ([x] + b))[i].id && s.items[j].id == (a + ([x] + b))[j].id;
    }
    CheckedMiddle(c, x, b, checked);
    assert AllChecked(a + [x], checked) == c + [x.(completed := checked)];
  }

  lemma {:induction false} ChecksSoFar(s: Todo, first: seq<Item>, rest: seq<Item>, checked: bool)
    requires DistinctIds(s.items) && s.items == first + rest
    ensures ApplyAll(s, CheckEvents(first, checked)) == Some(s.(items := AllChecked(first, checked) + rest))
  {
    if first == [] {
      assert [] + rest == rest;
    } else {
      var n := |first| - 1;
      var a, x := first[..n], first[n];
      assert s.items == a + ([x] + rest) && a + [x] == first;
      ChecksSoFar(s, a, [x] + rest, checked);
      if x.completed != checked {
        CheckStep(s.(items := AllChecked(a, checked) + ([x] + rest)), a, x, rest, checked);
        ApplyAllNext(s, CheckEvents(a, checked), Kind(ItemChecked, ItemCheckedData(x.id, checked)));
      } else {
        assert AllChecked(a, checked) + ([x] + rest) == AllChecked(first, checked) + rest;
      }
    }
  }

  lemma {:induction false} NoMoreRemovals(items: seq<Item>)
    ensures RemovalEvents(Uncompleted(items)) == []
  {
    if items != [] {
      NoMoreRemovals(items[..|items| - 1]);
      var before := Uncompleted(items[..|items| - 1]);
      assert (before + [items[|items| - 1]])[..|before|] == before;
    }
  }

  lemma {:induction false} NoMoreChecks(items: seq<Item>, checked: bool)
    ensures CheckEvents(AllChecked(items, checked), checked) == []
  {
    if items != [] {
      NoMoreChecks(items[..|items| - 1], checked);
      assert AllChecked(items, checked)[..|items| - 1] == AllChecked(items[..|items| - 1], checked);
    }
  }

  /** RemoveCompletedItems leaves exactly the uncompleted items, in order; repeating it emits nothing. */
  lemma RemoveCompletedItemsIsExact(s: Todo)
    requires WellFormed(s) && s.created
    ensures var kinds := Decide(s, RemoveCompletedItems).value;
            var t := ApplyAll(s, kinds);
            && t == Some(s.(items := Uncompleted(s.items)))
            && Decide(t.value, RemoveCompletedItems) == Some([])
  {
    RemovalsSoFar(s, s.items, []);
    assert Uncompleted(s.items) + [] == Uncompleted(s.items);
    NoMoreRemovals(s.items);
  }

  /** CheckAllItems sets every item and changes nothing else; repeating it emits nothing. */
  lemma CheckAllItemsIsExact(s: Todo, checked: bool)
    requires WellFormed(s) && s.created
    ensures var kinds := Decide(s, CheckAllItems(checked)).value;
            var t := ApplyAll(s, kinds);
            && t == Some(s.(items := AllChecked(s.items, checked)))
            && Decide(t.value, CheckAllItems(checked)) == Some([])
  {
    ChecksSoFar(s, s.items, [], checked);
    assert AllChecked(s.items, checked) + [] == AllChecked(s.items, checked);
    NoMoreChecks(s.items, checked);
  }

  // ----- Every reachable log -----

  ghost predicate NoneDeleted(kinds: seq<TodoKind>, n: nat)
    requires n <= |kinds|
  {
    forall i :: 0 <= i < n ==> !kinds[i].etype.Deleted?
  }

  /** A log starts with Created, and has it again only after a Deleted. */
  ghost predicate StartsOnce(kinds: seq<TodoKind>) {
    && (kinds != [] ==> kinds[0].etype.Created?)
    && (forall i :: 0 < i < |kinds| && kinds[i].etype.Created? ==> !NoneDeleted(kinds, i))
  }

  ghost predicate GoodLog(kinds: seq<TodoKind>, s: Todo) {
    && WellFormed(s)
    && StartsOnce(kinds)
    && (kinds == [] ==> !s.created)
    && (kinds != [] && NoneDeleted(kinds, |kinds|) ==> s.created)
  }

  ghost function GoodLogs(): (seq<TodoKind>, Todo) -> bool {
    (kinds, s) => GoodLog(kinds, s)
  }

  ghost predicate OnlyItemEvents(kinds: seq<TodoKind>) {
    forall i :: 0 <= i < |kinds| ==> !kinds[i].etype.Created? && !kinds[i].etype.Deleted?
  }

  lemma {:induction false} BulkEventsAreItemEvents(items: seq<Item>, checked: bool)
    ensures OnlyItemEvents(RemovalEvents(items)) && OnlyItemEvents(CheckEvents(items, checked))
  {
    if items != [] {
      BulkEventsAreItemEvents(items[..|items| - 1], checked);
    }
  }

  lemma {:induction false} UncompletedIsWellFormed(s: Todo, first: seq<Item>, rest: seq<Item>)
    requires WellFormed(s) && s.items == first + rest
    ensures WellFormed(s.(items := Uncompleted(first)))
  {
    if first != [] {
      var n := |first| - 1;
      var a, x := first[..n], first[n];
      assert s.items == a + ([x] + rest);
      UncompletedIsWellFormed(s, a, [x] + rest);
      UncompletedAvoids(a, x, rest);
      assert s.items[n] == x;
    }
  }

  /** Appending item events to a log that has been created keeps its shape. */
  lemma ItemEventsKeepLog(kinds: seq<TodoKind>, s: Todo, more: seq<TodoKind>, t: Todo)
    requires GoodLog(kinds, s) && s.created && OnlyItemEvents(more) && WellFormed(t) && t.created
    ensures GoodLog(kinds + more, t)
  {
    var all := kinds + more;
    forall i | 0 < i < |all| && all[i].etype.Created?
      ensures !NoneDeleted(all, i)
    {
      assert i < |kinds| && all[i] == kinds[i];
      var j :| 0 <= j < i && kinds[j].etype.Deleted?;
      assert all[j] == kinds[j];
    }
  }

  lemma BulkKeepsGoodLog(kinds: seq<TodoKind>, s: Todo, cmd: Command)
    requires GoodLog(kinds, s) && s.created && (cmd.RemoveCompletedItems? || cmd.CheckAllItems?)
    ensures C.KeptByCommand(Dom(), AGGREGATE_TYPE, GoodLogs(), kinds, s, cmd)
  {
    BulkEventsAreItemEvents(s.items, cmd.CheckAllItems? && cmd.checked);
    if cmd.RemoveCompletedItems? {
      RemoveCompletedItemsIsExact(s);
      UncompletedIsWellFormed(s, s.items, []);
      ItemEventsKeepLog(kinds, s, RemovalEvents(s.items), s.(items := Uncompleted(s.items)));
    } else {
      CheckAllItemsIsExact(s, cmd.checked);
      ItemEventsKeepLog(kinds, s, CheckEvents(s.items, cmd.checked), s.(items := AllChecked(s.items, cmd.checked)));
    }
  }

  lemma OneEvent(s: Todo, k: TodoKind)
    ensures ApplyAll(s, [k]) == Apply(s, k)
  {
    ApplyNext(Dom(), AGGREGATE_TYPE, s, [], k);
    assert [] + [k] == [k];
  }

  lemma CreateOrDeleteKeepsGoodLog(kinds: seq<TodoKind>, s: Todo, k: TodoKind)
    requires GoodLog(kinds, s)
    requires (k == Kind(Created, NoData) && !s.created) || (k == Kind(Deleted, NoData) && s.created)
    ensures GoodLog(kinds + [k], Apply(s, k).value)
  {
    var all := kinds + [k];
    forall i | 0 < i < |all| && all[i].etype.Created?
      ensures !NoneDeleted(all, i)
    {
      if i < |kinds| {
        var j :| 0 <= j < i && kinds[j].etype.Deleted?;
        assert all[j] == kinds[j];
      } else {
        var j :| 0 <= j < |kinds| && kinds[j].etype.Deleted?;
        assert all[j] == kinds[j];
      }
    }
    assert all[|kinds|] == k;
    assert kinds != [] ==> all[0] == kinds[0];
    if k.etype.Created? && kinds != [] {
      var j :| 0 <= j < |kinds| && kinds[j].etype.Deleted?;
      assert all[j] == kinds[j];
    }
  }

  lemma CommandKeepsGoodLog(kinds: seq<TodoKind>, s: Todo, cmd: Command)
    requires GoodLog(kinds, s)
    ensures C.KeptByCommand(Dom(), AGGREGATE_TYPE, GoodLogs(), kinds, s, cmd)
  {
    var emitted := Decide(s, cmd);
    if emitted.Some? {
      if cmd.RemoveCompletedItems? || cmd.CheckAllItems? {
        BulkKeepsGoodLog(kinds, s, cmd);
      } else if emitted.value == [] {
        assert kinds + [] == kinds;
      } else {
        var k := emitted.value[0];
        assert emitted.value == [k];
        OneEvent(s, k);
        if cmd.Create? || cmd.Delete? {
          CreateOrDeleteKeepsGoodLog(kinds, s, k);
        } else {
          ApplyKeepsWellFormed(s, k);
          ItemEventsKeepLog(kinds, s, [k], Apply(s, k).value);
        }
      }
    }
  }

  lemma GoodLogsAreInductive()
    ensures C.Inductive(Dom(), AGGREGATE_TYPE, GoodLogs())
  {
    forall kinds, s, cmd | GoodLogs()(kinds, s)
      ensures C.KeptByCommand(Dom(), AGGREGATE_TYPE, GoodLogs(), kinds, s, cmd)
    {
      CommandKeepsGoodLog(kinds, s, cmd);
    }
  }

  /** In every reachable state of the concurrent system, every log of a todo list keeps its item IDs well formed. */
  lemma ReachableTodosAreWellFormed(cfg: C.Config<Todo, Command, TodoKind>, actions: seq<C.Action<Command>>, id: Uuid)
    requires cfg.dom == Dom()
    ensures var log := Log(C.Events(C.Exec(cfg, actions)), id);
            OfType(log, AGGREGATE_TYPE) ==> C.LogHas(Dom(), AGGREGATE_TYPE, log, GoodLogs())
  {
    GoodLogsAreInductive();
    C.CommandLogs(cfg, actions, AGGREGATE_TYPE, id, GoodLogs());
  }
}
