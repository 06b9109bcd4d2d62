/** What each command does to a todo list, and when it is refused. */
module TodoCommands {
  import opened Base
  import opened EventStore
  import opened Todo

  /** The list after a command: its events applied in turn; None if the command is refused. */
  function Outcome(s: Todo, cmd: Command): Option<Todo> {
    var emitted := Decide(s, cmd);
    if emitted.None? then None else ApplyAll(s, emitted.value)
  }

  ghost predicate Present(s: Todo, id: int) {
    exists i :: 0 <= i < |s.items| && s.items[i].id == id
  }

  lemma PresentIff(s: Todo, id: int)
    ensures Present(s, id) <==> IndexOf(s.items, id) < |s.items|
  {
  }

  lemma OneEventOutcome(s: Todo, cmd: Command, k: TodoKind)
    requires Decide(s, cmd) == Some([k])
    ensures Outcome(s, cmd) == Apply(s, k)
  {
    assert [k] == [] + [k];
    ApplyAllNext(s, [], k);
  }

  /** A list is created once, and every other command needs it created. */
  lemma CreatedOrNot(s: Todo, cmd: Command)
    ensures s.created == cmd.Create? ==> Decide(s, cmd).None? && Outcome(s, cmd).None?
    ensures Decide(s, OtherCommand).None?
  {
  }

  lemma CreateIsExact(s: Todo)
    requires !s.created
    ensures Outcome(s, Create) == Some(Todo(true, s.nextItemId, s.items))
  {
    OneEventOutcome(s, Create, Kind(Created, NoData));
  }

  lemma DeleteIsExact(s: Todo)
    requires s.created
    ensures Outcome(s, Delete) == Some(Todo(false, s.nextItemId, s.items))
  {
    OneEventOutcome(s, Delete, Kind(Deleted, NoData));
  }

  /** One uncompleted item with the description is appended, under the next ID. */
  lemma AddItemIsExact(s: Todo, description: string)
    requires s.created
    ensures Outcome(s, AddItem(description))
         == Some(Todo(true, s.nextItemId + 1, s.items + [Item(s.nextItemId, description, false)]))
  {
    OneEventOutcome(s, AddItem(description), Kind(ItemAdded, ItemAddedData(s.nextItemId, description)));
  }

  /** Exactly the item is removed; the command is refused exactly if there is none. */
  lemma RemoveItemIsExact(s: Todo, id: int)
    requires s.created && WellFormed(s)
    ensures Decide(s, RemoveItem(id)).None? <==> !Present(s, id)
    ensures forall k :: 0 <= k < |s.items| && s.items[k].id == id ==>
              Outcome(s, RemoveItem(id)) == Some(Todo(true, s.nextItemId, s.items[..k] + s.items[k + 1..]))
    ensures Outcome(s, RemoveItem(id)).Some? ==> !Present(Outcome(s, RemoveItem(id)).value, id)
  {
    PresentIff(s, id);
    if Present(s, id) {
      var k := IndexOf(s.items, id);
      OneEventOutcome(s, RemoveItem(id), Kind(ItemRemoved, ItemRemovedData(id)));
      assert forall j :: 0 <= j < |s.items| && s.items[j].id == id ==> j == k;
      var rest := s.items[..k] + s.items[k + 1..];
      assert forall i :: 0 <= i < |rest| ==> rest[i] == s.items[if i < k then i else i + 1];
    }
  }

  /** Exactly the item's description is set; repeating the command emits nothing. */
  lemma SetItemDescriptionIsExact(s: Todo, id: int, description: string)
    requires s.created && WellFormed(s)
    ensures var cmd := SetItemDescription(id, description);
            && (Decide(s, cmd).None? <==> !Present(s, id))
            && (Present(s, id) ==>
                && Outcome(s, cmd).Some?
                && var t := Outcome(s, cmd).value;
                   && t == s.(items := t.items) && |t.items| == |s.items|
                   && (forall i :: 0 <= i < |s.items| && s.items[i].id != id ==> t.items[i] == s.items[i])
                   && (forall i :: 0 <= i < |s.items| && s.items[i].id == id ==> t.items[i] == Item(id, description, s.items[i].completed))
                   && Decide(t, cmd) == Some([]))
  {
    var cmd, k := SetItemDescription(id, description), IndexOf(s.items, id);
    PresentIff(s, id);
    if Present(s, id) {
      assert forall j :: 0 <= j < |s.items| && s.items[j].id == id ==> j == k;
      if s.items[k].description != description {
        OneEventOutcome(s, cmd, Kind(ItemDescriptionSet, ItemDescriptionSetData(id, description)));
      }
      var t := Outcome(s, cmd).value;
      assert forall i :: 0 <= i < |s.items| ==> t.items[i].id == s.items[i].id;
      assert IndexOf(t.items, id) == k;
    }
  }

  /** Exactly the item's flag is set; repeating the command emits nothing. */
  lemma CheckItemIsExact(s: Todo, id: int, checked: bool)
    requires s.created && WellFormed(s)
    ensures var cmd := CheckItem(id, checked);
            && (Decide(s, cmd).None? <==> !Present(s, id))
            && (Present(s, id) ==>
                && Outcome(s, cmd).Some?
                && var t := Outcome(s, cmd).value;
                   && t == s.(items := t.items) && |t.items| == |s.items|
                   && (forall i :: 0 <= i < |s.items| && s.items[i].id != id ==> t.items[i] == s.items[i])
                   && (forall i :: 0 <= i < |s.items| && s.items[i].id == id ==> t.items[i] == Item(id, s.items[i].description, checked))
                   && Decide(t, cmd) == Some([]))
  {
    var cmd, k := CheckItem(id, checked), IndexOf(s.items, id);
    PresentIff(s, id);
    if Present(s, id) {
      assert forall j :: 0 <= j < |s.items| && s.items[j].id == id ==> j == k;
      if s.items[k].completed != checked {
        OneEventOutcome(s, cmd, Kind(ItemChecked, ItemCheckedData(id, checked)));
      }
      var t := Outcome(s, cmd).value;
      assert forall i :: 0 <= i < |s.items| ==> t.items[i].id == s.items[i].id;
      assert IndexOf(t.items, id) == k;
    }
  }

  /** An added item keeps the ID of its event, whatever that is, and one more ID is used up. */
  lemma AddedItemTells(s: Todo, id: int, description: string)
    ensures Apply(s, Kind(ItemAdded, ItemAddedData(id, description)))
         == Some(Todo(s.created, s.nextItemId + 1, s.items + [Item(id, description, false)]))
  {
  }

  /** An event cannot be applied exactly if it is of an unknown type or its data is of another type. */
  lemma ApplyFailsIff(s: Todo, k: TodoKind)
    ensures Apply(s, k).None? <==>
              match k.etype
              case Created => false
              case Deleted => false
              case ItemAdded => !k.data.ItemAddedData?
              case ItemRemoved => !k.data.ItemRemovedData?
              case ItemDescriptionSet => !k.data.ItemDescriptionSetData?
              case ItemChecked => !k.data.ItemCheckedData?
              case OtherType => true
  {
  }
}
