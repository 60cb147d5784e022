/** The routine checklist of App.tsx: the routine seeded from the default
    activities on first run, and the toggle of one item's completed flag. */
module Checklist {
  import opened Types
  import opened Constants

  /** The routine item for a catalog activity, not yet completed. */
  function Unchecked(a: Activity): RoutineItem
  {
    RoutineItem(a.id, a.name, false, a.category)
  }

  /** The activities as routine items, in catalog order, none completed. */
  function Seeded(acts: seq<Activity>): (r: seq<RoutineItem>)
    ensures |r| == |acts|
    ensures forall i :: 0 <= i < |r| ==>
      && r[i].id == acts[i].id && r[i].name == acts[i].name
      && r[i].category == acts[i].category && !r[i].completed
  {
    seq(|acts|, i requires 0 <= i < |acts| => Unchecked(acts[i]))
  }

  /** The routine used when none has been saved. */
  function DefaultRoutine(): seq<RoutineItem>
  {
    Seeded(DefaultActivities)
  }

  /** The default routine has eight unchecked items with distinct ids, none of
      them in the "routine" category. */
  lemma DefaultRoutineWellFormed()
    ensures |DefaultRoutine()| == 8
    ensures forall i :: 0 <= i < 8 ==> !DefaultRoutine()[i].completed
    ensures forall i, j :: 0 <= i < j < 8 ==> DefaultRoutine()[i].id != DefaultRoutine()[j].id
    ensures forall i :: 0 <= i < 8 ==> DefaultRoutine()[i].category != Routine
  {
    DefaultActivitiesWellFormed();
  }

  function Toggled(item: RoutineItem, id: string): RoutineItem
  {
    if item.id == id then item.(completed := !item.completed) else item
  }

  /** The routine with the completed flag of every item whose id is `id`
      flipped; length, order and every other field are kept. */
  function ToggleItems(items: seq<RoutineItem>, id: string): (r: seq<RoutineItem>)
    ensures |r| == |items|
    ensures forall i :: 0 <= i < |r| ==> r[i].(completed := items[i].completed) == items[i]
    ensures forall i :: 0 <= i < |r| ==> (r[i].completed != items[i].completed <==> items[i].id == id)
  {
    if items == [] then [] else [Toggled(items[0], id)] + ToggleItems(items[1..], id)
  }

  /** Toggling an id that no item has leaves the routine as it was. */
  lemma ToggleUnknownId(items: seq<RoutineItem>, id: string)
    requires forall i :: 0 <= i < |items| ==> items[i].id != id
    ensures ToggleItems(items, id) == items
  {
    var r := ToggleItems(items, id);
    assert forall i :: 0 <= i < |r| ==> r[i] == items[i] by {
      forall i | 0 <= i < |r| ensures r[i] == items[i] {
        assert r[i].(completed := items[i].completed) == items[i];
      }
    }
  }

  /** Toggling the same id twice restores the routine. */
  lemma ToggleTwice(items: seq<RoutineItem>, id: string)
    ensures ToggleItems(ToggleItems(items, id), id) == items
  {
    var once := ToggleItems(items, id);
    var twice := ToggleItems(once, id);
    forall i | 0 <= i < |items| ensures twice[i] == items[i] {
      assert twice[i].(completed := once[i].completed) == once[i];
      assert once[i].(completed := items[i].completed) == items[i];
    }
  }
}
