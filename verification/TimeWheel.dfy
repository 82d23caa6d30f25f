/** The class TimeWheel of Co_Routine.cpp:241-329, a circular vector of intrusive lists. The ghost
    argument `f` is the family of lists the slots belong to, with the items that may be on them. */
module TimeWheelClass {
  import opened Sequences
  import opened IntrusiveList
  import opened ListFamily
  import opened Events
  import opened WheelSpec

  class TimeWheel {
    const Wheel: seq<List<Event>>
    var Start: int
    var Index: int
    ghost var held: seq<Entry<Item>>

    ghost function View(): WheelSpec.Wheel<Item>
      reads this
    {
      WheelSpec.Wheel(Start, held)
    }

    ghost function Slots(): (r: seq<seq<Item>>)
      reads Wheel
      ensures |r| == |Wheel|
    {
      seq(|Wheel|, i requires 0 <= i < |Wheel| reads Wheel => Wheel[i].nodes)
    }

    ghost predicate Lists(f: Family<Event>)
      reads f.lists, f.items
    {
      && |Wheel| == DefaultSize && Distinct(Wheel)
      && (forall l :: l in Wheel ==> l in f.lists)
      && Sound(f)
    }

    ghost predicate Valid(f: Family<Event>)
      reads this, Wheel, f.lists, f.items
    {
      && Lists(f)
      && InWindow(View())
      && Represents(Slots(), Index, View())
    }

    constructor ()
      ensures fresh(Wheel) && |Wheel| == DefaultSize && Distinct(Wheel)
      ensures forall l :: l in Wheel ==> l.Valid() && l.nodes == []
      ensures View() == WheelSpec.Wheel(0, []) && InWindow(View()) && Represents(Slots(), Index, View())
    {
      var w: seq<List<Event>> := [];
      for i := 0 to DefaultSize
        invariant |w| == i && fresh(w) && Distinct(w)
        invariant forall j :: 0 <= j < i ==> w[j].Valid() && w[j].nodes == []
      {
        var l := new List<Event>();
        w := w + [l];
      }
      Wheel := w;
      Start, Index, held := 0, 0, [];
      new;
      EmptyRepresents(Slots());
    }

    /** The first use of the wheel fixes Start (lines 268-271 and 295-298). */
    method FirstUse(Now: int, ghost f: Family<Event>)
      requires Valid(f) && Now > 0
      modifies `Start, `Index
      ensures Valid(f) && View() == Begin(old(View()), Now) && 0 < Start
    {
      if Start == 0 {
        BeginRepresents(Slots(), Index, View(), Now);
        Start := Now;
        Index := 0;
      }
    }

    /** AddTimeOut. An item that is already on a list stays where it is, though the call succeeds. */
    method AddTimeOut(ItemList: Item, Now: int, ghost f: Family<Event>) returns (ok: bool)
      requires Valid(f) && Now > 0 && ItemList in f.items
      modifies this, f.lists, f.items`Next, f.items`Prev, ItemList`Link
      ensures Valid(f)
      ensures ok <==> Accepts(old(View()), ItemList.data.ExpireTime, Now)
      ensures var start := if old(Start) == 0 then Now else old(Start);
              ok <==> start <= Now <= ItemList.data.ExpireTime && ItemList.data.ExpireTime - start < 86400
      ensures View() == if old(ItemList.Link) == null
                        then WheelSpec.AddTimeOut(old(View()), ItemList, ItemList.data.ExpireTime, Now)
                        else Begin(old(View()), Now)
      ensures !ok || old(ItemList.Link) != null ==> ItemList.Link == old(ItemList.Link)
      ensures old(ItemList.Link) != null ==> forall l :: l in f.lists ==> l.nodes == old(l.nodes)
      ensures forall l :: l in f.lists && l !in Wheel ==> l.nodes == old(l.nodes)
    {
      hide Represents, InWindow, Sound;
      FirstUse(Now, f);
      if Now < Start {
        return false;
      }
      if ItemList.data.ExpireTime < Now {
        return false;
      }
      var interval := ItemList.data.ExpireTime - Start;
      if interval >= DefaultSize {
        return false;
      }
      AddToSlot(ItemList, interval, Now, f);
      return true;
    }

    /** The AddTail of line 289, into the slot of the expiry. */
    method AddToSlot(ItemList: Item, interval: nat, ghost Now: int, ghost f: Family<Event>)
      requires Valid(f) && 0 < Start && ItemList in f.items
      requires Accepts(View(), ItemList.data.ExpireTime, Now) && interval == ItemList.data.ExpireTime - Start
      modifies `held, f.lists, f.items`Next, f.items`Prev, ItemList`Link
      ensures Valid(f)
      ensures View() == if old(ItemList.Link) == null
                        then WheelSpec.AddTimeOut(old(View()), ItemList, ItemList.data.ExpireTime, Now)
                        else old(View())
      ensures old(ItemList.Link) != null ==> ItemList.Link == old(ItemList.Link)
      ensures old(ItemList.Link) != null ==> forall l :: l in f.lists ==> l.nodes == old(l.nodes)
      ensures forall l :: l in f.lists && l !in Wheel ==> l.nodes == old(l.nodes)
    {
      hide Represents, InWindow, Sound;
      ghost var was, unlinked := Slots(), ItemList.Link == null;
      if unlinked {
        AddRepresents(Slots(), Index, View(), ItemList, ItemList.data.ExpireTime, Now);
      }
      var i := (Index + interval) % |Wheel|;
      Append(Wheel[i], ItemList, f);
      if unlinked {
        assert Slots() == was[i := was[i] + [ItemList]];
        held := held + [Entry(ItemList, ItemList.data.ExpireTime)];
      } else {
        assert Slots() == was;
      }
    }

    /** The loop of lines 313-316. */
    method JoinSlots(interval: nat, TimeOut: List<Event>, ghost f: Family<Event>)
      requires Lists(f) && TimeOut in f.lists && TimeOut !in Wheel
      modifies f.lists, f.items`Link, f.items`Prev, f.items`Next
      ensures Lists(f)
      ensures Slots() == Cleared(old(Slots()), Index, interval)
      ensures TimeOut.nodes == old(TimeOut.nodes) + Collected(old(Slots()), Index, interval)
      ensures forall l :: l in f.lists && l !in Wheel && l != TimeOut ==> l.nodes == old(l.nodes)
    {
      hide Lists, Distinct, Slot, Cleared, Collected;
      WheelSize(f);
      NothingJoined(Slots());
      for i := 0 to interval
        invariant Lists(f) && |Wheel| == DefaultSize
        invariant Slots() == Cleared(old(Slots()), Index, i)
        invariant TimeOut.nodes == old(TimeOut.nodes) + Collected(old(Slots()), Index, i)
        invariant forall l :: l in f.lists && l !in Wheel && l != TimeOut ==> l.nodes == old(l.nodes)
      {
        OneJoined(old(Slots()), i);
        JoinSlot(i, TimeOut, f);
      }
    }

    lemma WheelSize(f: Family<Event>)
      requires Lists(f)
      ensures |Wheel| == DefaultSize
    {
    }

    lemma NothingJoined(slots: seq<seq<Item>>)
      requires |slots| == DefaultSize
      ensures Cleared(slots, Index, 0) == slots && Collected(slots, Index, 0) == []
    {
    }

    lemma OneJoined(slots: seq<seq<Item>>, i: nat)
      requires |slots| == DefaultSize
      ensures Cleared(slots, Index, i + 1) == Cleared(slots, Index, i)[Slot(Index, i) := []]
      ensures Collected(slots, Index, i + 1) == Collected(slots, Index, i) + Cleared(slots, Index, i)[Slot(Index, i)]
    {
    }

    /** One round of that loop. */
    method JoinSlot(i: nat, TimeOut: List<Event>, ghost f: Family<Event>)
      requires Lists(f) && TimeOut in f.lists && TimeOut !in Wheel
      modifies f.lists, f.items`Link, f.items`Prev, f.items`Next
      ensures Lists(f) && Slots() == old(Slots())[Slot(Index, i) := []]
      ensures TimeOut.nodes == old(TimeOut.nodes) + old(Slots())[Slot(Index, i)]
      ensures forall l :: l in f.lists && l !in Wheel && l != TimeOut ==> l.nodes == old(l.nodes)
    {
      hide Sound;
      var index := (Index + i) % |Wheel|;
      Splice(TimeOut, Wheel[index], f);
      assert Slots() == old(Slots())[index := []];
    }

    method TakeOutTimeout(Now: int, TimeOut: List<Event>, ghost f: Family<Event>)
      requires Valid(f) && Now > 0 && TimeOut in f.lists && TimeOut !in Wheel
      modifies this, f.lists, f.items`Link, f.items`Prev, f.items`Next
      ensures Valid(f)
      ensures View() == WheelSpec.TakeOutTimeout(old(View()), Now)
      ensures TimeOut.nodes == old(TimeOut.nodes) + (if Now < Begin(old(View()), Now).start then [] else TakenOut(old(View()), Now))
      ensures forall l :: l in f.lists && l !in Wheel && l != TimeOut ==> l.nodes == old(l.nodes)
    {
      hide Represents, InWindow, Cleared, Collected, Sound;
      FirstUse(Now, f);
      if Now < Start {
        return;
      }
      var interval := Now - Start + 1;
      if interval > |Wheel| {
        interval := |Wheel|;
      }
      TakeOutSlots(Slots(), Index, View(), Now, interval);
      JoinSlots(interval, TimeOut, f);
      Start := Now;
      Index := Index + (interval - 1);
      held := Later(held, Now);
    }

    /** Ghost bookkeeping after RemoveFromWheel took x off whatever list it was on. */
    ghost method Forget(x: Item, was: seq<seq<Item>>, f: Family<Event>)
      requires Lists(f) && InWindow(View()) && Represents(was, Index, View())
      requires forall i :: 0 <= i < |was| ==> Slots()[i] == Without(was[i], x)
      modifies `held
      ensures Valid(f) && View() == old(View()).(held := Drop(old(held), x))
    {
      DropRepresents(was, Slots(), Index, View(), x);
      held := Drop(held, x);
    }
  }
}
