/**
 * The item-count screen (src/components/SlotItemCountSetup.jsx).  It keeps
 * its own list of counts, one per slot, starting at 3; picking a count for
 * a slot updates that entry and dispatches the count to the session; the
 * start button dispatches the start of the input phase when every local
 * count is positive.
 */
module SlotItemCountSetup {
  import opened Options
  import opened SlotContext
  import SlotDataInput

  const DefaultCount := 3
  const MinCustomCount := 1
  const MaxCustomCount := 20

  /** The counts the preset buttons pass. */
  const PresetCounts: seq<nat> := [1, 2, 3, 4, 5, 6]

  function InitialCounts(n: nat): seq<int> {
    seq(n, _ => DefaultCount)
  }

  /**
   * The custom input's clamp `max(1, min(20, parseInt(v) || 1))`; `parsed`
   * is `None` when `parseInt` gives NaN.  NaN and 0 are falsy and become 1.
   */
  function ClampCustomCount(parsed: Option<int>): (r: nat)
    ensures MinCustomCount <= r <= MaxCustomCount
    ensures parsed.Some? && MinCustomCount <= parsed.value <= MaxCustomCount ==> r == parsed.value
    ensures parsed.Some? && parsed.value > MaxCustomCount ==> r == MaxCustomCount
    ensures parsed.None? || parsed.value < MinCustomCount ==> r == MinCustomCount
  {
    var v := if parsed.None? || parsed.value == 0 then 1 else parsed.value;
    var capped := if v < MaxCustomCount then v else MaxCustomCount;
    if capped > MinCustomCount then capped else MinCustomCount
  }

  lemma ClampIsIdempotent(parsed: Option<int>)
    ensures ClampCustomCount(Some(ClampCustomCount(parsed))) == ClampCustomCount(parsed)
  {
  }

  /** Every preset is a count the custom input would accept unchanged. */
  lemma PresetsWithinClamp()
    ensures forall k :: 0 <= k < |PresetCounts| ==>
      1 <= PresetCounts[k] <= 6 && ClampCustomCount(Some(PresetCounts[k])) == PresetCounts[k]
  {
  }

  /** The summary's total: `itemCounts.reduce((sum, count) => sum + count, 0)`. */
  function TotalCount(counts: seq<int>): int {
    if |counts| == 0 then 0 else TotalCount(counts[..|counts| - 1]) + counts[|counts| - 1]
  }

  /** `itemCounts.every(count => count > 0)`. */
  predicate AllPositive(counts: seq<int>) {
    forall k :: 0 <= k < |counts| ==> counts[k] > 0
  }

  /** Changing one entry changes the total by the difference. */
  lemma {:induction false} TotalAfterUpdate(counts: seq<int>, i: int, c: int)
    requires 0 <= i < |counts|
    ensures TotalCount(counts[i := c]) == TotalCount(counts) - counts[i] + c
  {
    var n := |counts| - 1;
    if i < n {
      assert counts[i := c][..n] == counts[..n][i := c];
      TotalAfterUpdate(counts[..n], i, c);
    } else {
      assert counts[i := c][..n] == counts[..n];
    }
  }

  /** With every count positive, at least one item per slot is to be entered. */
  lemma {:induction false} PositiveTotalAtLeastLength(counts: seq<int>)
    requires AllPositive(counts)
    ensures TotalCount(counts) >= |counts|
  {
    if |counts| > 0 {
      PositiveTotalAtLeastLength(counts[..|counts| - 1]);
    }
  }

  /** The starting counts: one 3 per slot, all positive, 3 items per slot in total. */
  lemma {:induction false} InitialCountsFacts(n: nat)
    ensures |InitialCounts(n)| == n && AllPositive(InitialCounts(n))
    ensures TotalCount(InitialCounts(n)) == DefaultCount * n
  {
    if n > 0 {
      assert InitialCounts(n)[..n - 1] == InitialCounts(n - 1);
      InitialCountsFacts(n - 1);
    }
  }

  class CountSetup {
    var itemCounts: seq<int>
    const store: Store

    /** The screen mounts with one default count per slot of the session. */
    constructor (store: Store)
      ensures this.store == store && itemCounts == InitialCounts(|store.state.slots|)
    {
      this.store := store;
      itemCounts := InitialCounts(|store.state.slots|);
    }

    /** `updateItemCount`: one entry of the local counts, and the same count for the same slot in the session. */
    method UpdateItemCount(slotIndex: nat, count: nat)
      requires slotIndex < |itemCounts|
      modifies this, store
      ensures itemCounts == old(itemCounts)[slotIndex := count]
      ensures store.state == Reduce(old(store.state), SetSlotItemCount(slotIndex, count))
    {
      var newCounts := itemCounts;
      newCounts := newCounts[slotIndex := count];
      itemCounts := newCounts;
      store.Dispatch(SetSlotItemCount(slotIndex, count));
    }

    /** `startInputPhase` as written: it checks the local counts only. */
    method StartInputPhase() returns (dispatched: bool)
      modifies store
      ensures dispatched <==> AllPositive(itemCounts)
      ensures store.state == if dispatched then Reduce(old(store.state), Action.StartInputPhase) else old(store.state)
    {
      dispatched := AllPositive(itemCounts);
      if dispatched {
        store.Dispatch(Action.StartInputPhase);
      }
    }

    /** `startInputPhase` with the check the comment asks for: every slot of the session has an item. */
    method StartInputPhaseChecked() returns (dispatched: bool)
      modifies store
      ensures dispatched <==> SlotDataInput.SlotsHaveItems(old(store.state.slots))
      ensures store.state == if dispatched then Reduce(old(store.state), Action.StartInputPhase) else old(store.state)
    {
      dispatched := SlotDataInput.SlotsHaveItems(store.state.slots);
      if dispatched {
        store.Dispatch(Action.StartInputPhase);
      }
    }
  }

  /**
   * The as-written check lets input start on slots that have no items: right
   * after the slot count is set every slot has `itemCount` 0, while the local
   * counts still hold their unsent default of 3.
   */
  lemma AsWrittenGuardAdmitsEmptySlots()
    ensures var s := Reduce(Reduce(InitialState, SetGameTitle("Lunch Picker")), SetSlotCount(3));
      var r := Reduce(s, Action.StartInputPhase);
      AllPositive(InitialCounts(|s.slots|)) && !SlotDataInput.SlotsHaveItems(s.slots) &&
      r.gameState == Input && r.slots[0].itemCount == 0 && !SlotDataInput.InBounds(r)
  {
    var s := Reduce(Reduce(InitialState, SetGameTitle("Lunch Picker")), SetSlotCount(3));
    InitialCountsFacts(|s.slots|);
    assert s.slots[0].itemCount == 0;
  }

  /**
   * The corrected check puts the session into the input phase with the
   * cursor on an existing item and no empty slot, which is what the cursor
   * rules of the input screen need.
   */
  lemma CheckedGuardEstablishesInputShape(s: Session)
    requires SlotDataInput.SlotsHaveItems(s.slots) && s.slotCount == |s.slots| && |s.slots| > 0
    ensures var r := Reduce(s, Action.StartInputPhase);
      r.gameState == Input && SlotDataInput.InBounds(r) && SlotDataInput.InputShape(r) && r.slots == s.slots
  {
  }
}
