/**
 * Restoring a saved session on load (src/contexts/SlotContext.jsx:117-141).
 * The snapshot is replayed into the session as a fixed series of reducer
 * actions: the title, the slot count, per slot its item count and then one
 * full-item update per stored item, and finally the normalised phase.
 * Reading and parsing the stored text is not part of this model: a
 * `Snapshot` is what the parsed object holds.
 */
module SlotRestore {
  import opened Options
  import opened SlotContext

  /** The parsed stored object: `gameState` is `None` when it is missing or empty. */
  datatype Snapshot = Snapshot(gameTitle: string, slotCount: int, slots: seq<Slot>, gameState: Option<Phase>)

  /** A snapshot is replayed only if it has a non-empty title and a positive slot count. */
  predicate RestoreGuard(d: Snapshot) {
    |d.gameTitle| > 0 && d.slotCount > 0
  }

  /** A stored `result` phase, or a missing one, comes back as `ready`; any other phase is kept. */
  function NormalizePhase(p: Option<Phase>): (r: Phase)
    ensures r != Result
    ensures r == Ready <==> p.None? || p.value == Result || p.value == Ready
    ensures p.Some? && p.value != Result ==> r == p.value
  {
    if p.None? || p.value == Result then Ready else p.value
  }

  /** The object the load effect passes as `data` for one stored item. */
  function FullPatch(item: Item): ItemPatch {
    ItemPatch(Some(item.id), Some(item.text), Some(item.image))
  }

  /** The updates dispatched for one stored slot's items, in order. */
  function ItemUpdates(slotIndex: int, items: seq<Item>): seq<Action> {
    if |items| == 0 then []
    else ItemUpdates(slotIndex, items[..|items| - 1]) +
         [UpdateSlotItem(slotIndex, |items| - 1, FullPatch(items[|items| - 1]))]
  }

  /** Everything dispatched for the stored slot at `index`. */
  function SlotActions(index: int, slot: Slot): seq<Action> {
    [SetSlotItemCount(index, slot.itemCount)] + ItemUpdates(index, slot.items)
  }

  function SlotsActions(slots: seq<Slot>): seq<Action> {
    if |slots| == 0 then []
    else SlotsActions(slots[..|slots| - 1]) + SlotActions(|slots| - 1, slots[|slots| - 1])
  }

  function RestoreActions(d: Snapshot): seq<Action>
    requires d.slotCount >= 0
  {
    [SetGameTitle(d.gameTitle), SetSlotCount(d.slotCount)] + SlotsActions(d.slots) +
    [SetGameState(NormalizePhase(d.gameState))]
  }

  /** Dispatching `acts` one after another. */
  function Replay(s: Session, acts: seq<Action>): Session {
    if |acts| == 0 then s else Reduce(Replay(s, acts[..|acts| - 1]), acts[|acts| - 1])
  }

  /** The session after the load effect has run on `d`, starting from `s0`. */
  function Load(s0: Session, d: Snapshot): Session {
    if RestoreGuard(d) then Replay(s0, RestoreActions(d)) else s0
  }

  /** The load effect: the guard, then the dispatches in the order the source issues them. */
  method Restore(s0: Session, d: Snapshot) returns (s: Session)
    ensures s == Load(s0, d)
  {
    s := s0;
    if |d.gameTitle| > 0 && d.slotCount > 0 {
      ghost var head := [SetGameTitle(d.gameTitle), SetSlotCount(d.slotCount)];
      s := Reduce(s, SetGameTitle(d.gameTitle));
      s := Reduce(s, SetSlotCount(d.slotCount));
      ReplayOne(s0, SetGameTitle(d.gameTitle));
      ReplaySnoc(s0, [SetGameTitle(d.gameTitle)], SetSlotCount(d.slotCount));
      assert d.slots[..0] == [];
      assert head + SlotsActions(d.slots[..0]) == head;
      var i := 0;
      while i < |d.slots|
        invariant 0 <= i <= |d.slots|
        invariant s == Replay(s0, head + SlotsActions(d.slots[..i]))
      {
        s := RestoreSlot(s, i, d.slots[i]);
        RestoreStep(s0, head, d.slots, i);
        i := i + 1;
      }
      assert d.slots[..i] == d.slots;
      ghost var body := head + SlotsActions(d.slots);
      var last := SetGameState(NormalizePhase(d.gameState));
      s := Reduce(s, last);
      ReplaySnoc(s0, body, last);
      assert RestoreActions(d) == body + [last];
    }
  }

  /** One pass of the outer `forEach`: the item count of slot `index`, then each stored item. */
  method RestoreSlot(s0: Session, index: int, slot: Slot) returns (s: Session)
    ensures s == Replay(s0, SlotActions(index, slot))
  {
    var first := SetSlotItemCount(index, slot.itemCount);
    s := Reduce(s0, first);
    ReplayOne(s0, first);
    assert slot.items[..0] == [];
    assert [first] + ItemUpdates(index, slot.items[..0]) == [first];
    var j := 0;
    while j < |slot.items|
      invariant 0 <= j <= |slot.items|
      invariant s == Replay(s0, [first] + ItemUpdates(index, slot.items[..j]))
    {
      ghost var before := [first] + ItemUpdates(index, slot.items[..j]);
      var a := UpdateSlotItem(index, j, FullPatch(slot.items[j]));
      s := Reduce(s, a);
      assert slot.items[..j + 1][..j] == slot.items[..j];
      ReplaySnoc(s0, before, a);
      assert [first] + ItemUpdates(index, slot.items[..j + 1]) == before + [a];
      j := j + 1;
    }
    assert slot.items[..j] == slot.items;
  }

  /** One more stored slot replayed: the outer loop's step. */
  lemma RestoreStep(s0: Session, head: seq<Action>, slots: seq<Slot>, i: nat)
    requires i < |slots|
    ensures Replay(s0, head + SlotsActions(slots[..i + 1])) ==
      Replay(Replay(s0, head + SlotsActions(slots[..i])), SlotActions(i, slots[i]))
  {
    assert slots[..i + 1][..i] == slots[..i];
    assert head + SlotsActions(slots[..i + 1]) == (head + SlotsActions(slots[..i])) + SlotActions(i, slots[i]);
    ReplayAppend(s0, head + SlotsActions(slots[..i]), SlotActions(i, slots[i]));
  }

  // ---------------------------------------------------------------------
  // Facts about replay.

  lemma {:induction false} ReplayAppend(s: Session, a: seq<Action>, b: seq<Action>)
    ensures Replay(s, a + b) == Replay(Replay(s, a), b)
    decreases |b|
  {
    if |b| == 0 {
      assert a + b == a;
    } else {
      var b' := b[..|b| - 1];
      assert (a + b)[..|a + b| - 1] == a + b';
      ReplayAppend(s, a, b');
    }
  }

  lemma ReplaySnoc(s: Session, acts: seq<Action>, a: Action)
    ensures Replay(s, acts + [a]) == Reduce(Replay(s, acts), a)
  {
    assert (acts + [a])[..|acts|] == acts;
  }

  lemma ReplayOne(s: Session, a: Action)
    ensures Replay(s, [a]) == Reduce(s, a)
  {
    assert [a][..0] == [];
  }

  predicate IsSlotEdit(a: Action) {
    a.SetSlotItemCount? || a.UpdateSlotItem?
  }

  lemma {:induction false} SlotsActionsAreSlotEdits(slots: seq<Slot>)
    ensures forall k :: 0 <= k < |SlotsActions(slots)| ==> IsSlotEdit(SlotsActions(slots)[k])
  {
    if |slots| > 0 {
      SlotsActionsAreSlotEdits(slots[..|slots| - 1]);
      ItemUpdatesAreSlotEdits(|slots| - 1, slots[|slots| - 1].items);
    }
  }

  lemma {:induction false} ItemUpdatesAreSlotEdits(index: int, items: seq<Item>)
    ensures forall k :: 0 <= k < |ItemUpdates(index, items)| ==> ItemUpdates(index, items)[k].UpdateSlotItem?
  {
    if |items| > 0 {
      ItemUpdatesAreSlotEdits(index, items[..|items| - 1]);
    }
  }

  /** Item-count and item updates touch only the slots, and never their number. */
  lemma {:induction false} SlotEditsFrame(s: Session, acts: seq<Action>)
    requires forall k :: 0 <= k < |acts| ==> IsSlotEdit(acts[k])
    ensures Replay(s, acts).(slots := s.slots) == s
    ensures |Replay(s, acts).slots| == |s.slots|
  {
    if |acts| > 0 {
      SlotEditsFrame(s, acts[..|acts| - 1]);
    }
  }

  // ---------------------------------------------------------------------
  // The round trip: a well-formed session written out and loaded back.

  function SnapshotOf(s: Session): Snapshot {
    Snapshot(s.gameTitle, s.slotCount, s.slots, Some(s.gameState))
  }

  lemma SetItemCountAtIndex(slots: seq<Slot>, k: int, c: nat)
    requires IdsAreIndices(slots) && 0 <= k < |slots|
    ensures SetItemCountOf(slots, k, c) == slots[k := Reallocate(slots[k], c)]
  {
  }

  lemma PatchAtIndex(slots: seq<Slot>, k: int, j: int, p: ItemPatch)
    requires IdsAreIndices(slots) && 0 <= k < |slots|
    requires ItemIdsAreIndices(slots[k].items) && 0 <= j < |slots[k].items|
    ensures PatchSlots(slots, k, j, p) ==
      slots[k := slots[k].(items := slots[k].items[j := Merge(slots[k].items[j], p)])]
  {
    assert PatchItems(slots[k].items, j, p) == slots[k].items[j := Merge(slots[k].items[j], p)];
  }

  /** After the first `j` stored items are replayed, they sit in front of the rest of the blank items. */
  lemma {:induction false} RestoreItemsPrefix(u: Session, k: int, slot: Slot, j: nat)
    requires IdsAreIndices(u.slots) && 0 <= k < |u.slots|
    requires SlotWellFormed(slot, k) && j <= |slot.items|
    requires u.slots[k] == Slot(k, slot.itemCount, BlankItems(slot.itemCount))
    ensures Replay(u, ItemUpdates(k, slot.items[..j])) ==
      u.(slots := u.slots[k := Slot(k, slot.itemCount, slot.items[..j] + BlankItems(slot.itemCount)[j..])])
  {
    var c := slot.itemCount;
    if j == 0 {
      assert slot.items[..0] == [];
      assert [] + BlankItems(c)[0..] == BlankItems(c);
      assert u.slots[k := u.slots[k]] == u.slots;
    } else {
      var j' := j - 1;
      assert slot.items[..j][..j'] == slot.items[..j'];
      RestoreItemsPrefix(u, k, slot, j');
      var w := Replay(u, ItemUpdates(k, slot.items[..j']));
      var mid := slot.items[..j'] + BlankItems(c)[j'..];
      assert w.slots == u.slots[k := Slot(k, c, mid)];
      assert ItemIdsAreIndices(mid) by {
        forall m | 0 <= m < |mid| ensures mid[m].id == m {
          if m < j' { assert mid[m] == slot.items[m]; }
        }
      }
      PatchAtIndex(w.slots, k, j', FullPatch(slot.items[j']));
      FullPatchReplaces(mid[j'], slot.items[j']);
      assert mid[j' := slot.items[j']] == slot.items[..j] + BlankItems(c)[j..];
    }
  }

  /** Replaying one stored slot puts exactly that slot at its index. */
  lemma RestoreOneSlot(u: Session, k: int, slot: Slot)
    requires IdsAreIndices(u.slots) && 0 <= k < |u.slots|
    requires SlotWellFormed(slot, k)
    ensures Replay(u, SlotActions(k, slot)) == u.(slots := u.slots[k := slot])
  {
    var c := slot.itemCount;
    ReplayAppend(u, [SetSlotItemCount(k, c)], ItemUpdates(k, slot.items));
    ReplayOne(u, SetSlotItemCount(k, c));
    SetItemCountAtIndex(u.slots, k, c);
    var u1 := Reduce(u, SetSlotItemCount(k, c));
    assert u1.slots == u.slots[k := Slot(k, c, BlankItems(c))];
    RestoreItemsPrefix(u1, k, slot, |slot.items|);
    assert slot.items[..|slot.items|] == slot.items;
    assert slot.items + BlankItems(c)[c..] == slot.items;
  }

  /** After the first `k` stored slots are replayed onto fresh slots, they sit in front of the rest of the fresh slots. */
  lemma {:induction false} RestoreSlotsPrefix(t: Session, saved: seq<Slot>, k: nat)
    requires t.slots == FreshSlots(|saved|) && k <= |saved|
    requires forall i :: 0 <= i < |saved| ==> SlotWellFormed(saved[i], i)
    ensures Replay(t, SlotsActions(saved[..k])) == t.(slots := saved[..k] + FreshSlots(|saved|)[k..])
  {
    var n := |saved|;
    if k == 0 {
      assert saved[..0] == [];
      assert [] + FreshSlots(n)[0..] == t.slots;
    } else {
      var k' := k - 1;
      assert saved[..k][..k'] == saved[..k'];
      RestoreSlotsPrefix(t, saved, k');
      ReplayAppend(t, SlotsActions(saved[..k']), SlotActions(k', saved[k']));
      var u := Replay(t, SlotsActions(saved[..k']));
      assert IdsAreIndices(u.slots) by {
        forall i | 0 <= i < |u.slots| ensures u.slots[i].id == i {
          if i < k' { assert SlotWellFormed(saved[i], i); }
        }
      }
      RestoreOneSlot(u, k', saved[k']);
      assert u.slots[k' := saved[k']] == saved[..k] + FreshSlots(n)[k..];
    }
  }

  /** The replay guard: a snapshot without a title or without slots leaves the session as it was. */
  lemma RejectedSnapshotChangesNothing(s0: Session, d: Snapshot)
    requires !RestoreGuard(d)
    ensures Load(s0, d) == s0
  {
  }

  /**
   * An accepted snapshot restores its title, slot count and phase (normalised),
   * keeps as many slots as before, resets the cursor and keeps the running
   * session's result.
   */
  lemma AcceptedSnapshotFields(s0: Session, d: Snapshot)
    requires RestoreGuard(d)
    ensures var s := Load(s0, d);
      s.gameTitle == d.gameTitle && s.slotCount == d.slotCount && |s.slots| == d.slotCount &&
      s.gameState == NormalizePhase(d.gameState) && s.gameState != Result &&
      s.currentSlotIndex == 0 && s.currentItemIndex == 0 && s.result == s0.result
  {
    var head := [SetGameTitle(d.gameTitle), SetSlotCount(d.slotCount)];
    var last := SetGameState(NormalizePhase(d.gameState));
    ReplayAppend(s0, head + SlotsActions(d.slots), [last]);
    ReplayOne(Replay(s0, head + SlotsActions(d.slots)), last);
    ReplayAppend(s0, head, SlotsActions(d.slots));
    ReplayOne(s0, SetGameTitle(d.gameTitle));
    ReplaySnoc(s0, [SetGameTitle(d.gameTitle)], SetSlotCount(d.slotCount));
    SlotsActionsAreSlotEdits(d.slots);
    SlotEditsFrame(Replay(s0, head), SlotsActions(d.slots));
  }

  /**
   * Saving a well-formed session and loading it back, from any starting
   * session, gives the same title, slot count and slots; the phase comes
   * back normalised, the cursor at (0,0), and the result is the one the
   * loading session already had.
   */
  lemma RoundTrip(s0: Session, s: Session)
    requires WellFormed(s) && |s.gameTitle| > 0 && s.slotCount > 0
    ensures Load(s0, SnapshotOf(s)) ==
      s.(gameState := NormalizePhase(Some(s.gameState)), currentSlotIndex := 0, currentItemIndex := 0,
         result := s0.result)
  {
    var d := SnapshotOf(s);
    var n := s.slotCount;
    var head := [SetGameTitle(d.gameTitle), SetSlotCount(n)];
    var last := SetGameState(NormalizePhase(d.gameState));
    ReplayAppend(s0, head + SlotsActions(d.slots), [last]);
    ReplayOne(Replay(s0, head + SlotsActions(d.slots)), last);
    ReplayAppend(s0, head, SlotsActions(d.slots));
    ReplayOne(s0, SetGameTitle(d.gameTitle));
    ReplaySnoc(s0, [SetGameTitle(d.gameTitle)], SetSlotCount(n));
    var t := Replay(s0, head);
    assert t.slots == FreshSlots(n);
    RestoreSlotsPrefix(t, s.slots, n);
    assert s.slots[..n] == s.slots;
    assert s.slots + FreshSlots(n)[n..] == s.slots;
  }
}
