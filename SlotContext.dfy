/**
 * The session record of the slot-machine game and the reducer that is its
 * only writer (src/contexts/SlotContext.jsx).  The reducer is a pure, total
 * function: each action rebuilds the record, changing only the fields and
 * the slot or item it names.  `Store` models the `useReducer` handle that
 * the screens dispatch through.
 */
module SlotContext {
  import opened Options

  /** The seven values of `gameState`. */
  datatype Phase = TitleInput | Setup | SlotItemCount | Input | Ready | Playing | Result

  /** An item: its id, its text and an optional image (a data URL). */
  datatype Item = Item(id: int, text: string, image: Option<string>)

  datatype Slot = Slot(id: int, itemCount: nat, items: seq<Item>)

  datatype Session = Session(
    gameTitle: string,
    slotCount: nat,
    slots: seq<Slot>,
    gameState: Phase,
    currentSlotIndex: int,
    currentItemIndex: int,
    result: seq<Item>)

  /**
   * The `data` object merged into an item by `{ ...item, ...data }`: every
   * key it carries overrides the item's, every key it lacks is kept.
   * `image: Some(None)` is `{ image: null }`.
   */
  datatype ItemPatch = ItemPatch(id: Option<int>, text: Option<string>, image: Option<Option<string>>)

  /** The action types the reducer knows, and `Unknown` for any other type. */
  datatype Action =
    | SetGameTitle(title: string)
    | SetSlotCount(count: nat)
    | SetSlotItemCount(slotId: int, itemCount: nat)
    | StartInputPhase
    | UpdateSlotItem(slotId: int, itemId: int, data: ItemPatch)
    | SetCurrentInputPosition(slotIndex: int, itemIndex: int)
    | SetGameState(phase: Phase)
    | SetResult(items: seq<Item>)
    | Reset
    | Unknown(tag: string)

  const InitialState := Session("", 0, [], TitleInput, 0, 0, [])

  /** `k` items with ids 0..k-1, empty text and no image. */
  function BlankItems(k: nat): seq<Item> {
    seq(k, j => Item(j, "", None))
  }

  /** `n` slots with ids 0..n-1, no items yet. */
  function FreshSlots(n: nat): seq<Slot> {
    seq(n, i => Slot(i, 0, []))
  }

  function Reallocate(slot: Slot, k: nat): Slot {
    slot.(itemCount := k, items := BlankItems(k))
  }

  function Merge(item: Item, patch: ItemPatch): Item {
    Item(
      if patch.id.Some? then patch.id.value else item.id,
      if patch.text.Some? then patch.text.value else item.text,
      if patch.image.Some? then patch.image.value else item.image)
  }

  function SetItemCountOf(slots: seq<Slot>, slotId: int, k: nat): seq<Slot> {
    seq(|slots|, i requires 0 <= i < |slots| =>
      if slots[i].id == slotId then Reallocate(slots[i], k) else slots[i])
  }

  function PatchItems(items: seq<Item>, itemId: int, patch: ItemPatch): seq<Item> {
    seq(|items|, j requires 0 <= j < |items| =>
      if items[j].id == itemId then Merge(items[j], patch) else items[j])
  }

  function PatchSlots(slots: seq<Slot>, slotId: int, itemId: int, patch: ItemPatch): seq<Slot> {
    seq(|slots|, i requires 0 <= i < |slots| =>
      if slots[i].id == slotId then slots[i].(items := PatchItems(slots[i].items, itemId, patch)) else slots[i])
  }

  /** `slotReducer`. */
  function Reduce(s: Session, a: Action): Session {
    match a
    case SetGameTitle(t) => s.(gameTitle := t, gameState := Setup)
    case SetSlotCount(n) =>
      s.(slotCount := n, slots := FreshSlots(n),
         gameState := if n > 0 then SlotItemCount else Setup,
         currentSlotIndex := 0, currentItemIndex := 0)
    case SetSlotItemCount(id, k) => s.(slots := SetItemCountOf(s.slots, id, k))
    case StartInputPhase => s.(gameState := Input, currentSlotIndex := 0, currentItemIndex := 0)
    case UpdateSlotItem(sid, iid, patch) => s.(slots := PatchSlots(s.slots, sid, iid, patch))
    case SetCurrentInputPosition(si, ii) => s.(currentSlotIndex := si, currentItemIndex := ii)
    case SetGameState(p) => s.(gameState := p)
    case SetResult(items) => s.(result := items)
    case Reset => InitialState
    case Unknown(_) => s
  }

  // ---------------------------------------------------------------------
  // What each action does, stated as what changes and what stays.

  lemma ResetYieldsInitial(s: Session)
    ensures Reduce(s, Reset) == InitialState
    ensures var r := Reduce(s, Reset);
      r.gameTitle == "" && r.slotCount == 0 && r.slots == [] && r.gameState == TitleInput &&
      r.currentSlotIndex == 0 && r.currentItemIndex == 0 && r.result == []
  {
  }

  lemma UnknownActionIsNoOp(s: Session, tag: string)
    ensures Reduce(s, Unknown(tag)) == s
  {
  }

  lemma SetGameTitleEffect(s: Session, t: string)
    ensures var r := Reduce(s, SetGameTitle(t));
      r.gameTitle == t && r.gameState == Setup && r.(gameTitle := s.gameTitle, gameState := s.gameState) == s
  {
  }

  lemma SetSlotCountEffect(s: Session, n: nat)
    ensures var r := Reduce(s, SetSlotCount(n));
      r.slotCount == n && |r.slots| == n &&
      (forall i :: 0 <= i < n ==> r.slots[i].id == i && r.slots[i].itemCount == 0 && r.slots[i].items == []) &&
      r.currentSlotIndex == 0 && r.currentItemIndex == 0 &&
      (r.gameState == SlotItemCount <==> n > 0) && (n == 0 <==> r.gameState == Setup) &&
      r.gameTitle == s.gameTitle && r.result == s.result
  {
  }

  lemma SetSlotItemCountEffect(s: Session, slotId: int, k: nat)
    ensures var r := Reduce(s, SetSlotItemCount(slotId, k));
      |r.slots| == |s.slots| &&
      (forall i :: 0 <= i < |s.slots| && s.slots[i].id == slotId ==>
         r.slots[i].id == slotId && r.slots[i].itemCount == k && |r.slots[i].items| == k &&
         forall j :: 0 <= j < k ==> r.slots[i].items[j] == Item(j, "", None)) &&
      (forall i :: 0 <= i < |s.slots| && s.slots[i].id != slotId ==> r.slots[i] == s.slots[i]) &&
      r.(slots := s.slots) == s
  {
  }

  lemma StartInputPhaseEffect(s: Session)
    ensures var r := Reduce(s, StartInputPhase);
      r.gameState == Input && r.currentSlotIndex == 0 && r.currentItemIndex == 0 &&
      r.slots == s.slots && r.slotCount == s.slotCount && r.gameTitle == s.gameTitle && r.result == s.result
  {
  }

  lemma UpdateSlotItemEffect(s: Session, slotId: int, itemId: int, patch: ItemPatch)
    ensures var r := Reduce(s, UpdateSlotItem(slotId, itemId, patch));
      r.(slots := s.slots) == s && |r.slots| == |s.slots| &&
      (forall i :: 0 <= i < |s.slots| ==>
         r.slots[i].id == s.slots[i].id && r.slots[i].itemCount == s.slots[i].itemCount &&
         |r.slots[i].items| == |s.slots[i].items|) &&
      (forall i, j :: 0 <= i < |s.slots| && 0 <= j < |s.slots[i].items| ==>
         r.slots[i].items[j] ==
           if s.slots[i].id == slotId && s.slots[i].items[j].id == itemId
           then Merge(s.slots[i].items[j], patch) else s.slots[i].items[j])
  {
  }

  /** An update whose slot id or item id matches nothing leaves the session as it was. */
  lemma {:induction false} UpdateUnmatchedIsNoOp(s: Session, slotId: int, itemId: int, patch: ItemPatch)
    requires forall i, j :: 0 <= i < |s.slots| && s.slots[i].id == slotId && 0 <= j < |s.slots[i].items| ==>
      s.slots[i].items[j].id != itemId
    ensures Reduce(s, UpdateSlotItem(slotId, itemId, patch)) == s
  {
    var r := PatchSlots(s.slots, slotId, itemId, patch);
    forall i | 0 <= i < |s.slots| ensures r[i] == s.slots[i] {
      if s.slots[i].id == slotId {
        assert PatchItems(s.slots[i].items, itemId, patch) == s.slots[i].items;
      }
    }
    assert r == s.slots;
  }

  /** A merge that carries every field replaces the item outright. */
  lemma FullPatchReplaces(item: Item, x: Item)
    ensures Merge(item, ItemPatch(Some(x.id), Some(x.text), Some(x.image))) == x
  {
  }

  lemma SetCurrentInputPositionEffect(s: Session, si: int, ii: int)
    ensures var r := Reduce(s, SetCurrentInputPosition(si, ii));
      r.currentSlotIndex == si && r.currentItemIndex == ii &&
      r.(currentSlotIndex := s.currentSlotIndex, currentItemIndex := s.currentItemIndex) == s
  {
  }

  lemma SetGameStateEffect(s: Session, p: Phase)
    ensures var r := Reduce(s, SetGameState(p)); r.gameState == p && r.(gameState := s.gameState) == s
  {
  }

  lemma SetResultEffect(s: Session, items: seq<Item>)
    ensures var r := Reduce(s, SetResult(items)); r.result == items && r.(result := s.result) == s
  {
  }

  // ---------------------------------------------------------------------
  // The shape invariant: `slots.length == slotCount`, slot i has id i, each
  // slot holds exactly `itemCount` items and item j has id j.

  predicate IdsAreIndices(slots: seq<Slot>) {
    forall i :: 0 <= i < |slots| ==> slots[i].id == i
  }

  predicate ItemIdsAreIndices(items: seq<Item>) {
    forall j :: 0 <= j < |items| ==> items[j].id == j
  }

  predicate SlotWellFormed(slot: Slot, index: int) {
    slot.id == index && |slot.items| == slot.itemCount && ItemIdsAreIndices(slot.items)
  }

  predicate WellFormed(s: Session) {
    |s.slots| == s.slotCount && forall i :: 0 <= i < |s.slots| ==> SlotWellFormed(s.slots[i], i)
  }

  /** An action that does not rewrite an item's id to a different one. */
  predicate KeepsItemIds(a: Action) {
    a.UpdateSlotItem? ==> a.data.id.None? || a.data.id == Some(a.itemId)
  }

  lemma {:induction false} ReducePreservesWellFormed(s: Session, a: Action)
    requires WellFormed(s) && KeepsItemIds(a)
    ensures WellFormed(Reduce(s, a))
  {
    var r := Reduce(s, a);
    match a
    case SetSlotItemCount(id, k) =>
      forall i | 0 <= i < |r.slots| ensures SlotWellFormed(r.slots[i], i) {
        assert SlotWellFormed(s.slots[i], i);
      }
    case UpdateSlotItem(sid, iid, patch) =>
      forall i | 0 <= i < |r.slots| ensures SlotWellFormed(r.slots[i], i) {
        assert SlotWellFormed(s.slots[i], i);
        if s.slots[i].id == sid {
          var items := r.slots[i].items;
          forall j | 0 <= j < |items| ensures items[j].id == j {
            assert s.slots[i].items[j].id == j;
          }
        }
      }
    case _ =>
  }

  /** The `useReducer` handle: the current session and `dispatch`. */
  class Store {
    var state: Session

    constructor ()
      ensures state == InitialState
    {
      state := InitialState;
    }

    method Dispatch(a: Action)
      modifies this
      ensures state == Reduce(old(state), a)
    {
      state := Reduce(state, a);
    }
  }
}
