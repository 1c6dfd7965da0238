/**
 * The item-entry screen (src/components/SlotDataInput.jsx): a two-level
 * cursor (slot, item) walked by "next" and "previous", the progress counter,
 * the completion check, and the edits that address the item under the
 * cursor.  Each handler computes one action (or none) from the session and
 * dispatches it; nothing here keeps state of its own.
 */
module SlotDataInput {
  import opened Options
  import opened SlotContext

  datatype Cursor = Cursor(slotIndex: int, itemIndex: int)

  function CursorOf(s: Session): Cursor {
    Cursor(s.currentSlotIndex, s.currentItemIndex)
  }

  /** Dispatching a new input position, or nothing. */
  function MoveTo(s: Session, p: Option<Cursor>): Session {
    if p.Some? then Reduce(s, SetCurrentInputPosition(p.value.slotIndex, p.value.itemIndex)) else s
  }

  /**
   * The position `handleNext` dispatches, or `None` when it dispatches
   * nothing.  With no slot at the current index the handler throws before
   * dispatching, which also leaves the session as it was.
   */
  function NextPosition(s: Session): Option<Cursor> {
    var si, ii := s.currentSlotIndex, s.currentItemIndex;
    if !(0 <= si < |s.slots|) then None
    else if ii < s.slots[si].itemCount - 1 then Some(Cursor(si, ii + 1))
    else if si < s.slotCount - 1 then Some(Cursor(si + 1, 0))
    else None
  }

  /** The position `handlePrevious` dispatches, or `None`. */
  function PreviousPosition(s: Session): Option<Cursor> {
    var si, ii := s.currentSlotIndex, s.currentItemIndex;
    if ii > 0 then Some(Cursor(si, ii - 1))
    else if si > 0 then
      if si - 1 < |s.slots| then Some(Cursor(si - 1, s.slots[si - 1].itemCount - 1)) else None
    else None
  }

  function HandleNext(s: Session): Session {
    MoveTo(s, NextPosition(s))
  }

  function HandlePrevious(s: Session): Session {
    MoveTo(s, PreviousPosition(s))
  }

  /** `isLastItem`: with no current slot, `undefined - 1` is NaN and the comparison fails. */
  predicate IsLastItem(s: Session) {
    var si := s.currentSlotIndex;
    si == s.slotCount - 1 && 0 <= si < |s.slots| && s.currentItemIndex == s.slots[si].itemCount - 1
  }

  predicate IsFirstItem(s: Session) {
    s.currentSlotIndex == 0 && s.currentItemIndex == 0
  }

  /** The cursor addresses an existing slot and one of its `itemCount` positions. */
  predicate InBounds(s: Session) {
    0 <= s.currentSlotIndex < |s.slots| && 0 <= s.currentItemIndex < s.slots[s.currentSlotIndex].itemCount
  }

  /** Every slot has at least one item. */
  predicate SlotsHaveItems(slots: seq<Slot>) {
    forall k :: 0 <= k < |slots| ==> slots[k].itemCount > 0
  }

  /** The shape the input phase is meant to run in: one slot per count, none of them empty. */
  predicate InputShape(s: Session) {
    s.slotCount == |s.slots| && SlotsHaveItems(s.slots)
  }

  // ---------------------------------------------------------------------
  // Next and previous.

  lemma NextCases(s: Session)
    requires InBounds(s) && s.slotCount == |s.slots|
    ensures var si, ii, c := s.currentSlotIndex, s.currentItemIndex, s.slots[s.currentSlotIndex].itemCount;
      (ii < c - 1 ==> NextPosition(s) == Some(Cursor(si, ii + 1))) &&
      (ii == c - 1 && si < |s.slots| - 1 ==> NextPosition(s) == Some(Cursor(si + 1, 0))) &&
      (ii == c - 1 && si == |s.slots| - 1 ==> NextPosition(s) == None)
  {
  }

  lemma PreviousCases(s: Session)
    requires InBounds(s)
    ensures var si, ii := s.currentSlotIndex, s.currentItemIndex;
      (ii > 0 ==> PreviousPosition(s) == Some(Cursor(si, ii - 1))) &&
      (ii == 0 && si > 0 ==> PreviousPosition(s) == Some(Cursor(si - 1, s.slots[si - 1].itemCount - 1))) &&
      (ii == 0 && si == 0 ==> PreviousPosition(s) == None)
  {
  }

  /** The "next" button is a no-op exactly on the last item, "previous" exactly on the first. */
  lemma LastAndFirstItem(s: Session)
    requires InBounds(s) && s.slotCount == |s.slots|
    ensures IsLastItem(s) <==> NextPosition(s).None?
    ensures IsFirstItem(s) <==> PreviousPosition(s).None?
  {
  }

  /** The handlers move only the cursor. */
  lemma MovesOnlyTheCursor(s: Session)
    ensures HandleNext(s).(currentSlotIndex := s.currentSlotIndex, currentItemIndex := s.currentItemIndex) == s
    ensures HandlePrevious(s).(currentSlotIndex := s.currentSlotIndex, currentItemIndex := s.currentItemIndex) == s
    ensures NextPosition(s).Some? ==> CursorOf(HandleNext(s)) == NextPosition(s).value
    ensures NextPosition(s).None? ==> HandleNext(s) == s
    ensures PreviousPosition(s).Some? ==> CursorOf(HandlePrevious(s)) == PreviousPosition(s).value
    ensures PreviousPosition(s).None? ==> HandlePrevious(s) == s
  {
  }

  lemma NextKeepsInBounds(s: Session)
    requires InBounds(s) && InputShape(s)
    ensures InBounds(HandleNext(s))
  {
  }

  lemma PreviousKeepsInBounds(s: Session)
    requires InBounds(s) && InputShape(s)
    ensures InBounds(HandlePrevious(s))
  {
  }

  /** "Previous" undoes a "next" that moved. */
  lemma PreviousUndoesNext(s: Session)
    requires InBounds(s) && InputShape(s) && NextPosition(s).Some?
    ensures HandlePrevious(HandleNext(s)) == s
  {
  }

  /** "Next" undoes a "previous" that moved. */
  lemma NextUndoesPrevious(s: Session)
    requires InBounds(s) && InputShape(s) && PreviousPosition(s).Some?
    ensures HandleNext(HandlePrevious(s)) == s
  {
  }

  // ---------------------------------------------------------------------
  // Progress: `totalItems` and `completedItems`, both `reduce` over the slots.

  function TotalItems(slots: seq<Slot>): nat {
    if |slots| == 0 then 0 else TotalItems(slots[..|slots| - 1]) + slots[|slots| - 1].itemCount
  }

  /** Slots before the cursor count whole, the cursor's slot counts up to the item index. */
  function CompletedItems(slots: seq<Slot>, si: int, ii: int): int {
    if |slots| == 0 then 0
    else
      var k := |slots| - 1;
      CompletedItems(slots[..k], si, ii) + (if k < si then slots[k].itemCount else if k == si then ii else 0)
  }

  function Progress(s: Session): int {
    CompletedItems(s.slots, s.currentSlotIndex, s.currentItemIndex)
  }

  lemma {:induction false} TotalItemsAppend(a: seq<Slot>, b: seq<Slot>)
    ensures TotalItems(a + b) == TotalItems(a) + TotalItems(b)
    decreases |b|
  {
    if |b| == 0 {
      assert a + b == a;
    } else {
      assert (a + b)[..|a + b| - 1] == a + b[..|b| - 1];
      TotalItemsAppend(a, b[..|b| - 1]);
    }
  }

  lemma {:induction false} CompletedBeforeCursor(slots: seq<Slot>, si: int, ii: int)
    requires |slots| <= si
    ensures CompletedItems(slots, si, ii) == TotalItems(slots)
  {
    if |slots| > 0 {
      CompletedBeforeCursor(slots[..|slots| - 1], si, ii);
    }
  }

  /** The progress counter is the cursor's position in the flattened slot/item grid. */
  lemma {:induction false} ProgressIsFlatIndex(slots: seq<Slot>, si: int, ii: int)
    requires 0 <= si < |slots|
    ensures CompletedItems(slots, si, ii) == TotalItems(slots[..si]) + ii
  {
    var k := |slots| - 1;
    if k == si {
      CompletedBeforeCursor(slots[..k], si, ii);
    } else {
      assert slots[..k][..si] == slots[..si];
      ProgressIsFlatIndex(slots[..k], si, ii);
    }
  }

  /** With the cursor in bounds, progress runs from 0 up to, but not reaching, the total. */
  lemma ProgressBounds(s: Session)
    requires InBounds(s)
    ensures 0 <= Progress(s) < TotalItems(s.slots)
  {
    var slots, si := s.slots, s.currentSlotIndex;
    ProgressIsFlatIndex(slots, si, s.currentItemIndex);
    assert slots == slots[..si] + ([slots[si]] + slots[si + 1..]);
    TotalItemsAppend(slots[..si], [slots[si]] + slots[si + 1..]);
    TotalItemsAppend([slots[si]], slots[si + 1..]);
    assert TotalItems([slots[si]]) == slots[si].itemCount by {
      assert [slots[si]][..0] == [];
    }
  }

  /** A "next" that moves advances the progress by exactly one. */
  lemma NextAdvancesProgress(s: Session)
    requires InBounds(s) && InputShape(s) && NextPosition(s).Some?
    ensures Progress(HandleNext(s)) == Progress(s) + 1
  {
    var slots, si, ii := s.slots, s.currentSlotIndex, s.currentItemIndex;
    ProgressIsFlatIndex(slots, si, ii);
    var p := NextPosition(s).value;
    ProgressIsFlatIndex(slots, p.slotIndex, p.itemIndex);
    if p.slotIndex == si + 1 {
      assert slots[..si + 1][..si] == slots[..si];
    }
  }

  /** A "previous" that moves takes the progress back by exactly one. */
  lemma PreviousRetreatsProgress(s: Session)
    requires InBounds(s) && InputShape(s) && PreviousPosition(s).Some?
    ensures Progress(HandlePrevious(s)) == Progress(s) - 1
  {
    NextUndoesPrevious(s);
    PreviousKeepsInBounds(s);
    NextAdvancesProgress(HandlePrevious(s));
  }

  // ---------------------------------------------------------------------
  // Completion: every item needs text that is not blank after `trim()`, or an image.

  /** The characters `String.prototype.trim` removes: white space and line terminators. */
  predicate IsJsWhiteSpace(c: char) {
    c == '\t' || c == '\n' || c == '\U{B}' || c == '\U{C}' || c == '\r' || c == ' ' ||
    c == '\U{A0}' || c == '\U{1680}' || ('\U{2000}' <= c <= '\U{200A}') ||
    c == '\U{2028}' || c == '\U{2029}' || c == '\U{202F}' || c == '\U{205F}' ||
    c == '\U{3000}' || c == '\U{FEFF}'
  }

  /** Drops leading white space: what is left is a suffix that starts with a non-blank character. */
  function TrimStart(t: string): (r: string)
    ensures |r| <= |t| && r == t[|t| - |r|..]
    ensures forall k :: 0 <= k < |t| - |r| ==> IsJsWhiteSpace(t[k])
    ensures r != [] ==> !IsJsWhiteSpace(r[0])
  {
    if |t| > 0 && IsJsWhiteSpace(t[0]) then TrimStart(t[1..]) else t
  }

  /** Drops trailing white space: what is left is a prefix that ends with a non-blank character. */
  function TrimEnd(t: string): (r: string)
    ensures |r| <= |t| && r == t[..|r|]
    ensures forall k :: |r| <= k < |t| ==> IsJsWhiteSpace(t[k])
    ensures r != [] ==> !IsJsWhiteSpace(r[|r| - 1])
  {
    if |t| > 0 && IsJsWhiteSpace(t[|t| - 1]) then TrimEnd(t[..|t| - 1]) else t
  }

  function Trim(t: string): string {
    TrimEnd(TrimStart(t))
  }

  /** `text.trim() !== ''` holds exactly when the text has a character that is not white space. */
  lemma TrimNonEmptyIff(t: string)
    ensures Trim(t) != "" <==> exists k :: 0 <= k < |t| && !IsJsWhiteSpace(t[k])
  {
    var u := TrimStart(t);
    var off := |t| - |u|;
    if Trim(t) != "" {
      var r := Trim(t);
      assert r[0] == u[0] == t[off];
    } else {
      forall k | 0 <= k < |t| ensures IsJsWhiteSpace(t[k]) {
        if k >= off {
          assert t[k] == u[k - off];
        }
      }
    }
  }

  predicate ItemFilled(item: Item) {
    Trim(item.text) != "" || item.image.Some?
  }

  predicate AllItemsFilled(slots: seq<Slot>) {
    forall i, j :: 0 <= i < |slots| && 0 <= j < |slots[i].items| ==> ItemFilled(slots[i].items[j])
  }

  /** `handleComplete`: the phase becomes `ready` if every item is filled; otherwise nothing is dispatched. */
  function HandleComplete(s: Session): Session {
    if AllItemsFilled(s.slots) then Reduce(s, SetGameState(Ready)) else s
  }

  lemma HandleCompleteEffect(s: Session)
    ensures AllItemsFilled(s.slots) ==> HandleComplete(s) == s.(gameState := Ready)
    ensures !AllItemsFilled(s.slots) ==> HandleComplete(s) == s
  {
  }

  /** An item counts as filled exactly when its text has a non-blank character or it has an image. */
  lemma ItemFilledIff(item: Item)
    ensures ItemFilled(item) <==>
      (exists k :: 0 <= k < |item.text| && !IsJsWhiteSpace(item.text[k])) || item.image.Some?
  {
    TrimNonEmptyIff(item.text);
  }

  // ---------------------------------------------------------------------
  // Edits: each addresses the item under the cursor and sets one field.

  function TextChange(s: Session, text: string): Session {
    Reduce(s, UpdateSlotItem(s.currentSlotIndex, s.currentItemIndex, ItemPatch(None, Some(text), None)))
  }

  /**
   * The `onload` of an accepted image file, with its decoded data URL.  The
   * handler closes over the session of the render in which the file was
   * chosen, so it addresses the cursor `at` of that render, which need not
   * be the cursor of `s`, the session when the read finishes.
   */
  function ImageLoaded(s: Session, at: Cursor, dataUrl: string): Session {
    Reduce(s, UpdateSlotItem(at.slotIndex, at.itemIndex, ItemPatch(None, None, Some(Some(dataUrl)))))
  }

  function RemoveImage(s: Session): Session {
    Reduce(s, UpdateSlotItem(s.currentSlotIndex, s.currentItemIndex, ItemPatch(None, None, Some(None))))
  }

  /** `at` addresses an existing slot and one of its `itemCount` positions. */
  predicate Addresses(s: Session, at: Cursor) {
    0 <= at.slotIndex < |s.slots| && 0 <= at.itemIndex < s.slots[at.slotIndex].itemCount
  }

  /**
   * In a well-formed session, an edit addressed to an existing position
   * changes the item there by the patch and nothing else.
   */
  lemma EditAt(s: Session, at: Cursor, patch: ItemPatch)
    requires WellFormed(s) && Addresses(s, at) && patch.id.None?
    ensures var r := Reduce(s, UpdateSlotItem(at.slotIndex, at.itemIndex, patch));
      var si, ii := at.slotIndex, at.itemIndex;
      WellFormed(r) && r.(slots := s.slots) == s &&
      r.slots == s.slots[si := s.slots[si].(items := s.slots[si].items[ii := Merge(s.slots[si].items[ii], patch)])]
  {
    var si, ii := at.slotIndex, at.itemIndex;
    ReducePreservesWellFormed(s, UpdateSlotItem(si, ii, patch));
    var r := Reduce(s, UpdateSlotItem(si, ii, patch));
    assert SlotWellFormed(s.slots[si], si);
    assert PatchItems(s.slots[si].items, ii, patch) == s.slots[si].items[ii := Merge(s.slots[si].items[ii], patch)];
    forall i | 0 <= i < |s.slots| && i != si ensures r.slots[i] == s.slots[i] {
      assert SlotWellFormed(s.slots[i], i);
    }
  }

  /** An edit at the session's own cursor changes the item under the cursor and nothing else. */
  lemma EditAtCursor(s: Session, patch: ItemPatch)
    requires WellFormed(s) && InBounds(s) && patch.id.None?
    ensures var r := Reduce(s, UpdateSlotItem(s.currentSlotIndex, s.currentItemIndex, patch));
      var si, ii := s.currentSlotIndex, s.currentItemIndex;
      WellFormed(r) && r.(slots := s.slots) == s &&
      r.slots == s.slots[si := s.slots[si].(items := s.slots[si].items[ii := Merge(s.slots[si].items[ii], patch)])]
  {
    EditAt(s, CursorOf(s), patch);
  }

  lemma TextChangeSetsText(s: Session, text: string)
    requires WellFormed(s) && InBounds(s)
    ensures var si, ii := s.currentSlotIndex, s.currentItemIndex;
      var item := s.slots[si].items[ii];
      TextChange(s, text) == s.(slots := s.slots[si := s.slots[si].(items := s.slots[si].items[ii := item.(text := text)])])
  {
    EditAtCursor(s, ItemPatch(None, Some(text), None));
  }

  /** The loaded image becomes the image of the item the file was chosen for, and nothing else changes. */
  lemma ImageLoadedSetsImage(s: Session, at: Cursor, dataUrl: string)
    requires WellFormed(s) && Addresses(s, at)
    ensures var si, ii := at.slotIndex, at.itemIndex;
      var item := s.slots[si].items[ii];
      ImageLoaded(s, at, dataUrl) ==
        s.(slots := s.slots[si := s.slots[si].(items := s.slots[si].items[ii := item.(image := Some(dataUrl))])])
  {
    EditAt(s, at, ItemPatch(None, None, Some(Some(dataUrl))));
  }

  /**
   * Moving on with "next" while the file is being read does not redirect the
   * image: it lands on the item that was under the cursor when the file was
   * chosen, and the cursor stays where "next" put it.
   */
  lemma ImageFollowsChosenItem(s0: Session, dataUrl: string)
    requires WellFormed(s0) && InBounds(s0)
    ensures var s1, si, ii := HandleNext(s0), s0.currentSlotIndex, s0.currentItemIndex;
      var r := ImageLoaded(s1, CursorOf(s0), dataUrl);
      r.slots[si].items[ii].image == Some(dataUrl) && CursorOf(r) == CursorOf(s1) &&
      r.slots == s0.slots[si := s0.slots[si].(items := s0.slots[si].items[ii := s0.slots[si].items[ii].(image := Some(dataUrl))])]
  {
    var s1 := HandleNext(s0);
    MovesOnlyTheCursor(s0);
    assert s1.slots == s0.slots;
    ImageLoadedSetsImage(s1, CursorOf(s0), dataUrl);
  }

  lemma RemoveImageClearsImage(s: Session)
    requires WellFormed(s) && InBounds(s)
    ensures var si, ii := s.currentSlotIndex, s.currentItemIndex;
      var item := s.slots[si].items[ii];
      RemoveImage(s) == s.(slots := s.slots[si := s.slots[si].(items := s.slots[si].items[ii := item.(image := None)])])
  {
    EditAtCursor(s, ItemPatch(None, None, Some(None)));
  }
}
