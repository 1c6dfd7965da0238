/**
 * The result screen's buttons (src/components/ResultScreen.jsx): each is a
 * fixed composition of reducer actions, so each is a derived edge of the
 * session state machine.
 */
module ResultScreen {
  import opened SlotContext

  /** "Play again": back to `ready`, result cleared. */
  function PlayAgain(s: Session): Session {
    Reduce(Reduce(s, SetGameState(Ready)), SetResult([]))
  }

  /** "Edit": back to the item-count screen, result cleared. */
  function EditSlots(s: Session): Session {
    Reduce(Reduce(s, SetGameState(SlotItemCount)), SetResult([]))
  }

  /** "New game": the reset action. */
  function StartNewGame(s: Session): Session {
    Reduce(s, Reset)
  }

  /** Play again ends in `ready` with no result and keeps everything else. */
  lemma PlayAgainEdge(s: Session)
    ensures var r := PlayAgain(s);
      r.gameState == Ready && r.result == [] &&
      r.gameTitle == s.gameTitle && r.slotCount == s.slotCount && r.slots == s.slots &&
      r.currentSlotIndex == s.currentSlotIndex && r.currentItemIndex == s.currentItemIndex
  {
  }

  /** Edit ends in `slotItemCount` with no result and keeps everything else. */
  lemma EditSlotsEdge(s: Session)
    ensures var r := EditSlots(s);
      r.gameState == SlotItemCount && r.result == [] &&
      r.gameTitle == s.gameTitle && r.slotCount == s.slotCount && r.slots == s.slots &&
      r.currentSlotIndex == s.currentSlotIndex && r.currentItemIndex == s.currentItemIndex
  {
  }

  /** New game yields the initial session, whatever came before. */
  lemma StartNewGameIsInitial(s: Session)
    ensures StartNewGame(s) == InitialState
    ensures StartNewGame(s).gameState == TitleInput && StartNewGame(s).slots == [] && StartNewGame(s).result == []
  {
  }

  /** The two dispatches of each composition touch disjoint fields, so their order does not matter. */
  lemma PhaseAndResultCommute(s: Session, p: Phase, items: seq<Item>)
    ensures Reduce(Reduce(s, SetGameState(p)), SetResult(items)) == Reduce(Reduce(s, SetResult(items)), SetGameState(p))
  {
  }

  /** Pressing either button twice is the same as pressing it once. */
  lemma EdgesAreIdempotent(s: Session)
    ensures PlayAgain(PlayAgain(s)) == PlayAgain(s)
    ensures EditSlots(EditSlots(s)) == EditSlots(s)
  {
  }

  /** The edges keep the session's shape invariant. */
  lemma EdgesKeepWellFormed(s: Session)
    requires WellFormed(s)
    ensures WellFormed(PlayAgain(s)) && WellFormed(EditSlots(s)) && WellFormed(StartNewGame(s))
  {
  }
}
