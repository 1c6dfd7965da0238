# Slot machine session model

A Dafny model of the session logic of a "slot machine" picker. The user names a
game, chooses a number of slots (reels), gives each slot a number of items, fills
in each item with text and/or an image, and spins. Each slot then shows one
randomly chosen item.

The model covers:

- **The session reducer** (`SlotContext`): the session record (title, slot count, slots
  with their items, phase, input cursor, result), every action of `slotReducer` as a
  pure function `Reduce`, the initial value, and the `useReducer` handle as a `Store`
  class. The shape invariant holds that `slots.length == slotCount`, slot `i` has id `i`,
  a slot has exactly `itemCount` items and item `j` has id `j`. It is proved to survive
  every action that does not rewrite an item's id.
- **Restore on load** (`SlotRestore`): the guard (a non-empty title and a positive slot
  count), the phase normalisation (`result` or missing becomes `ready`), and the replay
  loop that dispatches the stored slots and items. `Restore` is proved equal to a fold
  (`Load`) over the list of actions it dispatches. A round-trip lemma shows that a
  well-formed session loads back with its title, slot count and slots intact.
- **The item-entry screen** (`SlotDataInput`): "next" and "previous" over the two-level
  cursor, the progress counter, the `isLastItem` and `isFirstItem` flags, the completion
  check with JavaScript's `trim`, and the text and image edits at the cursor.
- **The item-count screen** (`SlotItemCountSetup`): the local counts as a class, the
  custom-count clamp, the preset counts, the displayed total and the start guard.
- **The spin** (`SlotGame`): the per-slot pick `floor(r * length)`, the result built
  from the picks, and the stop delays `1500 + 800 i + 500 r`. The screen is a class
  with `isSpinning`, `spinningSlots` and `finalResults`; the spin, reveal and settle
  callbacks are its methods.
- **The result screen** (`ResultScreen`): "play again", "edit" and "new game" as fixed
  compositions of reducer actions.

`Math.random()` values are parameters: reals in [0, 1). Timers are data. `StartSpin`
returns the reveals it schedules, and `Reveal` returns the settle step it schedules.
The model does not run a clock.

## Model

| member | source | states |
|---|---|---|
| `SlotContext.ResetYieldsInitial` | src/contexts/SlotContext.jsx:100-101 | `RESET` yields the initial session: empty title, no slots, `titleInput`, cursor (0,0), empty result |
| `SlotContext.UnknownActionIsNoOp` | src/contexts/SlotContext.jsx:103-104 | an unrecognised action type returns the session unchanged |
| `SlotContext.SetGameTitleEffect` | src/contexts/SlotContext.jsx:17-22 | the title is set, the phase becomes `setup`, nothing else changes |
| `SlotContext.SetSlotCountEffect` | src/contexts/SlotContext.jsx:24-36 | exactly n slots, slot i with id i, count 0 and no items; cursor (0,0); phase `slotItemCount` iff n > 0, `setup` iff n = 0; title and result kept |
| `SlotContext.SetSlotItemCountEffect` | src/contexts/SlotContext.jsx:38-54 | the slot with that id gets count k and exactly k blank items (id j, empty text, no image); every other slot and every other field is unchanged |
| `SlotContext.StartInputPhaseEffect` | src/contexts/SlotContext.jsx:56-62 | phase `input`, cursor (0,0), slots, title and result untouched |
| `SlotContext.UpdateSlotItemEffect` | src/contexts/SlotContext.jsx:64-79 | only items whose slot id and item id both match are merged with the patch; slot ids, counts and item counts are unchanged, and so is everything outside the slots |
| `SlotContext.UpdateUnmatchedIsNoOp` | src/contexts/SlotContext.jsx:64-79 | an update whose ids match no item leaves the session unchanged |
| `SlotContext.FullPatchReplaces` | src/contexts/SlotContext.jsx:73 | merging an object that carries every item field replaces the item with it |
| `SlotContext.SetCurrentInputPositionEffect` | src/contexts/SlotContext.jsx:81-86 | only the cursor changes, to the given position |
| `SlotContext.SetGameStateEffect` | src/contexts/SlotContext.jsx:88-92 | only the phase changes |
| `SlotContext.SetResultEffect` | src/contexts/SlotContext.jsx:94-98 | only the result changes |
| `SlotContext.ReducePreservesWellFormed` | src/contexts/SlotContext.jsx:15-106 | every action that does not rewrite an item's id keeps `slots.length == slotCount`, ids equal to positions and `items.length == itemCount` |
| `SlotContext.Store.constructor` | src/contexts/SlotContext.jsx:109 | the store starts at the initial session |
| `SlotContext.Store.Dispatch` | src/contexts/SlotContext.jsx:109 | dispatching replaces the state by the reducer's result |
| `SlotRestore.NormalizePhase` | src/contexts/SlotContext.jsx:140 | the restored phase is never `result`; it is `ready` exactly when the stored phase is `result`, `ready` or missing, and otherwise the stored phase |
| `SlotRestore.RejectedSnapshotChangesNothing` | src/contexts/SlotContext.jsx:117 | without a non-empty title and a positive slot count nothing is dispatched |
| `SlotRestore.Restore` | src/contexts/SlotContext.jsx:117-141 | the load effect's dispatches give the session `Load` describes: the guard, title, slot count, each slot's count and items in order, then the normalised phase |
| `SlotRestore.RestoreSlot` | src/contexts/SlotContext.jsx:122-137 | one pass of the outer loop dispatches the slot's count and then one update per stored item, in order |
| `SlotRestore.AcceptedSnapshotFields` | src/contexts/SlotContext.jsx:117-141 | an accepted snapshot restores title, slot count and normalised phase, has `slotCount` slots, resets the cursor and keeps the running result |
| `SlotRestore.RestoreOneSlot` | src/contexts/SlotContext.jsx:122-137 | when slot ids are positions, replaying one well-formed stored slot puts exactly that slot at its index |
| `SlotRestore.RoundTrip` | src/contexts/SlotContext.jsx:117-141 | a well-formed session with a title and slots, saved and loaded back, has the same title, slot count and slots; phase normalised, cursor (0,0), result that of the loading session |
| `SlotDataInput.NextCases` | src/components/SlotDataInput.jsx:79-99 | inside a slot next advances the item; on a slot's last item it moves to (slot+1, 0); on the very last item it dispatches nothing |
| `SlotDataInput.PreviousCases` | src/components/SlotDataInput.jsx:101-122 | previous decrements the item; at item 0 of slot s > 0 it moves to (s-1, itemCount(s-1)-1); at (0,0) it dispatches nothing |
| `SlotDataInput.LastAndFirstItem` | src/components/SlotDataInput.jsx:136-138 | with the cursor in bounds, `isLastItem` holds iff next does nothing and `isFirstItem` iff previous does nothing |
| `SlotDataInput.MovesOnlyTheCursor` | src/components/SlotDataInput.jsx:79-122 | next and previous change only the cursor, to the position they compute, and change nothing when they do not dispatch |
| `SlotDataInput.NextKeepsInBounds` | src/components/SlotDataInput.jsx:79-99 | with every slot non-empty and the cursor in bounds, next leaves the cursor in bounds |
| `SlotDataInput.PreviousKeepsInBounds` | src/components/SlotDataInput.jsx:101-122 | with every slot non-empty and the cursor in bounds, previous leaves the cursor in bounds |
| `SlotDataInput.PreviousUndoesNext` | src/components/SlotDataInput.jsx:79-122 | previous after a next that moved restores the session |
| `SlotDataInput.NextUndoesPrevious` | src/components/SlotDataInput.jsx:79-122 | next after a previous that moved restores the session |
| `SlotDataInput.ProgressIsFlatIndex` | src/components/SlotDataInput.jsx:14-21 | `completedItems` is the sum of the counts of the slots before the cursor plus the item index |
| `SlotDataInput.ProgressBounds` | src/components/SlotDataInput.jsx:13-21 | with the cursor in bounds, 0 <= `completedItems` < `totalItems` |
| `SlotDataInput.NextAdvancesProgress` | src/components/SlotDataInput.jsx:79-99 | a next that moves raises the progress by exactly one |
| `SlotDataInput.PreviousRetreatsProgress` | src/components/SlotDataInput.jsx:101-122 | a previous that moves lowers the progress by exactly one |
| `SlotDataInput.TrimStart` | src/components/SlotDataInput.jsx:126 | the leading white space is removed: the rest is a suffix starting with a non-blank character |
| `SlotDataInput.TrimEnd` | src/components/SlotDataInput.jsx:126 | the trailing white space is removed: the rest is a prefix ending with a non-blank character |
| `SlotDataInput.TrimNonEmptyIff` | src/components/SlotDataInput.jsx:126 | `text.trim() !== ''` iff the text has a character that is not JavaScript white space |
| `SlotDataInput.ItemFilledIff` | src/components/SlotDataInput.jsx:125-127 | an item is complete iff its text has a non-blank character or it has an image |
| `SlotDataInput.HandleCompleteEffect` | src/components/SlotDataInput.jsx:124-134 | if every item is complete only the phase changes, to `ready`; otherwise the session is unchanged |
| `SlotDataInput.EditAt` | src/components/SlotDataInput.jsx:51-60 | in a well-formed session, an edit addressed to an existing position changes only the item there, by the patch, and keeps the session well-formed |
| `SlotDataInput.EditAtCursor` | src/components/SlotDataInput.jsx:23-31 | in a well-formed session with the cursor in bounds, an edit changes only the item under the cursor, by the patch, and keeps the session well-formed |
| `SlotDataInput.TextChangeSetsText` | src/components/SlotDataInput.jsx:23-32 | a text edit sets the text of the item under the cursor and nothing else |
| `SlotDataInput.ImageLoadedSetsImage` | src/components/SlotDataInput.jsx:51-60 | a loaded image becomes the image of the item the cursor was on when the file was chosen, and nothing else changes |
| `SlotDataInput.ImageFollowsChosenItem` | src/components/SlotDataInput.jsx:34-60 | if "next" is pressed while the file is read, the image still lands on the item chosen for it, and the cursor stays where "next" put it |
| `SlotDataInput.RemoveImageClearsImage` | src/components/SlotDataInput.jsx:213-221 | removing the image clears the image of the item under the cursor and nothing else |
| `SlotItemCountSetup.ClampCustomCount` | src/components/SlotItemCountSetup.jsx:65 | the custom count is always in [1,20]; a value in range is kept, a larger one becomes 20, NaN, 0 or a negative value becomes 1 |
| `SlotItemCountSetup.ClampIsIdempotent` | src/components/SlotItemCountSetup.jsx:65 | clamping a clamped count changes nothing |
| `SlotItemCountSetup.PresetsWithinClamp` | src/components/SlotItemCountSetup.jsx:48 | the preset buttons pass counts from 1 to 6, each unchanged by the clamp |
| `SlotItemCountSetup.InitialCountsFacts` | src/components/SlotItemCountSetup.jsx:6-8 | the local counts start with one entry of 3 per slot, all positive, total 3 per slot |
| `SlotItemCountSetup.TotalAfterUpdate` | src/components/SlotItemCountSetup.jsx:87 | the displayed total changes by exactly the difference when one count is changed |
| `SlotItemCountSetup.PositiveTotalAtLeastLength` | src/components/SlotItemCountSetup.jsx:87 | when every count is positive the total is at least the number of slots |
| `SlotItemCountSetup.CountSetup.constructor` | src/components/SlotItemCountSetup.jsx:6-8 | the screen mounts with one default count per session slot |
| `SlotItemCountSetup.CountSetup.UpdateItemCount` | src/components/SlotItemCountSetup.jsx:10-22 | only entry i of the local counts changes, and `SET_SLOT_ITEM_COUNT` is dispatched for the same slot and count |
| `SlotItemCountSetup.CountSetup.StartInputPhase` | src/components/SlotItemCountSetup.jsx:24-33 | `START_INPUT_PHASE` is dispatched iff every local count is positive; otherwise the session is unchanged |
| `SlotItemCountSetup.AsWrittenGuardAdmitsEmptySlots` | src/components/SlotItemCountSetup.jsx:24-33 | right after the slot count is set, the guard passes on the default local counts while every session slot has no items, and input starts with the cursor out of bounds |
| `SlotItemCountSetup.CountSetup.StartInputPhaseChecked` | src/components/SlotItemCountSetup.jsx:24-33 | corrected guard: `START_INPUT_PHASE` is dispatched iff every session slot has an item |
| `SlotItemCountSetup.CheckedGuardEstablishesInputShape` | src/components/SlotItemCountSetup.jsx:24-33 | after the corrected guard the session is in `input` with the cursor in bounds and no empty slot |
| `SlotGame.PickIndex` | src/components/SlotGame.jsx:24 | for a slot with at least one item, `floor(r * length)` with r in [0,1) lies in [0, length) |
| `SlotGame.PickIndexPreimage` | src/components/SlotGame.jsx:24 | the pick is uniform: index k is chosen exactly when r lies in [k/length, (k+1)/length), an interval of the same width 1/length for every index |
| `SlotGame.Draw` | src/components/SlotGame.jsx:23-26 | one outcome per slot; outcome i is the item of slot i at an index within that slot |
| `SlotGame.DrawResultMembers` | src/components/SlotGame.jsx:23-26 | the stored result has one entry per slot and entry i is a member of slot i's items |
| `SlotGame.EveryChoiceReachable` | src/components/SlotGame.jsx:23-26 | every choice of one index per slot is produced by some random values |
| `SlotGame.TwoSlotOutcomes` | src/components/SlotGame.jsx:23-26 | with items A, B and C, D, every spin stores one of the pairs AC, AD, BC, BD |
| `SlotGame.StopDelay` | src/components/SlotGame.jsx:30 | slot i stops at a delay in [1500 + 800 i, 2000 + 800 i) |
| `SlotGame.StopDelaysIncrease` | src/components/SlotGame.jsx:29-30 | stop delays strictly increase with the slot index, whatever the jitter |
| `SlotGame.ScheduleOrder` | src/components/SlotGame.jsx:29-56 | reveals fire in slot order, only the last slot's reveal schedules the settle step, and that step comes after every reveal |
| `SlotGame.Assign` | src/components/SlotGame.jsx:33-43 | writing one index of a copied array changes that position only; an index past the end extends the array with holes |
| `SlotGame.RevealedPrefix` | src/components/SlotGame.jsx:32-43 | after the first k reveals exactly slots 0..k-1 have stopped and show their outcomes |
| `SlotGame.AllRevealedBeforeSettle` | src/components/SlotGame.jsx:32-53 | once every reveal has fired, no reel spins and the shown results are exactly the outcomes |
| `SlotGame.PlayAgainThenSpin` | src/components/SlotGame.jsx:15-16 | a spin clears the result and enters `playing`; doing "play again" first makes no difference |
| `SlotGame.SlotMachine.constructor` | src/components/SlotGame.jsx:6-8 | not spinning, no reel state, no shown results |
| `SlotGame.SlotMachine.StartSpin` | src/components/SlotGame.jsx:10-57 | while spinning nothing happens; otherwise spinning is set, shown results cleared, session result cleared and phase `playing`, every reel spinning, and one reveal scheduled per slot with the drawn outcome and its stop delay |
| `SlotGame.SlotMachine.Reveal` | src/components/SlotGame.jsx:32-55 | only position `slotIndex` of the reel flags (to false) and of the shown results (to the outcome) change; the settle step, 500 ms later with all drawn items, is scheduled iff this is the last slot |
| `SlotGame.SlotMachine.Settle` | src/components/SlotGame.jsx:47-53 | the drawn items become the session result and the spin ends |
| `SlotGame.SlotMachine.EditSlots` | src/components/SlotGame.jsx:63-66 | the phase becomes `slotItemCount` and the result is cleared |
| `SlotGame.SlotMachine.ResetGame` | src/components/SlotGame.jsx:59-61 | the session returns to its initial value |
| `ResultScreen.PlayAgainEdge` | src/components/ResultScreen.jsx:6-9 | play again ends in `ready` with an empty result; title, slot count, slots and cursor unchanged |
| `ResultScreen.EditSlotsEdge` | src/components/ResultScreen.jsx:11-14 | edit ends in `slotItemCount` with an empty result; title, slot count, slots and cursor unchanged |
| `ResultScreen.StartNewGameIsInitial` | src/components/ResultScreen.jsx:16-18 | new game yields exactly the initial session |
| `ResultScreen.PhaseAndResultCommute` | src/components/ResultScreen.jsx:6-14 | the two dispatches of play again and edit commute |
| `ResultScreen.EdgesAreIdempotent` | src/components/ResultScreen.jsx:6-14 | pressing play again or edit twice equals pressing it once |
| `ResultScreen.EdgesKeepWellFormed` | src/components/ResultScreen.jsx:6-18 | the three edges keep the session's shape invariant |

## Left out

- Writing the session to `localStorage` (src/contexts/SlotContext.jsx:151-175): the 8 MB size check, the JSON encoding and the retry. This is browser storage I/O. The retry sets `image: null` on each slot, not on its items, so it would strip no images.
- Reading and parsing the stored text, and the `catch` that deletes bad data (src/contexts/SlotContext.jsx:112-115,143-147): I/O. A `Snapshot` is a parsed object with the expected field types. A stored object whose `slots` field is missing would throw part-way through the replay; that case is not modelled.
- Phase values other than the seven `gameState` names: the datatype cannot represent them. The source can store any string through `SET_GAME_STATE` or restore.
- Negative slot or item counts: `Array(n)` throws a `RangeError` for them, so the count payloads are natural numbers.
- Timers and React state setters: they are modelled as data and callbacks, with no clock. The source does not cancel pending timers when the game is reset or edited mid-spin. A late settle step can still write its result into the newer session; the model does not track that interleaving.
- Component lifetime: `SlotMachine` and `CountSetup` are modelled as long-lived objects. Their React state is really lost when the screen unmounts.
- `Math.random` and floating-point rounding: the random values are exact reals in [0, 1).
- Image file reading (src/components/SlotDataInput.jsx:34-77): the MIME-type check, the 20 MB check and `FileReader` are browser I/O. `ImageLoaded` takes the decoded data URL and the cursor of the render in which the file was chosen.
- Rendering, CSS variables, alerts and console logging; src/App.jsx, src/components/TitleInput.jsx and src/components/SlotCountSelector.jsx, which only route between screens or pick values.
- SlotDataInput.NextPosition, SlotDataInput.PreviousPosition: with no slot at the index they read (src/components/SlotDataInput.jsx:81,113-118), the source handlers throw a `TypeError` before dispatching. The model returns `None` there, which has the same effect on the session, but the thrown error is not modelled. The screen's own moves never reach that case when every slot has an item.
- SlotGame.SlotMachine.StartSpin: when not already spinning, requires every slot to have at least one item (while spinning it returns at once for any session). For an empty slot the source stores `undefined` as that slot's result, and the result display then throws. With zero slots no reveal is scheduled, so, as in the source, the spin never settles and `isSpinning` stays true.
- SlotGame.Draw: requires every slot to have at least one item, for the same reason. For an empty slot the source reads `items[0]`, which is `undefined`, and an `Item` cannot represent that.
- SlotItemCountSetup.CountSetup.UpdateItemCount: requires the index to be within the local counts. Every caller passes a slot index. The sparse-array growth that a larger index would cause is not modelled.
- The change of phase from `playing` to `result`: nothing in the source makes it. After a spin settles, the session, like the source, stays in `playing` with the result set.

## Findings

| source | as written | input that shows it | evidently intended | confidence | as-written member | corrected member |
|---|---|---|---|---|---|---|
| src/components/SlotItemCountSetup.jsx:24-33 | the start guard checks the screen's local counts. These start at 3 but reach the session only when a count is picked. | set 3 slots, then press start without picking a count: the guard passes, and the input phase starts with every session slot at `itemCount` 0 and no items | the input phase starts only when every slot has at least one item | high; not executed | `SlotItemCountSetup.CountSetup.StartInputPhase`, `SlotItemCountSetup.AsWrittenGuardAdmitsEmptySlots` | `SlotItemCountSetup.CountSetup.StartInputPhaseChecked`, `SlotItemCountSetup.CheckedGuardEstablishesInputShape` |
