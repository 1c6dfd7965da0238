/**
 * The slot machine screen (src/components/SlotGame.jsx).  A spin picks one
 * item per slot, schedules one reveal per slot at a staggered delay, and the
 * reveal of the last slot schedules the settle step that stores the result
 * in the session and ends the spin.
 *
 * `Math.random()` values are parameters: a real in [0, 1) per slot for the
 * pick and another for the delay jitter.  Timers are data: `StartSpin`
 * returns the reveals it schedules, `Reveal` is one timer's callback and
 * returns the settle timer it schedules, if any; `Settle` is that timer's
 * callback.
 */
module SlotGame {
  import opened Options
  import opened SlotContext
  import ResultScreen

  /** A value `Math.random()` can return. */
  predicate IsUnit(r: real) {
    0.0 <= r < 1.0
  }

  predicate AllUnit(rs: seq<real>) {
    forall i :: 0 <= i < |rs| ==> IsUnit(rs[i])
  }

  /** `Math.floor(Math.random() * length)`. */
  function PickIndex(r: real, len: nat): (idx: int)
    requires IsUnit(r)
    ensures len > 0 ==> 0 <= idx < len
    ensures len == 0 ==> idx == 0
  {
    var x := r * len as real;
    assert 0.0 <= x;
    assert len > 0 ==> x < len as real by {
      if len > 0 {
        assert len as real - x == (1.0 - r) * len as real;
      }
    }
    x.Floor
  }

  /**
   * The pick is uniform: index `k` is chosen exactly for the random values in
   * `[k/len, (k+1)/len)`, an interval of width `1/len` for every `k`.
   */
  lemma PickIndexPreimage(r: real, len: nat, k: int)
    requires IsUnit(r) && len > 0
    ensures PickIndex(r, len) == k <==> k as real / len as real <= r < (k + 1) as real / len as real
  {
    var n := len as real;
    var x := r * n;
    var f := PickIndex(r, len);
    assert f == x.Floor;
    assert f as real <= x < (f + 1) as real;
    assert r == x / n;
    if f == k {
      DivideKeepsOrder(k as real, x, n);
      DivideKeepsOrder(x, (k + 1) as real, n);
    } else if f < k {
      DivideKeepsOrder(x, k as real, n);
    } else {
      DivideKeepsOrder((k + 1) as real, x, n);
    }
  }

  /** Dividing by a positive number keeps the order. */
  lemma DivideKeepsOrder(a: real, b: real, n: real)
    requires n > 0.0
    ensures a <= b ==> a / n <= b / n
    ensures a < b ==> a / n < b / n
  {
    assert b / n - a / n == (b - a) / n;
  }

  /** What a spin keeps for one slot: the chosen item and its index. */
  datatype Outcome = Outcome(item: Item, index: int)

  predicate NoEmptySlot(slots: seq<Slot>) {
    forall i :: 0 <= i < |slots| ==> |slots[i].items| > 0
  }

  /** The per-slot choice: one independent pick per slot. */
  function Draw(slots: seq<Slot>, draws: seq<real>): (outcomes: seq<Outcome>)
    requires |draws| == |slots| && AllUnit(draws) && NoEmptySlot(slots)
    ensures |outcomes| == |slots|
    ensures forall i :: 0 <= i < |slots| ==>
      0 <= outcomes[i].index < |slots[i].items| && outcomes[i].item == slots[i].items[outcomes[i].index]
  {
    seq(|slots|, i requires 0 <= i < |slots| =>
      var idx := PickIndex(draws[i], |slots[i].items|);
      Outcome(slots[i].items[idx], idx))
  }

  /** `results.map((r) => r.item)`. */
  function Items(outcomes: seq<Outcome>): seq<Item> {
    seq(|outcomes|, i requires 0 <= i < |outcomes| => outcomes[i].item)
  }

  /** The stored result has one entry per slot, each an item of that slot. */
  lemma DrawResultMembers(slots: seq<Slot>, draws: seq<real>)
    requires |draws| == |slots| && AllUnit(draws) && NoEmptySlot(slots)
    ensures var r := Items(Draw(slots, draws));
      |r| == |slots| && forall i :: 0 <= i < |slots| ==> r[i] in slots[i].items
  {
  }

  /** The random values that pick index `choice[i]` in every slot. */
  function DrawsFor(slots: seq<Slot>, choice: seq<int>): seq<real>
    requires |choice| == |slots| && NoEmptySlot(slots)
  {
    seq(|slots|, i requires 0 <= i < |slots| => choice[i] as real / |slots[i].items| as real)
  }

  /** Every combination of items, one per slot, is the outcome of some spin. */
  lemma EveryChoiceReachable(slots: seq<Slot>, choice: seq<int>)
    requires |choice| == |slots| && NoEmptySlot(slots)
    requires forall i :: 0 <= i < |slots| ==> 0 <= choice[i] < |slots[i].items|
    ensures var draws := DrawsFor(slots, choice);
      |draws| == |slots| && AllUnit(draws) &&
      forall i :: 0 <= i < |slots| ==> Draw(slots, draws)[i].index == choice[i]
  {
    var draws := DrawsFor(slots, choice);
    forall i | 0 <= i < |slots| ensures IsUnit(draws[i]) && draws[i] * |slots[i].items| as real == choice[i] as real {
      var len := |slots[i].items| as real;
      var c := choice[i] as real;
      assert draws[i] == c / len;
      assert c / len * len == c;
      assert c / len < 1.0 by {
        assert c < len;
      }
    }
  }

  // ---------------------------------------------------------------------
  // The reveal schedule.

  /** `1500 + slotIndex * 800 + Math.random() * 500`, in milliseconds from the spin. */
  function StopDelay(slotIndex: nat, r: real): (d: real)
    requires IsUnit(r)
    ensures 1500.0 + 800.0 * slotIndex as real <= d < 2000.0 + 800.0 * slotIndex as real
  {
    1500.0 + (slotIndex * 800) as real + r * 500.0
  }

  /** The reveal of a later slot is always scheduled later: 800 ms of step outweigh 500 ms of jitter. */
  lemma StopDelaysIncrease(i: nat, j: nat, ri: real, rj: real)
    requires i < j && IsUnit(ri) && IsUnit(rj)
    ensures StopDelay(i, ri) < StopDelay(j, rj)
  {
  }

  /** A scheduled reveal: which slot, when, what it shows, and the whole spin's outcomes it closes over. */
  datatype RevealTimer = RevealTimer(slotIndex: nat, delay: real, outcome: Outcome, results: seq<Outcome>)

  /** The settle step scheduled by the last reveal: when, and the result it stores. */
  datatype SettleTimer = SettleTimer(delay: real, items: seq<Item>)

  /** The reveals `results.forEach` schedules. */
  function Schedule(outcomes: seq<Outcome>, jitters: seq<real>): seq<RevealTimer>
    requires |jitters| == |outcomes| && AllUnit(jitters)
  {
    seq(|outcomes|, i requires 0 <= i < |outcomes| => RevealTimer(i, StopDelay(i, jitters[i]), outcomes[i], outcomes))
  }

  /** Only the reveal of the last slot schedules the settle step. */
  predicate SchedulesSettle(t: RevealTimer) {
    t.slotIndex == |t.results| - 1
  }

  /**
   * The reveals fire in slot order, only the last one schedules the settle
   * step, and that step comes after every reveal: the result is stored only
   * once every slot has stopped, whatever the jitter.
   */
  lemma ScheduleOrder(outcomes: seq<Outcome>, jitters: seq<real>)
    requires |jitters| == |outcomes| && AllUnit(jitters)
    ensures var ts := Schedule(outcomes, jitters);
      (forall i, j :: 0 <= i < j < |ts| ==> ts[i].delay < ts[j].delay) &&
      (forall i :: 0 <= i < |ts| ==> (SchedulesSettle(ts[i]) <==> i == |ts| - 1)) &&
      (|ts| > 0 ==> forall i :: 0 <= i < |ts| ==> ts[i].delay < ts[|ts| - 1].delay + 500.0)
  {
    var ts := Schedule(outcomes, jitters);
    forall i, j | 0 <= i < j < |ts| ensures ts[i].delay < ts[j].delay {
      StopDelaysIncrease(i, j, jitters[i], jitters[j]);
    }
  }

  /** `copy[index] = value` on a copy of an array: an index past the end extends it, leaving holes. */
  function Assign<T>(s: seq<T>, index: nat, value: T, hole: T): (r: seq<T>)
    ensures |r| == if index < |s| then |s| else index + 1
    ensures r[index] == value
    ensures forall k :: 0 <= k < |s| && k != index ==> r[k] == s[k]
    ensures forall k :: |s| <= k < index ==> r[k] == hole
  {
    if index < |s| then s[index := value] else s + seq(index - |s|, _ => hole) + [value]
  }

  /** `spinningSlots` after the given reveals, in the order given. */
  function SpinningAfter(spinning: seq<bool>, ts: seq<RevealTimer>): seq<bool> {
    if |ts| == 0 then spinning
    else Assign(SpinningAfter(spinning, ts[..|ts| - 1]), ts[|ts| - 1].slotIndex, false, false)
  }

  /** `finalResults` after the given reveals, in the order given (a hole is `None`). */
  function FinalsAfter(finals: seq<Option<Outcome>>, ts: seq<RevealTimer>): seq<Option<Outcome>> {
    if |ts| == 0 then finals
    else Assign(FinalsAfter(finals, ts[..|ts| - 1]), ts[|ts| - 1].slotIndex, Some(ts[|ts| - 1].outcome), None)
  }

  /**
   * After the first `k` reveals of a spin, in firing order, exactly slots
   * `0..k-1` have stopped and show their outcomes, and no other slot has.
   */
  lemma {:induction false} RevealedPrefix(outcomes: seq<Outcome>, jitters: seq<real>, k: nat)
    requires |jitters| == |outcomes| && AllUnit(jitters) && k <= |outcomes|
    ensures var ts := Schedule(outcomes, jitters);
      SpinningAfter(seq(|outcomes|, _ => true), ts[..k]) == seq(|outcomes|, i => k <= i) &&
      FinalsAfter([], ts[..k]) == seq(k, i requires 0 <= i < k => Some(outcomes[i]))
  {
    var ts := Schedule(outcomes, jitters);
    if k == 0 {
      assert ts[..0] == [];
    } else {
      assert ts[..k][..k - 1] == ts[..k - 1];
      RevealedPrefix(outcomes, jitters, k - 1);
    }
  }

  /** When the settle step runs, every reel has stopped and shows its outcome. */
  lemma AllRevealedBeforeSettle(outcomes: seq<Outcome>, jitters: seq<real>)
    requires |jitters| == |outcomes| && AllUnit(jitters)
    ensures var ts := Schedule(outcomes, jitters);
      SpinningAfter(seq(|outcomes|, _ => true), ts) == seq(|outcomes|, _ => false) &&
      FinalsAfter([], ts) == seq(|outcomes|, i requires 0 <= i < |outcomes| => Some(outcomes[i]))
  {
    var ts := Schedule(outcomes, jitters);
    RevealedPrefix(outcomes, jitters, |outcomes|);
    assert ts[..|outcomes|] == ts;
  }

  /** The two dispatches at the start of a spin: result cleared, phase `playing`. */
  function BeginSpin(s: Session): Session {
    Reduce(Reduce(s, SetResult([])), SetGameState(Playing))
  }

  /** Starting a spin from the result screen's "play again" is the same as starting it straight away. */
  lemma PlayAgainThenSpin(s: Session)
    ensures BeginSpin(ResultScreen.PlayAgain(s)) == BeginSpin(s)
    ensures BeginSpin(s) == s.(result := [], gameState := Playing)
  {
  }

  class SlotMachine {
    var isSpinning: bool
    var spinningSlots: seq<bool>
    var finalResults: seq<Option<Outcome>>
    const store: Store

    constructor (store: Store)
      ensures this.store == store && !isSpinning && spinningSlots == [] && finalResults == []
    {
      this.store := store;
      isSpinning := false;
      spinningSlots := [];
      finalResults := [];
    }

    /**
     * `startSpin`: nothing while a spin is running; otherwise mark the spin,
     * clear the result and enter `playing`, set every reel spinning, pick one
     * item per slot and schedule one reveal per slot.
     */
    method StartSpin(draws: seq<real>, jitters: seq<real>) returns (timers: seq<RevealTimer>)
      requires !isSpinning ==> |draws| == |store.state.slots| && |jitters| == |store.state.slots|
      requires !isSpinning ==> AllUnit(draws) && AllUnit(jitters) && NoEmptySlot(store.state.slots)
      modifies this, store
      ensures old(isSpinning) ==>
        timers == [] && isSpinning && spinningSlots == old(spinningSlots) &&
        finalResults == old(finalResults) && store.state == old(store.state)
      ensures !old(isSpinning) ==>
        isSpinning && finalResults == [] && spinningSlots == seq(|old(store.state.slots)|, _ => true) &&
        store.state == BeginSpin(old(store.state)) &&
        timers == Schedule(Draw(old(store.state.slots), draws), jitters)
    {
      if isSpinning {
        return [];
      }
      var slots := store.state.slots;
      isSpinning := true;
      finalResults := [];
      store.Dispatch(SetResult([]));
      store.Dispatch(SetGameState(Playing));
      spinningSlots := seq(|slots|, _ => true);
      var results := Draw(slots, draws);
      timers := [];
      var i := 0;
      while i < |results|
        invariant 0 <= i <= |results|
        invariant timers == Schedule(results, jitters)[..i]
      {
        timers := timers + [RevealTimer(i, StopDelay(i, jitters[i]), results[i], results)];
        i := i + 1;
      }
      assert timers == Schedule(results, jitters)[..|results|];
    }

    /** One reveal callback: stop that reel, show its outcome, and after the last reel schedule the settle step. */
    method Reveal(t: RevealTimer) returns (settle: Option<SettleTimer>)
      modifies this
      ensures spinningSlots == Assign(old(spinningSlots), t.slotIndex, false, false)
      ensures finalResults == Assign(old(finalResults), t.slotIndex, Some(t.outcome), None)
      ensures isSpinning == old(isSpinning)
      ensures settle.Some? <==> SchedulesSettle(t)
      ensures settle.Some? ==> settle.value == SettleTimer(t.delay + 500.0, Items(t.results))
    {
      var newSpinning := spinningSlots;
      newSpinning := Assign(newSpinning, t.slotIndex, false, false);
      spinningSlots := newSpinning;
      var newResults := finalResults;
      newResults := Assign(newResults, t.slotIndex, Some(t.outcome), None);
      finalResults := newResults;
      if t.slotIndex == |t.results| - 1 {
        settle := Some(SettleTimer(t.delay + 500.0, Items(t.results)));
      } else {
        settle := None;
      }
    }

    /** The settle callback: store the result and end the spin. */
    method Settle(st: SettleTimer)
      modifies this, store
      ensures store.state == old(store.state).(result := st.items)
      ensures !isSpinning && spinningSlots == old(spinningSlots) && finalResults == old(finalResults)
    {
      store.Dispatch(SetResult(st.items));
      isSpinning := false;
    }

    /** `editSlots`: back to the item-count screen with the result cleared. */
    method EditSlots()
      modifies store
      ensures store.state == ResultScreen.EditSlots(old(store.state))
      ensures store.state.gameState == SlotItemCount && store.state.result == []
    {
      store.Dispatch(SetGameState(SlotItemCount));
      store.Dispatch(SetResult([]));
    }

    /** `resetGame`: the session goes back to its initial value. */
    method ResetGame()
      modifies store
      ensures store.state == InitialState
    {
      store.Dispatch(Reset);
    }
  }

  /**
   * The two-slot example: with items A, B in the first slot and C, D in the
   * second, every spin stores one of the four pairs.
   */
  lemma TwoSlotOutcomes(a: Item, b: Item, c: Item, d: Item, draws: seq<real>)
    requires |draws| == 2 && AllUnit(draws)
    ensures var slots := [Slot(0, 2, [a, b]), Slot(1, 2, [c, d])];
      Items(Draw(slots, draws)) in {[a, c], [a, d], [b, c], [b, d]}
  {
    var slots := [Slot(0, 2, [a, b]), Slot(1, 2, [c, d])];
    var r := Items(Draw(slots, draws));
    DrawResultMembers(slots, draws);
    assert r[0] == a || r[0] == b;
    assert r[1] == c || r[1] == d;
    assert r == [r[0], r[1]];
  }
}
