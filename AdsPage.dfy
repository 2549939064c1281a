/** The ad screen: `handleWatch` runs a ten-second countdown, then credits the
    configured ad reward and increments `dailyAdCount`. There is no
    once-only guard: every completed watch pays. */
module AdsPage {
  import opened Account

  /** The value the countdown starts from. */
  const CountdownStart: int := 10

  /** One interval tick of the `setTimer` updater: at 1 or below the interval is
      cleared and the timer set to 0, otherwise it goes down by one. */
  function NextTimer(prev: int): int {
    if prev <= 1 then 0 else prev - 1
  }

  /** The timer after `k` ticks of a countdown started at `CountdownStart`. */
  function TimerAfter(k: nat): int {
    if k == 0 then CountdownStart else NextTimer(TimerAfter(k - 1))
  }

  /** After k ticks the timer reads 10 - k until it reaches 0, then stays at 0;
      it is never negative. */
  lemma {:induction false} TimerAfterTicks(k: nat)
    ensures TimerAfter(k) == if k <= 10 then 10 - k else 0
    ensures TimerAfter(k) >= 0
  {
    if k > 0 {
      TimerAfterTicks(k - 1);
    }
  }

  /** The watch button is replaced by the countdown banner while the timer is positive. */
  predicate WatchButtonShown(timer: int) {
    timer <= 0
  }

  /** The button stays hidden through the first nine ticks and comes back at the tenth. */
  lemma ButtonHiddenDuringCountdown(k: nat)
    ensures !WatchButtonShown(TimerAfter(k)) <==> k < 10
  {
    TimerAfterTicks(k);
  }

  /** The earnings tile: `dailyAdCount * adWatchReward`. */
  function Earnings(u: UserData, adWatchReward: real): real {
    u.dailyAdCount as real * adWatchReward
  }

  /** The stored state after `handleWatch`: store call 0 is the balance update
      by `adWatchReward`, store call 1 writes `(dailyAdCount || 0) + 1`. */
  function WatchOutcome(u: UserData, adWatchReward: real, backend: Backend): UserData {
    if !backend.Completes(0) then u
    else
      var credited := Credited(u, adWatchReward, AdReward, "Watched sponsored ad");
      if backend.Completes(1) then credited.(dailyAdCount := u.dailyAdCount + 1) else credited
  }

  /** A completed watch credits exactly the reward, increments the counter by one,
      so the earnings tile rises by exactly what was credited. */
  lemma WatchCreditsReward(u: UserData, adWatchReward: real)
    ensures var v := WatchOutcome(u, adWatchReward, Reliable);
      && v.balance == u.balance + adWatchReward
      && v.dailyAdCount == u.dailyAdCount + 1
      && Earnings(v, adWatchReward) - Earnings(u, adWatchReward) == v.balance - u.balance
      && v.ledger == u.ledger + [LedgerEntry(adWatchReward, AdReward, "Watched sponsored ad")]
  {
  }

  /** No deduplication: n reliable watches credit n rewards and count n. */
  function WatchTimes(u: UserData, adWatchReward: real, n: nat): UserData {
    if n == 0 then u else WatchOutcome(WatchTimes(u, adWatchReward, n - 1), adWatchReward, Reliable)
  }

  lemma {:induction false} EveryWatchPays(u: UserData, adWatchReward: real, n: nat)
    ensures WatchTimes(u, adWatchReward, n).balance == u.balance + n as real * adWatchReward
    ensures WatchTimes(u, adWatchReward, n).dailyAdCount == u.dailyAdCount + n
  {
    if n > 0 {
      EveryWatchPays(u, adWatchReward, n - 1);
    }
  }

  /** The earnings tile after n completed watches shows n more rewards. */
  lemma EarningsTrackWatches(u: UserData, adWatchReward: real, n: nat)
    ensures Earnings(WatchTimes(u, adWatchReward, n), adWatchReward)
         == Earnings(u, adWatchReward) + n as real * adWatchReward
  {
    EveryWatchPays(u, adWatchReward, n);
    var c := u.dailyAdCount as real;
    assert (c + n as real) * adWatchReward == c * adWatchReward + n as real * adWatchReward;
  }

  lemma KeepsLedgerConsistent(u: UserData, adWatchReward: real, backend: Backend)
    requires LedgerConsistent(u)
    ensures LedgerConsistent(WatchOutcome(u, adWatchReward, backend))
  {
    if backend.Completes(0) {
      CreditedKeepsLedgerConsistent(u, adWatchReward, AdReward, "Watched sponsored ad");
    }
  }

  /** The screen's local state. */
  class AdsScreen {
    var timer: int

    constructor ()
      ensures timer == 0
    {
      timer := 0;
    }

    /** One interval tick. */
    method Tick()
      modifies this
      ensures timer == NextTimer(old(timer))
    {
      if timer <= 1 {
        timer := 0;
      } else {
        timer := timer - 1;
      }
    }

    /** `handleWatch`: the countdown runs its ticks until the interval clears
        itself, then the reward is credited and the counter written. */
    method HandleWatch(doc: UserDoc, adWatchReward: real, backend: Backend) returns (ticks: nat)
      modifies this, doc
      ensures ticks == 10 && timer == 0
      ensures doc.Data() == WatchOutcome(old(doc.Data()), adWatchReward, backend)
    {
      timer := CountdownStart;
      ticks := 0;
      while timer > 0
        modifies this
        invariant timer == TimerAfter(ticks)
        invariant ticks + timer == CountdownStart
        decreases timer
      {
        TimerAfterTicks(ticks);
        Tick();
        ticks := ticks + 1;
      }
      if !backend.Completes(0) { return; }
      doc.UpdateBalance(adWatchReward, AdReward, "Watched sponsored ad");
      if !backend.Completes(1) { return; }
      doc.dailyAdCount := doc.dailyAdCount + 1;
    }
  }
}
