/** The mining screen. Once a second the screen recomputes, from the stored
    session start and the current time, the accrued points (capped at a full
    session's worth), the progress percentage and whether the session may be
    claimed. A claim credits the points shown and restarts the session. */
module MiningPage {
  import opened Account

  /** `miningDuration` in seconds and `basePointsPerHour`. */
  datatype MiningConfig = MiningConfig(miningDuration: int, basePointsPerHour: real)

  /** What the screen shows; `progress` is `None` when the percentage is not a
      finite number (a zero duration divides by zero). */
  datatype MiningView = MiningView(points: real, progress: Option<real>, isClaimable: bool)

  /** `PPS = RATE / 3600` */
  function PointsPerSecond(c: MiningConfig): real {
    c.basePointsPerHour / 3600.0
  }

  /** The reward of a whole session: `DURATION * PPS`. */
  function FullReward(c: MiningConfig): real {
    c.miningDuration as real * PointsPerSecond(c)
  }

  /** `Math.min(elapsed, DURATION)` */
  function Capped(elapsed: int, duration: int): (r: int)
    ensures r <= duration && r <= elapsed
    ensures r == duration || r == elapsed
  {
    if elapsed < duration then elapsed else duration
  }

  /** One tick of the screen at time `now` (whole seconds) for a session started at `start`. */
  function Observe(now: int, start: int, c: MiningConfig): (v: MiningView)
    ensures v.isClaimable <==> now - start >= c.miningDuration
    ensures c.basePointsPerHour >= 0.0 ==> v.points <= FullReward(c)
  {
    var elapsed := now - start;
    var capped := Capped(elapsed, c.miningDuration);
    MiningView(
      capped as real * PointsPerSecond(c),
      if c.miningDuration == 0 then None else Some(capped as real / c.miningDuration as real * 100.0),
      elapsed >= c.miningDuration)
  }

  /** The "Remaining" tile, in hours: `(DURATION - points / PPS) / 3600`;
      `None` when the rate is zero (`0 / 0`). */
  function RemainingHours(v: MiningView, c: MiningConfig): (r: Option<real>)
    ensures r.Some? <==> c.basePointsPerHour != 0.0
  {
    if PointsPerSecond(c) == 0.0 then None
    else Some((c.miningDuration as real - v.points / PointsPerSecond(c)) / 3600.0)
  }

  /** Points are capped: every observation at or after the end of the session
      shows the full reward and is claimable. */
  lemma CappedAfterDuration(now: int, start: int, c: MiningConfig)
    requires now - start >= c.miningDuration
    ensures Observe(now, start, c).points == FullReward(c)
    ensures Observe(now, start, c).isClaimable
  {
  }

  /** For a non-negative rate, accrued points never decrease as time passes. */
  lemma PointsMonotone(t1: int, t2: int, start: int, c: MiningConfig)
    requires t1 <= t2 && c.basePointsPerHour >= 0.0
    ensures Observe(t1, start, c).points <= Observe(t2, start, c).points
  {
    var a := Capped(t1 - start, c.miningDuration);
    var b := Capped(t2 - start, c.miningDuration);
    assert Observe(t1, start, c).points == a as real * PointsPerSecond(c);
    assert Observe(t2, start, c).points == b as real * PointsPerSecond(c);
    MulMonotone(a as real, b as real, PointsPerSecond(c));
  }

  lemma MulMonotone(a: real, b: real, k: real)
    requires a <= b && k >= 0.0
    ensures a * k <= b * k
  {
  }

  /** With a positive duration and a session that has started, the progress is a
      percentage in [0, 100], and it is 100 exactly when the session is claimable. */
  lemma ProgressIsPercentage(now: int, start: int, c: MiningConfig)
    requires c.miningDuration > 0 && now - start >= 0
    ensures var v := Observe(now, start, c);
      && v.progress.Some?
      && 0.0 <= v.progress.value <= 100.0
      && (v.progress.value == 100.0 <==> v.isClaimable)
  {
    var capped := Capped(now - start, c.miningDuration);
    var d := c.miningDuration as real;
    RatioBounds(capped as real, d);
    assert Observe(now, start, c).progress == Some(capped as real / d * 100.0);
  }

  /** A ratio of a part to a positive whole lies in [0, 1] and is 1 only for the whole. */
  lemma RatioBounds(x: real, d: real)
    requires 0.0 <= x <= d && d > 0.0
    ensures 0.0 <= x / d <= 1.0
    ensures x / d == 1.0 <==> x == d
  {
    var q := x / d;
    assert q * d == x;
  }

  /** There is no lower clamp: a start in the future gives negative points and
      negative progress. */
  lemma NoLowerClamp(now: int, start: int, c: MiningConfig)
    requires start > now && c.basePointsPerHour > 0.0 && c.miningDuration > 0
    ensures Observe(now, start, c).points < 0.0
    ensures Observe(now, start, c).progress.Some? && Observe(now, start, c).progress.value < 0.0
    ensures !Observe(now, start, c).isClaimable
  {
    var capped := Capped(now - start, c.miningDuration);
    assert capped < 0;
    assert capped as real * PointsPerSecond(c) < 0.0;
    assert capped as real / c.miningDuration as real < 0.0;
  }

  /** For a non-zero rate the remaining time is `(DURATION - capped) / 3600`
      hours: never negative, and zero exactly when claimable. */
  lemma RemainingFromCapped(now: int, start: int, c: MiningConfig)
    requires c.basePointsPerHour != 0.0
    ensures var r := RemainingHours(Observe(now, start, c), c);
      && r == Some((c.miningDuration - Capped(now - start, c.miningDuration)) as real / 3600.0)
      && r.value >= 0.0
      && (r.value == 0.0 <==> Observe(now, start, c).isClaimable)
  {
    var capped := Capped(now - start, c.miningDuration);
    var pps := PointsPerSecond(c);
    assert pps != 0.0;
    var v := Observe(now, start, c);
    assert v.points == capped as real * pps;
    MulDivCancel(capped as real, pps);
    assert v.points / pps == capped as real;
    assert RemainingHours(v, c) == Some((c.miningDuration as real - capped as real) / 3600.0);
    assert (c.miningDuration - capped) as real == c.miningDuration as real - capped as real;
  }

  lemma MulDivCancel(x: real, k: real)
    requires k != 0.0
    ensures x * k / k == x
  {
  }

  /** The stored state after `handleClaim` at time `now` with the points the
      screen shows: store call 0 credits them, store call 1 writes
      `miningData.lastMiningStart := now`. */
  function ClaimOutcome(u: UserData, points: real, now: int, backend: Backend): UserData {
    if !backend.Completes(0) then u
    else
      var credited := Credited(u, points, MiningClaim, "Mining session reward");
      if backend.Completes(1) then credited.(lastMiningStart := now) else credited
  }

  /** A claim made from a claimable view credits the full session reward and
      restarts the session, which the next observation shows as not claimable. */
  lemma ClaimRestartsSession(u: UserData, tick: int, now: int, c: MiningConfig)
    requires Observe(tick, u.lastMiningStart, c).isClaimable
    requires c.miningDuration > 0 && tick <= now
    ensures var v := ClaimOutcome(u, Observe(tick, u.lastMiningStart, c).points, now, Reliable);
      && v.balance == u.balance + FullReward(c)
      && v.lastMiningStart == now
      && v.ledger == u.ledger + [LedgerEntry(FullReward(c), MiningClaim, "Mining session reward")]
      && !Observe(now, v.lastMiningStart, c).isClaimable
      && Observe(now, v.lastMiningStart, c).points == 0.0
  {
  }

  /** The claim button reads the view of the last tick: until the next tick it
      still says claimable, and a second press credits the same points again. */
  lemma StaleViewPaysTwice(u: UserData, points: real, now: int)
    ensures var v := ClaimOutcome(ClaimOutcome(u, points, now, Reliable), points, now, Reliable);
      v.balance == u.balance + points + points
  {
  }

  lemma KeepsLedgerConsistent(u: UserData, points: real, now: int, backend: Backend)
    requires LedgerConsistent(u)
    ensures LedgerConsistent(ClaimOutcome(u, points, now, backend))
  {
    if backend.Completes(0) {
      CreditedKeepsLedgerConsistent(u, points, MiningClaim, "Mining session reward");
    }
  }

  /** A session of 3600 s at 360 points per hour: 180 points half way, 360 and
      claimable at the end; the claim brings a zero balance to 360. */
  lemma WorkedExample(u: UserData, start: int)
    requires u.balance == 0.0 && u.lastMiningStart == start
    ensures var c := MiningConfig(3600, 360.0);
      && Observe(start + 1800, start, c).points == 180.0
      && !Observe(start + 1800, start, c).isClaimable
      && Observe(start + 3600, start, c).points == 360.0
      && Observe(start + 3600, start, c).isClaimable
      && ClaimOutcome(u, Observe(start + 3600, start, c).points, start + 3600, Reliable).balance == 360.0
  {
  }

  /** The screen's state between ticks. */
  class MiningScreen {
    var view: MiningView

    constructor ()
      ensures view == MiningView(0.0, Some(0.0), false)
    {
      view := MiningView(0.0, Some(0.0), false);
    }

    /** The interval callback at time `now`. */
    method Tick(doc: UserDoc, now: int, c: MiningConfig)
      modifies this
      ensures view == Observe(now, doc.lastMiningStart, c)
    {
      var start := doc.lastMiningStart;
      var elapsed := now - start;
      var capped := if elapsed < c.miningDuration then elapsed else c.miningDuration;
      var progress := if c.miningDuration == 0 then None
                      else Some(capped as real / c.miningDuration as real * 100.0);
      view := MiningView(capped as real * (c.basePointsPerHour / 3600.0), progress, elapsed >= c.miningDuration);
    }

    /** A press of the claim button at time `now`: the button is disabled unless
        the view says claimable; otherwise `handleClaim` runs. */
    method PressClaim(doc: UserDoc, now: int, backend: Backend)
      modifies doc
      ensures old(view.isClaimable) ==> doc.Data() == ClaimOutcome(old(doc.Data()), view.points, now, backend)
      ensures !old(view.isClaimable) ==> doc.Data() == old(doc.Data())
    {
      if !view.isClaimable { return; }
      if !backend.Completes(0) { return; }
      doc.UpdateBalance(view.points, MiningClaim, "Mining session reward");
      if !backend.Completes(1) { return; }
      doc.lastMiningStart := now;
    }
  }
}
