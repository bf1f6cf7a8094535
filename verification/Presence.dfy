/**
 When a hosting desktop re-announces itself: `PresenceSchedule`, the loop that drives it, and what
 the two promise against the service's 90-second presence lifetime.  Times are milliseconds.
 */
module Presence {
  import opened Options

  const SERVER_PRESENCE_TTL := 90_000
  const RENEW_INTERVAL := 30_000
  const RENEW_JITTER := 5_000
  const RETRY_MIN := 2_000
  const RETRY_MAX := 15_000
  const TICK := 1_000

  const U64_SPAN := 0x1_0000_0000_0000_0000
  const U32_MAX := 0xFFFF_FFFF

  datatype Action = Wait | Announce | Withdraw

  datatype Schedule = Schedule(nextDue: Option<int>, failures: nat, seed: nat, advertised: bool, withdrawing: bool)

  // ----------------------------------------------------------------- the decisions

  function Power2(n: nat): nat { if n == 0 then 1 else 2 * Power2(n - 1) }

  /** `RETRY_MIN` doubled per consecutive failure, capped at `RETRY_MAX`. */
  function RetryDelay(failures: nat): nat {
    if failures == 0 then RETRY_MIN
    else
      var shift := if failures - 1 < 16 then failures - 1 else 16;
      var delay := RETRY_MIN * Power2(shift);
      if delay < RETRY_MAX then delay else RETRY_MAX
  }

  predicate IsDue(s: Schedule, now: int) { s.nextDue.None? || now >= s.nextDue.value }

  function Reset(s: Schedule): Schedule { s.(nextDue := None, failures := 0, withdrawing := false) }

  function Poll(s: Schedule, now: int, ready: bool, authenticated: bool): (Schedule, Action) {
    if !authenticated then (Reset(s), Wait)
    else if ready then (s.(withdrawing := false), if IsDue(s, now) then Announce else Wait)
    else if !s.advertised then (Reset(s), Wait)
    else
      var s' := if s.withdrawing then s else s.(withdrawing := true, nextDue := None, failures := 0);
      (s', if IsDue(s', now) then Withdraw else Wait)
  }

  predicate WantsAttention(s: Schedule, now: int, ready: bool) {
    if ready then IsDue(s, now) else s.advertised && (!s.withdrawing || IsDue(s, now))
  }

  function NextSeed(seed: nat): nat { (seed * 6_364_136_223_846_793_005 + 1_442_695_040_888_963_407) % U64_SPAN }

  /** The jitter the sequence yields after `seed`: the top 31 bits, reduced. */
  function Jitter(seed: nat): nat { NextSeed(seed) / 0x2_0000_0000 % (RENEW_JITTER + 1) }

  function RecordSuccess(s: Schedule, now: int): Schedule {
    Schedule(Some(now + RENEW_INTERVAL + Jitter(s.seed)), 0, NextSeed(s.seed), true, s.withdrawing)
  }

  function RecordWithdrawn(s: Schedule): Schedule { Reset(s.(advertised := false)) }

  function RecordFailure(s: Schedule, now: int): Schedule {
    var failures := if s.failures < U32_MAX then s.failures + 1 else U32_MAX;
    s.(failures := failures, nextDue := Some(now + RetryDelay(failures)))
  }

  // ----------------------------------------------------------------- the object

  class PresenceSchedule {
    var nextDue: Option<int>
    var consecutiveFailures: nat
    var seed: nat
    var advertised: bool
    var withdrawing: bool

    function View(): Schedule
      reads this
    {
      Schedule(nextDue, consecutiveFailures, seed, advertised, withdrawing)
    }

    constructor (seed: nat)
      ensures View() == Schedule(None, 0, seed, false, false)
    {
      this.seed := seed;
      nextDue, consecutiveFailures, advertised, withdrawing := None, 0, false, false;
    }

    method Forget()
      modifies this
      ensures View() == Reset(old(View()))
    {
      nextDue := None;
      consecutiveFailures := 0;
      withdrawing := false;
    }

    method Decide(now: int, ready: bool, authenticated: bool) returns (action: Action)
      modifies this
      ensures (View(), action) == Poll(old(View()), now, ready, authenticated)
    {
      if !authenticated {
        Forget();
        return Wait;
      }
      if ready {
        withdrawing := false;
        return if nextDue.None? || now >= nextDue.value then Announce else Wait;
      }
      if !advertised {
        Forget();
        return Wait;
      }
      if !withdrawing {
        withdrawing := true;
        nextDue := None;
        consecutiveFailures := 0;
      }
      return if nextDue.None? || now >= nextDue.value then Withdraw else Wait;
    }

    method NextJitter() returns (jitter: nat)
      modifies this`seed
      ensures jitter == Jitter(old(seed)) && seed == NextSeed(old(seed))
    {
      seed := (seed * 6_364_136_223_846_793_005 + 1_442_695_040_888_963_407) % U64_SPAN;
      jitter := seed / 0x2_0000_0000 % (RENEW_JITTER + 1);
    }

    method Succeeded(now: int)
      modifies this
      ensures View() == RecordSuccess(old(View()), now)
    {
      consecutiveFailures := 0;
      advertised := true;
      var jitter := NextJitter();
      nextDue := Some(now + RENEW_INTERVAL + jitter);
    }

    method Withdrawn()
      modifies this
      ensures View() == RecordWithdrawn(old(View()))
    {
      advertised := false;
      Forget();
    }

    method FailedAt(now: int)
      modifies this
      ensures View() == RecordFailure(old(View()), now)
    {
      if consecutiveFailures < U32_MAX {
        consecutiveFailures := consecutiveFailures + 1;
      } else {
        consecutiveFailures := U32_MAX;
      }
      nextDue := Some(now + RetryDelay(consecutiveFailures));
    }
  }

  // ----------------------------------------------------------------- the loop

  /**
   One turn of `maintain_presence_forever`: what it reads at `now`, and, when it makes a call,
   whether the call was delivered and when it ended.  `signedOut` says that since the turn before
   somebody signed out, and the sign-out's own withdrawal was delivered.
   */
  datatype Turn = Turn(now: int, ready: bool, authenticated: bool, delivered: bool, done: int, signedOut: bool)

  /** What the turn does, and the schedule it leaves. */
  function Act(s: Schedule, t: Turn): (Schedule, Action) {
    if !WantsAttention(s, t.now, t.ready) then
      (if !t.ready && !s.advertised then Reset(s) else s, Wait)
    else
      var (s', action) := Poll(s, t.now, t.ready, t.authenticated);
      match action
      case Wait => (s', Wait)
      case Announce => (if t.delivered then RecordSuccess(s', t.done) else RecordFailure(s', t.done), Announce)
      case Withdraw => (if t.delivered then RecordWithdrawn(s') else RecordFailure(s', t.done), Withdraw)
  }

  method LoopTurn(schedule: PresenceSchedule, t: Turn) returns (action: Action)
    modifies schedule
    ensures (schedule.View(), action) == Act(old(schedule.View()), t)
  {
    if !WantsAttention(schedule.View(), t.now, t.ready) {
      if !t.ready && !schedule.advertised {
        schedule.Forget();
      }
      return Wait;
    }
    action := schedule.Decide(t.now, t.ready, t.authenticated);
    if action.Announce? {
      if t.delivered {
        schedule.Succeeded(t.done);
      } else {
        schedule.FailedAt(t.done);
      }
    } else if action.Withdraw? {
      if t.delivered {
        schedule.Withdrawn();
      } else {
        schedule.FailedAt(t.done);
      }
    }
  }

  function After(s: Schedule, turns: seq<Turn>): Schedule {
    if turns == [] then s else Act(After(s, turns[..|turns| - 1]), turns[|turns| - 1]).0
  }

  /** When the turn was over: at the end of its call, or at once when it made none. */
  function End(t: Turn, action: Action): int { if action.Wait? then t.now else t.done }

  // ----------------------------------------------------------------- the pre-check

  /** When signed in, the pre-check says yes exactly when `poll` would act, in every state. */
  lemma PreCheckAgrees(s: Schedule, now: int, ready: bool)
    ensures WantsAttention(s, now, ready) <==> !Poll(s, now, ready, true).1.Wait?
  {
  }

  // ----------------------------------------------------------------- bounded backoff

  lemma RetryDelays()
    ensures RetryDelay(1) == 2_000 && RetryDelay(2) == 4_000 && RetryDelay(3) == 8_000
    ensures forall n: nat :: n >= 4 ==> RetryDelay(n) == RETRY_MAX
    ensures forall n: nat :: RETRY_MIN <= RetryDelay(n) <= RETRY_MAX
  {
    assert Power2(3) == 8 && Power2(2) == 4 && Power2(1) == 2;
    forall n: nat | n >= 4
      ensures RetryDelay(n) == RETRY_MAX
    {
      PowerGrows(3, if n - 1 < 16 then n - 1 else 16);
    }
    forall n: nat
      ensures RETRY_MIN <= RetryDelay(n) <= RETRY_MAX
    {
      PowerGrows(0, if n == 0 then 0 else if n - 1 < 16 then n - 1 else 16);
    }
  }

  lemma {:induction false} PowerGrows(a: nat, b: nat)
    requires a <= b
    ensures Power2(a) <= Power2(b)
    decreases b - a
  {
    if a < b {
      PowerGrows(a + 1, b);
    }
  }

  // ----------------------------------------------------------------- renewals in time

  /**
   The longest `k` retries can take after `f` failures: each waits its delay, then for a tick that
   may miss the due time by 999 milliseconds, then for a call of `c`.
   */
  function Retries(f: nat, k: nat, c: nat): nat
    decreases k
  {
    if k == 0 then 0 else RetryDelay(f + 1) + TICK - 1 + c + Retries(f + 1, k - 1, c)
  }

  /** The longest gap between two successful beats with `k` failures between them. */
  function Gap(k: nat, c: nat): nat { RENEW_INTERVAL + RENEW_JITTER + TICK - 1 + c + Retries(0, k, c) }

  /** A tick comes within a second of the end of the turn before, and a call takes at most `c`. */
  ghost predicate OnTime(t: Turn, previousEnd: int, c: nat) {
    previousEnd <= t.now <= previousEnd + TICK && t.now <= t.done <= t.now + c
  }

  /** `turns` follow a turn that ended at `start`, all on time, ready and signed in. */
  ghost predicate Healthy(s: Schedule, start: int, turns: seq<Turn>, c: nat)
    decreases |turns|
  {
    turns == [] ||
    (&& OnTime(turns[0], start, c) && turns[0].ready && turns[0].authenticated
     && Healthy(Act(s, turns[0]).0, End(turns[0], Act(s, turns[0]).1), turns[1..], c))
  }

  /** The end of the first successful beat in `turns`, with the failures before it. */
  datatype Beat = NoBeat | Beat(sent: int, done: int, failures: nat)

  ghost function FirstBeat(s: Schedule, turns: seq<Turn>): Beat
    decreases |turns|
  {
    if turns == [] then NoBeat
    else
      var (s', action) := Act(s, turns[0]);
      if action.Announce? && turns[0].delivered then Beat(turns[0].now, turns[0].done, 0)
      else
        match FirstBeat(s', turns[1..])
        case NoBeat => NoBeat
        case Beat(sent, done, failures) => Beat(sent, done, failures + (if action.Announce? then 1 else 0))
  }

  /** What a saturating count of `f` failures reads. */
  function Saturated(f: nat): nat { if f < U32_MAX then f else U32_MAX }

  /** Before `due`, a schedule in which a beat is due no later than that, after `f` failures. */
  ghost predicate Armed(s: Schedule, f: nat, now: int, due: int) {
    s.failures == Saturated(f) && s.nextDue.Some? && s.nextDue.value <= due && now < due
  }

  /** Before a beat is due a turn does nothing; when it is, it is answered within a tick and a call. */
  lemma ArmedTurn(s: Schedule, f: nat, end: int, due: int, t: Turn, c: nat)
    requires Armed(s, f, end, due) && OnTime(t, end, c) && t.ready && t.authenticated
    ensures var (s', action) := Act(s, t);
      && (action.Wait? ==> Armed(s', f, t.now, due) && s' == s)
      && (!action.Wait? ==> action.Announce? && t.done <= due + TICK - 1 + c)
      && (action.Announce? && !t.delivered ==> Armed(s', f + 1, t.done, t.done + RetryDelay(f + 1)))
  {
    RetryDelays();
  }

  lemma {:induction false} NextBeatInTime(s: Schedule, f: nat, end: int, due: int, turns: seq<Turn>, c: nat)
    requires Armed(s, f, end, due) && Healthy(s, end, turns, c)
    ensures var b := FirstBeat(s, turns);
      b.Beat? ==> b.sent <= b.done <= due + TICK - 1 + c + Retries(f, b.failures, c)
    decreases |turns|
  {
    if turns != [] {
      var t := turns[0];
      var (s', action) := Act(s, t);
      ArmedTurn(s, f, end, due, t, c);
      if action.Wait? {
        NextBeatInTime(s', f, t.now, due, turns[1..], c);
      } else if !t.delivered {
        NextBeatInTime(s', f + 1, t.done, t.done + RetryDelay(f + 1), turns[1..], c);
      }
    }
  }

  /**
   The gap between two beats, for every seed: after a success reported at `done`, the next success
   with `k` failures before it is reported within `Gap(k, c)`.
   */
  lemma RenewedInTime(s: Schedule, done: int, turns: seq<Turn>, c: nat)
    requires Healthy(RecordSuccess(s, done), done, turns, c)
    ensures var b := FirstBeat(RecordSuccess(s, done), turns);
      b.Beat? ==> done <= b.sent <= b.done <= done + Gap(b.failures, c)
  {
    var s' := RecordSuccess(s, done);
    NextBeatInTime(s', 0, done, done + RENEW_INTERVAL + RENEW_JITTER, turns, c);
    BeatAfter(s', done, turns, c);
  }

  lemma {:induction false} BeatAfter(s: Schedule, end: int, turns: seq<Turn>, c: nat)
    requires Healthy(s, end, turns, c)
    ensures var b := FirstBeat(s, turns); b.Beat? ==> end <= b.sent
    decreases |turns|
  {
    if turns != [] {
      var (s', action) := Act(s, turns[0]);
      BeatAfter(s', End(turns[0], action), turns[1..], c);
    }
  }

  // ----------------------------------------------------------------- and no sooner

  /** A run of on-time turns that waits as long as the schedule lets it and fails `k` times. */
  lemma {:induction false} SlowRun(s: Schedule, f: nat, end: int, due: int, k: nat, c: nat) returns (turns: seq<Turn>)
    requires s.nextDue == Some(due) && end < due && s.failures == Saturated(f)
    ensures Healthy(s, end, turns, c) && FirstBeat(s, turns).Beat? && FirstBeat(s, turns).failures == k
    ensures FirstBeat(s, turns).done == due + TICK - 1 + c + Retries(f, k, c)
    decreases k, due - end
  {
    var rest: seq<Turn>;
    if end < due - 1 {
      var now := if end + TICK < due - 1 then end + TICK else due - 1;
      var t := Turn(now, true, true, false, now, false);
      rest := SlowRun(s, f, now, due, k, c);
      turns := [t] + rest;
    } else {
      var t := Turn(due + TICK - 1, true, true, k == 0, due + TICK - 1 + c, false);
      if k == 0 {
        rest := [];
      } else {
        RetryDelays();
        var s' := RecordFailure(s.(withdrawing := false), t.done);
        rest := SlowRun(s', f + 1, t.done, t.done + RetryDelay(f + 1), k - 1, c);
      }
      turns := [t] + rest;
    }
    assert turns[1..] == rest;
  }

  /** A seed whose next jitter is the full five seconds. */
  const SLOW_SEED := 15_828_291_243_350_380_565

  lemma SlowSeed()
    ensures Jitter(SLOW_SEED) == RENEW_JITTER
  {
  }

  /**
   Two successful beats and what the service makes of them: it hears each at some moment between
   sending and reporting.  The first was sent at `sent` and reported at `done`, the second comes
   out of `turns`.
   */
  datatype Renewal = Renewal(s: Schedule, sent: int, done: int, turns: seq<Turn>, heard: int, heardNext: int)

  /** On-time beats with `k` failures between them, calls of at most `c`, and the entry lapsed in between. */
  ghost predicate Lapses(r: Renewal, k: nat, c: nat) {
    var s := RecordSuccess(r.s, r.done);
    var b := FirstBeat(s, r.turns);
    && r.sent <= r.heard <= r.done <= r.sent + c && Healthy(s, r.done, r.turns, c)
    && b.Beat? && b.failures == k && b.sent <= r.heardNext <= b.done
    && r.heardNext >= r.heard + SERVER_PRESENCE_TTL
  }

  ghost predicate CanLapse(k: nat, c: nat) { exists r: Renewal :: Lapses(r, k, c) }

  /** The entry can lapse if and only if the longest gap, and the first beat's call, fill its lifetime. */
  lemma LapseIff(k: nat, c: nat)
    ensures CanLapse(k, c) <==> c + Gap(k, c) >= SERVER_PRESENCE_TTL
  {
    if CanLapse(k, c) {
      var r: Renewal :| Lapses(r, k, c);
      RenewedInTime(r.s, r.done, r.turns, c);
    }
    if c + Gap(k, c) >= SERVER_PRESENCE_TTL {
      var s := Schedule(None, 0, SLOW_SEED, false, false);
      SlowSeed();
      var due := c + RENEW_INTERVAL + RENEW_JITTER;
      var turns := SlowRun(RecordSuccess(s, c), 0, c, due, k, c);
      var b := FirstBeat(RecordSuccess(s, c), turns);
      RenewedInTime(s, c, turns, c);
      assert Lapses(Renewal(s, 0, c, turns, 0, b.done), k, c);
    }
  }

  /** The longest call, in milliseconds, that an entry survives `k` failures in a row with; six are too many. */
  function LongestCall(k: nat): int {
    if k == 0 then 27_000
    else if k == 1 then 17_000
    else if k == 2 then 11_500
    else if k == 3 then 7_400
    else if k == 4 then 3_500
    else if k == 5 then 715
    else -1
  }

  lemma LapseTable(k: nat, c: nat)
    ensures CanLapse(k, c) <==> c > LongestCall(k)
  {
    LapseIff(k, c);
    FirstRetries(c);
    if k > 5 {
      RetriesGrow(0, 6, k, c);
    }
  }

  lemma FirstRetries(c: nat)
    ensures Retries(0, 0, c) == 0 && Retries(0, 1, c) == 2_999 + c && Retries(0, 2, c) == 7_998 + 2 * c
    ensures Retries(0, 3, c) == 16_997 + 3 * c && Retries(0, 4, c) == 32_996 + 4 * c
    ensures Retries(0, 5, c) == 48_995 + 5 * c && Retries(0, 6, c) == 64_994 + 6 * c
  {
    RetryDelays();
    assert Retries(5, 1, c) == 15_999 + c && Retries(4, 1, c) == 15_999 + c && Retries(4, 2, c) == 31_998 + 2 * c;
    assert Retries(3, 1, c) == 15_999 + c && Retries(3, 2, c) == 31_998 + 2 * c && Retries(3, 3, c) == 47_997 + 3 * c;
    FromFirst(0, c);
    FromFirst(1, c);
    FromFirst(2, c);
    FromFirst(3, c);
  }

  lemma FromFirst(k: nat, c: nat)
    ensures Retries(2, k + 1, c) == 8_999 + c + Retries(3, k, c)
    ensures Retries(1, k + 2, c) == 4_999 + c + Retries(2, k + 1, c)
    ensures Retries(0, k + 3, c) == 2_999 + c + Retries(1, k + 2, c)
  {
    RetryDelays();
  }

  lemma {:induction false} RetriesGrow(f: nat, j: nat, k: nat, c: nat)
    requires j <= k
    ensures Retries(f, j, c) <= Retries(f, k, c)
    decreases j
  {
    if j > 0 {
      RetriesGrow(f + 1, j - 1, k - 1, c);
    }
  }

  // ----------------------------------------------------------------- withdrawals

  /** The actions of a run, turn by turn. */
  ghost function Actions(s: Schedule, turns: seq<Turn>): (r: seq<Action>)
    ensures |r| == |turns|
  {
    if turns == [] then []
    else
      var last := |turns| - 1;
      Actions(s, turns[..last]) + [Act(After(s, turns[..last]), turns[last]).1]
  }

  /** Turn `k` told the service the device is online, and no later turn has taken that back. */
  ghost predicate StandsSince(actions: seq<Action>, turns: seq<Turn>, k: nat)
    requires |actions| == |turns|
  {
    && k < |turns| && actions[k].Announce? && turns[k].delivered
    && forall l :: k < l < |turns| ==> !(actions[l].Withdraw? && turns[l].delivered)
  }

  ghost predicate Stands(actions: seq<Action>, turns: seq<Turn>)
    requires |actions| == |turns|
  {
    exists k: nat :: StandsSince(actions, turns, k)
  }

  lemma StandsExtends(actions: seq<Action>, turns: seq<Turn>, a: Action, t: Turn)
    requires |actions| == |turns|
    ensures Stands(actions + [a], turns + [t]) <==>
      (a.Announce? && t.delivered) || (Stands(actions, turns) && !(a.Withdraw? && t.delivered))
  {
    var actions', turns' := actions + [a], turns + [t];
    if a.Announce? && t.delivered {
      assert StandsSince(actions', turns', |turns|);
    } else if Stands(actions, turns) && !(a.Withdraw? && t.delivered) {
      var k: nat :| StandsSince(actions, turns, k);
      assert StandsSince(actions', turns', k);
    }
    if Stands(actions', turns') {
      var k: nat :| StandsSince(actions', turns', k);
      if k < |turns| {
        forall l | k < l < |turns|
          ensures !(actions[l].Withdraw? && turns[l].delivered)
        {
          assert actions'[l] == actions[l] && turns'[l] == turns[l];
        }
        assert StandsSince(actions, turns, k);
        assert actions'[|turns|] == a && turns'[|turns|] == t;
      }
    }
  }

  lemma AdvertisedStep(s: Schedule, t: Turn)
    ensures var (s', a) := Act(s, t);
      && s'.advertised == ((a.Announce? && t.delivered) || (s.advertised && !(a.Withdraw? && t.delivered)))
      && (a.Withdraw? ==> s.advertised && !t.ready && t.authenticated)
  {
  }

  /**
   The schedule believes what the loop last recorded, so the loop never withdraws without a beat of
   its own to take back.
   */
  lemma {:induction false} WithdrawsOnlyWhatStands(s: Schedule, turns: seq<Turn>)
    requires !s.advertised
    ensures After(s, turns).advertised <==> Stands(Actions(s, turns), turns)
    ensures forall t :: Act(After(s, turns), t).1.Withdraw? ==> Stands(Actions(s, turns), turns)
  {
    if turns != [] {
      var last := |turns| - 1;
      var front, t := turns[..last], turns[last];
      WithdrawsOnlyWhatStands(s, front);
      AdvertisedStep(After(s, front), t);
      StandsExtends(Actions(s, front), front, Act(After(s, front), t).1, t);
      assert front + [t] == turns;
    }
    forall t | Act(After(s, turns), t).1.Withdraw?
      ensures After(s, turns).advertised
    {
      AdvertisedStep(After(s, turns), t);
    }
  }

  /** Turn `k` told the service the device is online, and neither the loop nor a sign-out took that back. */
  ghost predicate OnlineSince(actions: seq<Action>, turns: seq<Turn>, k: nat)
    requires |actions| == |turns|
  {
    StandsSince(actions, turns, k) && forall l :: k < l < |turns| ==> !turns[l].signedOut
  }

  ghost predicate Online(actions: seq<Action>, turns: seq<Turn>)
    requires |actions| == |turns|
  {
    exists k: nat :: OnlineSince(actions, turns, k)
  }

  /** Turn `k` tried to withdraw and failed, and no later turn made a call. */
  ghost predicate BackingOff(actions: seq<Action>, turns: seq<Turn>, k: nat, due: int)
    requires |actions| == |turns|
  {
    && k < |turns| && actions[k].Withdraw? && !turns[k].delivered
    && (forall l :: k < l < |turns| ==> actions[l].Wait?)
    && turns[k].done < due <= turns[k].done + RETRY_MAX
  }

  ghost predicate WithdrawingInv(s: Schedule, actions: seq<Action>, turns: seq<Turn>)
    requires |actions| == |turns|
  {
    s.withdrawing ==> s.nextDue.Some? && exists k: nat :: BackingOff(actions, turns, k, s.nextDue.value)
  }

  lemma WithdrawingStep(s: Schedule, actions: seq<Action>, turns: seq<Turn>, t: Turn)
    requires |actions| == |turns| && WithdrawingInv(s, actions, turns)
    ensures WithdrawingInv(Act(s, t).0, actions + [Act(s, t).1], turns + [t])
  {
    var (s', a) := Act(s, t);
    RetryDelays();
    if s'.withdrawing {
      if a.Withdraw? {
        assert BackingOff(actions + [a], turns + [t], |turns|, s'.nextDue.value);
      } else {
        var k: nat :| BackingOff(actions, turns, k, s.nextDue.value);
        assert BackingOff(actions + [a], turns + [t], k, s'.nextDue.value);
      }
    }
  }

  lemma {:induction false} WithdrawingOnlyAfterFailure(s: Schedule, turns: seq<Turn>)
    requires !s.withdrawing
    ensures WithdrawingInv(After(s, turns), Actions(s, turns), turns)
  {
    if turns != [] {
      var last := |turns| - 1;
      var front, t := turns[..last], turns[last];
      WithdrawingOnlyAfterFailure(s, front);
      WithdrawingStep(After(s, front), Actions(s, front), front, t);
      assert front + [t] == turns;
    }
  }

  /**
   An owed withdrawal waits for one thing only: the device is advertised, not ready and signed in,
   and the turn still does nothing, exactly when the last call of the run was a withdrawal that
   failed less than its retry delay, so less than 15 seconds, ago.
   */
  lemma OwedWithdrawal(s: Schedule, turns: seq<Turn>, t: Turn)
    requires !s.withdrawing && After(s, turns).advertised && !t.ready && t.authenticated
    ensures var now := After(s, turns);
      && (Act(now, t).1.Wait? <==> now.withdrawing && t.now < now.nextDue.value)
      && (!Act(now, t).1.Wait? ==> Act(now, t).1.Withdraw?)
      && (Act(now, t).1.Wait? ==> Act(now, t).0 == now)
      && (Act(now, t).1.Wait? ==> exists k: nat ::
            BackingOff(Actions(s, turns), turns, k, now.nextDue.value) && t.now < turns[k].done + RETRY_MAX)
  {
    WithdrawingOnlyAfterFailure(s, turns);
  }

  /** What stands as a turn begins: a beat that neither the loop nor a sign-out has taken back. */
  ghost predicate OnlineBefore(s: Schedule, turns: seq<Turn>, t: Turn) {
    Online(Actions(s, turns), turns) && !t.signedOut
  }

  /**
   A sign-out withdraws beside the loop, and the schedule is not told.  Over every run the schedule
   knows of every entry that stands.  And a turn calls a withdrawal of an entry that does not stand
   exactly when it finds the device not ready and somebody signed in, with no failed withdrawal to
   wait out, after a beat that only a sign-out has taken back.
   */
  lemma SignOutIsNotRecorded(s: Schedule, turns: seq<Turn>, t: Turn)
    requires !s.advertised && !s.withdrawing
    ensures Online(Actions(s, turns), turns) ==> After(s, turns).advertised
    ensures var now := After(s, turns);
      Act(now, t).1.Withdraw? && !OnlineBefore(s, turns, t) <==>
        && !t.ready && t.authenticated && !(now.withdrawing && t.now < now.nextDue.value)
        && Stands(Actions(s, turns), turns) && !OnlineBefore(s, turns, t)
  {
    WithdrawsOnlyWhatStands(s, turns);
    var actions := Actions(s, turns);
    if Online(actions, turns) {
      var k: nat :| OnlineSince(actions, turns, k);
      assert StandsSince(actions, turns, k);
    }
    if After(s, turns).advertised && !t.ready && t.authenticated {
      OwedWithdrawal(s, turns, t);
    }
    AdvertisedStep(After(s, turns), t);
  }

  /** It happens: a delivered beat, a sign-out, and a sign-in while the host is not ready. */
  lemma WithdrawnTwice(seed: nat) returns (s: Schedule, turns: seq<Turn>, t: Turn)
    ensures s == Schedule(None, 0, seed, false, false) && |turns| == 1 && turns[0].delivered && t.signedOut
    ensures Act(After(s, turns), t).1.Withdraw? && !OnlineBefore(s, turns, t)
  {
    s := Schedule(None, 0, seed, false, false);
    turns := [Turn(0, true, true, true, 0, false)];
    t := Turn(1_000, false, true, true, 1_000, true);
    assert turns[..0] == [];
  }

  /**
   The pre-check hides a short return to ready from the schedule.  Going unready again, the loop
   waits out the retry; a loop that polled on every tick would withdraw at once.
   */
  lemma ShortReturn(s: Schedule, ready: Turn, unready: Turn)
    requires s.advertised && s.withdrawing && s.nextDue.Some? && ready.ready && !unready.ready
    requires ready.authenticated && unready.authenticated && ready.now <= unready.now && ready.now < s.nextDue.value
    ensures Act(Act(s, ready).0, unready).1 == if unready.now < s.nextDue.value then Wait else Withdraw
    ensures Poll(Poll(s, ready.now, true, true).0, unready.now, false, true).1 == Withdraw
  {
  }

  // ----------------------------------------------------------------- announcements

  /** What turn `k` made the next call wait for. */
  ghost function DueOf(s: Schedule, turns: seq<Turn>, k: nat): int
    requires k < |turns|
  {
    var after := After(s, turns[..k + 1]);
    if after.nextDue.Some? then after.nextDue.value else turns[k].done
  }

  /**
   After `turns`, the turn `t` makes the schedule forget what it waits for: it finds the device not
   ready with nothing to withdraw, or it would make a call and finds nobody signed in.
   */
  ghost predicate Forgets(s: Schedule, turns: seq<Turn>, t: Turn)
    decreases |turns|, 2
  {
    if t.ready then !t.authenticated && !Held(s, turns, t.now)
    else !Stands(Actions(s, turns), turns) || (!t.authenticated && !HeldFrom(s, turns, t.now))
  }

  /** What turn `k` did. */
  ghost function ActionOf(s: Schedule, turns: seq<Turn>, k: nat): Action
    requires k < |turns|
  {
    Act(After(s, turns[..k]), turns[k]).1
  }

  /** After `turns`, the turn `t` makes no call and lets the schedule wait on. */
  ghost predicate LetsWait(s: Schedule, turns: seq<Turn>, t: Turn)
    decreases |turns|, 3
  {
    Act(After(s, turns), t).1.Wait? && !Forgets(s, turns, t)
  }

  /** Turn `k` made the last call, one that leaves something to wait for, and nothing has forgotten it. */
  ghost predicate SetBy(s: Schedule, turns: seq<Turn>, k: nat)
    decreases |turns|, 0
  {
    && k < |turns| && !ActionOf(s, turns, k).Wait? && !(ActionOf(s, turns, k).Withdraw? && turns[k].delivered)
    && forall l :: k < l < |turns| ==> LetsWait(s, turns[..l], turns[l])
  }

  ghost predicate Held(s: Schedule, turns: seq<Turn>, at: int)
    decreases |turns|, 1
  {
    exists k: nat :: SetBy(s, turns, k) && at < DueOf(s, turns, k)
  }

  /** The same of a withdrawal that failed. */
  ghost predicate HeldFrom(s: Schedule, turns: seq<Turn>, at: int)
    decreases |turns|, 1
  {
    exists k: nat :: SetBy(s, turns, k) && ActionOf(s, turns, k).Withdraw? && at < DueOf(s, turns, k)
  }

  ghost predicate New(s: Schedule) { s.nextDue.None? && s.failures == 0 && !s.advertised && !s.withdrawing }

  /** The schedule's own fields, told from the run. */
  ghost predicate DueInv(s: Schedule, turns: seq<Turn>) {
    var now := After(s, turns);
    && (now.nextDue.Some? ==> exists k: nat :: SetBy(s, turns, k))
    && (forall k: nat :: SetBy(s, turns, k) ==>
          && now.nextDue == Some(DueOf(s, turns, k))
          && (now.withdrawing <==> ActionOf(s, turns, k).Withdraw?))
    && (now.nextDue.None? ==> !now.withdrawing)
  }

  lemma HeldIff(s: Schedule, turns: seq<Turn>, at: int)
    requires DueInv(s, turns)
    ensures var now := After(s, turns);
      && (Held(s, turns, at) <==> now.nextDue.Some? && at < now.nextDue.value)
      && (HeldFrom(s, turns, at) <==> now.withdrawing && now.nextDue.Some? && at < now.nextDue.value)
  {
    var now := After(s, turns);
    if now.nextDue.Some? && at < now.nextDue.value {
      var k: nat :| SetBy(s, turns, k);
      assert at < DueOf(s, turns, k);
    }
  }

  lemma SetByExtends(s: Schedule, turns: seq<Turn>, t: Turn, k: nat)
    requires k < |turns|
    ensures SetBy(s, turns + [t], k) <==> SetBy(s, turns, k) && LetsWait(s, turns, t)
    ensures DueOf(s, turns + [t], k) == DueOf(s, turns, k)
    ensures ActionOf(s, turns + [t], k) == ActionOf(s, turns, k)
  {
    var more := turns + [t];
    assert more[..|turns|] == turns && more[..k + 1] == turns[..k + 1] && more[|turns|] == t;
    assert forall l :: 0 <= l < |turns| ==> more[..l] == turns[..l] && more[l] == turns[l];
  }

  /** When a turn that makes no call leaves the schedule as it was, and when it resets it. */
  lemma WaitingTurn(s: Schedule, turns: seq<Turn>, t: Turn)
    requires New(s) && DueInv(s, turns) && Act(After(s, turns), t).1.Wait?
    ensures var now := After(s, turns);
      Act(now, t).0 == if Forgets(s, turns, t) then Reset(now) else now
  {
    WithdrawsOnlyWhatStands(s, turns);
    HeldIff(s, turns, t.now);
  }

  lemma DueStep(s: Schedule, turns: seq<Turn>, t: Turn)
    requires New(s) && DueInv(s, turns)
    ensures DueInv(s, turns + [t])
  {
    var more, n := turns + [t], |turns|;
    var (after, a) := Act(After(s, turns), t);
    assert more[..n] == turns && more[..n + 1] == more && ActionOf(s, more, n) == a;
    forall k: nat | SetBy(s, more, k)
      ensures after.nextDue == Some(DueOf(s, more, k)) && (after.withdrawing <==> ActionOf(s, more, k).Withdraw?)
    {
      if k < n {
        SetByExtends(s, turns, t, k);
        WaitingTurn(s, turns, t);
      }
    }
    if after.nextDue.Some? {
      if a.Wait? {
        WaitingTurn(s, turns, t);
        var k: nat :| SetBy(s, turns, k);
        SetByExtends(s, turns, t, k);
      } else {
        assert SetBy(s, more, n);
      }
    } else if a.Wait? {
      WaitingTurn(s, turns, t);
    }
  }

  lemma {:induction false} DueReachable(s: Schedule, turns: seq<Turn>)
    requires New(s)
    ensures DueInv(s, turns)
    decreases |turns|
  {
    if turns != [] {
      var front, t := turns[..|turns| - 1], turns[|turns| - 1];
      DueReachable(s, front);
      DueStep(s, front, t);
      assert front + [t] == turns;
    }
  }

  /**
   In every run from a new schedule, a turn announces the device if and only if it finds the device
   ready, somebody signed in, and nothing left to wait for from the last call; and it withdraws it if
   and only if it finds the device not ready, somebody signed in, a beat that stands, and no failed
   withdrawal to wait out.
   */
  lemma AnnounceIff(s: Schedule, turns: seq<Turn>, t: Turn)
    requires New(s)
    ensures Act(After(s, turns), t).1.Announce? <==> t.ready && t.authenticated && !Held(s, turns, t.now)
    ensures Act(After(s, turns), t).1.Withdraw? <==>
      !t.ready && t.authenticated && Stands(Actions(s, turns), turns) && !HeldFrom(s, turns, t.now)
  {
    WithdrawsOnlyWhatStands(s, turns);
    DueReachable(s, turns);
    HeldIff(s, turns, t.now);
  }

  /** How long a call makes the next one wait: 30 to 35 seconds after a beat, 2 to 15 after a failure. */
  lemma DueBounds(s: Schedule, turns: seq<Turn>, k: nat)
    requires New(s) && SetBy(s, turns, k)
    ensures var wait := DueOf(s, turns, k) - turns[k].done;
      if turns[k].delivered then 30_000 <= wait <= 35_000 else 2_000 <= wait <= 15_000
  {
    RetryDelays();
    var upTo := turns[..k + 1];
    assert upTo[..k] == turns[..k] && upTo[k] == turns[k];
  }

  /**
   No turn makes a call with nobody signed in; one that would have makes none, and leaves the schedule
   due at once, with what it believes of the service unchanged.
   */
  lemma SignedOutIsSilent(s: Schedule, t: Turn)
    requires !t.authenticated
    ensures Act(s, t).1.Wait? && Act(s, t).0.advertised == s.advertised
    ensures WantsAttention(s, t.now, t.ready) ==>
      Act(s, t).0.nextDue.None? && Act(s, t).0.failures == 0 && !Act(s, t).0.withdrawing
  {
  }

  // ----------------------------------------------------------------- delays and jitter, from the run

  /**
   The failures in a row that a retry is reckoned from: a delivered call and anything that makes the
   schedule forget ends the row, and a withdrawal carries on none but a row of withdrawals.
   */
  ghost function Row(s: Schedule, turns: seq<Turn>): nat
    decreases |turns|
  {
    if turns == [] then 0
    else
      var front, t := turns[..|turns| - 1], turns[|turns| - 1];
      var a := Act(After(s, front), t).1;
      if a.Wait? then (if Forgets(s, front, t) then 0 else Row(s, front))
      else if t.delivered then 0
      else
        var carried := if a.Announce? || Withdrawing(s, front) then Row(s, front) else 0;
        Saturated(carried + 1)
  }

  /** The last call was a withdrawal that failed, and nothing has forgotten it. */
  ghost predicate Withdrawing(s: Schedule, turns: seq<Turn>) {
    exists k: nat :: SetBy(s, turns, k) && ActionOf(s, turns, k).Withdraw?
  }

  lemma {:induction false} RowIsCounted(s: Schedule, turns: seq<Turn>)
    requires New(s)
    ensures After(s, turns).failures == Row(s, turns)
    decreases |turns|
  {
    if turns != [] {
      var front, t := turns[..|turns| - 1], turns[|turns| - 1];
      RowIsCounted(s, front);
      DueReachable(s, front);
      if Act(After(s, front), t).1.Wait? {
        WaitingTurn(s, front, t);
      } else if After(s, front).withdrawing {
        var k: nat :| SetBy(s, front, k);
        assert Withdrawing(s, front);
      }
    }
  }

  /** In every run a call that fails is retried after 2, 4, 8 and then 15 seconds, by its place in the row. */
  lemma RetriedByRow(s: Schedule, turns: seq<Turn>, t: Turn)
    requires New(s) && !Act(After(s, turns), t).1.Wait? && !t.delivered
    ensures var row := Row(s, turns + [t]);
      After(s, turns + [t]).nextDue ==
        Some(t.done + if row == 1 then 2_000 else if row == 2 then 4_000 else if row == 3 then 8_000 else 15_000)
  {
    var more := turns + [t];
    assert more[..|turns|] == turns;
    RowIsCounted(s, more);
    RetryDelays();
  }

  /** The state of the jitter sequence after `n` draws. */
  ghost function Drawn(seed: nat, n: nat): nat {
    if n == 0 then seed
    else (Drawn(seed, n - 1) * 6_364_136_223_846_793_005 + 1_442_695_040_888_963_407) % 0x1_0000_0000_0000_0000
  }

  ghost function Beats(s: Schedule, turns: seq<Turn>): nat {
    if turns == [] then 0
    else
      var front, t := turns[..|turns| - 1], turns[|turns| - 1];
      Beats(s, front) + (if Act(After(s, front), t).1.Announce? && t.delivered then 1 else 0)
  }

  lemma {:induction false} SeedByBeats(s: Schedule, turns: seq<Turn>)
    ensures After(s, turns).seed == Drawn(s.seed, Beats(s, turns))
    decreases |turns|
  {
    if turns != [] {
      var front, t := turns[..|turns| - 1], turns[|turns| - 1];
      SeedByBeats(s, front);
      assert Drawn(s.seed, Beats(s, front) + 1) == NextSeed(Drawn(s.seed, Beats(s, front)));
    }
  }

  /** In every run each delivered beat draws the next jitter of the sequence: the top 31 bits, up to five seconds. */
  lemma BeatsAreSpread(s: Schedule, turns: seq<Turn>, t: Turn)
    requires Act(After(s, turns), t).1.Announce? && t.delivered
    ensures After(s, turns + [t]).nextDue ==
      Some(t.done + 30_000 + Drawn(s.seed, Beats(s, turns) + 1) / 0x2_0000_0000 % 5_001)
  {
    var more := turns + [t];
    assert more[..|turns|] == turns;
    SeedByBeats(s, turns);
    assert Drawn(s.seed, Beats(s, turns) + 1) == NextSeed(Drawn(s.seed, Beats(s, turns)));
  }

  /** Polled with nothing advertised, a schedule forgets what it waited for. */
  lemma NothingToWithdraw(s: Schedule, now: int)
    requires !s.advertised
    ensures var (s', action) := Poll(s, now, false, true);
      action.Wait? && s'.nextDue.None? && s'.failures == 0 && !s'.withdrawing && !s'.advertised && s'.seed == s.seed
  {
  }
}
