/**
 The iOS audio sink: a bounded queue of PCM buffers, a flag that says a drain task is
 outstanding, and a ceiling on the buffers handed to the player.  Producers, the main queue and
 completion callbacks share it, so every lock section is one atomic step here and the dispatch
 that follows an unlock is a step of its own.
 */
module AudioSink {

  const MAX_PENDING := 8
  const MAX_SCHEDULED := 2

  type Pcm = seq<int>

  /** The fields `queueLock` guards. */
  datatype Queue = Queue(pending: seq<Pcm>, scheduled: nat, drainScheduled: bool)

  // ----------------------------------------------------------------- lock sections

  /** The locked part of `enqueue`; the flag says whether the caller must dispatch a drain. */
  function EnqueueSection(q: Queue, pcm: Pcm): (Queue, bool) {
    var kept := if |q.pending| >= MAX_PENDING then q.pending[1..] else q.pending;
    (q.(pending := kept + [pcm], drainScheduled := true), !q.drainScheduled)
  }

  datatype DrainResult = Stop | Take(samples: Pcm, more: bool)

  /** The locked part of `drainNext`. */
  function DrainSection(q: Queue): (Queue, DrainResult) {
    if q.pending == [] || q.scheduled >= MAX_SCHEDULED then
      (q.(drainScheduled := false), Stop)
    else
      var rest := q.pending[1..];
      (Queue(rest, q.scheduled + 1, q.drainScheduled && rest != []), Take(q.pending[0], rest != []))
  }

  /** The locked part of `completeScheduledBuffer`. */
  function CompleteSection(q: Queue): (Queue, bool) {
    var schedule := q.pending != [] && !q.drainScheduled;
    (Queue(q.pending, if q.scheduled == 0 then 0 else q.scheduled - 1, q.drainScheduled || schedule), schedule)
  }

  /** The sink object itself, updated in place. */
  class Sink {
    var pending: seq<Pcm>
    var scheduledBuffers: nat
    var drainScheduled: bool

    ghost function View(): Queue
      reads this
    {
      Queue(pending, scheduledBuffers, drainScheduled)
    }

    constructor ()
      ensures View() == Queue([], 0, false)
    {
      pending, scheduledBuffers, drainScheduled := [], 0, false;
    }

    /** A buffer of fewer than two samples holds no frame and is ignored. */
    method Enqueue(pcm: Pcm) returns (schedule: bool)
      modifies this
      ensures |pcm| < 2 ==> View() == old(View()) && !schedule
      ensures |pcm| >= 2 ==> (View(), schedule) == EnqueueSection(old(View()), pcm)
    {
      if |pcm| < 2 {
        return false;
      }
      if |pending| >= MAX_PENDING {
        pending := pending[1..];
      }
      pending := pending + [pcm];
      schedule := !drainScheduled;
      if schedule {
        drainScheduled := true;
      }
    }

    method DrainNext() returns (result: DrainResult)
      modifies this
      ensures (View(), result) == DrainSection(old(View()))
    {
      if pending == [] {
        drainScheduled := false;
        return Stop;
      }
      if scheduledBuffers >= MAX_SCHEDULED {
        drainScheduled := false;
        return Stop;
      }
      var samples := pending[0];
      pending := pending[1..];
      scheduledBuffers := scheduledBuffers + 1;
      var more := pending != [];
      if !more {
        drainScheduled := false;
      }
      return Take(samples, more);
    }

    method CompleteScheduledBuffer() returns (schedule: bool)
      modifies this
      ensures (View(), schedule) == CompleteSection(old(View()))
    {
      if scheduledBuffers > 0 {
        scheduledBuffers := scheduledBuffers - 1;
      }
      schedule := pending != [] && !drainScheduled;
      if schedule {
        drainScheduled := true;
      }
    }
  }

  // ----------------------------------------------------------------- the concurrent system

  /** Where the serial main queue is inside `drainNext`. */
  datatype MainThread =
    | Idle
    | Handing(samples: Pcm, more: bool)   // unlocked, about to build and schedule the buffer
    | Failing(more: bool)                 // no buffer; about to complete the slot itself
    | Continuing(more: bool)              // about to dispatch the next drain, if there is more

  datatype Fate = Taken | Dropped

  /**
   `claimed` threads have set the flag and not dispatched yet, `dispatched` drains wait on the
   main queue, and `outstanding` player callbacks have not run.  The last four fields are history:
   every buffer accepted, what became of those no longer queued, those a drain took, and those
   the player was given.
   */
  datatype World = World(q: Queue, claimed: nat, dispatched: nat, main: MainThread, outstanding: nat,
                         enqueued: seq<Pcm>, fates: seq<Fate>, taken: seq<Pcm>, played: seq<Pcm>)

  /** A sink nobody has used. */
  ghost predicate Init(w: World) {
    && |w.q.pending| == 0 && w.q.scheduled == 0 && !w.q.drainScheduled
    && w.claimed == 0 && w.dispatched == 0 && w.outstanding == 0 && w.main.Idle?
    && |w.enqueued| == 0 && |w.fates| == 0 && |w.taken| == 0 && |w.played| == 0
  }

  datatype Step = Enqueue(pcm: Pcm) | Dispatch | Drain | HandOver(buffer: bool) | FailComplete | Continue | Complete

  predicate Enabled(w: World, step: Step) {
    match step
    case Enqueue(pcm) => |pcm| >= 2
    case Dispatch => w.claimed > 0
    case Drain => w.main.Idle? && w.dispatched > 0
    case HandOver(_) => w.main.Handing?
    case FailComplete => w.main.Failing?
    case Continue => w.main.Continuing?
    case Complete => w.outstanding > 0
  }

  function Next(w: World, step: Step): World
    requires Enabled(w, step)
  {
    match step
    case Enqueue(pcm) =>
      var (q, schedule) := EnqueueSection(w.q, pcm);
      var fates := if |w.q.pending| >= MAX_PENDING then w.fates + [Dropped] else w.fates;
      w.(q := q, claimed := w.claimed + One(schedule), enqueued := w.enqueued + [pcm], fates := fates)
    case Dispatch =>
      w.(claimed := w.claimed - 1, dispatched := w.dispatched + 1)
    case Drain =>
      var (q, result) := DrainSection(w.q);
      var w' := w.(q := q, dispatched := w.dispatched - 1);
      if result.Stop? then w'
      else w'.(main := Handing(result.samples, result.more),
               taken := w.taken + [result.samples], fates := w.fates + [Taken])
    case HandOver(buffer) =>
      if buffer then
        w.(main := Continuing(w.main.more), outstanding := w.outstanding + 1, played := w.played + [w.main.samples])
      else
        w.(main := Failing(w.main.more))
    case FailComplete =>
      var (q, schedule) := CompleteSection(w.q);
      w.(q := q, claimed := w.claimed + One(schedule), main := Continuing(w.main.more))
    case Continue =>
      w.(main := Idle, dispatched := w.dispatched + One(w.main.more))
    case Complete =>
      var (q, schedule) := CompleteSection(w.q);
      w.(q := q, claimed := w.claimed + One(schedule), outstanding := w.outstanding - 1)
  }

  function One(b: bool): nat { if b then 1 else 0 }

  ghost predicate IsRun(w: World, steps: seq<Step>)
    decreases |steps|
  {
    steps == [] || (Enabled(w, steps[0]) && IsRun(Next(w, steps[0]), steps[1..]))
  }

  ghost function After(w: World, steps: seq<Step>): World
    requires IsRun(w, steps)
    decreases |steps|
  {
    if steps == [] then w else After(Next(w, steps[0]), steps[1..])
  }

  // ----------------------------------------------------------------- what every step keeps

  /** Drain tasks that exist: claimed, on the main queue, or running with more to do. */
  function LiveDrains(w: World): nat {
    w.claimed + w.dispatched + One(!w.main.Idle? && w.main.more)
  }

  /** Slots of the ceiling in use by the main thread rather than by the player. */
  function InHand(w: World): nat { One(w.main.Handing? || w.main.Failing?) }

  /** The buffer the main thread holds but has not given to the player. */
  function Holding(w: World): seq<Pcm> { if w.main.Handing? then [w.main.samples] else [] }

  ghost predicate DrainInv(w: World) {
    && LiveDrains(w) == One(w.q.drainScheduled)
    && w.q.scheduled == w.outstanding + InHand(w)
    && (w.q.pending != [] && !w.q.drainScheduled ==> w.q.scheduled == MAX_SCHEDULED)
    && |w.q.pending| <= MAX_PENDING
    && w.q.scheduled <= MAX_SCHEDULED
  }

  /** The members of `s` whose fate is `Taken`, in order. */
  ghost function TakenOf(s: seq<Pcm>, fates: seq<Fate>): seq<Pcm>
    requires |s| == |fates|
  {
    if s == [] then []
    else TakenOf(s[..|s| - 1], fates[..|s| - 1]) + (if fates[|s| - 1].Taken? then [s[|s| - 1]] else [])
  }

  /** `a` is what is left of `b` after deleting some of its elements. */
  ghost predicate Subsequence(a: seq<Pcm>, b: seq<Pcm>)
    decreases |b|
  {
    a == [] || (b != [] && (Subsequence(a, b[..|b| - 1])
                            || (a[|a| - 1] == b[|b| - 1] && Subsequence(a[..|a| - 1], b[..|b| - 1]))))
  }

  /**
   Every accepted buffer is accounted for once and in order: those with a fate come first, those
   still queued are the rest.  A buffer is dropped only after eight newer ones were accepted.
   */
  ghost predicate AccountInv(w: World) {
    && |w.fates| + |w.q.pending| == |w.enqueued|
    && w.q.pending == w.enqueued[|w.fates|..]
    && w.taken == TakenOf(w.enqueued[..|w.fates|], w.fates)
    && (forall i :: 0 <= i < |w.fates| && w.fates[i].Dropped? ==> i + MAX_PENDING < |w.enqueued|)
  }

  /** The player is given a selection of what was taken, in order. */
  ghost predicate OrderInv(w: World) { Subsequence(w.played + Holding(w), w.taken) }

  ghost predicate Inv(w: World) { DrainInv(w) && AccountInv(w) && OrderInv(w) }

  lemma SubsequenceGrows(a: seq<Pcm>, b: seq<Pcm>, x: Pcm)
    requires Subsequence(a, b)
    ensures Subsequence(a, b + [x]) && Subsequence(a + [x], b + [x])
  {
    assert (b + [x])[..|b|] == b && (a + [x])[..|a|] == a;
  }

  lemma {:induction false} SubsequenceShrinks(a: seq<Pcm>, b: seq<Pcm>)
    requires a != [] && Subsequence(a, b)
    ensures Subsequence(a[..|a| - 1], b)
    decreases |b|
  {
    var front := b[..|b| - 1];
    assert front + [b[|b| - 1]] == b;
    if Subsequence(a, front) {
      SubsequenceShrinks(a, front);
    }
    SubsequenceGrows(a[..|a| - 1], front, b[|b| - 1]);
  }

  lemma DrainInvKept(w: World, step: Step)
    requires DrainInv(w) && Enabled(w, step)
    ensures DrainInv(Next(w, step))
  {
  }

  /** Giving the oldest unsettled buffer a fate extends `TakenOf` by at most that buffer. */
  lemma TakenOfGrows(s: seq<Pcm>, fates: seq<Fate>, fate: Fate)
    requires |fates| < |s|
    ensures TakenOf(s[..|fates| + 1], fates + [fate]) ==
            TakenOf(s[..|fates|], fates) + (if fate.Taken? then [s[|fates|]] else [])
  {
    assert s[..|fates| + 1][..|fates|] == s[..|fates|];
    assert (fates + [fate])[..|fates|] == fates;
  }

  lemma EnqueueAccount(w: World, pcm: Pcm)
    requires DrainInv(w) && AccountInv(w) && |pcm| >= 2
    ensures AccountInv(Next(w, Enqueue(pcm)))
  {
    var w' := Next(w, Enqueue(pcm));
    assert w'.enqueued[..|w.fates|] == w.enqueued[..|w.fates|];
    if |w.q.pending| >= MAX_PENDING {
      TakenOfGrows(w'.enqueued, w.fates, Dropped);
      assert w'.q.pending == w'.enqueued[|w'.fates|..];
    } else {
      assert w'.q.pending == w'.enqueued[|w.fates|..];
    }
  }

  lemma DrainAccount(w: World)
    requires AccountInv(w) && Enabled(w, Drain)
    ensures AccountInv(Next(w, Drain))
  {
    var w' := Next(w, Drain);
    if w'.main.Handing? {
      TakenOfGrows(w.enqueued, w.fates, Taken);
      assert w.q.pending[0] == w.enqueued[|w.fates|];
      assert w'.q.pending == w'.enqueued[|w'.fates|..];
    }
  }

  lemma AccountKept(w: World, step: Step)
    requires DrainInv(w) && AccountInv(w) && Enabled(w, step)
    ensures AccountInv(Next(w, step))
  {
    match step {
      case Enqueue(pcm) => EnqueueAccount(w, pcm);
      case Drain => DrainAccount(w);
      case _ =>
    }
  }

  lemma OrderKept(w: World, step: Step)
    requires OrderInv(w) && Enabled(w, step)
    ensures OrderInv(Next(w, step))
  {
    var w' := Next(w, step);
    if step.Drain? {
      assert w.played + [] == w.played;
      if w'.main.Handing? {
        SubsequenceGrows(w.played, w.taken, w.q.pending[0]);
      }
    } else if step.HandOver? {
      if step.buffer {
        assert w'.played + [] == w.played + Holding(w);
      } else {
        WithoutHolding(w);
        assert w.played + [] == w.played;
      }
    }
  }

  lemma WithoutHolding(w: World)
    requires OrderInv(w)
    ensures Subsequence(w.played, w.taken)
  {
    if w.main.Handing? {
      SubsequenceShrinks(w.played + Holding(w), w.taken);
      assert (w.played + Holding(w))[..|w.played|] == w.played;
    } else {
      assert w.played + [] == w.played;
    }
  }

  lemma InvKept(w: World, step: Step)
    requires Inv(w) && Enabled(w, step)
    ensures Inv(Next(w, step))
  {
    DrainInvKept(w, step);
    AccountKept(w, step);
    OrderKept(w, step);
  }

  lemma InitialInv(w: World)
    requires Init(w)
    ensures Inv(w)
  {
  }

  /** Every reachable state of every interleaving satisfies both invariants. */
  lemma {:induction false} Reachable(w: World, steps: seq<Step>)
    requires Inv(w) && IsRun(w, steps)
    ensures Inv(After(w, steps))
    decreases |steps|
  {
    if steps != [] {
      InvKept(w, steps[0]);
      Reachable(Next(w, steps[0]), steps[1..]);
    }
  }

  // ----------------------------------------------------------------- the promises

  /**
   Safety of every run: one live drain exactly when the flag is set; a queue with no drain coming
   is waiting on a full ceiling of completions, none of which underflows the count; the bounds
   hold; every accepted buffer is accounted for; and what the player was given is an in-order
   selection of what was accepted.
   */
  lemma {:induction false} NeverStranded(start: World, steps: seq<Step>)
    requires Init(start) && IsRun(start, steps)
    ensures var w := After(start, steps);
      && LiveDrains(w) == One(w.q.drainScheduled)
      && (w.q.pending != [] && LiveDrains(w) == 0 ==> w.outstanding + InHand(w) == 2)
      && |w.q.pending| <= 8 && w.q.scheduled <= 2
      && (Enabled(w, Complete) || Enabled(w, FailComplete) ==> w.q.scheduled > 0)
      && AccountInv(w) && Subsequence(w.played, w.enqueued)
  {
    InitialInv(start);
    Reachable(start, steps);
    PlayedInOrder(After(start, steps));
  }

  /** In every run: the oldest of eight gives way, and none of fewer does. */
  lemma DropsOnlyWhenFull(start: World, steps: seq<Step>, pcm: Pcm)
    requires Init(start) && IsRun(start, steps) && |pcm| >= 2
    ensures var w := After(start, steps); var w' := Next(w, Enqueue(pcm));
      && w'.q.pending == (if |w.q.pending| == 8 then w.q.pending[1..] else w.q.pending) + [pcm]
      && w'.q.drainScheduled && w'.claimed == w.claimed + One(!w.q.drainScheduled)
  {
    InitialInv(start);
    Reachable(start, steps);
  }

  /** A drain takes the oldest buffer if and only if there is one and fewer than two are scheduled. */
  lemma TakesBelowCeiling(w: World)
    requires Enabled(w, Drain)
    ensures var w' := Next(w, Drain);
      if w.q.pending != [] && w.q.scheduled < 2 then
        && w'.taken == w.taken + [w.q.pending[0]] && w'.q.pending == w.q.pending[1..]
        && w'.q.scheduled == w.q.scheduled + 1 && w'.main == Handing(w.q.pending[0], |w.q.pending| > 1)
      else w'.taken == w.taken && w'.q == w.q.(drainScheduled := false) && w'.main == Idle
  {
  }

  /** In every run a completion frees one slot, and claims a drain if and only if something waits for one. */
  lemma CompletionClaims(start: World, steps: seq<Step>)
    requires Init(start) && IsRun(start, steps) && Enabled(After(start, steps), Complete)
    ensures var w := After(start, steps); var w' := Next(w, Complete);
      var claims := w.q.pending != [] && !w.q.drainScheduled;
      && w'.q.pending == w.q.pending && w'.q.scheduled == w.q.scheduled - 1
      && w'.q.drainScheduled == (w.q.drainScheduled || claims)
      && w'.claimed == w.claimed + One(claims) && w'.outstanding == w.outstanding - 1
  {
    InitialInv(start);
    Reachable(start, steps);
  }

  lemma {:induction false} PlayedInOrder(w: World)
    requires AccountInv(w) && OrderInv(w)
    ensures Subsequence(w.played, w.enqueued)
  {
    var settled := w.enqueued[..|w.fates|];
    WithoutHolding(w);
    TakenIsSubsequence(settled, w.fates);
    SubsequenceTrans(w.played, w.taken, settled);
    SubsequenceExtends(w.played, settled, w.q.pending);
    assert settled + w.q.pending == w.enqueued;
  }

  lemma {:induction false} TakenIsSubsequence(s: seq<Pcm>, fates: seq<Fate>)
    requires |s| == |fates|
    ensures Subsequence(TakenOf(s, fates), s)
  {
    if s != [] {
      var n := |s| - 1;
      TakenIsSubsequence(s[..n], fates[..n]);
      SubsequenceGrows(TakenOf(s[..n], fates[..n]), s[..n], s[n]);
      assert s[..n] + [s[n]] == s;
      assert TakenOf(s[..n], fates[..n]) + [] == TakenOf(s[..n], fates[..n]);
    }
  }

  lemma {:induction false} SubsequenceTrans(a: seq<Pcm>, b: seq<Pcm>, c: seq<Pcm>)
    requires Subsequence(a, b) && Subsequence(b, c)
    ensures Subsequence(a, c)
    decreases |c|
  {
    if a != [] {
      var c' := c[..|c| - 1];
      if Subsequence(b, c') {
        SubsequenceTrans(a, b, c');
      } else if Subsequence(a, b[..|b| - 1]) {
        SubsequenceTrans(a, b[..|b| - 1], c');
      } else {
        SubsequenceTrans(a[..|a| - 1], b[..|b| - 1], c');
      }
    }
  }

  lemma {:induction false} SubsequenceExtends(a: seq<Pcm>, b: seq<Pcm>, tail: seq<Pcm>)
    requires Subsequence(a, b)
    ensures Subsequence(a, b + tail)
    decreases |tail|
  {
    if tail == [] {
      assert b + tail == b;
    } else {
      var n := |tail| - 1;
      SubsequenceExtends(a, b, tail[..n]);
      SubsequenceGrows(a, b + tail[..n], tail[n]);
      assert b + tail[..n] + [tail[n]] == b + tail;
    }
  }

  // ----------------------------------------------------------------- progress

  function MainWork(m: MainThread): nat {
    match m
    case Idle => 0
    case Handing(_, _) => 6
    case Failing(_) => 5
    case Continuing(_) => 2
  }

  /** Work left if nothing more is enqueued. */
  function Work(w: World): nat {
    6 * |w.q.pending| + 3 * w.outstanding + 2 * w.claimed + w.dispatched + MainWork(w.main)
  }

  ghost predicate NoEnqueue(steps: seq<Step>) {
    forall i :: 0 <= i < |steps| ==> !steps[i].Enqueue?
  }

  /** A step other than an enqueue uses up work and neither loses nor reorders a buffer. */
  lemma StepProgress(w: World, step: Step)
    requires Inv(w) && Enabled(w, step) && !step.Enqueue?
    ensures Work(Next(w, step)) < Work(w)
    ensures Next(w, step).taken + Next(w, step).q.pending == w.taken + w.q.pending
  {
    if step.Drain? && Next(w, step).main.Handing? {
      assert w.q.pending == [w.q.pending[0]] + w.q.pending[1..];
    }
  }

  /** As long as a buffer is queued, some thread can move. */
  lemma SomethingEnabled(w: World)
    requires DrainInv(w) && w.q.pending != []
    ensures exists step: Step :: !step.Enqueue? && Enabled(w, step)
  {
    if w.claimed > 0 {
      assert Enabled(w, Dispatch);
    } else if w.main.Handing? {
      assert Enabled(w, HandOver(true));
    } else if w.main.Failing? {
      assert Enabled(w, FailComplete);
    } else if w.main.Continuing? {
      assert Enabled(w, Continue);
    } else if w.dispatched > 0 {
      assert Enabled(w, Drain);
    } else {
      assert Enabled(w, Complete);
    }
  }

  /**
   Once enqueueing stops, every run from a reachable state is shorter than the work left in it,
   and one that cannot go on has emptied the queue into the drain, in order, dropping nothing.
   */
  lemma {:induction false} DrainsCompletely(w: World, steps: seq<Step>)
    requires Inv(w) && IsRun(w, steps) && NoEnqueue(steps)
    ensures |steps| <= Work(w) <= 59
    ensures var end := After(w, steps);
      (forall step: Step :: Enabled(end, step) ==> step.Enqueue?) ==>
        end.q.pending == [] && end.taken == w.taken + w.q.pending
    decreases |steps|
  {
    if steps == [] {
      if w.q.pending != [] {
        SomethingEnabled(w);
      } else {
        assert w.taken + w.q.pending == w.taken;
      }
    } else {
      StepProgress(w, steps[0]);
      InvKept(w, steps[0]);
      DrainsCompletely(Next(w, steps[0]), steps[1..]);
    }
  }
}
