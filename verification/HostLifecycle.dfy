/**
 Turning hosting on and off: what the shell makes of the host agent's reports, and the
 transactions that carry an intent to the agent and its outcome back, under one lock.
 */
module HostLifecycle {
  import opened AppCore
  import opened Options

  // ----------------------------------------------------------------- adopting the agent's state

  datatype ChildState = AgentStopped | AgentStarting | AgentReady | AgentBackoff | AgentStopping | AgentFailed

  /** A health report; `message` and `retryable` describe its last error. */
  datatype Health = Health(state: ChildState, message: string, retryable: bool)

  /** The commands `reconcile_host_health` chooses. */
  function Chosen(status: HostStatus, health: Health): seq<Command> {
    match health.state
    case AgentReady =>
      if status.HostReady? then []
      else if status.HostStarting? then [ReportReady]
      else [EnableHosting, ReportReady]
    case AgentStopped => if status.HostDisabled? then [] else [DisableHosting]
    case AgentStopping => if status.HostDisabled? then [] else [DisableHosting]
    case AgentFailed =>
      if status.HostDisabled? || status.HostFailed? then [] else [ReportFailed(health.message, health.retryable)]
    case _ =>
      if status.HostStarting? then []
      else if status.HostDisabled? then [EnableHosting]
      else [ReportStarting]
  }

  /** The status the agent's state stands for; a failure is no news to a shell that is not hosting. */
  predicate Matches(before: HostStatus, health: Health, after: HostStatus) {
    match health.state
    case AgentReady => after.HostReady?
    case AgentStopped => after.HostDisabled?
    case AgentStopping => after.HostDisabled?
    case AgentFailed =>
      if before.HostDisabled? || before.HostFailed? then after == before
      else after == HostFailed(health.message, health.retryable)
    case _ => after.HostStarting?
  }

  /** Dispatching commands in order until one is refused, as the loop over the chosen ones does. */
  function DispatchAll(status: HostStatus, commands: seq<Command>): (HostStatus, bool)
    decreases |commands|
  {
    if commands == [] then (status, true)
    else
      var (status', outcome) := DispatchHost(status, commands[0]);
      if outcome.Err? then (status', false) else DispatchAll(status', commands[1..])
  }

  lemma OneCommand(status: HostStatus, a: Command)
    ensures DispatchAll(status, [a]) == (DispatchHost(status, a).0, DispatchHost(status, a).1.Ok?)
  {
    assert [a][1..] == [];
  }

  lemma TwoCommands(status: HostStatus, a: Command, b: Command)
    requires DispatchHost(status, a).1.Ok?
    ensures DispatchAll(status, [a, b]) == DispatchAll(DispatchHost(status, a).0, [b])
  {
    assert [a, b][1..] == [b];
  }

  /**
   Whatever the status and the report, every chosen command is accepted, the status they leave is
   the one the agent's state stands for, and the same report then chooses nothing.
   */
  lemma AllAccepted(status: HostStatus, health: Health)
    ensures var (after, accepted) := DispatchAll(status, Chosen(status, health));
      accepted && Matches(status, health, after) && Chosen(after, health) == []
  {
    var commands := Chosen(status, health);
    if |commands| == 1 {
      OneCommand(status, commands[0]);
      assert commands == [commands[0]];
    } else if |commands| == 2 {
      assert commands == [EnableHosting, ReportReady];
      TwoCommands(status, EnableHosting, ReportReady);
      OneCommand(HostStarting, ReportReady);
    }
  }

  method ReconcileHostHealth(status: HostStatus, health: Health) returns (after: HostStatus, accepted: bool)
    ensures accepted && Matches(status, health, after) && Chosen(after, health) == []
    ensures after == DispatchAll(status, Chosen(status, health)).0
  {
    var commands := Chosen(status, health);
    after, accepted := status, true;
    var k := 0;
    while k < |commands| && accepted
      invariant 0 <= k <= |commands|
      invariant DispatchAll(status, commands) == if accepted then DispatchAll(after, commands[k..]) else (after, false)
    {
      assert commands[k..][1..] == commands[k + 1..];
      var (next, outcome) := DispatchHost(after, commands[k]);
      after, accepted := next, outcome.Ok?;
      k := k + 1;
    }
    AllAccepted(status, health);
    assert accepted ==> commands[k..] == [];
  }

  // ----------------------------------------------------------------- what an accepted start proved

  datatype AgentEvent =
    | Spawned | RestartScheduled | ChildExited | ChildStopped
    | ChildReady
    | ChildFailed(message: string, retryable: bool)

  /** The last event that proves anything decides. */
  function StartCommand(events: seq<AgentEvent>): (command: Option<Command>)
    ensures command.Some? ==> command.value.ReportReady? || command.value.ReportFailed?
  {
    if events == [] then None
    else
      match events[|events| - 1]
      case ChildReady => Some(ReportReady)
      case ChildFailed(message, retryable) => Some(ReportFailed(message, retryable))
      case _ => StartCommand(events[..|events| - 1])
  }

  predicate Decisive(e: AgentEvent) { e.ChildReady? || e.ChildFailed? }

  /** The `k`th event is the last that proves anything. */
  ghost predicate LastDecisive(events: seq<AgentEvent>, k: nat) {
    k < |events| && Decisive(events[k]) && forall j :: k < j < |events| ==> !Decisive(events[j])
  }

  ghost predicate Says(e: AgentEvent, command: Option<Command>) {
    command == if e.ChildFailed? then Some(ReportFailed(e.message, e.retryable)) else Some(ReportReady)
  }

  lemma {:induction false} LastDecides(events: seq<AgentEvent>)
    ensures forall k: nat :: LastDecisive(events, k) ==> Says(events[k], StartCommand(events))
    ensures StartCommand(events).None? <==> forall k :: 0 <= k < |events| ==> !Decisive(events[k])
    decreases |events|
  {
    if events != [] {
      var last := |events| - 1;
      var front := events[..last];
      LastDecides(front);
      forall k: nat | LastDecisive(events, k)
        ensures Says(events[k], StartCommand(events))
      {
        if k < last {
          assert !Decisive(events[last]);
          assert LastDecisive(front, k);
        }
      }
    }
  }

  method HostStartCommand(events: seq<AgentEvent>) returns (command: Option<Command>)
    ensures command == StartCommand(events)
    ensures forall k: nat :: LastDecisive(events, k) ==> Says(events[k], command)
    ensures command.None? <==> forall e :: e in events ==> !e.ChildReady? && !e.ChildFailed?
  {
    command := None;
    for k := 0 to |events|
      invariant command == StartCommand(events[..k])
      invariant command.None? <==> forall j :: 0 <= j < k ==> !events[j].ChildReady? && !events[j].ChildFailed?
    {
      assert events[..k + 1][..k] == events[..k];
      match events[k] {
        case ChildReady => command := Some(ReportReady);
        case ChildFailed(message, retryable) => command := Some(ReportFailed(message, retryable));
        case _ =>
      }
    }
    assert events[..|events|] == events;
    LastDecides(events);
  }

  // ----------------------------------------------------------------- transactions

  datatype Reply = Events(events: seq<AgentEvent>) | BridgeError(message: string, retryable: bool)

  /** Where a task is.  Everything but `Resting` happens with the lifecycle lock held. */
  datatype Phase =
    | Resting
    | Holding                              // has the lock
    | Intended(id: nat)                    // the model carries the intent
    | Requested(id: nat, processed: bool)  // the agent has, or will get, the request
    | Answered(id: nat, reply: Reply)      // the call returned
    | Settled                              // the model carries the outcome
    | Observed(health: Health)             // the agent answered a health call

  /**
   A lifecycle task works off its intents, true to enable.  The background reconciler has none, and
   nor has an approval, which starts a session at the agent and leaves the model alone.
   */
  datatype Kind = Lifecycle | Background | Approval

  datatype Task = Task(kind: Kind, intents: seq<bool>, phase: Phase)

  datatype LogEntry =
    | Intent(id: nat, enable: bool)
    | Processed(id: nat, enable: bool)
    | Outcome(id: nat, accepted: bool)
    | Reconciled(background: bool)
    | SessionStarted

  /** An entry of a transaction. */
  predicate HasId(e: LogEntry) { e.Intent? || e.Processed? || e.Outcome? }

  /**
   `stale` holds requests whose caller gave up before the agent took them, and `unstarted` counts the
   session starts like that.
   */
  datatype World = World(host: HostStatus, lock: Option<nat>, tasks: map<nat, Task>, nextId: nat,
                         log: seq<LogEntry>, stale: set<(nat, bool)>, unstarted: nat)

  datatype Step =
    | Acquire(t: nat)
    | ApplyIntent(t: nat)
    | Send(t: nat)
    | Process(t: nat)
    | Return(t: nat, reply: Reply)
    | ApplyOutcome(t: nat)
    | Observe(t: nat, health: Health)
    | ApplyHealth(t: nat)
    | GiveUp(t: nat)
    | StartSession(t: nat, taken: bool)
    | ProcessStale(id: nat, enable: bool)
    | StartLate

  /** A request taken after its caller gave up. */
  predicate IsLate(step: Step) { step.ProcessStale? || step.StartLate? }

  /** The task has something to do once it has the lock. */
  predicate Waits(task: Task) { !task.kind.Lifecycle? || task.intents != [] }

  predicate Enabled(w: World, step: Step) {
    if step.ProcessStale? then (step.id, step.enable) in w.stale
    else if step.StartLate? then w.unstarted > 0
    else
      step.t in w.tasks &&
      var task := w.tasks[step.t];
      match step
      case Acquire(_) => w.lock.None? && task.phase.Resting? && Waits(task)
      case ApplyIntent(_) => task.phase.Holding? && task.kind.Lifecycle? && task.intents != []
      case Send(_) => task.phase.Intended?
      case Process(_) => task.phase.Requested? && !task.phase.processed
      case Return(_, reply) =>
        // Only a request the agent took is answered; anything else ends in a bridge error.
        (task.phase.Intended? && reply.BridgeError?)
        || (task.phase.Requested? && (reply.Events? ==> task.phase.processed))
      case ApplyOutcome(_) => task.phase.Answered? && task.intents != []
      case Observe(_, _) => task.phase.Settled? || (task.phase.Holding? && task.kind.Background?)
      case ApplyHealth(_) => task.phase.Observed?
      case GiveUp(_) => task.phase.Settled? || (task.phase.Holding? && task.kind.Background?)
      case StartSession(_, _) => task.phase.Holding? && task.kind.Approval?
  }

  function Put(w: World, t: nat, task: Task): World { w.(tasks := w.tasks[t := task]) }

  /** Ends the transaction and frees the lock; a failed stop also ends a restart. */
  function Release(w: World, t: nat, task: Task, abort: bool): World {
    var rest := if task.intents == [] || abort then [] else task.intents[1..];
    Put(w, t, Task(task.kind, rest, Resting)).(lock := None)
  }

  /** The command a transaction's outcome turns into, if any. */
  function OutcomeCommand(enable: bool, reply: Reply): Option<Command> {
    if !enable then None
    else if reply.BridgeError? then Some(ReportFailed(reply.message, reply.retryable))
    else StartCommand(reply.events)
  }

  function Next(w: World, step: Step): World
    requires Enabled(w, step)
  {
    if step.ProcessStale? then
      w.(log := w.log + [Processed(step.id, step.enable)], stale := w.stale - {(step.id, step.enable)})
    else if step.StartLate? then w.(log := w.log + [SessionStarted], unstarted := w.unstarted - 1)
    else
      var t, task := step.t, w.tasks[step.t];
      match step
      case Acquire(_) => Put(w, t, task.(phase := Holding)).(lock := Some(t))
      case ApplyIntent(_) =>
        var enable := task.intents[0];
        Put(w, t, task.(phase := Intended(w.nextId))).(
          host := DispatchHost(w.host, if enable then EnableHosting else DisableHosting).0,
          nextId := w.nextId + 1, log := w.log + [Intent(w.nextId, enable)])
      case Send(_) => Put(w, t, task.(phase := Requested(task.phase.id, false)))
      case Process(_) =>
        var enable := task.intents != [] && task.intents[0];
        Put(w, t, task.(phase := Requested(task.phase.id, true))).(log := w.log + [Processed(task.phase.id, enable)])
      case Return(_, reply) =>
        var w' := Put(w, t, task.(phase := Answered(task.phase.id, reply)));
        if task.phase.Requested? && !task.phase.processed then
          w'.(stale := w.stale + {(task.phase.id, task.intents != [] && task.intents[0])})
        else w'
      case ApplyOutcome(_) =>
        var enable, id, reply := task.intents[0], task.phase.id, task.phase.reply;
        var command := OutcomeCommand(enable, reply);
        var (host, outcome) := if command.None? then (w.host, Ok([])) else DispatchHost(w.host, command.value);
        var w' := w.(host := host, log := w.log + [Outcome(id, outcome.Ok?)]);
        if outcome.Err? || (!enable && reply.BridgeError?) then Release(w', t, task, true)
        else Put(w', t, task.(phase := Settled))
      case Observe(_, health) => Put(w, t, task.(phase := Observed(health)))
      case ApplyHealth(_) =>
        var host := DispatchAll(w.host, Chosen(w.host, task.phase.health)).0;
        Release(w.(host := host, log := w.log + [Reconciled(task.kind.Background?)]), t, task, false)
      case GiveUp(_) => Release(w, t, task, false)
      case StartSession(_, taken) =>
        var w' := if taken then w.(log := w.log + [SessionStarted]) else w.(unstarted := w.unstarted + 1);
        Release(w', t, task, false)
  }

  ghost predicate IsRun(w: World, steps: seq<Step>)
    decreases |steps|
  {
    steps == [] || (Enabled(w, steps[0]) && IsRun(Next(w, steps[0]), steps[1..]))
  }

  ghost function After(w: World, steps: seq<Step>): World
    requires IsRun(w, steps)
    decreases |steps|
  {
    if steps == [] then w else After(Next(w, steps[0]), steps[1..])
  }

  // ----------------------------------------------------------------- well-formed histories

  /** A transaction whose intent is recorded and whose outcome is not. */
  datatype Open = Closed | Opened(id: nat, enable: bool, processed: bool)

  /** Reading the log as a sequence of whole transactions, with reconciliations in between. */
  ghost function Parse(log: seq<LogEntry>): Option<(nat, Open)> {
    if log == [] then Some((0, Closed))
    else
      match Parse(log[..|log| - 1])
      case None => None
      case Some((next, open)) =>
        match log[|log| - 1]
        case Intent(id, enable) =>
          if open.Closed? && id == next then Some((next + 1, Opened(id, enable, false))) else None
        case Processed(id, enable) =>
          if open == Opened(id, enable, false) then Some((next, Opened(id, enable, true))) else None
        case Outcome(id, accepted) => if open.Opened? && open.id == id && accepted then Some((next, Closed)) else None
        case _ => if open.Closed? then Some((next, Closed)) else None
  }

  /** What the lock holder's phase says about the log and the model. */
  ghost predicate HolderInv(w: World, task: Task) {
    && (task.kind.Lifecycle? && !task.phase.Observed? ==> task.intents != [])
    && match task.phase
       case Intended(id) => task.kind.Lifecycle? && Parse(w.log) == Some((w.nextId, Opened(id, task.intents[0], false)))
       case Requested(id, p) => task.kind.Lifecycle? && Parse(w.log) == Some((w.nextId, Opened(id, task.intents[0], p)))
       case Answered(id, _) =>
         && task.kind.Lifecycle?
         && (Parse(w.log) == Some((w.nextId, Opened(id, task.intents[0], false)))
             || Parse(w.log) == Some((w.nextId, Opened(id, task.intents[0], true))))
       case _ => Parse(w.log) == Some((w.nextId, Closed))
  }

  ghost predicate InTransaction(phase: Phase) { phase.Intended? || phase.Requested? || phase.Answered? }

  ghost predicate Inv(w: World) {
    && (forall t :: t in w.tasks ==> (!w.tasks[t].phase.Resting? <==> w.lock == Some(t)))
    && (w.lock.Some? ==> w.lock.value in w.tasks && HolderInv(w, w.tasks[w.lock.value]))
    && (w.lock.None? ==> Parse(w.log) == Some((w.nextId, Closed)))
    && (w.lock.Some? && InTransaction(w.tasks[w.lock.value].phase) ==>
          if w.tasks[w.lock.value].intents[0] then w.host.HostStarting? || w.host.HostReady? else w.host.HostDisabled?)
  }

  /** One more log entry, read after the rest. */
  lemma ParseGrows(log: seq<LogEntry>, e: LogEntry)
    ensures (log + [e])[..|log|] == log
  {
  }

  lemma AcquireKept(w: World, t: nat)
    requires Inv(w) && Enabled(w, Acquire(t))
    ensures Inv(Next(w, Acquire(t)))
  {
  }

  lemma IntentKept(w: World, t: nat)
    requires Inv(w) && Enabled(w, ApplyIntent(t))
    ensures Inv(Next(w, ApplyIntent(t)))
  {
    ParseGrows(w.log, Intent(w.nextId, w.tasks[t].intents[0]));
  }

  lemma CallKept(w: World, step: Step)
    requires Inv(w) && Enabled(w, step) && (step.Send? || step.Process? || step.Return?)
    ensures Inv(Next(w, step))
  {
    var task := w.tasks[step.t];
    assert w.lock == Some(step.t);
    ParseGrows(w.log, Processed(task.phase.id, task.intents[0]));
  }

  /** Nothing moved the host between intent and outcome, so the model never refuses the outcome. */
  lemma OutcomeAccepted(w: World, t: nat)
    requires Inv(w) && Enabled(w, ApplyOutcome(t))
    ensures Next(w, ApplyOutcome(t)).log == w.log + [Outcome(w.tasks[t].phase.id, true)]
  {
    assert w.lock == Some(t);
  }

  /**
   What a transaction leaves in the model: a stop, disabled; a start that the bridge failed, that
   failure; any other start, what the last decisive event says, or what it was without one.
   */
  lemma OutcomeShown(w: World, t: nat)
    requires Inv(w) && Enabled(w, ApplyOutcome(t))
    ensures var task := w.tasks[t]; var reply := task.phase.reply; var host := Next(w, ApplyOutcome(t)).host;
      && (!task.intents[0] ==> host == HostDisabled)
      && (task.intents[0] && reply.BridgeError? ==> host == HostFailed(reply.message, reply.retryable))
      && (task.intents[0] && reply.Events? ==>
            && (forall k: nat :: LastDecisive(reply.events, k) ==>
                  var e := reply.events[k];
                  host == if e.ChildFailed? then HostFailed(e.message, e.retryable) else HostReady)
            && ((forall k :: 0 <= k < |reply.events| ==> !Decisive(reply.events[k])) ==> host == w.host))
  {
    assert w.lock == Some(t);
    if w.tasks[t].phase.reply.Events? {
      LastDecides(w.tasks[t].phase.reply.events);
    }
  }

  /** A stop that fails gives up the lock and whatever was to follow it, such as a restart's start. */
  lemma FailedStopEndsRestart(w: World, t: nat)
    requires Inv(w) && Enabled(w, ApplyOutcome(t))
    ensures var task := w.tasks[t]; var w' := Next(w, ApplyOutcome(t));
      if !task.intents[0] && task.phase.reply.BridgeError? then
        w'.lock.None? && w'.tasks[t] == Task(task.kind, [], Resting)
      else w'.lock == Some(t) && w'.tasks[t] == task.(phase := Settled)
  {
    assert w.lock == Some(t);
    OutcomeAccepted(w, t);
  }

  /** A reconciliation leaves the status that the report stands for, and frees the lock. */
  lemma HealthShown(w: World, t: nat)
    requires Inv(w) && Enabled(w, ApplyHealth(t))
    ensures var w' := Next(w, ApplyHealth(t));
      Matches(w.host, w.tasks[t].phase.health, w'.host) && w'.lock.None? && w'.tasks[t].phase.Resting?
  {
    AllAccepted(w.host, w.tasks[t].phase.health);
  }

  lemma OutcomeKept(w: World, t: nat)
    requires Inv(w) && Enabled(w, ApplyOutcome(t))
    ensures Inv(Next(w, ApplyOutcome(t)))
  {
    assert w.lock == Some(t);
    OutcomeAccepted(w, t);
    ParseGrows(w.log, Outcome(w.tasks[t].phase.id, true));
  }

  lemma HealthKept(w: World, step: Step)
    requires Inv(w) && Enabled(w, step) && (step.Observe? || step.ApplyHealth? || step.GiveUp?)
    ensures Inv(Next(w, step))
  {
    assert w.lock == Some(step.t);
    ParseGrows(w.log, Reconciled(w.tasks[step.t].kind.Background?));
  }

  lemma StartKept(w: World, t: nat, taken: bool)
    requires Inv(w) && Enabled(w, StartSession(t, taken))
    ensures Inv(Next(w, StartSession(t, taken)))
  {
    assert w.lock == Some(t);
    ParseGrows(w.log, SessionStarted);
  }

  lemma InvKept(w: World, step: Step)
    requires Inv(w) && Enabled(w, step) && !IsLate(step)
    ensures Inv(Next(w, step))
  {
    match step
    case Acquire(t) => AcquireKept(w, t);
    case ApplyIntent(t) => IntentKept(w, t);
    case ApplyOutcome(t) => OutcomeKept(w, t);
    case Send(_) => CallKept(w, step);
    case Process(_) => CallKept(w, step);
    case Return(_, _) => CallKept(w, step);
    case Observe(_, _) => HealthKept(w, step);
    case ApplyHealth(_) => HealthKept(w, step);
    case GiveUp(_) => HealthKept(w, step);
    case StartSession(t, taken) => StartKept(w, t, taken);
  }

  lemma {:induction false} Reachable(w: World, steps: seq<Step>)
    requires Inv(w) && IsRun(w, steps) && forall k :: 0 <= k < |steps| ==> !IsLate(steps[k])
    ensures Inv(After(w, steps))
    decreases |steps|
  {
    if steps != [] {
      InvKept(w, steps[0]);
      Reachable(Next(w, steps[0]), steps[1..]);
    }
  }

  // ----------------------------------------------------------------- the promises

  /** Requests are processed in the order of their intents. */
  ghost predicate InOrder(log: seq<LogEntry>) {
    forall i, j :: 0 <= i < j < |log| && log[i].Processed? && log[j].Processed? ==> log[i].id < log[j].id
  }

  /** The request processed at `j` carries out the intent at `i`, and no other intent is newer. */
  ghost predicate CarriesOut(log: seq<LogEntry>, i: nat, j: nat)
    requires j < |log| && log[j].Processed?
  {
    i < j && log[i] == Intent(log[j].id, log[j].enable) && forall k :: i < k < j ==> !log[k].Intent?
  }

  ghost predicate FollowsIntent(log: seq<LogEntry>) {
    forall j: nat :: j < |log| && log[j].Processed? ==> exists i: nat :: CarriesOut(log, i, j)
  }

  /** Between an intent and its outcome nothing happens but the processing of that request. */
  ghost predicate Undisturbed(log: seq<LogEntry>) {
    forall i, j, k :: 0 <= i < k < j < |log| && log[i].Intent? && log[j].Outcome? && log[i].id == log[j].id ==>
      log[k].Processed? && log[k].id == log[i].id
  }

  /** The open transaction's intent: newer than everything before it, and only processed since. */
  ghost predicate OpenAt(log: seq<LogEntry>, i: nat, open: Open)
    requires open.Opened?
  {
    && i < |log| && log[i] == Intent(open.id, open.enable)
    && (forall k :: 0 <= k < i && HasId(log[k]) ==> log[k].id < open.id)
    && (forall k :: i < k < |log| ==> log[k] == Processed(open.id, open.enable))
    && (open.processed <==> i + 1 < |log|)
  }

  /** Where a readable log stands: ids count up, and an open transaction has its intent. */
  ghost predicate Shape(log: seq<LogEntry>) {
    Parse(log).Some? &&
    var (next, open) := Parse(log).value;
    && (forall i :: 0 <= i < |log| && HasId(log[i]) ==> log[i].id < next)
    && (open.Opened? ==> exists i: nat :: OpenAt(log, i, open))
  }

  lemma {:induction false} Shaped(log: seq<LogEntry>)
    requires Parse(log).Some?
    ensures Shape(log)
  {
    if log != [] {
      var front, e := log[..|log| - 1], log[|log| - 1];
      Shaped(front);
      var (next, open) := Parse(front).value;
      if e.Intent? {
        assert OpenAt(log, |front|, Opened(e.id, e.enable, false));
      } else if e.Processed? {
        var i: nat :| OpenAt(front, i, open);
        assert OpenAt(log, i, open.(processed := true));
      } else if e.Outcome? {
        var i: nat :| OpenAt(front, i, open);
        assert front[i].id == e.id;
      }
    }
  }

  lemma {:induction false} ReadableInOrder(log: seq<LogEntry>)
    requires Parse(log).Some?
    ensures InOrder(log)
  {
    if log != [] {
      var front, e := log[..|log| - 1], log[|log| - 1];
      ReadableInOrder(front);
      Shaped(front);
      if e.Processed? {
        var open := Parse(front).value.1;
        var i: nat :| OpenAt(front, i, open);
      }
    }
  }

  lemma {:induction false} ReadableFollows(log: seq<LogEntry>)
    requires Parse(log).Some?
    ensures FollowsIntent(log)
  {
    if log != [] {
      var front := log[..|log| - 1];
      ReadableFollows(front);
      Shaped(front);
      forall j: nat | j < |log| && log[j].Processed?
        ensures exists i: nat :: CarriesOut(log, i, j)
      {
        if j < |front| {
          var i: nat :| CarriesOut(front, i, j);
          assert CarriesOut(log, i, j);
        } else {
          var i: nat :| OpenAt(front, i, Parse(front).value.1);
          assert CarriesOut(log, i, j);
        }
      }
    }
  }

  lemma {:induction false} ReadableUndisturbed(log: seq<LogEntry>)
    requires Parse(log).Some?
    ensures Undisturbed(log)
  {
    if log != [] {
      var front, e := log[..|log| - 1], log[|log| - 1];
      ReadableUndisturbed(front);
      Shaped(front);
      forall a, b, k | 0 <= a < k < b < |log| && log[a].Intent? && log[b].Outcome? && log[a].id == log[b].id
        ensures log[k].Processed? && log[k].id == log[a].id
      {
        assert log[a] == front[a] && log[k] == front[k];
        if b < |front| {
          assert log[b] == front[b];
        } else {
          var i: nat :| OpenAt(front, i, Parse(front).value.1);
          assert a == i;
        }
      }
    }
  }

  /** A shell that has done nothing yet. */
  ghost predicate Init(w: World) {
    && w.lock.None? && |w.log| == 0 && w.nextId == 0 && |w.stale| == 0 && w.unstarted == 0
    && forall t :: t in w.tasks ==> w.tasks[t].phase.Resting?
  }

  /**
   In every interleaving of any number of lifecycle tasks, approvals and reconcilers in which no request is
   taken after its caller gave up: the agent processes requests in the order their intents were
   recorded, and between an intent and its outcome there is no reconciliation, no other intent and no
   session started by an approval.  Every outcome is accepted by the model.
   */
  lemma Serialised(w: World, steps: seq<Step>)
    requires Init(w) && IsRun(w, steps) && forall k :: 0 <= k < |steps| ==> !IsLate(steps[k])
    ensures var log := After(w, steps).log;
      && InOrder(log) && FollowsIntent(log) && Undisturbed(log)
      && forall i :: 0 <= i < |log| && log[i].Outcome? ==> log[i].accepted
  {
    Reachable(w, steps);
    ReadableInOrder(After(w, steps).log);
    ReadableFollows(After(w, steps).log);
    ReadableUndisturbed(After(w, steps).log);
    OutcomesAccepted(After(w, steps).log);
  }

  lemma {:induction false} OutcomesAccepted(log: seq<LogEntry>)
    requires Parse(log).Some?
    ensures forall i :: 0 <= i < |log| && log[i].Outcome? ==> log[i].accepted
  {
    if log != [] {
      OutcomesAccepted(log[..|log| - 1]);
    }
  }

  // ----------------------------------------------------------------- where the promises stop

  lemma Extend(w: World, step: Step, rest: seq<Step>)
    requires Enabled(w, step) && IsRun(Next(w, step), rest)
    ensures IsRun(w, [step] + rest) && After(w, [step] + rest) == After(Next(w, step), rest)
  {
    assert ([step] + rest)[1..] == rest;
  }

  /** Task `t` records its intent and sends the request, in front of any continuation. */
  lemma Asks(w: World, t: nat, rest: seq<Step>)
    requires w.lock.None? && t in w.tasks && w.tasks[t].phase.Resting?
    requires w.tasks[t].kind.Lifecycle? && w.tasks[t].intents != []
    requires IsRun(Asked(w, t), rest)
    ensures IsRun(w, [Acquire(t), ApplyIntent(t), Send(t)] + rest)
    ensures After(w, [Acquire(t), ApplyIntent(t), Send(t)] + rest) == After(Asked(w, t), rest)
  {
    var w1 := Next(w, Acquire(t));
    var w2 := Next(w1, ApplyIntent(t));
    assert Next(w2, Send(t)).tasks == Asked(w, t).tasks;
    Extend(w2, Send(t), rest);
    Extend(w1, ApplyIntent(t), [Send(t)] + rest);
    Extend(w, Acquire(t), [ApplyIntent(t)] + ([Send(t)] + rest));
    assert [Acquire(t)] + ([ApplyIntent(t)] + ([Send(t)] + rest)) == [Acquire(t), ApplyIntent(t), Send(t)] + rest;
  }

  ghost function Asked(w: World, t: nat): World
    requires t in w.tasks && w.tasks[t].intents != []
  {
    var enable := w.tasks[t].intents[0];
    Put(w, t, w.tasks[t].(phase := Requested(w.nextId, false))).(
      lock := Some(t), host := DispatchHost(w.host, if enable then EnableHosting else DisableHosting).0,
      nextId := w.nextId + 1, log := w.log + [Intent(w.nextId, enable)])
  }

  /** Task `t` gives up on its start, leaving the request behind, in front of any continuation. */
  lemma Abandons(w: World, t: nat, error: string, rest: seq<Step>)
    requires t in w.tasks && w.tasks[t].phase.Requested? && !w.tasks[t].phase.processed && w.tasks[t].kind.Lifecycle?
    requires w.tasks[t].intents != [] && w.tasks[t].intents[0] && w.host.HostStarting?
    requires IsRun(AfterAbandoning(w, t, error), rest)
    ensures var steps := [Return(t, BridgeError(error, true)), ApplyOutcome(t), GiveUp(t)] + rest;
      IsRun(w, steps) && After(w, steps) == After(AfterAbandoning(w, t, error), rest)
  {
    var late := BridgeError(error, true);
    var w1 := Next(w, Return(t, late));
    var w2 := Next(w1, ApplyOutcome(t));
    assert Next(w2, GiveUp(t)).tasks == AfterAbandoning(w, t, error).tasks;
    Extend(w2, GiveUp(t), rest);
    Extend(w1, ApplyOutcome(t), [GiveUp(t)] + rest);
    Extend(w, Return(t, late), [ApplyOutcome(t)] + ([GiveUp(t)] + rest));
    assert [Return(t, late)] + ([ApplyOutcome(t)] + ([GiveUp(t)] + rest)) ==
           [Return(t, late), ApplyOutcome(t), GiveUp(t)] + rest;
  }

  ghost function AfterAbandoning(w: World, t: nat, error: string): World
    requires t in w.tasks && w.tasks[t].phase.Requested? && w.tasks[t].intents != []
  {
    var task := w.tasks[t];
    Put(w, t, Task(task.kind, task.intents[1..], Resting)).(
      lock := None, host := HostFailed(error, true), log := w.log + [Outcome(task.phase.id, true)],
      stale := w.stale + {(task.phase.id, true)})
  }

  /** The next request is taken, and then an older one that its caller gave up on. */
  lemma LateStart(w: World, t: nat, id: nat)
    requires w.lock.None? && t in w.tasks && w.tasks[t].phase.Resting?
    requires w.tasks[t].kind.Lifecycle? && w.tasks[t].intents != [] && (id, true) in w.stale && id < w.nextId
    ensures var steps := [Acquire(t), ApplyIntent(t), Send(t)] + [Process(t), ProcessStale(id, true)];
      IsRun(w, steps) && !InOrder(After(w, steps).log)
  {
    var w1 := Asked(w, t);
    var w2 := Next(w1, Process(t));
    var w3 := Next(w2, ProcessStale(id, true));
    assert w3.log[|w1.log|] == Processed(w.nextId, w.tasks[t].intents[0]);
    assert w3.log[|w1.log| + 1] == Processed(id, true);
    Extend(w2, ProcessStale(id, true), []);
    Extend(w1, Process(t), [ProcessStale(id, true)] + []);
    assert [Process(t)] + ([ProcessStale(id, true)] + []) == [Process(t), ProcessStale(id, true)];
    Asks(w, t, [Process(t), ProcessStale(id, true)]);
  }

  /** A request taken after its caller gave up can undo a newer intent: here a late start follows a stop. */
  lemma StaleBreaksOrder(error: string) returns (w: World, steps: seq<Step>)
    ensures Init(w) && IsRun(w, steps) && !InOrder(After(w, steps).log)
  {
    var task := Task(Lifecycle, [true, false], Resting);
    w := World(HostDisabled, None, map[0 := task], 0, [], {}, 0);
    var w1 := Asked(w, 0);
    var w2 := AfterAbandoning(w1, 0, error);
    LateStart(w2, 0, 0);
    steps := [Acquire(0), ApplyIntent(0), Send(0)] + [Process(0), ProcessStale(0, true)];
    Abandons(w1, 0, error, steps);
    steps := [Return(0, BridgeError(error, true)), ApplyOutcome(0), GiveUp(0)] + steps;
    Asks(w, 0, steps);
    steps := [Acquire(0), ApplyIntent(0), Send(0)] + steps;
  }

  // ----------------------------------------------------------------- exactly when order is lost

  ghost predicate NotProcessed(log: seq<LogEntry>, id: nat) {
    forall i :: 0 <= i < |log| && log[i].Processed? ==> log[i].id != id
  }

  /** A task at work holds the lock; a request not yet taken has the newest intent. */
  ghost predicate TaskIds(w: World, t: nat)
    requires t in w.tasks
  {
    var phase := w.tasks[t].phase;
    && (!phase.Resting? ==> w.lock == Some(t))
    && (phase.Intended? || (phase.Requested? && !phase.processed) ==>
          phase.id + 1 == w.nextId && NotProcessed(w.log, phase.id) && forall e :: (phase.id, e) !in w.stale)
  }

  ghost predicate IdsInv(w: World) {
    && (forall i :: 0 <= i < |w.log| && w.log[i].Processed? ==> w.log[i].id < w.nextId)
    && (forall id, e :: (id, e) in w.stale ==> id < w.nextId && NotProcessed(w.log, id) && (id, !e) !in w.stale)
    && (forall t :: t in w.tasks ==> TaskIds(w, t))
  }

  /** A stale request taken after a newer one. */
  ghost predicate Overtaken(w: World, step: Step) {
    step.ProcessStale? && exists i :: 0 <= i < |w.log| && w.log[i].Processed? && w.log[i].id > step.id
  }

  lemma OrderGrows(log: seq<LogEntry>, e: LogEntry)
    requires InOrder(log)
    ensures InOrder(log + [e]) <==>
      (e.Processed? ==> forall i :: 0 <= i < |log| && log[i].Processed? ==> log[i].id < e.id)
  {
    var more := log + [e];
    assert forall i :: 0 <= i < |log| ==> more[i] == log[i];
    assert more[|log|] == e;
  }

  lemma IdsOfLocks(w: World, step: Step)
    requires IdsInv(w) && Enabled(w, step) && (step.Acquire? || step.Send? || step.Observe? || step.GiveUp?)
    ensures IdsInv(Next(w, step)) && Next(w, step).log == w.log
  {
  }

  lemma IdsOfOutcome(w: World, t: nat)
    requires IdsInv(w) && Enabled(w, ApplyOutcome(t))
    ensures IdsInv(Next(w, ApplyOutcome(t))) && w.log <= Next(w, ApplyOutcome(t)).log
  {
  }

  lemma IdsOfHealth(w: World, t: nat)
    requires IdsInv(w) && Enabled(w, ApplyHealth(t))
    ensures IdsInv(Next(w, ApplyHealth(t))) && w.log <= Next(w, ApplyHealth(t)).log
  {
  }

  lemma IdsOfStarts(w: World, step: Step)
    requires IdsInv(w) && Enabled(w, step) && (step.StartSession? || step.StartLate?)
    ensures IdsInv(Next(w, step)) && w.log <= Next(w, step).log
  {
  }

  lemma IdsOfIntent(w: World, t: nat)
    requires IdsInv(w) && Enabled(w, ApplyIntent(t))
    ensures IdsInv(Next(w, ApplyIntent(t))) && w.log <= Next(w, ApplyIntent(t)).log
  {
  }

  lemma IdsOfRequests(w: World, step: Step)
    requires IdsInv(w) && Enabled(w, step) && (step.Process? || step.Return? || step.ProcessStale?)
    ensures IdsInv(Next(w, step)) && w.log <= Next(w, step).log
  {
  }

  lemma IdsKept(w: World, step: Step)
    requires IdsInv(w) && Enabled(w, step)
    ensures IdsInv(Next(w, step)) && w.log <= Next(w, step).log
  {
    if step.ApplyIntent? {
      IdsOfIntent(w, step.t);
    } else if step.StartSession? || step.StartLate? {
      IdsOfStarts(w, step);
    } else if step.ApplyOutcome? {
      IdsOfOutcome(w, step.t);
    } else if step.ApplyHealth? {
      IdsOfHealth(w, step.t);
    } else if step.Process? || step.Return? || step.ProcessStale? {
      IdsOfRequests(w, step);
    } else {
      IdsOfLocks(w, step);
    }
  }

  lemma OrderStep(w: World, step: Step)
    requires IdsInv(w) && Enabled(w, step) && InOrder(w.log)
    ensures InOrder(Next(w, step).log) <==> !Overtaken(w, step)
  {
    var log := Next(w, step).log;
    if log != w.log {
      OrderGrows(w.log, log[|w.log|]);
      assert log == w.log + [log[|w.log|]];
    }
  }

  ghost predicate SomeOvertaken(w: World, steps: seq<Step>)
    requires IsRun(w, steps)
    decreases |steps|
  {
    steps != [] && (Overtaken(w, steps[0]) || SomeOvertaken(Next(w, steps[0]), steps[1..]))
  }

  lemma {:induction false} OutOfOrderForGood(w: World, steps: seq<Step>)
    requires IdsInv(w) && IsRun(w, steps) && !InOrder(w.log)
    ensures !InOrder(After(w, steps).log)
    decreases |steps|
  {
    if steps != [] {
      IdsKept(w, steps[0]);
      var next := Next(w, steps[0]);
      assert forall i :: 0 <= i < |w.log| ==> next.log[i] == w.log[i];
      OutOfOrderForGood(next, steps[1..]);
    }
  }

  lemma {:induction false} OrderReachable(w: World, steps: seq<Step>)
    requires IdsInv(w) && IsRun(w, steps) && InOrder(w.log)
    ensures InOrder(After(w, steps).log) <==> !SomeOvertaken(w, steps)
    decreases |steps|
  {
    if steps != [] {
      IdsKept(w, steps[0]);
      OrderStep(w, steps[0]);
      if Overtaken(w, steps[0]) {
        OutOfOrderForGood(Next(w, steps[0]), steps[1..]);
      } else {
        OrderReachable(Next(w, steps[0]), steps[1..]);
      }
    }
  }

  /**
   In every run, late requests or not: the agent processes requests in the order of their intents
   if and only if it never takes a request whose caller gave up after it took a newer one.
   */
  lemma InOrderIff(w: World, steps: seq<Step>)
    requires Init(w) && IsRun(w, steps)
    ensures InOrder(After(w, steps).log) <==> !SomeOvertaken(w, steps)
  {
    assert IdsInv(w);
    OrderReachable(w, steps);
  }

  // ----------------------------------------------------------------- a restart is two transactions

  lemma {:induction false} IdsReachable(w: World, steps: seq<Step>)
    requires IdsInv(w) && IsRun(w, steps)
    ensures IdsInv(After(w, steps))
    decreases |steps|
  {
    if steps != [] {
      IdsKept(w, steps[0]);
      IdsReachable(Next(w, steps[0]), steps[1..]);
    }
  }

  /**
   In every run, once a restart's stop is over and its lock released, its start still lies ahead, and
   any other task can go first if and only if it waits for the lock.
   */
  lemma RestartIsOpen(start: World, steps: seq<Step>, t: nat, other: nat, release: Step)
    requires Init(start) && IsRun(start, steps) && (release == GiveUp(t) || release == ApplyHealth(t))
    requires var w := After(start, steps);
      && Enabled(w, release) && w.tasks[t].kind.Lifecycle? && w.tasks[t].intents == [false, true]
      && other in w.tasks && other != t
    ensures var w := After(start, steps); var w' := Next(w, release);
      && w'.tasks[t] == Task(Lifecycle, [true], Resting)
      && (Enabled(w', Acquire(other)) <==> Waits(w.tasks[other]))
  {
    assert IdsInv(start);
    IdsReachable(start, steps);
    var w := After(start, steps);
    assert TaskIds(w, t) && TaskIds(w, other);
    assert [false, true][1..] == [true];
  }

  /** Another lifecycle task than `t` takes the lock in the run. */
  ghost predicate TakenByOther(w: World, steps: seq<Step>, t: nat)
    requires IsRun(w, steps)
    decreases |steps|
  {
    steps != [] &&
    var s := steps[0];
    (s.Acquire? && s.t != t && w.tasks[s.t].kind.Lifecycle?) || TakenByOther(Next(w, s), steps[1..], t)
  }

  /** Another lifecycle task than `t` has the lock, and has not recorded its intent. */
  ghost predicate OtherHolds(w: World, t: nat) {
    && w.lock.Some? && w.lock.value != t && w.lock.value in w.tasks
    && w.tasks[w.lock.value].kind.Lifecycle? && w.tasks[w.lock.value].phase.Holding?
  }

  lemma HoldsStep(w: World, step: Step, t: nat)
    requires IdsInv(w) && Enabled(w, step) && step != ApplyIntent(t)
    ensures step.ApplyIntent? ==> OtherHolds(w, t) && Next(w, step).nextId == w.nextId + 1
    ensures !step.ApplyIntent? ==> Next(w, step).nextId == w.nextId
    ensures !step.ApplyIntent? ==>
      (OtherHolds(Next(w, step), t) <==>
         OtherHolds(w, t) || (step.Acquire? && step.t != t && w.tasks[step.t].kind.Lifecycle?))
  {
    if !IsLate(step) {
      assert TaskIds(w, step.t);
    }
    if w.lock.Some? && w.lock.value in w.tasks {
      assert TaskIds(w, w.lock.value);
    }
  }

  lemma {:induction false} BetweenIff(w: World, steps: seq<Step>, t: nat)
    requires IdsInv(w) && IsRun(w, steps) && ApplyIntent(t) !in steps && Enabled(After(w, steps), ApplyIntent(t))
    ensures After(w, steps).nextId >= w.nextId
    ensures After(w, steps).nextId > w.nextId <==> TakenByOther(w, steps, t) || OtherHolds(w, t)
    decreases |steps|
  {
    if steps == [] {
      assert TaskIds(w, t);
    } else {
      var s := steps[0];
      assert s in steps;
      HoldsStep(w, s, t);
      IdsKept(w, s);
      BetweenIff(Next(w, s), steps[1..], t);
    }
  }

  /**
   In every run: another transaction lies between a restart's stop and its start, whose intents are
   numbered in the order they were recorded, if and only if another lifecycle task takes the lock
   in between.
   */
  lemma RestartInterruptedIff(start: World, before: seq<Step>, t: nat, between: seq<Step>)
    requires Init(start) && IsRun(start, before)
    requires var w := After(start, before); Enabled(w, ApplyIntent(t)) && w.tasks[t].intents == [false, true]
    requires var stopping := Next(After(start, before), ApplyIntent(t));
      && IsRun(stopping, between) && ApplyIntent(t) !in between
      && Enabled(After(stopping, between), ApplyIntent(t))
    ensures var stopping := Next(After(start, before), ApplyIntent(t));
      var stop, begin := After(start, before).nextId, After(stopping, between).nextId;
      stop < begin && (begin > stop + 1 <==> TakenByOther(stopping, between, t))
  {
    assert IdsInv(start);
    IdsReachable(start, before);
    var w := After(start, before);
    IdsKept(w, ApplyIntent(t));
    assert TaskIds(w, t);
    BetweenIff(Next(w, ApplyIntent(t)), between, t);
  }

  /** Task `t`, whose stop the agent has been sent, is done with it, all going well. */
  ghost function Finished(w: World, t: nat): World
    requires t in w.tasks && w.tasks[t].phase.Requested? && w.tasks[t].intents != []
  {
    var task := w.tasks[t];
    Put(w, t, Task(task.kind, task.intents[1..], Resting)).(
      lock := None, log := w.log + [Processed(task.phase.id, false)] + [Outcome(task.phase.id, true)])
  }

  ghost function FinishSteps(t: nat): seq<Step> {
    [Process(t), Return(t, Events([])), ApplyOutcome(t), GiveUp(t)]
  }

  lemma Finishes(w: World, t: nat, rest: seq<Step>)
    requires t in w.tasks && w.tasks[t].phase.Requested? && !w.tasks[t].phase.processed
    requires w.tasks[t].intents != [] && !w.tasks[t].intents[0] && IsRun(Finished(w, t), rest)
    ensures IsRun(w, FinishSteps(t) + rest) && After(w, FinishSteps(t) + rest) == After(Finished(w, t), rest)
  {
    var w1 := Next(w, Process(t));
    var w2 := Next(w1, Return(t, Events([])));
    var w3 := Next(w2, ApplyOutcome(t));
    assert Next(w3, GiveUp(t)).tasks == Finished(w, t).tasks;
    var rest1 := [GiveUp(t)] + rest;
    Extend(w3, GiveUp(t), rest);
    var rest2 := [ApplyOutcome(t)] + rest1;
    Extend(w2, ApplyOutcome(t), rest1);
    var rest3 := [Return(t, Events([]))] + rest2;
    Extend(w1, Return(t, Events([])), rest2);
    Extend(w, Process(t), rest3);
    assert [Process(t)] + rest3 == FinishSteps(t) + rest;
  }

  ghost function Stops(t: nat): seq<Step> { [Acquire(t), ApplyIntent(t), Send(t)] + FinishSteps(t) }

  lemma StopsIn(w: World, t: nat, rest: seq<Step>)
    requires w.lock.None? && t in w.tasks && w.tasks[t].phase.Resting? && w.tasks[t].kind.Lifecycle?
    requires w.tasks[t].intents != [] && !w.tasks[t].intents[0] && IsRun(Finished(Asked(w, t), t), rest)
    ensures IsRun(w, Stops(t) + rest) && After(w, Stops(t) + rest) == After(Finished(Asked(w, t), t), rest)
  {
    Finishes(Asked(w, t), t, rest);
    Asks(w, t, FinishSteps(t) + rest);
    assert [Acquire(t), ApplyIntent(t), Send(t)] + (FinishSteps(t) + rest) == Stops(t) + rest;
  }

  /** Task `t` starts the host: its request is taken. */
  ghost function Begins(t: nat): seq<Step> { [Acquire(t), ApplyIntent(t), Send(t)] + [Process(t)] }

  lemma BeginsIn(w: World, t: nat)
    requires w.lock.None? && t in w.tasks && w.tasks[t] == Task(Lifecycle, [true], Resting) && w.host.HostDisabled?
    ensures IsRun(w, Begins(t)) && After(w, Begins(t)).host.HostStarting?
    ensures After(w, Begins(t)).log == w.log + [Intent(w.nextId, true)] + [Processed(w.nextId, true)]
  {
    Extend(Asked(w, t), Process(t), []);
    assert [Process(t)] + [] == [Process(t)];
    Asks(w, t, [Process(t)]);
  }

  /** It happens: a disable between the halves of a restart is undone by the restart's start. */
  lemma RestartUndoesDisable(w: World) returns (steps: seq<Step>)
    requires Init(w) && w.host.HostReady?
    requires w.tasks == map[0 := Task(Lifecycle, [false, true], Resting), 1 := Task(Lifecycle, [false], Resting)]
    ensures steps == Stops(0) + (Stops(1) + Begins(0)) && IsRun(w, steps) && After(w, steps).host.HostStarting?
    ensures After(w, steps).log ==
      w.log + [Intent(0, false)] + [Processed(0, false)] + [Outcome(0, true)]
      + [Intent(1, false)] + [Processed(1, false)] + [Outcome(1, true)] + [Intent(2, true)] + [Processed(2, true)]
  {
    assert [false, true][1..] == [true];
    var w1 := Finished(Asked(w, 0), 0);
    var w2 := Finished(Asked(w1, 1), 1);
    BeginsIn(w2, 0);
    StopsIn(w1, 1, Begins(0));
    StopsIn(w, 0, Stops(1) + Begins(0));
    steps := Stops(0) + (Stops(1) + Begins(0));
  }
}
