/**
 The desktop shell's session supervisor: one runner process and the container that holds its
 whole process tree.  A session is over only when its container was seen empty.
 */
module Session {
  import opened Options

  datatype ProcessState = Idle | Starting | Running | Connected | Stopping | Failed

  datatype SessionError =
    | PairingUnavailable | PairingInsecure | RunnerUnavailable | AlreadyActive | CleanupPending
    | SpawnFailed | StopFailed | StatusInvalid

  datatype Result = Ok | Err(error: SessionError)

  /** Live processes per container; a container is named by its position. */
  type Live = seq<nat>

  predicate Empty(live: Live, c: nat) { c >= |live| || live[c] == 0 }

  /** Processes fork inside their container and die at any time; an empty container stays empty. */
  ghost predicate Evolves(a: Live, b: Live) {
    |a| == |b| && forall c :: 0 <= c < |a| && a[c] == 0 ==> b[c] == 0
  }

  // ----------------------------------------------------------------- sweeping a container

  const POLL_MS := 20

  /** What one `is_empty` call finds: when it is made, and what is alive then. */
  datatype Probe = Probe(time: int, live: Live)

  /** Probes are at least a poll interval apart, and the processes evolve between them. */
  ghost predicate Timeline(probes: nat -> Probe) {
    && (forall i: nat :: probes(i).time + POLL_MS <= probes(i + 1).time)
    && (forall i: nat :: Evolves(probes(i).live, probes(i + 1).live))
  }

  method DrainContainment(c: nat, probes: nat -> Probe, from: nat, budget: nat) returns (drained: bool, to: nat)
    requires Timeline(probes)
    ensures from <= to
    ensures drained ==> Empty(probes(to).live, c)
    ensures !drained ==> probes(to).time >= probes(from).time + budget
    ensures !drained ==> forall i :: from <= i <= to ==> !Empty(probes(i).live, c)
  {
    var deadline := probes(from).time + budget;
    to := from;
    while true
      invariant from <= to
      invariant forall i :: from <= i < to ==> !Empty(probes(i).live, c)
      decreases deadline - probes(to).time
    {
      if Empty(probes(to).live, c) {
        return true, to;
      }
      if probes(to).time >= deadline {
        return false, to;
      }
      to := to + 1;
    }
  }

  /** Ask, then insist.  A sweep that reports success saw the container empty. */
  method SweepContainment(c: nat, probes: nat -> Probe, from: nat, grace: nat, drain: nat)
    returns (swept: bool, to: nat)
    requires Timeline(probes)
    ensures from <= to
    ensures swept ==> Empty(probes(to).live, c)
    ensures !swept ==> probes(to).time >= probes(from).time + grace + drain
    ensures !swept ==> forall i :: from <= i <= to ==> !Empty(probes(i).live, c)
  {
    if Empty(probes(from).live, c) {
      return true, from;
    }
    swept, to := DrainContainment(c, probes, from, grace);
    if swept {
      return;
    }
    swept, to := DrainContainment(c, probes, to, drain);
  }

  // ----------------------------------------------------------------- the supervisor as a value

  /** `child` and `cleanup` name the container they belong to. */
  datatype Supervisor = Supervisor(child: Option<nat>, cleanup: Option<nat>, device: Option<string>,
                                   session: Option<string>, generation: Option<nat>, ownsFile: bool,
                                   credentialOnDisk: bool, state: ProcessState, exitState: ProcessState,
                                   lastExit: Option<int>)

  /** What `try_wait` says about the runner. */
  datatype Exit = StillRunning | Exited(success: bool, code: Option<int>) | WaitError

  /** What the runner's status file says. */
  datatype Status = NoStatus | Unreadable | Report(sessionId: Option<string>, generation: Option<nat>, text: string)

  /**
   How far `launch` gets.  `Uncontained`: spawned, but not contained or not resumed, and killed
   while suspended or with the container that is dropped, so that it leaves nothing behind.
   */
  datatype Launch = Refused(error: SessionError) | Uncontained | Started

  /** How waiting for the asked or forced runner ends. */
  datatype Stop = Gone(code: Option<int>) | WaitFailed

  function Settle(s: Supervisor, settled: ProcessState, swept: bool): (Supervisor, Result) {
    if s.cleanup.Some? && !swept then (s.(state := Failed), Err(StopFailed))
    else
      (s.(cleanup := None, device := None, session := None, generation := None, state := settled,
          credentialOnDisk := s.credentialOnDisk && !s.ownsFile, ownsFile := false), Ok)
  }

  function ReadStatus(s: Supervisor, status: Status): (Supervisor, Result) {
    if status.NoStatus? then (s, Ok)
    else if status.Unreadable? then (s, Err(StatusInvalid))
    else if status.sessionId != s.session then (s, Ok)
    else
      var s' := s.(generation := status.generation);
      if status.text == "connected" then (s'.(state := Connected), Ok)
      else if status.text == "stopped" then (s'.(state := Failed), Ok)
      else if status.text == "negotiating" || status.text == "starting" then (s'.(state := Running), Ok)
      else (s', Err(StatusInvalid))
  }

  /** The runner as `try_wait` leaves it. */
  function Reap(s: Supervisor, exit: Exit): Supervisor {
    if s.child.Some? && exit.Exited? then
      s.(lastExit := exit.code, child := None, exitState := if exit.success then Idle else Failed)
    else s
  }

  function Poll(s: Supervisor, exit: Exit, swept: bool, status: Status): (Supervisor, Result) {
    if s.child.Some? && exit.WaitError? then (s, Err(StatusInvalid))
    else
      var reaped := Reap(s, exit);
      if reaped.child.None? then
        if s.child.Some? || reaped.cleanup.Some? then (Settle(reaped, reaped.exitState, swept).0, Ok) else (reaped, Ok)
      else ReadStatus(reaped, status)
  }

  function Disconnect(s: Supervisor, stop: Stop, swept: bool): (Supervisor, Result) {
    var s' := s.(state := Stopping);
    if s.child.None? then Settle(s', Idle, swept)
    else if stop.WaitFailed? then (s'.(child := None), Err(StopFailed))
    else Settle(s'.(child := None, lastExit := stop.code), Idle, swept)
  }

  /** Both connects, after their `poll`; `own` marks a credential this supervisor wrote. */
  function Start(s: Supervisor, c: nat, device: string, session: string, own: bool, launch: Launch)
    : (Supervisor, Result)
  {
    if s.child.Some? then (s, Err(AlreadyActive))
    else if s.cleanup.Some? then (s, Err(CleanupPending))
    else
      match launch
      case Refused(error) => (s, Err(error))
      case Uncontained => (s, Err(SpawnFailed))
      case Started =>
        (Supervisor(Some(c), Some(c), Some(device), Some(session), None, own, s.credentialOnDisk || own,
                    Starting, Idle, None), Ok)
  }

  /** Whether a connect reaches the point of spawning a runner. */
  predicate Spawns(s: Supervisor, launch: Launch) { s.child.None? && s.cleanup.None? && !launch.Refused? }

  // ----------------------------------------------------------------- the supervisor as an object

  class SessionSupervisor {
    var child: Option<nat>
    var cleanup: Option<nat>
    var deviceId: Option<string>
    var sessionId: Option<string>
    var generation: Option<nat>
    var ownsPairingFile: bool
    var credentialOnDisk: bool
    var state: ProcessState
    var exitState: ProcessState
    var lastExitCode: Option<int>
    const sweepGrace: nat := 500
    const drainTimeout: nat := 2_000

    ghost function View(): Supervisor
      reads this
    {
      Supervisor(child, cleanup, deviceId, sessionId, generation, ownsPairingFile, credentialOnDisk, state, exitState,
                 lastExitCode)
    }

    constructor ()
      ensures View() == Supervisor(None, None, None, None, None, false, false, Idle, Idle, None)
    {
      child, cleanup, deviceId, sessionId, generation := None, None, None, None, None;
      ownsPairingFile, credentialOnDisk := false, false;
      state, exitState, lastExitCode := Idle, Idle, None;
    }

    /** Success means the container was seen empty at probe `to`. */
    method SettleTo(settled: ProcessState, probes: nat -> Probe, from: nat)
      returns (result: Result, swept: bool, to: nat)
      requires Timeline(probes)
      modifies this
      ensures (View(), result) == Settle(old(View()), settled, swept)
      ensures old(cleanup).Some? && swept ==> Empty(probes(to).live, old(cleanup).value)
      ensures old(cleanup).Some? && !swept ==> probes(to).time >= probes(from).time + 2_500
      ensures old(cleanup).Some? && !swept ==>
        forall i :: from <= i <= to ==> !Empty(probes(i).live, old(cleanup).value)
    {
      swept, to := true, from;
      if cleanup.Some? {
        swept, to := SweepContainment(cleanup.value, probes, from, sweepGrace, drainTimeout);
        if !swept {
          state := Failed;
          return Err(StopFailed), swept, to;
        }
        cleanup := None;
      }
      deviceId := None;
      sessionId := None;
      generation := None;
      state := settled;
      if ownsPairingFile {
        credentialOnDisk := false;
        ownsPairingFile := false;
      }
      return Ok, swept, to;
    }

    method PollRunner(exit: Exit, status: Status, probes: nat -> Probe, from: nat)
      returns (result: Result, swept: bool, to: nat)
      requires Timeline(probes)
      modifies this
      ensures (View(), result) == Poll(old(View()), exit, swept, status)
      ensures old(cleanup).Some? && cleanup.None? ==> Empty(probes(to).live, old(cleanup).value)
    {
      swept, to := false, from;
      var justExited := false;
      if child.Some? {
        if exit.WaitError? {
          return Err(StatusInvalid), swept, to;
        }
        if exit.Exited? {
          lastExitCode := exit.code;
          child := None;
          exitState := if exit.success then Idle else Failed;
          justExited := true;
        }
      }
      if child.None? && (justExited || cleanup.Some?) {
        var _, s, t := SettleTo(exitState, probes, from);
        swept, to := s, t;
      }
      result := Ok;
      if child.Some? && !status.NoStatus? {
        if status.Unreadable? {
          return Err(StatusInvalid), swept, to;
        }
        if status.sessionId == sessionId {
          generation := status.generation;
          if status.text == "connected" {
            state := Connected;
          } else if status.text == "stopped" {
            state := Failed;
          } else if status.text == "negotiating" || status.text == "starting" {
            state := Running;
          } else {
            return Err(StatusInvalid), swept, to;
          }
        }
      }
    }

    method StopSession(stop: Stop, probes: nat -> Probe, from: nat) returns (result: Result, swept: bool, to: nat)
      requires Timeline(probes)
      modifies this
      ensures (View(), result) == Disconnect(old(View()), stop, swept)
      ensures old(cleanup).Some? && cleanup.None? ==> Empty(probes(to).live, old(cleanup).value)
    {
      swept, to := false, from;
      if child.None? {
        state := Stopping;
        result, swept, to := SettleTo(Idle, probes, from);
        return;
      }
      state := Stopping;
      child := None;
      if stop.WaitFailed? {
        return Err(StopFailed), swept, to;
      }
      lastExitCode := stop.code;
      result, swept, to := SettleTo(Idle, probes, from);
    }

    /** `connect` and `connect_with_credential`, once their poll has returned. */
    method StartSession(container: nat, device: string, session: string, own: bool, launch: Launch)
      returns (result: Result)
      modifies this
      ensures (View(), result) == Start(old(View()), container, device, session, own, launch)
    {
      if child.Some? {
        return Err(AlreadyActive);
      }
      if cleanup.Some? {
        return Err(CleanupPending);
      }
      if launch.Refused? {
        return Err(launch.error);
      }
      if launch.Uncontained? {
        return Err(SpawnFailed);
      }
      cleanup := Some(container);
      child := Some(container);
      ownsPairingFile := own;
      credentialOnDisk := credentialOnDisk || own;
      deviceId := Some(device);
      sessionId := Some(session);
      generation := None;
      state := Starting;
      exitState := Idle;
      lastExitCode := None;
      return Ok;
    }
  }

  // ----------------------------------------------------------------- runs against dying processes

  datatype World = World(s: Supervisor, live: Live)

  /**
   One operation, under the supervisor's lock, with what it met: the answers above, whether it
   swept successfully, what was alive when it had polled (`mid`), and what is alive when it returns
   (`end`).
   */
  datatype Op =
    | DoConnect(device: string, session: string, own: bool, exit: Exit, swept: bool, status: Status,
                launch: Launch, mid: Live, end: Live)
    | DoDisconnect(stop: Stop, swept: bool, end: Live)
    | DoPoll(exit: Exit, swept: bool, status: Status, end: Live)

  /** The supervisor after the poll every connect starts with, and whether that poll succeeded. */
  function Polled(s: Supervisor, op: Op): (Supervisor, Result)
    requires op.DoConnect?
  {
    Poll(s, op.exit, op.swept, op.status)
  }

  function Next(w: World, op: Op): (Supervisor, Result) {
    match op
    case DoConnect(device, session, own, _, _, _, launch, mid, _) =>
      var (s, polled) := Polled(w.s, op);
      if polled.Err? then (s, polled) else Start(s, |mid|, device, session, own, launch)
    case DoDisconnect(stop, swept, _) => Disconnect(w.s, stop, swept)
    case DoPoll(exit, swept, status, _) => Poll(w.s, exit, swept, status)
  }

  /** A successful sweep saw the container empty. */
  ghost predicate SweptEmpty(s: Supervisor, swept: bool, live: Live) {
    s.cleanup.Some? && swept ==> Empty(live, s.cleanup.value)
  }

  /** The operation's observations fit the processes of the machine. */
  ghost predicate Fits(w: World, op: Op) {
    match op
    case DoConnect(_, _, _, _, swept, _, launch, mid, end) =>
      && Evolves(w.live, mid) && SweptEmpty(w.s, swept, mid)
      && if Spawning(w, op) then
           |end| == |mid| + 1 && Evolves(mid, end[..|mid|]) && (launch.Uncontained? ==> end[|mid|] == 0)
         else Evolves(mid, end)
    case DoDisconnect(_, swept, end) => Evolves(w.live, end) && SweptEmpty(w.s, swept, end)
    case DoPoll(_, swept, _, end) => Evolves(w.live, end) && SweptEmpty(w.s, swept, end)
  }

  /** A connect that gets as far as spawning a runner. */
  predicate Spawning(w: World, op: Op) {
    op.DoConnect? && Polled(w.s, op).1.Ok? && Spawns(Polled(w.s, op).0, op.launch)
  }

  ghost function Then(w: World, op: Op): World {
    World(Next(w, op).0, op.end)
  }

  ghost predicate IsRun(w: World, ops: seq<Op>)
    decreases |ops|
  {
    ops == [] || (Fits(w, ops[0]) && IsRun(Then(w, ops[0]), ops[1..]))
  }

  ghost function After(w: World, ops: seq<Op>): World
    decreases |ops|
  {
    if ops == [] then w else After(Then(w, ops[0]), ops[1..])
  }

  /** What a supervisor always knows about itself. */
  ghost predicate SupervisorInv(s: Supervisor) {
    && (s.child.Some? ==> s.cleanup == s.child)
    && (s.cleanup.Some? <==> s.session.Some?) && (s.cleanup.Some? <==> s.device.Some?)
    && (s.ownsFile ==> s.cleanup.Some?) && (s.credentialOnDisk <==> s.ownsFile)
    && (s.generation.Some? ==> s.session.Some?)
    && (s.state.Idle? ==> s.child.None? && s.cleanup.None?)
    && (s.state.Starting? || s.state.Running? || s.state.Connected? ==> s.child.Some?)
    && (s.cleanup.None? ==> s.state.Idle? || s.state.Failed?)
    && (s.exitState.Idle? || s.exitState.Failed?)
  }

  /** Only the container the supervisor still has to clean up can hold a live process. */
  ghost predicate ContainmentInv(w: World) {
    && (w.s.cleanup.Some? ==> w.s.cleanup.value < |w.live|)
    && forall c :: 0 <= c < |w.live| && w.live[c] > 0 ==> w.s.cleanup == Some(c)
  }

  lemma PollKept(s: Supervisor, exit: Exit, swept: bool, status: Status)
    requires SupervisorInv(s)
    ensures var s' := Poll(s, exit, swept, status).0;
      && SupervisorInv(s') && (s'.cleanup == s.cleanup || (s'.cleanup.None? && swept))
  {
  }

  lemma DisconnectKept(s: Supervisor, stop: Stop, swept: bool)
    requires SupervisorInv(s)
    ensures var s' := Disconnect(s, stop, swept).0;
      && SupervisorInv(s') && (s'.cleanup == s.cleanup || (s'.cleanup.None? && swept))
  {
  }

  lemma StartKept(s: Supervisor, c: nat, device: string, session: string, own: bool, launch: Launch)
    requires SupervisorInv(s)
    ensures var s' := Start(s, c, device, session, own, launch).0;
      && SupervisorInv(s') && s'.cleanup == if Spawns(s, launch) && launch.Started? then Some(c) else s.cleanup
  {
  }

  lemma SupervisorKept(w: World, op: Op)
    requires SupervisorInv(w.s)
    ensures SupervisorInv(Next(w, op).0)
  {
    match op
    case DoConnect(device, session, own, exit, swept, status, launch, mid, _) =>
      PollKept(w.s, exit, swept, status);
      StartKept(Polled(w.s, op).0, |mid|, device, session, own, launch);
    case DoDisconnect(stop, swept, _) => DisconnectKept(w.s, stop, swept);
    case DoPoll(exit, swept, status, _) => PollKept(w.s, exit, swept, status);
  }

  /** Nothing of an earlier session is alive when the operation spawns its runner. */
  ghost predicate Alone(op: Op)
    requires op.DoConnect?
  {
    forall c :: 0 <= c < |op.mid| ==> op.mid[c] == 0
  }

  lemma ContainmentKept(w: World, op: Op)
    requires SupervisorInv(w.s) && ContainmentInv(w) && Fits(w, op)
    ensures ContainmentInv(Then(w, op))
    ensures Spawning(w, op) ==> Alone(op)
  {
    match op
    case DoConnect(device, session, own, exit, swept, status, launch, mid, _) =>
      PollKept(w.s, exit, swept, status);
      StartKept(Polled(w.s, op).0, |mid|, device, session, own, launch);
    case DoDisconnect(stop, swept, _) => DisconnectKept(w.s, stop, swept);
    case DoPoll(exit, swept, status, _) => PollKept(w.s, exit, swept, status);
  }

  ghost predicate AlwaysAlone(w: World, ops: seq<Op>)
    decreases |ops|
  {
    ops == [] || ((Spawning(w, ops[0]) ==> Alone(ops[0])) && AlwaysAlone(Then(w, ops[0]), ops[1..]))
  }

  lemma {:induction false} Reachable(w: World, ops: seq<Op>)
    requires SupervisorInv(w.s) && ContainmentInv(w) && IsRun(w, ops)
    ensures AlwaysAlone(w, ops) && SupervisorInv(After(w, ops).s) && ContainmentInv(After(w, ops))
    decreases |ops|
  {
    if ops != [] {
      SupervisorKept(w, ops[0]);
      ContainmentKept(w, ops[0]);
      Reachable(Then(w, ops[0]), ops[1..]);
    }
  }

  /** A new supervisor on a machine where no session ever ran. */
  ghost predicate Init(w: World) {
    && w.s.child.None? && w.s.cleanup.None? && w.s.device.None? && w.s.session.None? && w.s.generation.None?
    && !w.s.ownsFile && !w.s.credentialOnDisk && w.s.state.Idle? && w.s.exitState.Idle? && |w.live| == 0
    && w.s.lastExit.None?
  }

  /**
   Two sessions' process trees never coexist.  In every run from a new supervisor, with processes
   dying and sweeps failing at any time, every runner is spawned when nothing of an earlier session
   is alive, and after every operation at most one container holds anything alive.  An idle
   supervisor has no runner, nothing to clean up, no credential on disk and no process behind it.
   */
  lemma SessionsNeverOverlap(w: World, ops: seq<Op>)
    requires Init(w) && IsRun(w, ops)
    ensures AlwaysAlone(w, ops)
    ensures var end := After(w, ops);
      && SupervisorInv(end.s)
      && (forall c, d :: 0 <= c < d < |end.live| ==> end.live[c] == 0 || end.live[d] == 0)
      && (end.s.state.Idle? ==>
            && end.s.child.None? && end.s.cleanup.None? && !end.s.credentialOnDisk
            && forall c :: 0 <= c < |end.live| ==> end.live[c] == 0)
  {
    Reachable(w, ops);
  }

  // ----------------------------------------------------------------- what the supervisor says

  /** The report is the runner's own, of this session. */
  predicate OwnReport(s: Supervisor, exit: Exit, status: Status) {
    s.child.Some? && exit == StillRunning && status.Report? && status.sessionId == s.session
  }

  predicate Recognised(text: string) {
    text == "connected" || text == "stopped" || text == "negotiating" || text == "starting"
  }

  /**
   What has happened to the latest session: the last of its own reports that was recognised, and the
   generation of the last of them; whether its runner was found to have ended badly, and the last
   exit code; and, once it is over, whether it failed.  `hung` is a stop that could not wait.
   */
  datatype Story = Story(said: Option<string>, generation: Option<nat>, bad: bool, code: Option<int>,
                         failed: bool, hung: bool)

  const NO_STORY := Story(None, None, false, None, false, false)

  /** The session is over with its container swept, and `failed` says how it ended. */
  function Over(t: Story, failed: bool): Story { t.(generation := None, failed := failed, hung := false) }

  function PollTold(t: Story, s: Supervisor, exit: Exit, swept: bool, status: Status): Story {
    if s.child.Some? && !exit.Exited? then
      if !OwnReport(s, exit, status) then t
      else t.(said := if Recognised(status.text) then Some(status.text) else t.said, generation := status.generation)
    else
      var ended := if s.child.Some? then t.(bad := !exit.success, code := exit.code, hung := false) else t;
      if s.cleanup.None? then ended else if swept then Over(ended, ended.bad) else ended.(hung := false)
  }

  function Told(t: Story, w: World, op: Op): Story {
    match op
    case DoPoll(exit, swept, status, _) => PollTold(t, w.s, exit, swept, status)
    case DoConnect(_, _, _, exit, swept, status, _, _, _) =>
      if Next(w, op).1.Ok? then NO_STORY else PollTold(t, w.s, exit, swept, status)
    case DoDisconnect(stop, swept, _) =>
      if w.s.child.Some? && stop.WaitFailed? then t.(hung := true)
      else
        var asked := if w.s.child.Some? then t.(code := stop.code) else t;
        if w.s.cleanup.None? || swept then Over(asked, false) else asked.(hung := false)
  }

  ghost function StoryOf(w: World, ops: seq<Op>, t: Story): Story
    decreases |ops|
  {
    if ops == [] then t else StoryOf(Then(w, ops[0]), ops[1..], Told(t, w, ops[0]))
  }

  /** The supervisor's state, told from the story. */
  ghost predicate Says(s: Supervisor, t: Story) {
    && s.lastExit == t.code && s.generation == t.generation && (s.exitState == Failed <==> t.bad)
    && (s.child.Some? ==>
          s.state == if t.said.None? then Starting
                     else if t.said.value == "connected" then Connected
                     else if t.said.value == "stopped" then Failed
                     else Running)
    && (t.said.Some? ==> Recognised(t.said.value))
    && (s.child.None? && s.cleanup.Some? ==> s.state == if t.hung then Stopping else Failed)
    && (s.child.None? && s.cleanup.None? ==> s.state == if t.failed then Failed else Idle)
  }

  lemma ReadSays(s: Supervisor, t: Story, exit: Exit, swept: bool, status: Status)
    requires SupervisorInv(s) && Says(s, t) && s.child.Some? && !exit.Exited?
    ensures Says(Poll(s, exit, swept, status).0, PollTold(t, s, exit, swept, status))
  {
  }

  lemma SweepSays(s: Supervisor, t: Story, exit: Exit, swept: bool, status: Status)
    requires SupervisorInv(s) && Says(s, t) && (s.child.None? || exit.Exited?)
    ensures Says(Poll(s, exit, swept, status).0, PollTold(t, s, exit, swept, status))
  {
  }

  lemma PollSays(s: Supervisor, t: Story, exit: Exit, swept: bool, status: Status)
    requires SupervisorInv(s) && Says(s, t)
    ensures Says(Poll(s, exit, swept, status).0, PollTold(t, s, exit, swept, status))
  {
    if s.child.Some? && !exit.Exited? {
      ReadSays(s, t, exit, swept, status);
    } else {
      SweepSays(s, t, exit, swept, status);
    }
  }

  lemma ConnectSays(w: World, t: Story, op: Op)
    requires SupervisorInv(w.s) && Says(w.s, t) && op.DoConnect?
    ensures Says(Next(w, op).0, Told(t, w, op))
  {
    PollSays(w.s, t, op.exit, op.swept, op.status);
    StartSays(Polled(w.s, op).0, |op.mid|, op.device, op.session, op.own, op.launch);
  }

  lemma StartSays(s: Supervisor, c: nat, device: string, session: string, own: bool, launch: Launch)
    ensures var (s', result) := Start(s, c, device, session, own, launch);
      if result.Ok? then Says(s', NO_STORY) else s' == s
  {
  }

  lemma DisconnectSays(w: World, t: Story, stop: Stop, swept: bool, end: Live)
    requires SupervisorInv(w.s) && Says(w.s, t)
    ensures Says(Disconnect(w.s, stop, swept).0, Told(t, w, DoDisconnect(stop, swept, end)))
  {
  }

  lemma SaysKept(w: World, t: Story, op: Op)
    requires SupervisorInv(w.s) && Says(w.s, t)
    ensures Says(Next(w, op).0, Told(t, w, op))
  {
    match op
    case DoConnect(_, _, _, _, _, _, _, _, _) => ConnectSays(w, t, op);
    case DoDisconnect(stop, swept, end) => DisconnectSays(w, t, stop, swept, end);
    case DoPoll(exit, swept, status, _) => PollSays(w.s, t, exit, swept, status);
  }

  lemma {:induction false} SaysReachable(w: World, ops: seq<Op>, t: Story)
    requires SupervisorInv(w.s) && Says(w.s, t)
    ensures Says(After(w, ops).s, StoryOf(w, ops, t)) && SupervisorInv(After(w, ops).s)
    decreases |ops|
  {
    if ops != [] {
      SupervisorKept(w, ops[0]);
      SaysKept(w, t, ops[0]);
      SaysReachable(Then(w, ops[0]), ops[1..], Told(t, w, ops[0]));
    }
  }

  /**
   In every run the supervisor says connected if and only if its runner is there and the last of this
   session's own reports that was recognised said so; likewise running, and starting before any
   report.  With the runner gone it says stopping or failed until the container is swept, and then
   failed exactly when a poll, and not a disconnect, ended a session that had ended badly.
   */
  lemma SupervisorSays(w: World, ops: seq<Op>)
    requires Init(w)
    ensures var s, t := After(w, ops).s, StoryOf(w, ops, NO_STORY);
      && Says(s, t)
      && (s.state == Connected <==> s.child.Some? && t.said == Some("connected"))
      && (s.state == Running <==> s.child.Some? && (t.said == Some("negotiating") || t.said == Some("starting")))
      && (s.state == Starting <==> s.child.Some? && t.said.None?)
      && (s.state == Idle <==> s.child.None? && s.cleanup.None? && !t.failed)
  {
    SaysReachable(w, ops, NO_STORY);
  }

  /** Nothing else that a status file holds changes the supervisor, but the generation of an unknown report. */
  lemma OtherReports(s: Supervisor, swept: bool, status: Status)
    requires s.child.Some?
    ensures var (s', result) := Poll(s, StillRunning, swept, status);
      && (!OwnReport(s, StillRunning, status) ==>
            s' == s && result == if status.Unreadable? then Err(StatusInvalid) else Ok)
      && (OwnReport(s, StillRunning, status) && !Recognised(status.text) ==>
            s' == s.(generation := status.generation) && result == Err(StatusInvalid))
      && (OwnReport(s, StillRunning, status) && Recognised(status.text) ==> result == Ok)
  {
  }

  /** A poll fails only over a runner it cannot ask or a report it cannot use, never over a failed sweep. */
  lemma PollAnswers(s: Supervisor, exit: Exit, swept: bool, status: Status)
    ensures var (s', result) := Poll(s, exit, swept, status);
      && (s.child.Some? && exit == WaitError ==> s' == s && result == Err(StatusInvalid))
      && (s.child.None? || exit.Exited? ==> result == Ok)
  {
  }

  /** A disconnect fails exactly when it cannot wait for the runner or cannot sweep the container. */
  lemma DisconnectAnswers(s: Supervisor, stop: Stop, swept: bool)
    ensures var (s', result) := Disconnect(s, stop, swept);
      && var fails := (s.child.Some? && stop == WaitFailed) || (s.cleanup.Some? && !swept);
      && result == (if fails then Err(StopFailed) else Ok)
      && (result == Ok ==> s'.state == Idle && s'.child.None? && s'.cleanup.None?)
      && (result != Ok ==> s'.cleanup == s.cleanup && s'.session == s.session && s'.child.None?)
  {
  }

  /** What a connect answers, and that one that is refused changes nothing beyond its poll. */
  lemma ConnectAnswers(w: World, op: Op)
    requires op.DoConnect?
    ensures var (s, polled) := Polled(w.s, op); var (s', result) := Next(w, op);
      if polled.Err? then (s', result) == (s, polled)
      else if s.child.Some? then (s', result) == (s, Err(AlreadyActive))
      else if s.cleanup.Some? then (s', result) == (s, Err(CleanupPending))
      else if op.launch.Refused? then (s', result) == (s, Err(op.launch.error))
      else if op.launch.Uncontained? then (s', result) == (s, Err(SpawnFailed))
      else
        && result == Ok && s'.session == Some(op.session) && s'.device == Some(op.device) && s'.ownsFile == op.own
        && s'.child == Some(|op.mid|)
  {
  }

  // ----------------------------------------------------------------- the verdict of an exit

  /** The runner is gone, it ended badly, and that is what the supervisor says. */
  predicate Verdict(s: Supervisor) { s.child.None? && s.exitState.Failed? && s.state.Failed? }

  /** A poll, on its own or inside a connect, that finds a runner ended badly. */
  predicate FindsBadExit(s: Supervisor, op: Op) {
    (op.DoPoll? || op.DoConnect?) && s.child.Some? && op.exit.Exited? && !op.exit.success
  }

  predicate Ends(w: World, op: Op) { op.DoDisconnect? || (op.DoConnect? && Next(w, op).1.Ok?) }

  lemma VerdictReached(w: World, op: Op)
    requires SupervisorInv(w.s) && FindsBadExit(w.s, op) && !Ends(w, op)
    ensures Verdict(Next(w, op).0)
  {
  }

  /** A bad exit stays `Failed` through any number of failed and retried sweeps. */
  lemma {:induction false} VerdictSurvives(w: World, ops: seq<Op>)
    requires Verdict(w.s) && NoneEnds(w, ops)
    ensures Verdict(After(w, ops).s)
    decreases |ops|
  {
    if ops != [] {
      VerdictStep(w, ops[0]);
      VerdictSurvives(Then(w, ops[0]), ops[1..]);
    }
  }

  lemma VerdictStep(w: World, op: Op)
    requires Verdict(w.s) && !Ends(w, op)
    ensures Verdict(Next(w, op).0)
  {
  }

  ghost predicate NoneEnds(w: World, ops: seq<Op>)
    decreases |ops|
  {
    ops == [] || (!Ends(w, ops[0]) && NoneEnds(Then(w, ops[0]), ops[1..]))
  }
}
