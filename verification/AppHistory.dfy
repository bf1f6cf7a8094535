/** Whole-run properties of the application model: every state is explained by what was accepted. */
module AppHistory {
  import opened AppCore
  import opened Options

  datatype Op = Cmd(command: Command) | Add(device: Device) | Replace(devices: seq<Device>)

  function Apply(m: Model, op: Op): (Model, bool) {
    match op
    case Cmd(command) => var (m', outcome) := Step(m, command); (m', outcome.Ok?)
    case Add(device) => (m.(devices := WithDevice(m.devices, device)), true)
    case Replace(devices) =>
      var room := if |devices| < MAX_DEVICES then |devices| else MAX_DEVICES;
      (m.(devices := devices[..room]), true)
  }

  /** One line of history: what was asked, of which model, and whether it was accepted. */
  datatype Entry = Entry(op: Op, before: Model, ok: bool)

  ghost function Run(m: Model, ops: seq<Op>): Model {
    if ops == [] then m else Apply(Run(m, ops[..|ops| - 1]), ops[|ops| - 1]).0
  }

  ghost function Log(m: Model, ops: seq<Op>): seq<Entry> {
    if ops == [] then []
    else
      var last := |ops| - 1;
      var before := Run(m, ops[..last]);
      Log(m, ops[..last]) + [Entry(ops[last], before, Apply(before, ops[last]).1)]
  }

  /** A model as `local_default` or `from_config` builds it. */
  ghost predicate Initial(m: Model) {
    && m.state == Idle(m.mode) && m.host.HostDisabled? && m.pending.None? && m.device.None? && m.session.None?
    && m.permissions == NO_PERMISSIONS && |m.used| == 0 && |m.devices| == 0
  }

  /** States that hold, or are about to hold, a session. */
  predicate Active(s: AppState) {
    s.Connecting? || s.Negotiating? || s.Connected? || s.Reconnecting? || s.Disconnecting?
  }

  predicate HasSession(s: AppState) { s.Connected? || s.Reconnecting? || s.Disconnecting? }

  predicate Waiting(s: AppState) { s.Ready? || s.WaitingForApproval? }

  // ----------------------------------------------------------------- authority

  /** Who holds what, state by state. */
  ghost predicate AuthorityInv(m: Model) {
    && (m.session.Some? <==> HasSession(m.state))
    && (m.pending.Some? ==> m.state == WaitingForApproval(m.pending.value.deviceId, m.pending.value.requestId))
    && (m.pending.Some? ==> m.pending.value.requested.view)
    && (Active(m.state) ==> m.device == Some(m.state.deviceId) && m.permissions.view)
    && (m.state.Connected? || m.state.Reconnecting? ==> m.session == Some(m.state.sessionId))
    && (m.state.Connected? ==> m.state.generation > 0)
    && (!Active(m.state) && !Waiting(m.state) ==> m.device.None? && m.permissions == NO_PERMISSIONS)
    && (Waiting(m.state) ==> (m.device.None? <==> m.permissions == NO_PERMISSIONS))
    && (m.permissions == NO_PERMISSIONS || m.permissions.view)
    && !m.state.RequestingConnection?
    && (m.mode.Local? ==> !m.state.SignedOut? && !m.state.Authenticating?)
  }

  lemma AuthorityOfRequests(m: Model, c: Command)
    requires AuthorityInv(m) && !IsHostCommand(c) && !IsSessionCommand(c)
    ensures AuthorityInv(Step(m, c).0)
  {
  }

  lemma AuthorityOfSessions(m: Model, c: Command)
    requires AuthorityInv(m) && IsSessionCommand(c)
    ensures AuthorityInv(Step(m, c).0)
  {
  }

  lemma AuthorityKept(m: Model, op: Op)
    requires AuthorityInv(m)
    ensures AuthorityInv(Apply(m, op).0)
  {
    if op.Cmd? {
      if IsSessionCommand(op.command) {
        AuthorityOfSessions(m, op.command);
      } else if !IsHostCommand(op.command) {
        AuthorityOfRequests(m, op.command);
      }
    }
  }

  lemma {:induction false} Authority(m: Model, ops: seq<Op>)
    requires Initial(m)
    ensures AuthorityInv(Run(m, ops))
  {
    if ops != [] {
      Authority(m, ops[..|ops| - 1]);
      AuthorityKept(Run(m, ops[..|ops| - 1]), ops[|ops| - 1]);
    }
  }

  // ----------------------------------------------------------------- where a grant comes from

  predicate IsConnect(e: Entry) { e.ok && e.op.Cmd? && e.op.command.Connect? }

  predicate IsApprove(e: Entry) { e.ok && e.op.Cmd? && e.op.command.ApproveRequest? }

  /** Each permission is held if and only if it was asked for and made available. */
  predicate HeldExactly(held: Permissions, asked: Permissions, available: Permissions) {
    && (held.view <==> asked.view && available.view)
    && (held.keyboard <==> asked.keyboard && available.keyboard)
    && (held.mouse <==> asked.mouse && available.mouse)
    && (held.gamepad <==> asked.gamepad && available.gamepad)
    && (held.clipboard <==> asked.clipboard && available.clipboard)
    && (held.microphone <==> asked.microphone && available.microphone)
    && (held.tablet <==> asked.tablet && available.tablet)
    && (held.virtualUsb <==> asked.virtualUsb && available.virtualUsb)
  }

  /** Line `i` is the latest accepted connect, and it made `request`. */
  ghost predicate RequestedAt(log: seq<Entry>, i: nat, request: Request) {
    && i < |log| && IsConnect(log[i])
    && log[i].op.command == Connect(request.deviceId, request.requestId, request.requested, request.createdAt)
    && request.expiresAt == request.createdAt + 30_000
    && (forall k :: i < k < |log| ==> !IsConnect(log[k]))
  }

  /**
   Line `j` is the latest accepted approval, it approved what line `i`, the latest accepted
   connect, asked of `device`, within the request's 30 seconds, and it granted `permissions`.
   */
  ghost predicate GrantedAt(log: seq<Entry>, i: nat, j: nat, device: string, permissions: Permissions) {
    && i < j < |log| && IsConnect(log[i]) && IsApprove(log[j])
    && log[i].op.command.deviceId == device
    && log[i].op.command.requestId == log[j].op.command.requestId
    && log[j].op.command.now < log[i].op.command.now + 30_000
    && HeldExactly(permissions, log[i].op.command.requested, log[j].op.command.available)
    && permissions.view
    && (forall k :: i < k < |log| ==> !IsConnect(log[k]))
    && (forall k :: j < k < |log| ==> !IsApprove(log[k]))
  }

  ghost predicate PendingTraced(log: seq<Entry>, m: Model) {
    m.pending.Some? ==> exists i: nat :: RequestedAt(log, i, m.pending.value)
  }

  ghost predicate GrantTraced(log: seq<Entry>, m: Model) {
    Active(m.state) ==> exists i: nat, j: nat :: GrantedAt(log, i, j, m.state.deviceId, m.permissions)
  }

  /** A step that invents neither a request nor a grant. */
  ghost predicate Quiet(m: Model, m': Model) {
    && (m'.pending.None? || m'.pending == m.pending)
    && (Active(m'.state) ==>
          Active(m.state) && m'.state.deviceId == m.state.deviceId && m'.permissions == m.permissions)
  }

  lemma QuietCommand(m: Model, c: Command)
    requires AuthorityInv(m) && !IsHostCommand(c) && !IsSessionCommand(c)
    requires (c.Connect? || c.ApproveRequest?) ==> Step(m, c).1.Err?
    ensures Quiet(m, Step(m, c).0)
  {
  }

  /** Apart from an accepted connect or approval, every step is quiet. */
  lemma QuietStep(m: Model, op: Op)
    requires AuthorityInv(m)
    requires var e := Entry(op, m, Apply(m, op).1); !IsConnect(e) && !IsApprove(e)
    ensures Quiet(m, Apply(m, op).0)
  {
    if op.Cmd? && !IsHostCommand(op.command) && !IsSessionCommand(op.command) {
      QuietCommand(m, op.command);
    }
  }

  lemma ConnectStep(m: Model, op: Op)
    requires AuthorityInv(m) && IsConnect(Entry(op, m, Apply(m, op).1))
    ensures var m' := Apply(m, op).0; var c := op.command;
      && m'.pending.Some? && !Active(m'.state) && m'.pending.value.expiresAt == c.now + 30_000
      && var made := m'.pending.value;
      c == Connect(made.deviceId, made.requestId, made.requested, made.createdAt)
  {
  }

  lemma ApproveStep(m: Model, op: Op)
    requires AuthorityInv(m) && IsApprove(Entry(op, m, Apply(m, op).1))
    ensures var m' := Apply(m, op).0; var c := op.command;
      && m.pending.Some? && m.pending.value.requestId == c.requestId && c.now < m.pending.value.expiresAt
      && m'.pending.None? && m'.state == Connecting(m.pending.value.deviceId)
      && HeldExactly(m'.permissions, m.pending.value.requested, c.available) && m'.permissions.view
  {
  }

  lemma TraceStep(log: seq<Entry>, m: Model, op: Op)
    requires AuthorityInv(m) && PendingTraced(log, m) && GrantTraced(log, m)
    ensures var log' := log + [Entry(op, m, Apply(m, op).1)];
      PendingTraced(log', Apply(m, op).0) && GrantTraced(log', Apply(m, op).0)
  {
    var (m', ok) := Apply(m, op);
    var e := Entry(op, m, ok);
    var log' := log + [e];
    if IsConnect(e) {
      ConnectStep(m, op);
      assert RequestedAt(log', |log|, m'.pending.value);
    } else if IsApprove(e) {
      ApproveStep(m, op);
      var i: nat :| RequestedAt(log, i, m.pending.value);
      assert GrantedAt(log', i, |log|, m'.state.deviceId, m'.permissions);
    } else {
      QuietStep(m, op);
      if m'.pending.Some? {
        var i: nat :| RequestedAt(log, i, m.pending.value);
        assert RequestedAt(log', i, m'.pending.value);
      }
      if Active(m'.state) {
        var i: nat, j: nat :| GrantedAt(log, i, j, m.state.deviceId, m.permissions);
        assert GrantedAt(log', i, j, m'.state.deviceId, m'.permissions);
      }
    }
  }

  /** In every run, a session or an attempt at one is what an approved request granted. */
  lemma {:induction false} EveryGrantIsTraced(m: Model, ops: seq<Op>)
    requires Initial(m)
    ensures PendingTraced(Log(m, ops), Run(m, ops)) && GrantTraced(Log(m, ops), Run(m, ops))
  {
    if ops != [] {
      var front := ops[..|ops| - 1];
      EveryGrantIsTraced(m, front);
      Authority(m, front);
      TraceStep(Log(m, front), Run(m, front), ops[|ops| - 1]);
    }
  }

  /** Every accepted approval was followed by an accepted connect, so none is for the latest one. */
  ghost predicate NoneApproved(log: seq<Entry>) {
    forall j :: 0 <= j < |log| && IsApprove(log[j]) ==> exists i :: j < i < |log| && IsConnect(log[i])
  }

  /** A flow that does not approve its request is refused when it starts to negotiate, whatever went before. */
  lemma NegotiationNeedsApproval(m: Model, ops: seq<Op>)
    requires Initial(m) && NoneApproved(Log(m, ops))
    ensures Step(Run(m, ops), ConnectionNegotiating) == (Run(m, ops), Err(InvalidState, false))
  {
    EveryGrantIsTraced(m, ops);
  }

  // ----------------------------------------------------------------- authority nobody revoked

  /**
   Line `k` disconnects an attempt that had been approved, and ever since the model was idle or
   waiting and no sign-out was accepted.
   */
  ghost predicate AbandonedAt(log: seq<Entry>, k: nat) {
    && k < |log| && log[k].op == Cmd(Disconnect)
    && (log[k].before.state.Connecting? || log[k].before.state.Negotiating?)
    && (forall l :: k < l < |log| ==> Waiting(log[l].before.state) && !(log[l].ok && log[l].op == Cmd(SignOut)))
  }

  ghost predicate Abandoned(log: seq<Entry>) { exists k: nat :: AbandonedAt(log, k) }

  /** How the permissions of an idle or waiting model can change in one step. */
  lemma WaitingStep(m: Model, op: Op)
    requires AuthorityInv(m)
    ensures var (m', ok) := Apply(m, op);
      && (Waiting(m.state) && Waiting(m'.state) && !(ok && op == Cmd(SignOut)) ==> m'.permissions == m.permissions)
      && (ok && op == Cmd(SignOut) ==> m'.permissions == NO_PERMISSIONS)
      && (!Waiting(m.state) && Waiting(m'.state) && m'.permissions != NO_PERMISSIONS ==> op == Cmd(Disconnect))
      && (!Waiting(m.state) && Waiting(m'.state) && op == Cmd(Disconnect) ==>
            (m.state.Connecting? || m.state.Negotiating?) && m'.permissions == m.permissions && m.permissions.view)
      && (op == Cmd(Disconnect) && (m.state.Connecting? || m.state.Negotiating?) ==> Waiting(m'.state))
  {
  }

  /** One more line of history keeps an abandonment, ends it, or is one. */
  lemma AbandonedExtends(log: seq<Entry>, e: Entry, k: nat)
    ensures Waiting(e.before.state) ==>
      (AbandonedAt(log + [e], k) <==> AbandonedAt(log, k) && !(e.ok && e.op == Cmd(SignOut)))
    ensures !Waiting(e.before.state) ==>
      (AbandonedAt(log + [e], k) <==>
       k == |log| && e.op == Cmd(Disconnect) && (e.before.state.Connecting? || e.before.state.Negotiating?))
    ensures AbandonedAt(log, k) ==> (log + [e])[k] == log[k]
  {
    var log' := log + [e];
    assert log'[|log|] == e;
    if AbandonedAt(log, k) && Waiting(e.before.state) && !(e.ok && e.op == Cmd(SignOut)) {
      forall l | k < l < |log'|
        ensures Waiting(log'[l].before.state) && !(log'[l].ok && log'[l].op == Cmd(SignOut))
      {
        assert l < |log| ==> log'[l] == log[l];
      }
    }
    if AbandonedAt(log', k) && k < |log| {
      forall l | k < l < |log|
        ensures Waiting(log[l].before.state) && !(log[l].ok && log[l].op == Cmd(SignOut))
      {
        assert log'[l] == log[l];
      }
    }
  }

  /**
   The exact residue: an idle or waiting model still holds permissions if and only if an approved
   attempt was abandoned by `Disconnect`, and then it holds that attempt's permissions.
   */
  lemma {:induction false} Residue(m: Model, ops: seq<Op>)
    requires Initial(m) && Waiting(Run(m, ops).state)
    ensures Run(m, ops).permissions != NO_PERMISSIONS <==> Abandoned(Log(m, ops))
    ensures forall k: nat :: AbandonedAt(Log(m, ops), k) ==>
                               Run(m, ops).permissions == Log(m, ops)[k].before.permissions
  {
    if ops != [] {
      var front, op := ops[..|ops| - 1], ops[|ops| - 1];
      var was, short := Run(m, front), Log(m, front);
      var e := Entry(op, was, Apply(was, op).1);
      Authority(m, front);
      WaitingStep(was, op);
      var log := Log(m, ops);
      assert log == short + [e];
      if Waiting(was.state) {
        Residue(m, front);
        forall k: nat
          ensures AbandonedAt(log, k) <==> AbandonedAt(short, k) && !(e.ok && op == Cmd(SignOut))
          ensures AbandonedAt(log, k) ==> log[k] == short[k]
        {
          AbandonedExtends(short, e, k);
        }
        assert Abandoned(log) <==> Abandoned(short) && !(e.ok && op == Cmd(SignOut));
      } else {
        forall k: nat
          ensures AbandonedAt(log, k) <==> k == |short| && op == Cmd(Disconnect) && Waiting(Run(m, ops).state)
        {
          AbandonedExtends(short, e, k);
        }
        assert AbandonedAt(log, |short|) <==> op == Cmd(Disconnect);
      }
    }
  }

  lemma {:induction false} LogAt(m: Model, ops: seq<Op>, k: nat)
    requires k < |ops|
    ensures |Log(m, ops)| == |ops| && Log(m, ops)[..k] == Log(m, ops[..k])
    ensures Log(m, ops)[k].before == Run(m, ops[..k])
    decreases |ops|
  {
    var last := |ops| - 1;
    var front := ops[..last];
    if k < last {
      LogAt(m, front, k);
      assert front[..k] == ops[..k];
    } else if last > 0 {
      LogAt(m, front, last - 1);
    }
  }

  /** And each residual permission traces back to the connect and the approval of that attempt. */
  lemma ResidueIsTraced(m: Model, ops: seq<Op>, k: nat)
    requires Initial(m) && Waiting(Run(m, ops).state) && AbandonedAt(Log(m, ops), k)
    ensures exists device: string, i: nat, j: nat :: GrantedAt(Log(m, ops)[..k], i, j, device, Run(m, ops).permissions)
  {
    Residue(m, ops);
    if ops != [] {
      LogAt(m, ops, |ops| - 1);
    }
    LogAt(m, ops, k);
    EveryGrantIsTraced(m, ops[..k]);
  }

  /** The residue exists: a connected device's permissions outlive an abandoned approval. */
  lemma ResidueExample(device: string, request: string)
    requires ValidId(device) && ValidId(request)
    ensures var all := Permissions(true, true, true, true, true, true, true, true);
      var known := [Device(device, true, true)];
      var start := Model(Local, Ready, HostDisabled, known, None, [], None, None, NO_PERMISSIONS);
      var waiting := Step(start, Connect(device, request, all, 0)).0;
      var connecting := Step(waiting, ApproveRequest(request, all, 1)).0;
      var idle := Step(connecting, Disconnect).0;
      idle.state == Ready && idle.session == None && idle.permissions == all && idle.device == Some(device)
  {
    assert FindDevice([Device(device, true, true)], device) == Some(Device(device, true, true));
  }

  // ----------------------------------------------------------------- a refused approval

  predicate Stranded(m: Model) { m.state.WaitingForApproval? && m.pending.None? }

  /** The only way to wait on nothing is an approval that cannot grant view. */
  lemma StrandedBy(m: Model, op: Op)
    requires AuthorityInv(m) && !Stranded(m)
    ensures Stranded(Apply(m, op).0) <==>
      && op.Cmd? && op.command.ApproveRequest? && m.pending.Some? && m.pending.value.requestId == op.command.requestId
      && !Expired(m.pending.value, op.command.now) && !op.command.available.view
  {
  }

  /** It happens: an approval in time of a request for everything, with everything available but view. */
  lemma StrandedExample(device: string, request: string)
    requires ValidId(device) && ValidId(request)
    ensures var all := Permissions(true, true, true, true, true, true, true, true);
      var known := [Device(device, true, true)];
      var start := Model(Local, Ready, HostDisabled, known, None, [], None, None, NO_PERMISSIONS);
      var waiting := Step(start, Connect(device, request, all, 0)).0;
      var (stranded, outcome) := Step(waiting, ApproveRequest(request, all.(view := false), 1));
      !Stranded(waiting) && Stranded(stranded) && outcome.Err?
  {
  }

  /** And the only ways out are a disconnect and a reported failure. */
  lemma StrandedUntil(m: Model, op: Op)
    requires AuthorityInv(m) && Stranded(m)
    ensures Stranded(Apply(m, op).0) <==> op != Cmd(Disconnect) && !(op.Cmd? && op.command.ConnectionFailed?)
  {
  }

  // ----------------------------------------------------------------- used request ids

  /** The request ids of the accepted connects, oldest first. */
  ghost function AcceptedIds(log: seq<Entry>): seq<string> {
    if log == [] then []
    else
      var last := log[|log| - 1];
      AcceptedIds(log[..|log| - 1]) + (if IsConnect(last) then [last.op.command.requestId] else [])
  }

  ghost function LastOf(ids: seq<string>, n: nat): seq<string> {
    if |ids| <= n then ids else ids[|ids| - n..]
  }

  ghost predicate Spread(ids: seq<string>) {
    forall i, j :: 0 <= i < j < |ids| && j - i <= 256 ==> ids[i] != ids[j]
  }

  lemma UsedStep(m: Model, op: Op)
    ensures var (m', ok) := Apply(m, op);
      if IsConnect(Entry(op, m, ok)) then
        op.command.requestId !in m.used && m'.used == (var grown := m.used + [op.command.requestId];
                                                       if |grown| > USED_IDS then grown[1..] else grown)
      else m'.used == m.used
  {
  }

  /**
   The window is the end of the full history, and no id is accepted twice among any 257
   consecutive accepted connects.
   */
  lemma {:induction false} WindowRefinesHistory(m: Model, ops: seq<Op>)
    requires Initial(m)
    ensures var ids := AcceptedIds(Log(m, ops));
      Run(m, ops).used == LastOf(ids, 256) && Spread(ids)
  {
    if ops != [] {
      var front, op := ops[..|ops| - 1], ops[|ops| - 1];
      var was, short := Run(m, front), Log(m, front);
      WindowRefinesHistory(m, front);
      UsedStep(was, op);
      var e := Entry(op, was, Apply(was, op).1);
      assert Log(m, ops)[..|short|] == short;
      var ids := AcceptedIds(short);
      if IsConnect(e) {
        var id := op.command.requestId;
        NotInWindow(ids, id);
      }
    }
  }

  lemma NotInWindow(ids: seq<string>, id: string)
    requires Spread(ids) && id !in LastOf(ids, USED_IDS)
    ensures Spread(ids + [id])
    ensures LastOf(ids + [id], USED_IDS) ==
      var grown := LastOf(ids, USED_IDS) + [id]; if |grown| > USED_IDS then grown[1..] else grown
  {
    forall i | 0 <= i < |ids| && |ids| - i <= USED_IDS
      ensures ids[i] != id
    {
      var w := LastOf(ids, USED_IDS);
      assert w[i - (|ids| - |w|)] == ids[i];
    }
  }

  /** A duplicate is refused exactly when the id is among the last 256 accepted ones. */
  lemma DuplicateIff(m: Model, ops: seq<Op>, c: Command)
    requires Initial(m) && Run(m, ops).state.Ready?
    requires c.Connect? && ValidId(c.deviceId) && ValidId(c.requestId)
    ensures Step(Run(m, ops), c).1 == Err(DuplicateRequest, false) <==>
            c.requestId in LastOf(AcceptedIds(Log(m, ops)), 256)
  {
    WindowRefinesHistory(m, ops);
  }
}
