/** The application model as a graph: which commands lead where, and what they report. */
module AppGraph {
  import opened AppCore
  import opened AppHistory
  import opened Options

  // ----------------------------------------------------------------- the graph of states

  /** A connect that is accepted: the first device of that id is online and hosting, and the rest is in order. */
  ghost predicate Connectable(m: Model, c: Command)
    requires c.Connect?
  {
    && m.state == Ready && ValidId(c.deviceId) && ValidId(c.requestId) && c.requestId !in m.used
    && c.requested.view && c.now + 30_000 < 0x1_0000_0000_0000_0000
    && exists k :: 0 <= k < |m.devices| && Serves(m.devices, c.deviceId, k)
  }

  ghost predicate Serves(devices: seq<Device>, id: string, k: nat)
    requires k < |devices|
  {
    && devices[k].id == id && devices[k].online && devices[k].hostingEnabled
    && forall j :: 0 <= j < k ==> devices[j].id != id
  }

  /** The edges of the state machine: the states a command leads to. */
  ghost predicate Edge(m: Model, c: Command, to: AppState) {
    match c
    case BeginAuthentication => m.mode == Secure && m.state == SignedOut && to == Authenticating
    case AuthenticationSucceeded => m.state == Authenticating && to == Ready
    case AuthenticationFailed(_) => m.state == Authenticating && to == SignedOut
    case SignOut => m.mode == Secure && m.state == Ready && to == SignedOut
    case Connect(d, r, _, _) => Connectable(m, c) && to == WaitingForApproval(d, r)
    case ApproveRequest(r, available, now) =>
      && m.pending.Some? && m.pending.value.requestId == r
      && if now >= m.pending.value.expiresAt then to == Ready
         else available.view && to == Connecting(m.pending.value.deviceId)
    case RejectRequest(r, _) => m.pending.Some? && m.pending.value.requestId == r && to == Ready
    case Tick(now) => m.pending.Some? && now >= m.pending.value.expiresAt && to == Ready
    case ConnectionNegotiating => m.state.Connecting? && to == Negotiating(m.state.deviceId)
    case ConnectionEstablished(s, g) =>
      && (m.state.Connecting? || m.state.Negotiating? || m.state.Reconnecting?)
      && ValidId(s) && g > 0 && to == Connected(m.state.deviceId, s, g)
    case ConnectionFailed(retryable) =>
      && (m.state.WaitingForApproval? || m.state.Connecting? || m.state.Negotiating? || m.state.Reconnecting?)
      && to == if retryable then Failed(Unavailable, true) else Failed(Transport, false)
    case ConnectionLost(retryable) =>
      && (m.state.Connected? || m.state.Reconnecting?)
      && to == if retryable then Reconnecting(m.state.deviceId, m.state.sessionId) else Failed(Transport, false)
    case Disconnect =>
      || ((m.state.Connected? || m.state.Reconnecting?) && to == Disconnecting(m.state.deviceId))
      || ((m.state.WaitingForApproval? || m.state.Connecting? || m.state.Negotiating?) && to == Ready)
    case Disconnected => m.state.Disconnecting? && to == Ready
    case ClearFailure => m.state.Failed? && to == if m.mode == Local then Ready else SignedOut
    case _ => false
  }

  lemma {:induction false} FoundIff(devices: seq<Device>, id: string)
    ensures FindDevice(devices, id).Some? && FindDevice(devices, id).value.online
            && FindDevice(devices, id).value.hostingEnabled <==>
      exists k :: 0 <= k < |devices| && Serves(devices, id, k)
    decreases |devices|
  {
    if devices != [] {
      var rest := devices[1..];
      FoundIff(rest, id);
      if devices[0].id == id {
        assert devices[0].online && devices[0].hostingEnabled ==> Serves(devices, id, 0);
      } else {
        if k :| 0 <= k < |rest| && Serves(rest, id, k) {
          assert Serves(devices, id, k + 1);
        }
        if k :| 0 <= k < |devices| && Serves(devices, id, k) {
          assert Serves(rest, id, k - 1);
        }
      }
    }
  }

  /** Why a connect is refused: the first of these that is wrong with it. */
  ghost function Refusal(m: Model, c: Command): ErrorCode
    requires c.Connect?
  {
    if m.state != Ready then InvalidState
    else if !ValidId(c.deviceId) || !ValidId(c.requestId) then InvalidRequest
    else if c.requestId in m.used then DuplicateRequest
    else if !exists k :: 0 <= k < |m.devices| && Serves(m.devices, c.deviceId, k) then DeviceUnavailable
    else if c.now + 30_000 >= 0x1_0000_0000_0000_0000 then InvalidRequest
    else PermissionDenied
  }

  lemma ConnectIff(m: Model, c: Command)
    requires AuthorityInv(m) && c.Connect?
    ensures Step(m, c).1.Ok? <==> Connectable(m, c)
    ensures Step(m, c).1.Ok? ==> Step(m, c).0.state == WaitingForApproval(c.deviceId, c.requestId)
    ensures Step(m, c).1.Err? ==>
      Step(m, c) == (m, Err(Refusal(m, c), Refusal(m, c) == DeviceUnavailable))
  {
    FoundIff(m.devices, c.deviceId);
  }

  lemma SessionEdges(m: Model, c: Command, to: AppState)
    requires !m.state.RequestingConnection? && to != m.state && IsSessionCommand(c)
    ensures Step(m, c).0.state == to <==> Edge(m, c, to)
  {
  }

  lemma RequestEdges(m: Model, c: Command, to: AppState)
    requires AuthorityInv(m) && to != m.state && !IsSessionCommand(c) && !IsHostCommand(c) && !c.Connect?
    ensures Step(m, c).0.state == to <==> Edge(m, c, to)
  {
  }

  /** A command changes the state exactly along its edges. */
  lemma EdgesExact(m: Model, c: Command, to: AppState)
    requires AuthorityInv(m) && to != m.state
    ensures Step(m, c).0.state == to <==> Edge(m, c, to)
  {
    if c.Connect? {
      ConnectIff(m, c);
    } else if IsSessionCommand(c) {
      SessionEdges(m, c, to);
    } else if !IsHostCommand(c) {
      RequestEdges(m, c, to);
    }
  }

  /** Line `k` is where the model's present state comes from. */
  ghost predicate CameFrom(log: seq<Entry>, k: nat, state: AppState) {
    && k < |log| && log[k].op.Cmd? && log[k].before.state != state && Edge(log[k].before, log[k].op.command, state)
    && forall l :: k < l < |log| ==> log[l].before.state == state
  }

  ghost predicate Explained(log: seq<Entry>, start: Model, state: AppState) {
    || (state == start.state && forall l :: 0 <= l < |log| ==> log[l].before.state == state)
    || exists k: nat :: CameFrom(log, k, state)
  }

  lemma ExplainedStep(log: seq<Entry>, start: Model, m: Model, op: Op)
    requires AuthorityInv(m) && Explained(log, start, m.state)
    ensures Explained(log + [Entry(op, m, Apply(m, op).1)], start, Apply(m, op).0.state)
  {
    var state := Apply(m, op).0.state;
    var log' := log + [Entry(op, m, Apply(m, op).1)];
    if state != m.state {
      EdgesExact(m, op.command, state);
      assert CameFrom(log', |log|, state);
    } else if k: nat :| CameFrom(log, k, state) {
      assert CameFrom(log', k, state);
    }
  }

  /**
   In every run the present state is the first one, ready in local mode and signed out in secure
   mode, or the end of the last edge taken, and the model has been in it ever since.
   */
  lemma {:induction false} StateExplained(m: Model, ops: seq<Op>)
    requires Initial(m)
    ensures m.state == if m.mode == Local then Ready else SignedOut
    ensures Explained(Log(m, ops), m, Run(m, ops).state)
    decreases |ops|
  {
    if ops != [] {
      var front := ops[..|ops| - 1];
      StateExplained(m, front);
      Authority(m, front);
      ExplainedStep(Log(m, front), m, Run(m, front), ops[|ops| - 1]);
    }
  }

  /** What an event says of the model before and after it. */
  ghost predicate Tells(e: Event, m: Model, c: Command, m': Model) {
    match e
    case AuthenticationStarted => m'.state == Authenticating
    case AuthenticationRefused(retryable) => c == AuthenticationFailed(retryable) && m'.state == SignedOut
    case SignedOutEvent => c == SignOut && m.state == Ready && m'.permissions == NO_PERMISSIONS && m'.pending.None?
    case ApprovalRequired(request) => m'.pending == Some(request) && c.Connect?
    case ConnectionApproved(r, permissions) =>
      m.pending.Some? && m.pending.value.requestId == r && m'.permissions == permissions && m'.state.Connecting?
    case ConnectionRejected(r, expired) =>
      m.pending.Some? && m.pending.value.requestId == r && m'.pending.None? && m'.state == Ready && expired == c.Tick?
    case NegotiationStarted => m'.state.Negotiating?
    case ConnectionReady(s, g) => m'.state.Connected? && m'.state.sessionId == s && m'.state.generation == g
    case ConnectionFailedEvent(retryable) => c == ConnectionFailed(retryable) && m'.state.Failed?
    case ReconnectStarted => m'.state.Reconnecting?
    case DisconnectRequested => m'.state.Disconnecting?
    case DisconnectedEvent => !Active(m'.state) && !m'.state.WaitingForApproval?
    case HostStartRequested =>
      c == EnableHosting && (m.host == HostDisabled || m.host.HostFailed?) && m'.host == HostStarting
    case HostStartingEvent => c == ReportStarting && m.host != HostDisabled && m'.host == HostStarting
    case HostReadyEvent => c == ReportReady && m'.host == HostReady
    case HostStopRequested => c == DisableHosting && m.host != HostDisabled && m'.host == HostDisabled
    case HostFailedEvent(code) =>
      && c.ReportFailed? && m'.host == HostFailed(c.message, c.retryable)
      && code == if c.retryable then Unavailable else Internal
    case FailureCleared => m.state.Failed? && !m'.state.Failed?
  }

  ghost predicate ToldTruly(m: Model, c: Command) {
    var (m', outcome) := Step(m, c);
    outcome.Ok? ==>
      && |outcome.events| <= 1 && (outcome.events != [] ==> Tells(outcome.events[0], m, c, m'))
      && (outcome.events == [] ==> m' == if c == AuthenticationSucceeded then m.(state := Ready) else m)
  }

  lemma HostEvents(m: Model, c: Command)
    requires IsHostCommand(c)
    ensures ToldTruly(m, c)
  {
  }

  lemma SessionEvents(m: Model, c: Command)
    requires IsSessionCommand(c)
    ensures ToldTruly(m, c)
  {
  }

  /** At most one event, and a true one; without one nothing has changed but that signing in succeeded. */
  lemma EventsTellTheTruth(m: Model, c: Command)
    requires AuthorityInv(m)
    ensures ToldTruly(m, c)
  {
    if IsHostCommand(c) {
      HostEvents(m, c);
    } else if IsSessionCommand(c) {
      SessionEvents(m, c);
    }
  }

  /** Why a command other than a connect is refused. */
  ghost function Reason(m: Model, c: Command): ErrorCode {
    if c.ApproveRequest? || c.RejectRequest? then
      if m.pending.None? then InvalidState
      else if m.pending.value.requestId != c.requestId then InvalidRequest
      else if c.now >= m.pending.value.expiresAt then ExpiredRequest
      else PermissionDenied
    else if c.ConnectionEstablished? && (!ValidId(c.sessionId) || c.generation == 0) then InvalidRequest
    else InvalidState
  }

  /** A refused command changes nothing, but that an answer to an expired request, or a refused one, uses it up. */
  lemma RefusalsChangeNothing(m: Model, c: Command)
    requires AuthorityInv(m) && Step(m, c).1.Err? && !c.Connect?
    ensures Step(m, c).1 == Err(Reason(m, c), false)
    ensures var m' := Step(m, c).0;
      if Reason(m, c) == ExpiredRequest then m' == m.(pending := None, state := Ready)
      else if Reason(m, c) == PermissionDenied then c.ApproveRequest? && !c.available.view && m' == m.(pending := None)
      else m' == m
  {
  }

  /** The host's status is what the last accepted host command makes it. */
  lemma HostEdges(h: HostStatus, c: Command)
    ensures var (h', outcome) := DispatchHost(h, c);
      && (outcome.Err? ==> h' == h)
      && (outcome.Ok? <==>
            || c == EnableHosting || c == DisableHosting
            || ((c == ReportStarting || c.ReportFailed?) && h != HostDisabled)
            || (c == ReportReady && (h == HostStarting || h == HostReady)))
      && (outcome.Ok? ==>
            && (c == EnableHosting ==> h' == if h == HostReady then HostReady else HostStarting)
            && (c == DisableHosting ==> h' == HostDisabled)
            && (c == ReportStarting ==> h' == HostStarting)
            && (c == ReportReady ==> h' == HostReady)
            && (c.ReportFailed? ==> h' == HostFailed(c.message, c.retryable)))
  {
  }

  // ----------------------------------------------------------------- devices and identifiers

  /** A character that UTF-8 writes in `n` bytes. */
  predicate TakesBytes(c: char, n: int) {
    || (n == 1 && (c as int) < 0x80) || (n == 2 && 0x80 <= (c as int) < 0x800)
    || (n == 3 && 0x800 <= (c as int) < 0x1_0000) || (n == 4 && 0x1_0000 <= (c as int))
  }

  lemma {:induction false} BytesOf(s: string, n: int)
    requires forall i :: 0 <= i < |s| ==> TakesBytes(s[i], n)
    ensures Utf8Len(s) == n * |s|
    decreases |s|
  {
    if s != [] {
      assert forall i :: 0 <= i < |s[1..]| ==> TakesBytes(s[1..][i], n);
      BytesOf(s[1..], n);
      assert |s| == |s[1..]| + 1;
    }
  }

  /** An identifier is one to 128 bytes long, in characters of any width, and none of them is a control character. */
  lemma IdsByBytes(s: string, n: int)
    requires forall i :: 0 <= i < |s| ==> TakesBytes(s[i], n)
    ensures ValidId(s) <==>
      && s != "" && n * |s| <= 128
      && forall i :: 0 <= i < |s| ==> 0x20 <= (s[i] as int) < 0x7F || 0xA0 <= (s[i] as int)
  {
    BytesOf(s, n);
  }

  /** A device added is found, replaces the one of its id and leaves all others as they were; there are at most 256. */
  lemma DeviceAdded(devices: seq<Device>, device: Device, k: nat)
    requires |devices| <= 256
    ensures var after := WithDevice(devices, device);
      && |devices| <= |after| <= 256
      && (k < |devices| ==> after[k] == if k == IndexOf(devices, device.id) then device else devices[k])
      && (device in after <==> |devices| < 256 || IndexOf(devices, device.id) < |devices|)
  {
    var after := WithDevice(devices, device);
    var i := IndexOf(devices, device.id);
    if i < |devices| {
      WithDeviceAt(devices, device, i);
      assert after[i] == device;
    } else if |devices| < 256 {
      assert after == devices + [device];
      assert after[|devices|] == device;
    } else {
      assert after == devices;
    }
  }
}
