/** The application model: its data and `AppModel::dispatch`. */
module AppCore {
  import opened Options

  const REQUEST_TTL_MS := 30_000
  const MAX_DEVICES := 256
  const MAX_ID_BYTES := 128
  const USED_IDS := 256

  type U64 = x: nat | x < 0x1_0000_0000_0000_0000

  datatype Mode = Local | Secure

  datatype Permissions = Permissions(view: bool, keyboard: bool, mouse: bool, gamepad: bool, clipboard: bool,
                                     microphone: bool, tablet: bool, virtualUsb: bool)

  const NO_PERMISSIONS := Permissions(false, false, false, false, false, false, false, false)

  function Intersect(a: Permissions, b: Permissions): Permissions {
    Permissions(a.view && b.view, a.keyboard && b.keyboard, a.mouse && b.mouse, a.gamepad && b.gamepad,
                a.clipboard && b.clipboard, a.microphone && b.microphone, a.tablet && b.tablet,
                a.virtualUsb && b.virtualUsb)
  }

  datatype ErrorCode =
    | InvalidRequest | InvalidState | DeviceUnavailable | DuplicateRequest | ExpiredRequest
    | PermissionDenied | Unavailable | Transport | Internal

  datatype AppState =
    | SignedOut
    | Authenticating
    | Ready
    | RequestingConnection(deviceId: string, requestId: string)
    | WaitingForApproval(deviceId: string, requestId: string)
    | Connecting(deviceId: string)
    | Negotiating(deviceId: string)
    | Connected(deviceId: string, sessionId: string, generation: U64)
    | Reconnecting(deviceId: string, sessionId: string)
    | Disconnecting(deviceId: string)
    | Failed(code: ErrorCode, retryable: bool)

  datatype HostStatus = HostDisabled | HostStarting | HostReady | HostFailed(message: string, retryable: bool)

  datatype Device = Device(id: string, online: bool, hostingEnabled: bool)

  datatype Request = Request(requestId: string, deviceId: string, requested: Permissions,
                             createdAt: U64, expiresAt: U64)

  datatype Command =
    | BeginAuthentication
    | AuthenticationSucceeded
    | AuthenticationFailed(retryable: bool)
    | SignOut
    | Connect(deviceId: string, requestId: string, requested: Permissions, now: U64)
    | ApproveRequest(requestId: string, available: Permissions, now: U64)
    | RejectRequest(requestId: string, now: U64)
    | Tick(now: U64)
    | ConnectionNegotiating
    | ConnectionEstablished(sessionId: string, generation: U64)
    | ConnectionFailed(retryable: bool)
    | ConnectionLost(retryable: bool)
    | Disconnect
    | Disconnected
    | EnableHosting
    | DisableHosting
    | ReportStarting
    | ReportReady
    | ReportFailed(message: string, retryable: bool)
    | ClearFailure

  datatype Event =
    | AuthenticationStarted
    | AuthenticationRefused(retryable: bool)
    | SignedOutEvent
    | ApprovalRequired(request: Request)
    | ConnectionApproved(requestId: string, permissions: Permissions)
    | ConnectionRejected(requestId: string, expired: bool)
    | NegotiationStarted
    | ConnectionReady(sessionId: string, generation: U64)
    | ConnectionFailedEvent(retryable: bool)
    | ReconnectStarted
    | DisconnectRequested
    | DisconnectedEvent
    | HostStartRequested
    | HostStartingEvent
    | HostReadyEvent
    | HostStopRequested
    | HostFailedEvent(code: ErrorCode)
    | FailureCleared

  datatype Outcome = Ok(events: seq<Event>) | Err(code: ErrorCode, retryable: bool)

  datatype Model = Model(mode: Mode, state: AppState, host: HostStatus, devices: seq<Device>,
                         pending: Option<Request>, used: seq<string>, device: Option<string>,
                         session: Option<string>, permissions: Permissions)

  // ----------------------------------------------------------------- identifiers

  /** The number of bytes UTF-8 takes for `s`, which is what `str::len` counts. */
  function Utf8Len(s: string): nat {
    if s == [] then 0
    else
      var c := s[0] as int;
      (if c < 0x80 then 1 else if c < 0x800 then 2 else if c < 0x1_0000 then 3 else 4) + Utf8Len(s[1..])
  }

  predicate IsControl(c: char) { (c as int) < 0x20 || 0x7F <= (c as int) < 0xA0 }

  predicate ValidId(s: string) {
    s != [] && Utf8Len(s) <= MAX_ID_BYTES && forall i :: 0 <= i < |s| ==> !IsControl(s[i])
  }

  function FindDevice(devices: seq<Device>, id: string): Option<Device> {
    if devices == [] then None
    else if devices[0].id == id then Some(devices[0])
    else FindDevice(devices[1..], id)
  }

  predicate Expired(request: Request, now: U64) { now >= request.expiresAt }

  /** `ConnectionRequest::validate`. */
  function Validate(request: Request, now: U64): Outcome {
    if !ValidId(request.requestId) || !ValidId(request.deviceId) then Err(InvalidRequest, false)
    else if !request.requested.view then Err(PermissionDenied, false)
    else if request.expiresAt <= request.createdAt || Expired(request, now) then Err(ExpiredRequest, false)
    else if request.expiresAt - request.createdAt > REQUEST_TTL_MS then Err(InvalidRequest, false)
    else Ok([])
  }

  // ----------------------------------------------------------------- dispatch

  function ClearSession(m: Model): Model {
    m.(device := None, session := None, permissions := NO_PERMISSIONS, pending := None)
  }

  function Idle(mode: Mode): AppState { if mode.Local? then Ready else SignedOut }

  function Refused(m: Model): (Model, Outcome) { (m, Err(InvalidState, false)) }

  /** What `take_pending` leaves behind, and the request it hands out. */
  function TakePending(m: Model, requestId: string, now: U64): (Model, Outcome, Option<Request>) {
    if m.pending.None? then (m, Err(InvalidState, false), None)
    else if m.pending.value.requestId != requestId then (m, Err(InvalidRequest, false), None)
    else if Expired(m.pending.value, now) then (m.(pending := None, state := Ready), Err(ExpiredRequest, false), None)
    else (m.(pending := None), Ok([]), m.pending)
  }

  function DoConnect(m: Model, deviceId: string, requestId: string, requested: Permissions, now: U64)
    : (Model, Outcome)
  {
    if !m.state.Ready? then Refused(m)
    else if !ValidId(deviceId) || !ValidId(requestId) then (m, Err(InvalidRequest, false))
    else if requestId in m.used then (m, Err(DuplicateRequest, false))
    else
      var found := FindDevice(m.devices, deviceId);
      if found.None? || !found.value.online || !found.value.hostingEnabled then (m, Err(DeviceUnavailable, true))
      else if now + REQUEST_TTL_MS >= 0x1_0000_0000_0000_0000 then (m, Err(InvalidRequest, false))
      else
        var request := Request(requestId, deviceId, requested, now, now + REQUEST_TTL_MS);
        var valid := Validate(request, now);
        if valid.Err? then (m, valid)
        else
          var grown := m.used + [requestId];
          (m.(used := if |grown| > USED_IDS then grown[1..] else grown, pending := Some(request),
              state := WaitingForApproval(deviceId, requestId)),
           Ok([ApprovalRequired(request)]))
  }

  function DoApprove(m: Model, requestId: string, available: Permissions, now: U64): (Model, Outcome) {
    var (m', outcome, request) := TakePending(m, requestId, now);
    if request.None? then (m', outcome)
    else
      var permissions := Intersect(request.value.requested, available);
      if request.value.requested.view && !permissions.view then (m', Err(PermissionDenied, false))
      else
        (m'.(permissions := permissions, device := Some(request.value.deviceId),
             state := Connecting(request.value.deviceId)),
         Ok([ConnectionApproved(requestId, permissions)]))
  }

  function DoReject(m: Model, requestId: string, now: U64): (Model, Outcome) {
    var (m', outcome, request) := TakePending(m, requestId, now);
    if request.None? then (m', outcome)
    else (m'.(state := Ready), Ok([ConnectionRejected(requestId, false)]))
  }

  function DoEstablished(m: Model, sessionId: string, generation: U64): (Model, Outcome) {
    if !ValidId(sessionId) || generation == 0 then (m, Err(InvalidRequest, false))
    else if !(m.state.Connecting? || m.state.Negotiating? || m.state.Reconnecting?) then Refused(m)
    else
      (m.(device := Some(m.state.deviceId), session := Some(sessionId),
          state := Connected(m.state.deviceId, sessionId, generation)),
       Ok([ConnectionReady(sessionId, generation)]))
  }

  function DoDisconnect(m: Model): (Model, Outcome) {
    match m.state
    case Connected(d, _, _) => (m.(state := Disconnecting(d)), Ok([DisconnectRequested]))
    case Reconnecting(d, _) => (m.(state := Disconnecting(d)), Ok([DisconnectRequested]))
    case WaitingForApproval(_, _) => (m.(pending := None, state := Ready), Ok([DisconnectedEvent]))
    case Connecting(_) => (m.(pending := None, state := Ready), Ok([DisconnectedEvent]))
    case Negotiating(_) => (m.(pending := None, state := Ready), Ok([DisconnectedEvent]))
    case _ => Refused(m)
  }

  predicate Attempting(s: AppState) {
    s.RequestingConnection? || s.WaitingForApproval? || s.Connecting? || s.Negotiating? || s.Reconnecting?
  }

  /** The host commands, which touch nothing but the host status. */
  function DispatchHost(h: HostStatus, command: Command): (HostStatus, Outcome) {
    match command
    case EnableHosting =>
      if h.HostDisabled? || h.HostFailed? then (HostStarting, Ok([HostStartRequested])) else (h, Ok([]))
    case DisableHosting =>
      (HostDisabled, Ok(if h.HostDisabled? then [] else [HostStopRequested]))
    case ReportStarting =>
      if h.HostDisabled? then (h, Err(InvalidState, false))
      else if h.HostStarting? then (h, Ok([]))
      else (HostStarting, Ok([HostStartingEvent]))
    case ReportReady =>
      if h.HostStarting? || h.HostReady? then (HostReady, Ok([HostReadyEvent])) else (h, Err(InvalidState, false))
    case ReportFailed(message, retryable) =>
      if h.HostDisabled? then (h, Err(InvalidState, false))
      else (HostFailed(message, retryable), Ok([HostFailedEvent(if retryable then Unavailable else Internal)]))
    case _ => (h, Err(InvalidState, false))
  }

  predicate IsHostCommand(command: Command) {
    command.EnableHosting? || command.DisableHosting? || command.ReportStarting? || command.ReportReady?
    || command.ReportFailed?
  }

  predicate IsSessionCommand(command: Command) {
    command.ConnectionNegotiating? || command.ConnectionEstablished? || command.ConnectionFailed?
    || command.ConnectionLost? || command.Disconnect? || command.Disconnected?
  }

  function Step(m: Model, command: Command): (Model, Outcome) {
    match command
    case BeginAuthentication =>
      if m.mode.Local? || !m.state.SignedOut? then Refused(m)
      else (m.(state := Authenticating), Ok([AuthenticationStarted]))
    case AuthenticationSucceeded =>
      if !m.state.Authenticating? then Refused(m) else (m.(state := Ready), Ok([]))
    case AuthenticationFailed(retryable) =>
      if !m.state.Authenticating? then Refused(m)
      else (m.(state := SignedOut), Ok([AuthenticationRefused(retryable)]))
    case SignOut =>
      if !m.state.Ready? then Refused(m)
      else (ClearSession(m).(state := Idle(m.mode)), Ok([SignedOutEvent]))
    case Connect(d, r, requested, now) => DoConnect(m, d, r, requested, now)
    case ApproveRequest(r, available, now) => DoApprove(m, r, available, now)
    case RejectRequest(r, now) => DoReject(m, r, now)
    case Tick(now) =>
      if m.pending.Some? && Expired(m.pending.value, now) then
        (m.(pending := None, state := Ready), Ok([ConnectionRejected(m.pending.value.requestId, true)]))
      else (m, Ok([]))
    case ConnectionNegotiating =>
      if !m.state.Connecting? then Refused(m)
      else (m.(state := Negotiating(m.state.deviceId)), Ok([NegotiationStarted]))
    case ConnectionEstablished(s, g) => DoEstablished(m, s, g)
    case ConnectionFailed(retryable) =>
      if !Attempting(m.state) then Refused(m)
      else
        (ClearSession(m).(state := Failed(if retryable then Unavailable else Transport, retryable)),
         Ok([ConnectionFailedEvent(retryable)]))
    case ConnectionLost(retryable) =>
      if !m.state.Connected? && !m.state.Reconnecting? then Refused(m)
      else if retryable then (m.(state := Reconnecting(m.state.deviceId, m.state.sessionId)), Ok([ReconnectStarted]))
      else (ClearSession(m).(state := Failed(Transport, false)), Ok([DisconnectedEvent]))
    case ClearFailure =>
      if !m.state.Failed? then Refused(m)
      else (ClearSession(m).(state := Idle(m.mode)), Ok([FailureCleared]))
    case Disconnect => DoDisconnect(m)
    case Disconnected =>
      if !m.state.Disconnecting? then Refused(m)
      else (ClearSession(m).(state := Ready), Ok([DisconnectedEvent]))
    case _ =>
      var (host, outcome) := DispatchHost(m.host, command);
      (m.(host := host), outcome)
  }

  // ----------------------------------------------------------------- the object

  /** `AppModel`, updated in place. */
  class AppModel {
    const mode: Mode
    var state: AppState
    var hostStatus: HostStatus
    var devices: seq<Device>
    var pendingRequest: Option<Request>
    var usedRequestIds: seq<string>
    var activeDeviceId: Option<string>
    var activeSessionId: Option<string>
    var activePermissions: Permissions

    ghost function View(): Model
      reads this
    {
      Model(mode, state, hostStatus, devices, pendingRequest, usedRequestIds, activeDeviceId, activeSessionId,
            activePermissions)
    }

    /** `local_default`, or `from_config` for the given mode. */
    constructor (mode: Mode)
      ensures View() == Model(mode, Idle(mode), HostDisabled, [], None, [], None, None, NO_PERMISSIONS)
    {
      this.mode := mode;
      state, hostStatus, devices := Idle(mode), HostDisabled, [];
      pendingRequest, usedRequestIds, activeDeviceId, activeSessionId := None, [], None, None;
      activePermissions := NO_PERMISSIONS;
    }

    method ClearActiveSession()
      modifies this
      ensures View() == ClearSession(old(View()))
    {
      activeDeviceId := None;
      activeSessionId := None;
      activePermissions := NO_PERMISSIONS;
      pendingRequest := None;
    }

    method TakePendingRequest(requestId: string, now: U64) returns (outcome: Outcome, request: Option<Request>)
      modifies this
      ensures (View(), outcome, request) == TakePending(old(View()), requestId, now)
    {
      if pendingRequest.None? {
        return Err(InvalidState, false), None;
      }
      if pendingRequest.value.requestId != requestId {
        return Err(InvalidRequest, false), None;
      }
      if now >= pendingRequest.value.expiresAt {
        pendingRequest := None;
        state := Ready;
        return Err(ExpiredRequest, false), None;
      }
      request := pendingRequest;
      pendingRequest := None;
      return Ok([]), request;
    }

    method ConnectTo(deviceId: string, requestId: string, requested: Permissions, now: U64) returns (outcome: Outcome)
      modifies this
      ensures (View(), outcome) == DoConnect(old(View()), deviceId, requestId, requested, now)
    {
      if !state.Ready? {
        return Err(InvalidState, false);
      }
      if !ValidId(deviceId) || !ValidId(requestId) {
        return Err(InvalidRequest, false);
      }
      if requestId in usedRequestIds {
        return Err(DuplicateRequest, false);
      }
      var found := FindDevice(devices, deviceId);
      if found.None? {
        return Err(DeviceUnavailable, true);
      }
      if !found.value.online || !found.value.hostingEnabled {
        return Err(DeviceUnavailable, true);
      }
      if now + REQUEST_TTL_MS >= 0x1_0000_0000_0000_0000 {
        return Err(InvalidRequest, false);
      }
      var request := Request(requestId, deviceId, requested, now, now + REQUEST_TTL_MS);
      var valid := Validate(request, now);
      if valid.Err? {
        return valid;
      }
      usedRequestIds := usedRequestIds + [requestId];
      if |usedRequestIds| > USED_IDS {
        usedRequestIds := usedRequestIds[1..];
      }
      pendingRequest := Some(request);
      state := WaitingForApproval(deviceId, requestId);
      return Ok([ApprovalRequired(request)]);
    }

    method Approve(requestId: string, available: Permissions, now: U64) returns (outcome: Outcome)
      modifies this
      ensures (View(), outcome) == DoApprove(old(View()), requestId, available, now)
    {
      var taken, request := TakePendingRequest(requestId, now);
      if request.None? {
        return taken;
      }
      var permissions := Intersect(request.value.requested, available);
      if request.value.requested.view && !permissions.view {
        return Err(PermissionDenied, false);
      }
      activePermissions := permissions;
      activeDeviceId := Some(request.value.deviceId);
      state := Connecting(request.value.deviceId);
      return Ok([ConnectionApproved(requestId, permissions)]);
    }

    /** The commands of a session's end and of a connection attempt. */
    method DispatchSession(command: Command) returns (outcome: Outcome)
      requires IsSessionCommand(command)
      modifies this
      ensures (View(), outcome) == Step(old(View()), command)
    {
      match command {
        case ConnectionNegotiating =>
          if !state.Connecting? {
            return Err(InvalidState, false);
          }
          state := Negotiating(state.deviceId);
          return Ok([NegotiationStarted]);
        case ConnectionEstablished(sessionId, generation) =>
          if !ValidId(sessionId) || generation == 0 {
            return Err(InvalidRequest, false);
          }
          if !state.Connecting? && !state.Negotiating? && !state.Reconnecting? {
            return Err(InvalidState, false);
          }
          activeDeviceId := Some(state.deviceId);
          activeSessionId := Some(sessionId);
          state := Connected(state.deviceId, sessionId, generation);
          return Ok([ConnectionReady(sessionId, generation)]);
        case ConnectionFailed(retryable) =>
          if !Attempting(state) {
            return Err(InvalidState, false);
          }
          ClearActiveSession();
          state := Failed(if retryable then Unavailable else Transport, retryable);
          return Ok([ConnectionFailedEvent(retryable)]);
        case ConnectionLost(retryable) =>
          if !state.Connected? && !state.Reconnecting? {
            return Err(InvalidState, false);
          }
          if retryable {
            state := Reconnecting(state.deviceId, state.sessionId);
            return Ok([ReconnectStarted]);
          }
          ClearActiveSession();
          state := Failed(Transport, false);
          return Ok([DisconnectedEvent]);
        case Disconnect =>
          if state.WaitingForApproval? || state.Connecting? || state.Negotiating? {
            pendingRequest := None;
            state := Ready;
            return Ok([DisconnectedEvent]);
          }
          if !state.Connected? && !state.Reconnecting? {
            return Err(InvalidState, false);
          }
          state := Disconnecting(state.deviceId);
          return Ok([DisconnectRequested]);
        case Disconnected =>
          if !state.Disconnecting? {
            return Err(InvalidState, false);
          }
          ClearActiveSession();
          state := Ready;
          return Ok([DisconnectedEvent]);
      }
    }

    /** The commands of signing in and of a request awaiting a decision. */
    method DispatchRequest(command: Command) returns (outcome: Outcome)
      requires !IsHostCommand(command) && !IsSessionCommand(command)
      modifies this
      ensures (View(), outcome) == Step(old(View()), command)
    {
      if command.BeginAuthentication? {
        if mode.Local? || !state.SignedOut? {
          return Err(InvalidState, false);
        }
        state := Authenticating;
        outcome := Ok([AuthenticationStarted]);
      } else if command.AuthenticationSucceeded? {
        if !state.Authenticating? {
          return Err(InvalidState, false);
        }
        state := Ready;
        outcome := Ok([]);
      } else if command.AuthenticationFailed? {
        if !state.Authenticating? {
          return Err(InvalidState, false);
        }
        state := SignedOut;
        outcome := Ok([AuthenticationRefused(command.retryable)]);
      } else if command.SignOut? {
        if !state.Ready? {
          return Err(InvalidState, false);
        }
        ClearActiveSession();
        state := Idle(mode);
        outcome := Ok([SignedOutEvent]);
      } else if command.Connect? {
        outcome := ConnectTo(command.deviceId, command.requestId, command.requested, command.now);
      } else if command.ApproveRequest? {
        outcome := Approve(command.requestId, command.available, command.now);
      } else if command.RejectRequest? {
        var taken, request := TakePendingRequest(command.requestId, command.now);
        if request.None? {
          return taken;
        }
        state := Ready;
        outcome := Ok([ConnectionRejected(command.requestId, false)]);
      } else if command.Tick? {
        if pendingRequest.Some? && command.now >= pendingRequest.value.expiresAt {
          outcome := Ok([ConnectionRejected(pendingRequest.value.requestId, true)]);
          pendingRequest := None;
          state := Ready;
          return;
        }
        outcome := Ok([]);
      } else {
        if !state.Failed? {
          return Err(InvalidState, false);
        }
        ClearActiveSession();
        state := Idle(mode);
        outcome := Ok([FailureCleared]);
      }
    }

    method Dispatch(command: Command) returns (outcome: Outcome)
      modifies this
      ensures (View(), outcome) == Step(old(View()), command)
    {
      if IsHostCommand(command) {
        var (host, result) := DispatchHost(hostStatus, command);
        hostStatus := host;
        outcome := result;
      } else if IsSessionCommand(command) {
        outcome := DispatchSession(command);
      } else {
        outcome := DispatchRequest(command);
      }
    }

    /** A known device is replaced where it stands; a new one is appended while there is room. */
    method AddDevice(device: Device)
      modifies this`devices
      ensures devices == WithDevice(old(devices), device)
    {
      for k := 0 to |devices|
        invariant devices == old(devices)
        invariant forall j :: 0 <= j < k ==> devices[j].id != device.id
      {
        if devices[k].id == device.id {
          WithDeviceAt(devices, device, k);
          devices := devices[k := device];
          return;
        }
      }
      WithDeviceAt(devices, device, |devices|);
      if |devices| < MAX_DEVICES {
        devices := devices + [device];
      }
    }

    method ReplaceDevices(observed: seq<Device>)
      modifies this`devices
      ensures devices == observed[..if |observed| < 256 then |observed| else 256]
    {
      devices := if |observed| < MAX_DEVICES then observed else observed[..MAX_DEVICES];
    }
  }

  /** The directory after `add_device`: the first device with that id gives way. */
  function WithDevice(devices: seq<Device>, device: Device): seq<Device> {
    var k := IndexOf(devices, device.id);
    if k < |devices| then devices[k := device]
    else if |devices| < MAX_DEVICES then devices + [device]
    else devices
  }

  function IndexOf(devices: seq<Device>, id: string): (k: nat)
    ensures k <= |devices| && (k < |devices| ==> devices[k].id == id)
    ensures forall j :: 0 <= j < k ==> devices[j].id != id
  {
    if devices == [] || devices[0].id == id then 0 else 1 + IndexOf(devices[1..], id)
  }

  lemma WithDeviceAt(devices: seq<Device>, device: Device, k: nat)
    requires k <= |devices| && forall j :: 0 <= j < k ==> devices[j].id != device.id
    requires k < |devices| ==> devices[k].id == device.id
    ensures IndexOf(devices, device.id) == k
  {
  }
}
