/**
 Renewing a sign-in over a channel that loses replies.  The server retires the refresh token it is
 shown before it answers, and a retired token condemns the whole sign-in, unless it comes back
 with the key of the request that retired it.  Tokens, keys and origins are numbered.
 */
module Refresh {
  import opened Options

  const GRACE_MS := 15 * 60 * 1000
  const TOKEN_TTL_MS := 30 * 24 * 60 * 60 * 1000

  // ------------------------------------------------------------------ the client

  datatype Client = Client(origin: nat, token: Option<nat>, key: Option<nat>)

  datatype Request = Request(origin: nat, token: nat, key: nat)

  /** What a client learns of an attempt; the status of a success can arrive without its body. */
  datatype Answer = NoReply | Refusal | BodyLost | Tokens(token: nat)

  predicate Answered(answer: Answer) { answer.Refusal? || answer.Tokens? }

  function Begin(c: Client, newKey: nat): Client {
    if c.token.None? || c.key.Some? then c else c.(key := Some(newKey))
  }

  function Settle(c: Client, answer: Answer): Client {
    match answer
    case NoReply => c
    case BodyLost => c
    case Refusal => c.(key := None)
    case Tokens(token) => c.(token := Some(token), key := None)
  }

  function Cleared(c: Client): Client { c.(token := None, key := None) }

  function Reconfigured(c: Client, origin: nat): Client {
    if c.origin == origin then c else Cleared(c).(origin := origin)
  }

  class ControlPlaneClient {
    var origin: nat
    var refreshToken: Option<nat>
    var refreshRetryKey: Option<nat>

    function View(): Client
      reads this
    {
      Client(origin, refreshToken, refreshRetryKey)
    }

    constructor (origin: nat)
      ensures View() == Client(origin, None, None)
    {
      this.origin, refreshToken, refreshRetryKey := origin, None, None;
    }

    method ClearCredentials()
      modifies this
      ensures View() == Cleared(old(View()))
    {
      refreshToken, refreshRetryKey := None, None;
    }

    method Reconfigure(origin: nat)
      modifies this
      ensures View() == Reconfigured(old(View()), origin)
    {
      if this.origin != origin {
        this.origin := origin;
        ClearCredentials();
      }
    }

    method AcceptAuth(token: nat)
      modifies this
      ensures View() == Settle(old(View()), Tokens(token))
    {
      refreshToken, refreshRetryKey := Some(token), None;
    }

    /** One attempt: what it sends, and the client once the answer is in; no token, no request. */
    method Refresh(newKey: nat, answer: Answer) returns (sent: Option<Request>)
      modifies this
      ensures sent.None? <==> old(View()).token.None?
      ensures sent.None? ==> View() == old(View())
      ensures sent.Some? ==>
        sent.value == Request(old(origin), old(refreshToken).value, Begin(old(View()), newKey).key.value)
      ensures sent.Some? ==> View() == Settle(Begin(old(View()), newKey), answer)
    {
      if refreshToken.None? {
        return None;
      }
      var retryKey := if refreshRetryKey.Some? then refreshRetryKey.value else newKey;
      refreshRetryKey := Some(retryKey);
      sent := Some(Request(origin, refreshToken.value, retryKey));
      if answer.Refusal? {
        refreshRetryKey := None;
      } else if answer.Tokens? {
        AcceptAuth(answer.token);
      }
    }
  }

  // ------------------------------------------------------------------ the server

  datatype Live = Live(family: nat, expires: nat)

  datatype Tombstone = Tombstone(family: nat, expires: nat, key: nat, retired: nat, successor: nat)

  /** Every origin's tokens; `issuer` says whose each is, and tokens from `next` on are unissued. */
  datatype Server = Server(live: map<nat, Live>, tombs: map<nat, Tombstone>, issuer: map<nat, nat>, next: nat)

  datatype Verdict = Unknown | Expired(token: nat) | Condemn(family: nat) | Consume(token: nat)

  predicate Retired(s: Server, token: nat, now: nat) { token in s.tombs && s.tombs[token].expires > now }

  /** The token issued when this one was retired is unused, and this is that request again in time. */
  predicate Retries(s: Server, tomb: Tombstone, key: nat, now: nat) {
    && tomb.key == key
    && (if now > tomb.retired then now - tomb.retired else 0) <= GRACE_MS
    && tomb.successor in s.live
    && s.live[tomb.successor].expires > now
  }

  function Judge(s: Server, r: Request, now: nat): (v: Verdict)
    ensures v.Consume? ==> v.token in s.live && s.live[v.token].expires > now && r.token in s.issuer
    ensures v.Consume? && v.token != r.token ==> r.token in s.tombs && s.tombs[r.token].successor == v.token
  {
    if r.token !in s.issuer || s.issuer[r.token] != r.origin then Unknown
    else if Retired(s, r.token, now) then
      var tomb := s.tombs[r.token];
      if Retries(s, tomb, r.key, now) then Consume(tomb.successor) else Condemn(tomb.family)
    else if r.token !in s.live then Unknown
    else if s.live[r.token].expires <= now then Expired(r.token)
    else Consume(r.token)
  }

  function WithoutFamily(s: Server, family: nat): Server {
    s.(live := map t | t in s.live && s.live[t].family != family :: s.live[t],
       tombs := map t | t in s.tombs && s.tombs[t].family != family :: s.tombs[t])
  }

  /** Retire `token` under the request's key and issue its successor, which a retried token takes too. */
  function Rotate(s: Server, r: Request, token: nat, now: nat): Server
    requires token in s.live
    requires token != r.token ==> r.token in s.tombs
  {
    var was := s.live[token];
    var tombs := s.tombs[token := Tombstone(was.family, was.expires, r.key, now, s.next)];
    Server((s.live - {token})[s.next := Live(was.family, now + TOKEN_TTL_MS)],
           tombs[r.token := tombs[r.token].(successor := s.next)],
           s.issuer[s.next := r.origin],
           s.next + 1)
  }

  function Present(s: Server, r: Request, now: nat): Server {
    match Judge(s, r, now)
    case Unknown => s
    case Expired(token) => s.(live := s.live - {token})
    case Condemn(family) => WithoutFamily(s, family)
    case Consume(token) => Rotate(s, r, token, now)
  }

  /** What the server says: the token it issued, or a refusal. */
  function Reply(s: Server, r: Request, now: nat): Answer {
    if Judge(s, r, now).Consume? then Tokens(s.next) else Refusal
  }

  // ------------------------------------------------------------------ runs

  /** `known` are the tokens the client was ever given, `astray` the requests it gave up on. */
  datatype World = World(client: Client, server: Server, now: nat, nextKey: nat, known: set<nat>,
                         astray: set<Request>, log: seq<Sent>)

  datatype Sent = Sent(request: Request, answered: bool)

  datatype Loss = Nothing | AllOfIt | Body

  /** What becomes of an attempt: no reply, a refusal ahead of the refresh itself, or a served one. */
  datatype Fate = GivenUp | TurnedAway | Served(lost: Loss)

  datatype Step =
    | SignIn(delivered: bool)
    | Attempt(fate: Fate)
    | Late(request: Request)   // a request given up on reaches the server after all
    | Clear
    | Move(origin: nat)
    | Tick(ms: nat)

  predicate Enabled(w: World, step: Step) {
    match step
    case Attempt(_) => w.client.token.Some?
    case Late(request) => request in w.astray
    case _ => true
  }

  function RequestOf(w: World): Request
    requires w.client.token.Some?
  {
    Request(w.client.origin, w.client.token.value, Begin(w.client, w.nextKey).key.value)
  }

  function AnswerOf(w: World, fate: Fate): Answer
    requires w.client.token.Some?
  {
    if fate.GivenUp? then NoReply
    else if fate.TurnedAway? then Refusal
    else if fate.lost.AllOfIt? then NoReply
    else
      var reply := Reply(w.server, RequestOf(w), w.now);
      if fate.lost.Body? && reply.Tokens? then BodyLost else reply
  }

  function Attempted(w: World, fate: Fate): World
    requires w.client.token.Some?
  {
    var r, answer := RequestOf(w), AnswerOf(w, fate);
    World(Settle(Begin(w.client, w.nextKey), answer),
          if fate.Served? then Present(w.server, r, w.now) else w.server,
          w.now,
          w.nextKey + 1,
          if answer.Tokens? then w.known + {answer.token} else w.known,
          if fate.GivenUp? then w.astray + {r} else w.astray,
          w.log + [Sent(r, Answered(answer))])
  }

  function SignedIn(s: Server, origin: nat, now: nat): Server {
    Server(s.live[s.next := Live(s.next, now + TOKEN_TTL_MS)], s.tombs, s.issuer[s.next := origin], s.next + 1)
  }

  function Next(w: World, step: Step): World
    requires Enabled(w, step)
  {
    match step
    case SignIn(delivered) =>
      var w' := w.(server := SignedIn(w.server, w.client.origin, w.now));
      if !delivered then w'
      else w'.(client := Settle(w.client, Tokens(w.server.next)), known := w.known + {w.server.next})
    case Attempt(fate) => Attempted(w, fate)
    case Late(request) => w.(server := Present(w.server, request, w.now))
    case Clear => w.(client := Cleared(w.client))
    case Move(origin) => w.(client := Reconfigured(w.client, origin))
    case Tick(ms) => w.(now := w.now + ms)
  }

  ghost predicate Init(w: World) {
    && w.client.token.None? && w.client.key.None?
    && |w.server.live| == 0 && |w.server.tombs| == 0 && |w.server.issuer| == 0
    && |w.known| == 0 && |w.astray| == 0 && |w.log| == 0
  }

  ghost predicate IsRun(w: World, steps: seq<Step>)
    decreases |steps|
  {
    steps == [] || (Enabled(w, steps[0]) && IsRun(Next(w, steps[0]), steps[1..]))
  }

  ghost function After(w: World, steps: seq<Step>): World
    requires IsRun(w, steps)
    decreases |steps|
  {
    if steps == [] then w else After(Next(w, steps[0]), steps[1..])
  }

  // ------------------------------------------------------------------ one key, one request

  /** Requests with one key are one request sent over and over, and only the last can be answered. */
  ghost predicate OneAttempt(log: seq<Sent>) {
    forall i, j, m :: 0 <= i <= m < j < |log| && log[i].request.key == log[j].request.key ==>
                        log[m].request == log[j].request && !log[m].answered
  }

  /** The key held is that of an unanswered attempt that is all the log since it began. */
  ghost predicate HeldKey(c: Client, log: seq<Sent>) {
    c.key.Some? ==>
      && c.token.Some?
      && forall i, m :: 0 <= i <= m < |log| && log[i].request.key == c.key.value ==>
                          log[m].request == Request(c.origin, c.token.value, c.key.value) && !log[m].answered
  }

  ghost predicate KeysIssued(w: World) {
    && (w.client.key.Some? ==> w.client.key.value < w.nextKey)
    && forall i :: 0 <= i < |w.log| ==> w.log[i].request.key < w.nextKey
  }

  ghost predicate KeyInv(w: World) { OneAttempt(w.log) && HeldKey(w.client, w.log) && KeysIssued(w) }

  lemma Logged(log: seq<Sent>, r: Request, answered: bool)
    requires OneAttempt(log)
    requires forall i, m :: 0 <= i <= m < |log| && log[i].request.key == r.key ==>
                              log[m].request == r && !log[m].answered
    ensures OneAttempt(log + [Sent(r, answered)])
    ensures !answered ==> HeldKey(Client(r.origin, Some(r.token), Some(r.key)), log + [Sent(r, answered)])
  {
  }

  lemma KeyInvKept(w: World, step: Step)
    requires KeyInv(w) && Enabled(w, step)
    ensures KeyInv(Next(w, step))
  {
    if step.Attempt? {
      Logged(w.log, RequestOf(w), Answered(AnswerOf(w, step.fate)));
    }
  }

  lemma {:induction false} KeysReachable(w: World, steps: seq<Step>)
    requires KeyInv(w) && IsRun(w, steps)
    ensures KeyInv(After(w, steps))
    decreases |steps|
  {
    if steps != [] {
      KeyInvKept(w, steps[0]);
      KeysReachable(Next(w, steps[0]), steps[1..]);
    }
  }

  /**
   Over every run: two refresh requests with the same key are the same request, every request
   between them is that request too, and none before the last was answered.
   */
  lemma KeysNeverCross(start: World, steps: seq<Step>)
    requires Init(start) && IsRun(start, steps)
    ensures OneAttempt(After(start, steps).log)
  {
    InitialInv(start);
    KeysReachable(start, steps);
  }

  // ------------------------------------------------------------------ retired tokens

  ghost predicate ServerInv(s: Server) {
    && (forall t :: t in s.live ==> t in s.issuer && t !in s.tombs)
    && (forall t :: t in s.tombs ==> t in s.issuer && s.tombs[t].successor < s.next)
    && (forall t :: t in s.issuer ==> t < s.next)
  }

  /** A retired token the client holds was retired under the key the client holds. */
  ghost predicate OwnKey(c: Client, s: Server, now: nat) {
    c.token.Some? && Retired(s, c.token.value, now) ==> c.key == Some(s.tombs[c.token.value].key)
  }

  /** And its successor is live, the client was never given it, and no other token it was given leads there. */
  ghost predicate Chained(c: Client, s: Server, now: nat, known: set<nat>) {
    c.token.Some? && Retired(s, c.token.value, now) ==>
      var tomb := s.tombs[c.token.value];
      && tomb.retired <= now
      && tomb.successor in s.live
      && s.live[tomb.successor].family == tomb.family
      && s.live[tomb.successor].expires >= tomb.retired + TOKEN_TTL_MS
      && tomb.successor !in known
      && forall u :: u in known && u in s.tombs && s.tombs[u].successor == tomb.successor ==> u == c.token.value
  }

  /** Tokens belong to the origin they are sent to. */
  ghost predicate AtHome(w: World) {
    && (forall t :: t in w.known ==> t in w.server.issuer)
    && (w.client.token.Some? ==>
          w.client.token.value in w.known && w.server.issuer[w.client.token.value] == w.client.origin)
    && (forall r :: r in w.astray ==> r.token in w.known && w.server.issuer[r.token] == r.origin)
    && (forall i :: 0 <= i < |w.log| ==>
          w.log[i].request.token in w.known && w.server.issuer[w.log[i].request.token] == w.log[i].request.origin)
  }

  /** A request given up on shares the client's key only if it carries the client's token. */
  ghost predicate AstrayKeys(w: World) {
    && (w.client.key.Some? ==> w.client.token.Some? && w.client.key.value < w.nextKey)
    && (forall r :: r in w.astray ==> r.key < w.nextKey)
    && (forall r :: r in w.astray && w.client.key == Some(r.key) ==> w.client.token == Some(r.token))
  }

  ghost predicate Inv(w: World) {
    && ServerInv(w.server)
    && AtHome(w)
    && AstrayKeys(w)
    && OwnKey(w.client, w.server, w.now)
    && Chained(w.client, w.server, w.now, w.known)
  }

  lemma InitialInv(w: World)
    requires Init(w)
    ensures Inv(w) && KeyInv(w)
  {
  }

  /** The steps that part a client from the key its token was retired under. */
  predicate Strands(w: World, step: Step)
    requires Enabled(w, step)
  {
    match step
    case Attempt(fate) => fate.TurnedAway? && Retired(w.server, w.client.token.value, w.now)
    case Late(r) =>
      && w.client.token.Some?
      && Judge(w.server, r, w.now) == Consume(w.client.token.value)
      && w.client.key != Some(r.key)
    case _ => false
  }

  lemma PresentKeepsServer(s: Server, r: Request, now: nat)
    requires ServerInv(s)
    ensures ServerInv(Present(s, r, now))
    ensures forall t :: t in s.issuer ==> t in Present(s, r, now).issuer && Present(s, r, now).issuer[t] == s.issuer[t]
  {
  }

  lemma PresentKeepsChain(c: Client, s: Server, now: nat, known: set<nat>, r: Request)
    requires ServerInv(s) && OwnKey(c, s, now) && Chained(c, s, now, known)
    requires forall t :: t in known ==> t in s.issuer
    requires r.token in known && c.token.Some? && c.token.value in known
    requires c.key == Some(r.key) ==> c.token == Some(r.token)
    requires Judge(s, r, now) == Consume(c.token.value) ==> c.key == Some(r.key)
    ensures OwnKey(c, Present(s, r, now), now) && Chained(c, Present(s, r, now), now, known)
  {
  }

  lemma RefusedMeansForgotten(s: Server, r: Request, now: nat)
    requires r.token in s.issuer && s.issuer[r.token] == r.origin && !Judge(s, r, now).Consume?
    ensures !Retired(Present(s, r, now), r.token, now)
  {
  }

  lemma SignInKept(w: World, delivered: bool)
    requires Inv(w)
    ensures Inv(Next(w, SignIn(delivered)))
  {
  }

  lemma UnservedKept(w: World, fate: Fate)
    requires Inv(w) && w.client.token.Some? && !fate.Served? && !Strands(w, Attempt(fate))
    ensures Inv(Next(w, Attempt(fate)))
  {
  }

  lemma AttemptHome(w: World, fate: Fate)
    requires ServerInv(w.server) && AtHome(w) && w.client.token.Some?
    ensures ServerInv(Attempted(w, fate).server) && AtHome(Attempted(w, fate))
  {
    PresentKeepsServer(w.server, RequestOf(w), w.now);
  }

  lemma ServedKept(w: World, lost: Loss)
    requires Inv(w) && w.client.token.Some?
    ensures Inv(Next(w, Attempt(Served(lost))))
  {
    var r, c := RequestOf(w), Begin(w.client, w.nextKey);
    AttemptHome(w, Served(lost));
    PresentKeepsChain(c, w.server, w.now, w.known, r);
    if !Judge(w.server, r, w.now).Consume? {
      RefusedMeansForgotten(w.server, r, w.now);
    }
  }

  lemma LateKept(w: World, r: Request)
    requires Inv(w) && r in w.astray && !Strands(w, Late(r))
    ensures Inv(Next(w, Late(r)))
  {
    PresentKeepsServer(w.server, r, w.now);
    if w.client.token.Some? {
      PresentKeepsChain(w.client, w.server, w.now, w.known, r);
    }
  }

  /**
   Exactly which steps strand a client: after any step from a sound state the client's token, if
   retired, is retired under the client's own key, unless the step is one that strands it.
   */
  lemma StrandedIff(w: World, step: Step)
    requires Inv(w) && Enabled(w, step)
    ensures OwnKey(Next(w, step).client, Next(w, step).server, Next(w, step).now) <==> !Strands(w, step)
    ensures !Strands(w, step) ==> Inv(Next(w, step))
  {
    match step
    case SignIn(delivered) => SignInKept(w, delivered);
    case Attempt(fate) =>
      if fate.Served? {
        ServedKept(w, fate.lost);
      } else if !Strands(w, step) {
        UnservedKept(w, fate);
      }
    case Late(r) =>
      if !Strands(w, step) {
        LateKept(w, r);
      }
    case Clear =>
    case Move(_) =>
    case Tick(_) =>
  }

  lemma HomeKept(w: World, step: Step)
    requires ServerInv(w.server) && AtHome(w) && Enabled(w, step)
    ensures ServerInv(Next(w, step).server) && AtHome(Next(w, step))
  {
    match step
    case SignIn(_) =>
    case Attempt(fate) => AttemptHome(w, fate);
    case Late(r) => PresentKeepsServer(w.server, r, w.now);
    case Clear =>
    case Move(_) =>
    case Tick(_) =>
  }

  lemma {:induction false} HomeReachable(w: World, steps: seq<Step>)
    requires ServerInv(w.server) && AtHome(w) && IsRun(w, steps)
    ensures AtHome(After(w, steps))
    decreases |steps|
  {
    if steps != [] {
      HomeKept(w, steps[0]);
      HomeReachable(Next(w, steps[0]), steps[1..]);
    }
  }

  /** In every run, stranded or not, a token is only ever sent to the origin that issued it. */
  lemma TokensStayHome(start: World, steps: seq<Step>)
    requires Init(start) && IsRun(start, steps)
    ensures var end := After(start, steps);
      forall i :: 0 <= i < |end.log| ==>
        var r := end.log[i].request; r.token in end.server.issuer && end.server.issuer[r.token] == r.origin
  {
    InitialInv(start);
    HomeReachable(start, steps);
  }

  // ------------------------------------------------------------------ whole runs

  /** A step that gives the client new credentials, or takes them away. */
  predicate Renews(w: World, step: Step) {
    step == SignIn(true) || step.Clear? || (step.Move? && step.origin != w.client.origin)
  }

  /** No step has stranded the client since it last came by its credentials; `whole` says so of `w`. */
  ghost predicate Unstranded(w: World, steps: seq<Step>, whole: bool)
    requires IsRun(w, steps)
    decreases |steps|
  {
    if steps == [] then whole
    else
      var s := steps[0];
      Unstranded(Next(w, s), steps[1..], Renews(w, s) || (whole && !Strands(w, s)))
  }

  /** What every step keeps, strandings included. */
  ghost predicate Base(w: World) { ServerInv(w.server) && AtHome(w) && AstrayKeys(w) }

  lemma AstrayKept(w: World, step: Step)
    requires AstrayKeys(w) && Enabled(w, step)
    ensures AstrayKeys(Next(w, step))
  {
  }

  lemma RenewalIsSound(w: World, step: Step)
    requires Base(w) && Enabled(w, step) && Renews(w, step)
    ensures Inv(Next(w, step))
  {
  }

  /** The token held is retired, and the next request will not carry the key it was retired under. */
  ghost predicate Doomed(w: World) {
    && w.client.token.Some? && w.client.token.value in w.server.tombs
    && var key := w.server.tombs[w.client.token.value].key;
    key < w.nextKey && w.client.key != Some(key)
  }

  /** The token held is neither live nor retired any more. */
  ghost predicate Gone(w: World) {
    && w.client.token.Some?
    && w.client.token.value !in w.server.live && w.client.token.value !in w.server.tombs
  }

  /** What is known of a client that a step has stranded, or not. */
  ghost predicate Status(w: World, whole: bool) {
    if whole then Inv(w) else Base(w) && (Doomed(w) || Gone(w))
  }

  lemma StrandedIsDoomed(w: World, step: Step)
    requires Inv(w) && Enabled(w, step) && Strands(w, step)
    ensures Doomed(Next(w, step))
  {
  }

  lemma ServedInVain(w: World, lost: Loss)
    requires Base(w) && (Doomed(w) || Gone(w))
    ensures Doomed(Next(w, Attempt(Served(lost)))) || Gone(Next(w, Attempt(Served(lost))))
  {
    assert !Judge(w.server, RequestOf(w), w.now).Consume?;
  }

  lemma StaysStranded(w: World, step: Step)
    requires Base(w) && (Doomed(w) || Gone(w)) && Enabled(w, step) && !Renews(w, step)
    ensures Doomed(Next(w, step)) || Gone(Next(w, step))
  {
    if step.Attempt? && step.fate.Served? {
      ServedInVain(w, step.fate.lost);
    }
  }

  lemma StatusKept(w: World, step: Step, whole: bool)
    requires Status(w, whole) && Enabled(w, step)
    ensures Status(Next(w, step), Renews(w, step) || (whole && !Strands(w, step)))
  {
    HomeKept(w, step);
    AstrayKept(w, step);
    if Renews(w, step) {
      RenewalIsSound(w, step);
    } else if !whole {
      StaysStranded(w, step);
    } else if Strands(w, step) {
      StrandedIsDoomed(w, step);
    } else {
      StrandedIff(w, step);
    }
  }

  lemma {:induction false} Reachable(w: World, steps: seq<Step>, whole: bool)
    requires Status(w, whole) && IsRun(w, steps)
    ensures Status(After(w, steps), Unstranded(w, steps, whole))
    decreases |steps|
  {
    if steps != [] {
      var s := steps[0];
      StatusKept(w, s, whole);
      Reachable(Next(w, s), steps[1..], Renews(w, s) || (whole && !Strands(w, s)));
    }
  }

  /**
   The exact condition over whole runs: a client holds a token retired under another key than its
   own if and only if a step has stranded it since it last came by its credentials, and the
   tombstone stands.
   */
  lemma RetiredOnlyUnderItsKey(start: World, steps: seq<Step>)
    requires Init(start) && IsRun(start, steps)
    ensures var end := After(start, steps);
      end.client.token.Some? && Retired(end.server, end.client.token.value, end.now) ==>
        (RequestOf(end).key == end.server.tombs[end.client.token.value].key <==> Unstranded(start, steps, true))
  {
    InitialInv(start);
    Reachable(start, steps, true);
  }

  /** What an attempt meets: a retry is granted for the grace period, and condemns the sign-in after it. */
  lemma RetryOutcome(w: World)
    requires Inv(w) && w.client.token.Some?
    ensures var t, s, v := w.client.token.value, w.server, Judge(w.server, RequestOf(w), w.now);
      && (v.Consume? <==>
            || (t in s.live && s.live[t].expires > w.now)
            || (Retired(s, t, w.now) && w.now - s.tombs[t].retired <= 900_000))
      && (v.Condemn? <==> Retired(s, t, w.now) && w.now - s.tombs[t].retired > 900_000)
  {
  }

  /**
   Lost replies cost nothing.  In every run, as long as no step has stranded the client since it last
   came by its credentials, renewing succeeds if and only if the token held is live or was retired
   no longer than the grace period ago, and condemns the sign-in if and only if it was retired
   longer ago than that.
   */
  lemma LostRepliesAreHarmless(start: World, steps: seq<Step>)
    requires Init(start) && IsRun(start, steps) && Unstranded(start, steps, true)
    ensures var end := After(start, steps);
      end.client.token.Some? ==>
        var t, s, v := end.client.token.value, end.server, Judge(end.server, RequestOf(end), end.now);
        && (v.Consume? <==>
              || (t in s.live && s.live[t].expires > end.now)
              || (Retired(s, t, end.now) && end.now - s.tombs[t].retired <= 900_000))
        && (v.Condemn? <==> Retired(s, t, end.now) && end.now - s.tombs[t].retired > 900_000)
  {
    InitialInv(start);
    Reachable(start, steps, true);
    if After(start, steps).client.token.Some? {
      RetryOutcome(After(start, steps));
    }
  }

  /**
   Stranding is fatal.  In every run, once a step has stranded the client and until it comes by new
   credentials, whatever happens in between, an attempt condemns the sign-in if the tombstone still
   stands, and is refused if not.
   */
  lemma StrandingIsFatal(start: World, steps: seq<Step>)
    requires Init(start) && IsRun(start, steps) && !Unstranded(start, steps, true)
    ensures var end := After(start, steps);
      && end.client.token.Some?
      && var t, v := end.client.token.value, Judge(end.server, RequestOf(end), end.now);
      if Retired(end.server, t, end.now) then v == Condemn(end.server.tombs[t].family) else v.Unknown?
  {
    InitialInv(start);
    Reachable(start, steps, true);
  }

  // ------------------------------------------------------------------ and how it goes wrong

  lemma Extend(w: World, step: Step, rest: seq<Step>)
    requires Enabled(w, step) && IsRun(Next(w, step), rest)
    ensures IsRun(w, [step] + rest) && After(w, [step] + rest) == After(Next(w, step), rest)
  {
    assert ([step] + rest)[1..] == rest;
  }

  /**
   It takes no other party and no delay: one lost reply, and one refusal ahead of the refresh such
   as a spent renewal budget gives.
   */
  lemma TurnedAwayStrands(w: World) returns (w2: World, steps: seq<Step>)
    requires Init(w)
    ensures steps == [SignIn(true), Attempt(Served(AllOfIt))]
    ensures IsRun(w, steps) && w2 == After(w, steps) && w2.now == w.now
    ensures Enabled(w2, Attempt(TurnedAway)) && Strands(w2, Attempt(TurnedAway))
  {
    var w1 := Next(w, SignIn(true));
    w2 := Next(w1, Attempt(Served(AllOfIt)));
    Extend(w1, Attempt(Served(AllOfIt)), []);
    Extend(w, SignIn(true), [Attempt(Served(AllOfIt))] + []);
    steps := [SignIn(true), Attempt(Served(AllOfIt))];
  }

  /** Or a request given up on that arrives once its retry has been answered. */
  lemma LateStrands(w: World) returns (w3: World, steps: seq<Step>, r: Request)
    requires Init(w)
    ensures steps == [SignIn(true), Attempt(GivenUp), Attempt(Served(Nothing))]
    ensures IsRun(w, steps) && w3 == After(w, steps) && w3.now == w.now
    ensures Enabled(w3, Late(r)) && Strands(w3, Late(r))
  {
    var w1 := Next(w, SignIn(true));
    r := RequestOf(w1);
    var w2 := Next(w1, Attempt(GivenUp));
    w3 := Next(w2, Attempt(Served(Nothing)));
    RetryAnswered(w2, r);
    Extend(w2, Attempt(Served(Nothing)), []);
    Extend(w1, Attempt(GivenUp), [Attempt(Served(Nothing))] + []);
    Extend(w, SignIn(true), [Attempt(GivenUp)] + ([Attempt(Served(Nothing))] + []));
    steps := [SignIn(true), Attempt(GivenUp), Attempt(Served(Nothing))];
  }

  lemma RetryAnswered(w: World, r: Request)
    requires w.client.token.Some? && RequestOf(w) == r && r.token < w.server.next
    requires r.token in w.server.issuer && w.server.issuer[r.token] == r.origin
    requires r.token in w.server.live && w.server.live[r.token].expires > w.now && r.token !in w.server.tombs
    ensures var w' := Next(w, Attempt(Served(Nothing)));
      w'.client.key.None? && w'.client.token.Some? && Judge(w'.server, r, w'.now) == Consume(w'.client.token.value)
  {
  }
}
