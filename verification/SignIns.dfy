/**
 The control plane's side of refreshing, whoever asks: sign-ins and the refresh tokens that descend
 from them, over every sequence of requests from clients, copies and thieves.
 */
module SignIns {
  import opened Options
  import R = Refresh

  datatype Input = SignIn(origin: nat, now: nat) | Show(request: R.Request, now: nat)

  /** When a token was issued, and from which sign-in it descends, which is named by its first token. */
  datatype Issue = Issue(family: nat, at: nat)

  /** The server, and what was ever issued. */
  datatype World = World(server: R.Server, issues: map<nat, Issue>)

  function Next(w: World, i: Input): World {
    var s := w.server;
    match i
    case SignIn(origin, now) => World(R.SignedIn(s, origin, now), w.issues[s.next := Issue(s.next, now)])
    case Show(r, now) =>
      var verdict := R.Judge(s, r, now);
      var issues := if verdict.Consume? && verdict.token in w.issues
        then w.issues[s.next := Issue(w.issues[verdict.token].family, now)] else w.issues;
      World(R.Present(s, r, now), issues)
  }

  ghost function After(w: World, inputs: seq<Input>): World
    decreases |inputs|
  {
    if inputs == [] then w else After(Next(w, inputs[0]), inputs[1..])
  }

  ghost predicate Init(w: World) {
    && |w.server.live| == 0 && |w.server.tombs| == 0 && |w.server.issuer| == 0 && |w.issues| == 0
  }

  /** Live and retired tokens are as they were issued, for thirty days. */
  ghost predicate AsIssued(w: World) {
    && (forall t :: t in w.issues ==> t < w.server.next && w.issues[t].family <= t)
    && (forall t :: t in w.server.live ==>
          t in w.issues && w.server.live[t] == R.Live(w.issues[t].family, w.issues[t].at + 2_592_000_000))
    && (forall t :: t in w.server.tombs ==>
          && t in w.issues && w.server.tombs[t].family == w.issues[t].family
          && w.server.tombs[t].expires == w.issues[t].at + 2_592_000_000)
  }

  /** A sign-in has at most one live token. */
  ghost predicate OneEach(w: World) {
    var live := w.server.live;
    forall t, u :: t in live && u in live && live[t].family == live[u].family ==> t == u
  }

  ghost predicate Inv(w: World) { R.ServerInv(w.server) && AsIssued(w) && OneEach(w) }

  /** What each verdict does, token by token. */
  lemma PresentEffect(s: R.Server, r: R.Request, now: nat, t: nat)
    requires R.ServerInv(s)
    ensures var s' := R.Present(s, r, now);
      match R.Judge(s, r, now)
      case Unknown => s' == s
      case Expired(x) =>
        (t in s'.live <==> t in s.live && t != x) && s'.tombs == s.tombs && (t in s'.live ==> s'.live[t] == s.live[t])
      case Condemn(f) =>
        && (t in s'.live <==> t in s.live && s.live[t].family != f) && (t in s'.live ==> s'.live[t] == s.live[t])
        && (t in s'.tombs <==> t in s.tombs && s.tombs[t].family != f) && (t in s'.tombs ==> s'.tombs[t] == s.tombs[t])
      case Consume(x) =>
        && (t in s'.live <==> (t in s.live && t != x) || t == s.next)
        && (t in s'.live && t != s.next ==> s'.live[t] == s.live[t])
        && (t in s'.tombs <==> t in s.tombs || t == x)
        && (t in s.tombs && t != r.token ==> s'.tombs[t] == s.tombs[t])
        && (t in s.tombs && t == r.token ==> s'.tombs[t] == s.tombs[t].(successor := s.next))
        && s'.tombs[x].key == r.key && s'.tombs[x].retired == now && s'.tombs[x].successor == s.next
  {
  }

  lemma SignInKept(w: World, origin: nat, now: nat)
    requires Inv(w)
    ensures Inv(Next(w, SignIn(origin, now)))
  {
  }

  lemma IssuedByRotation(w: World, r: R.Request, now: nat)
    requires R.ServerInv(w.server) && AsIssued(w) && R.Judge(w.server, r, now).Consume?
    ensures AsIssued(Next(w, Show(r, now)))
  {
  }

  lemma IssuedKept(w: World, r: R.Request, now: nat)
    requires R.ServerInv(w.server) && AsIssued(w)
    ensures AsIssued(Next(w, Show(r, now)))
  {
    if R.Judge(w.server, r, now).Consume? {
      IssuedByRotation(w, r, now);
    }
  }

  lemma OneEachKept(w: World, r: R.Request, now: nat)
    requires R.ServerInv(w.server) && OneEach(w)
    ensures OneEach(Next(w, Show(r, now)))
  {
  }

  lemma InvKept(w: World, i: Input)
    requires Inv(w)
    ensures Inv(Next(w, i))
  {
    match i
    case SignIn(origin, now) => SignInKept(w, origin, now);
    case Show(r, now) =>
      R.PresentKeepsServer(w.server, r, now);
      IssuedKept(w, r, now);
      OneEachKept(w, r, now);
  }

  lemma {:induction false} Reachable(w: World, inputs: seq<Input>)
    requires Inv(w)
    ensures Inv(After(w, inputs))
    decreases |inputs|
  {
    if inputs != [] {
      InvKept(w, inputs[0]);
      Reachable(Next(w, inputs[0]), inputs[1..]);
    }
  }

  /**
   In every run of the server: a sign-in never has two live refresh tokens, and every token, live or
   retired, lasts thirty days from its issue and stays with the sign-in it descends from.
   */
  lemma OneLiveTokenPerSignIn(start: World, inputs: seq<Input>)
    requires Init(start)
    ensures OneEach(After(start, inputs)) && AsIssued(After(start, inputs))
  {
    Reachable(start, inputs);
  }

  /** No token of this sign-in is live or retired, and none will be issued. */
  ghost predicate Ended(w: World, family: nat) {
    && family < w.server.next
    && (forall t :: t in w.server.live ==> w.server.live[t].family != family)
    && (forall t :: t in w.server.tombs ==> w.server.tombs[t].family != family)
  }

  lemma EndedKept(w: World, i: Input, family: nat)
    requires Inv(w) && Ended(w, family)
    ensures Ended(Next(w, i), family)
    ensures i.Show? && R.Judge(w.server, i.request, i.now).Consume? ==>
      w.server.live[R.Judge(w.server, i.request, i.now).token].family != family
  {
  }

  lemma {:induction false} EndedForGood(w: World, inputs: seq<Input>, family: nat)
    requires Inv(w) && Ended(w, family)
    ensures Ended(After(w, inputs), family)
    decreases |inputs|
  {
    if inputs != [] {
      InvKept(w, inputs[0]);
      EndedKept(w, inputs[0], family);
      EndedForGood(Next(w, inputs[0]), inputs[1..], family);
    }
  }

  /**
   Condemning is for good.  In every run, after a request judged a replay, no token of that sign-in is
   live, every other sign-in is as it was, and whatever is asked later, by whomever, nothing that
   descends from it is ever live again.
   */
  lemma CondemnedForGood(start: World, before: seq<Input>, r: R.Request, now: nat, later: seq<Input>)
    requires Init(start) && R.Judge(After(start, before).server, r, now).Condemn?
    ensures var w := After(start, before); var family := R.Judge(w.server, r, now).family;
      var condemned := Next(w, Show(r, now));
      && r.token in w.issues && family == w.issues[r.token].family
      && (forall t :: t in w.server.live && w.server.live[t].family != family ==>
            t in condemned.server.live && condemned.server.live[t] == w.server.live[t])
      && Ended(condemned, family) && Ended(After(condemned, later), family)
  {
    Reachable(start, before);
    var w := After(start, before);
    var condemned := Next(w, Show(r, now));
    var family := R.Judge(w.server, r, now).family;
    InvKept(w, Show(r, now));
    EndedForGood(condemned, later, family);
  }

  /**
   A copied token is caught: in every run, showing a token that has been retired, before its thirty
   days are over, under any key but the one it was retired under, condemns its sign-in.
   */
  lemma ReplayIsCaught(start: World, inputs: seq<Input>, r: R.Request, now: nat)
    requires Init(start)
    requires var w := After(start, inputs);
      && r.token in w.server.tombs && r.token in w.server.issuer && w.server.issuer[r.token] == r.origin
      && r.token in w.issues && now < w.issues[r.token].at + 2_592_000_000 && r.key != w.server.tombs[r.token].key
    ensures var w := After(start, inputs); R.Judge(w.server, r, now) == R.Condemn(w.issues[r.token].family)
  {
    Reachable(start, inputs);
  }

  /** A token means nothing to an origin that did not issue it. */
  lemma StrangeOrigin(s: R.Server, r: R.Request, now: nat)
    requires r.token !in s.issuer || s.issuer[r.token] != r.origin
    ensures R.Present(s, r, now) == s && R.Reply(s, r, now) == R.Refusal
  {
  }

  lemma {:induction false} StaysUsedUp(w: World, inputs: seq<Input>, token: nat)
    requires Inv(w) && token < w.server.next && token !in w.server.live
    ensures token !in After(w, inputs).server.live
    decreases |inputs|
  {
    if inputs != [] {
      InvKept(w, inputs[0]);
      if inputs[0].Show? {
        PresentEffect(w.server, inputs[0].request, inputs[0].now, token);
      }
      StaysUsedUp(Next(w, inputs[0]), inputs[1..], token);
    }
  }

  /** A token is rotated at most once: once consumed it is never live again. */
  lemma RotatedOnce(start: World, before: seq<Input>, r: R.Request, now: nat, later: seq<Input>)
    requires Init(start) && R.Judge(After(start, before).server, r, now).Consume?
    ensures var w := After(start, before); var used := R.Judge(w.server, r, now).token;
      used !in After(Next(w, Show(r, now)), later).server.live
  {
    Reachable(start, before);
    var w := After(start, before);
    InvKept(w, Show(r, now));
    PresentEffect(w.server, r, now, R.Judge(w.server, r, now).token);
    StaysUsedUp(Next(w, Show(r, now)), later, R.Judge(w.server, r, now).token);
  }
}
