/**
 Silencing the speakers at the desk while their monitor is captured, and putting them back.
 The sound server and the people at the machine are the environment: what each query and request
 meets is given by the caller.
 */
module LocalMute {
  import opened Options

  /**
   Who silenced a sink.  A person who mutes a sink that is muted already changes nothing, and is not
   remembered: under the host's mute, the mute stays the host's.
   */
  datatype Owner = Nobody | Host | User

  /** Somebody at the machine mutes or unmutes a sink. */
  datatype Hand = Hand(sink: string, mute: bool)

  /**
   A mute request's fate.  The reply's success flag is not read, so a request can be answered and
   not obeyed; a wait given up on is not answered, and the server may obey it all the same.
   */
  datatype Fate = Fate(answered: bool, obeyed: bool)

  /**
   A request of this capture, with what people did before the host looked at the sink, and between
   that and the request; `took` says that it took away a person's own mute.
   */
  datatype Request = Request(sink: string, mute: bool, fate: Fate, looked: seq<Hand>, asked: seq<Hand>, took: bool)

  /** The server's sinks, and the requests this capture has made of it, oldest first. */
  datatype Server = Server(owners: map<string, Owner>, log: seq<Request>)

  function OwnerOf(server: Server, sink: string): Owner {
    if sink in server.owners then server.owners[sink] else Nobody
  }

  predicate IsMuted(server: Server, sink: string) { OwnerOf(server, sink) != Nobody }

  function Handled(server: Server, hand: Hand): Server {
    if !hand.mute then server.(owners := server.owners[hand.sink := Nobody])
    else if IsMuted(server, hand.sink) then server
    else server.(owners := server.owners[hand.sink := User])
  }

  function HandledAll(server: Server, hands: seq<Hand>): Server
    decreases |hands|
  {
    if hands == [] then server else HandledAll(Handled(server, hands[0]), hands[1..])
  }

  function SetMute(server: Server, sink: string, mute: bool, looked: seq<Hand>, asked: seq<Hand>, fate: Fate): Server {
    var took := !mute && fate.obeyed && OwnerOf(server, sink) == User;
    var logged := server.(log := server.log + [Request(sink, mute, fate, looked, asked, took)]);
    if !fate.obeyed then logged
    else if !mute then logged.(owners := logged.owners[sink := Nobody])
    else if IsMuted(server, sink) then logged
    else logged.(owners := logged.owners[sink := Host])
  }

  /** What this host silenced, and is to put back. */
  datatype Record = Record(sink: Option<string>, applied: bool)

  const NOTHING := Record(None, false)

  /** What `MuteLocal` meets: its answers, and what people do before each of the last two. */
  datatype Muting = Muting(source: bool, paired: Option<string>, first: seq<Hand>, described: bool,
                           mutesItself: bool, second: seq<Hand>, fate: Fate)

  /** Silence the sink behind the captured monitor, if it can be and nobody has. */
  function MuteLocal(server: Server, o: Muting): (Server, Record) {
    if !o.source || o.paired.None? then (server, NOTHING)
    else
      var sink := o.paired.value;
      var looked := HandledAll(server, o.first);
      if !o.described then (looked, NOTHING)
      else if !o.mutesItself || IsMuted(looked, sink) then (looked, Record(Some(sink), false))
      else
        (SetMute(HandledAll(looked, o.second), sink, true, o.first, o.second, o.fate),
         Record(Some(sink), o.fate.answered))
  }

  datatype Restoring = Restoring(first: seq<Hand>, described: bool, second: seq<Hand>, fate: Fate)

  /** Unmute the recorded sink, if this host silenced it and it is still silent. */
  function RestoreLocal(server: Server, muted: Record, o: Restoring): Server {
    if !muted.applied || muted.sink.None? then server
    else
      var sink := muted.sink.value;
      var looked := HandledAll(server, o.first);
      if !o.described || !IsMuted(looked, sink) then looked
      else SetMute(HandledAll(looked, o.second), sink, false, o.first, o.second, o.fate)
  }

  /** One turn of the loop: which of its branches it takes, and what each call meets. */
  datatype Pass = Pass(ready: bool, asked: bool, muteWanted: bool, moving: bool, leaving: Restoring,
                       muting: Muting, lettingGo: Restoring, following: bool, left: Restoring,
                       muteThen: bool, mutingThen: Muting)

  /** The half of a turn that acts on new settings. */
  function Heeded(server: Server, muted: Record, p: Pass): (Server, Record) {
    if !p.asked then (server, muted)
    else
      var (s, m) := if p.moving then (RestoreLocal(server, muted, p.leaving), NOTHING) else (server, muted);
      if p.muteWanted && !m.applied then MuteLocal(s, p.muting)
      else if !p.muteWanted && m.applied then (RestoreLocal(s, m, p.lettingGo), NOTHING)
      else (s, m)
  }

  /** The half that follows a new default output. */
  function Followed(server: Server, muted: Record, p: Pass): (Server, Record) {
    if !p.following then (server, muted)
    else
      var s := RestoreLocal(server, muted, p.left);
      if p.muteThen then MuteLocal(s, p.mutingThen) else (s, NOTHING)
  }

  function Turned(server: Server, muted: Record, p: Pass): (Server, Record) {
    var (s, m) := Heeded(server, muted, p);
    Followed(s, m, p)
  }

  function TurnedAll(server: Server, muted: Record, passes: seq<Pass>): (Server, Record) {
    if passes == [] then (server, muted)
    else
      var (s, m) := TurnedAll(server, muted, passes[..|passes| - 1]);
      Turned(s, m, passes[|passes| - 1])
  }

  /** A whole capture, its loop having made these turns. */
  function Served(server: Server, start: bool, muting: Muting, passes: seq<Pass>, leaving: Restoring): Server {
    var (s, m) := if start then MuteLocal(server, muting) else (server, NOTHING);
    var (s', m') := TurnedAll(s, m, passes);
    RestoreLocal(s', m', leaving)
  }

  /** The loop ends when its passes run out, or early on a stream that is no longer ready. */
  method Serve(server: Server, start: bool, muting: Muting, passes: seq<Pass>, leaving: Restoring)
    returns (server': Server, turns: nat)
    ensures turns <= |passes| && (turns < |passes| ==> !passes[turns].ready)
    ensures forall i :: 0 <= i < turns ==> passes[i].ready
    ensures server' == Served(server, start, muting, passes[..turns], leaving)
  {
    var muted := NOTHING;
    server' := server;
    if start {
      var done := MuteLocal(server, muting);
      server', muted := done.0, done.1;
    }
    ghost var s0, m0 := server', muted;
    turns := 0;
    while turns < |passes| && passes[turns].ready
      invariant turns <= |passes|
      invariant forall i :: 0 <= i < turns ==> passes[i].ready
      invariant (server', muted) == TurnedAll(s0, m0, passes[..turns])
    {
      assert passes[..turns + 1][..turns] == passes[..turns];
      var p := passes[turns];
      if p.asked {
        if p.moving {
          server', muted := RestoreLocal(server', muted, p.leaving), NOTHING;
        }
        if p.muteWanted && !muted.applied {
          var done := MuteLocal(server', p.muting);
          server', muted := done.0, done.1;
        } else if !p.muteWanted && muted.applied {
          server', muted := RestoreLocal(server', muted, p.lettingGo), NOTHING;
        }
      }
      if p.following {
        server', muted := RestoreLocal(server', muted, p.left), NOTHING;
        if p.muteThen {
          var done := MuteLocal(server', p.mutingThen);
          server', muted := done.0, done.1;
        }
      }
      turns := turns + 1;
    }
    server' := RestoreLocal(server', muted, leaving);
  }

  // ------------------------------------------------------------------ what people leave behind

  ghost predicate Unmuted(hands: seq<Hand>, sink: string) { Hand(sink, false) in hands }

  /** A mute that no unmute follows. */
  ghost predicate MutedLast(hands: seq<Hand>, sink: string) {
    exists j :: 0 <= j < |hands| && hands[j] == Hand(sink, true) && Hand(sink, false) !in hands[j..]
  }

  /** Never unmuted, or muted again since. */
  ghost predicate LeftMuted(hands: seq<Hand>, sink: string) { Unmuted(hands, sink) ==> MutedLast(hands, sink) }

  lemma MutedLastStep(hands: seq<Hand>, sink: string)
    requires hands != []
    ensures MutedLast(hands, sink) <==>
      MutedLast(hands[1..], sink) || (hands[0] == Hand(sink, true) && !Unmuted(hands, sink))
  {
    var rest := hands[1..];
    if MutedLast(rest, sink) {
      var j :| 0 <= j < |rest| && rest[j] == Hand(sink, true) && Hand(sink, false) !in rest[j..];
      assert hands[j + 1..] == rest[j..];
    }
    if MutedLast(hands, sink) {
      var j :| 0 <= j < |hands| && hands[j] == Hand(sink, true) && Hand(sink, false) !in hands[j..];
      if j > 0 {
        assert rest[j - 1..] == hands[j..];
      }
    }
    assert hands[0..] == hands;
  }

  /** Who a sink is left to, after people have handled it. */
  lemma {:induction false} HandedOver(server: Server, hands: seq<Hand>, sink: string)
    ensures OwnerOf(HandledAll(server, hands), sink) == User <==>
      || (OwnerOf(server, sink) == User && !Unmuted(hands, sink))
      || (MutedLast(hands, sink) && (OwnerOf(server, sink) == Nobody || Unmuted(hands, sink)))
    ensures OwnerOf(HandledAll(server, hands), sink) == Host <==> OwnerOf(server, sink) == Host && !Unmuted(hands, sink)
    decreases |hands|
  {
    if hands != [] {
      HandedOver(Handled(server, hands[0]), hands[1..], sink);
      MutedLastStep(hands, sink);
      assert hands == [hands[0]] + hands[1..];
    }
  }

  /** People neither speak for the host nor make its requests. */
  lemma {:induction false} HandsAreNotOurs(server: Server, hands: seq<Hand>)
    ensures HandledAll(server, hands).log == server.log
    ensures forall s :: OwnerOf(HandledAll(server, hands), s) == Host ==> OwnerOf(server, s) == Host
    decreases |hands|
  {
    if hands != [] {
      HandsAreNotOurs(Handled(server, hands[0]), hands[1..]);
    }
  }

  lemma OwnerAfter(server: Server, sink: string, mute: bool, looked: seq<Hand>, asked: seq<Hand>, fate: Fate)
    ensures var server' := SetMute(server, sink, mute, looked, asked, fate);
      && (forall s :: s != sink ==> OwnerOf(server', s) == OwnerOf(server, s))
      && var kept := !fate.obeyed || (mute && IsMuted(server, sink));
      OwnerOf(server', sink) == if kept then OwnerOf(server, sink) else if mute then Host else Nobody
  {
  }

  // ------------------------------------------------------------------ what the record stands for

  /** Whose mute a sink is under once `a`, a mute request of this capture, has been made. */
  ghost function OwnerBy(a: Request): Owner {
    if MutedLast(a.asked, a.sink) then User else if a.fate.obeyed then Host else Nobody
  }

  /**
   When the unmute request `b` takes away a person's mute, `a` being the mute that it undoes:
   the sink was muted by hand before `a` was made, and left so; or `a` silenced it, and it was
   unmuted and muted again by hand; or `a` was answered and not obeyed, and it was muted by hand.
   */
  ghost predicate TakesAway(a: Request, b: Request) {
    var s := a.sink;
    b.fate.obeyed &&
    match OwnerBy(a)
    case User => LeftMuted(b.looked, s) && LeftMuted(b.asked, s)
    case Host =>
      || (Unmuted(b.looked, s) && MutedLast(b.looked, s) && LeftMuted(b.asked, s))
      || (!Unmuted(b.looked, s) && Unmuted(b.asked, s) && MutedLast(b.asked, s))
    case Nobody => MutedLast(b.looked, s) && LeftMuted(b.asked, s)
  }

  ghost predicate AnsweredMute(a: Request, sink: string) { a.mute && a.fate.answered && a.sink == sink }

  /** Every unmute undoes the answered mute of the same sink that directly precedes it. */
  ghost predicate Paired(log: seq<Request>) {
    forall k :: 0 <= k < |log| && !log[k].mute ==>
      k > 0 && AnsweredMute(log[k - 1], log[k].sink) && (log[k].took <==> TakesAway(log[k - 1], log[k]))
  }

  /** A record stands for the last request made. */
  ghost predicate Recorded(server: Server, muted: Record) {
    Paired(server.log) &&
    (muted.applied ==>
       && muted.sink.Some? && |server.log| > 0
       && var last := server.log[|server.log| - 1];
       AnsweredMute(last, muted.sink.value) && OwnerOf(server, muted.sink.value) == OwnerBy(last))
  }

  /** No mute of this host's is in force, but the recorded one. */
  ghost predicate Accounted(server: Server, muted: Record) {
    forall s :: OwnerOf(server, s) == Host ==> muted.applied && muted.sink == Some(s)
  }

  ghost predicate LetGo(server: Server) { forall s :: OwnerOf(server, s) != Host }

  /** A mute the server obeys is answered in time; putting back is described, and obeyed. */
  predicate KeepsFaith(o: Muting) { o.fate.obeyed ==> o.fate.answered }

  predicate Obliges(o: Restoring) { o.described && o.fate.obeyed }

  predicate Honest(p: Pass) {
    && Obliges(p.leaving) && KeepsFaith(p.muting) && Obliges(p.lettingGo)
    && Obliges(p.left) && KeepsFaith(p.mutingThen)
  }

  lemma PairedGrows(log: seq<Request>, r: Request)
    requires Paired(log)
    requires r.mute ||
      (|log| > 0 && var a := log[|log| - 1]; AnsweredMute(a, r.sink) && (r.took <==> TakesAway(a, r)))
    ensures Paired(log + [r])
  {
  }

  lemma MuteRecords(server: Server, o: Muting)
    requires Paired(server.log)
    ensures Recorded(MuteLocal(server, o).0, MuteLocal(server, o).1)
    ensures LetGo(server) && KeepsFaith(o) ==> Accounted(MuteLocal(server, o).0, MuteLocal(server, o).1)
  {
    var looked := HandledAll(server, o.first);
    var handled := HandledAll(looked, o.second);
    HandsAreNotOurs(server, o.first);
    HandsAreNotOurs(looked, o.second);
    if o.paired.Some? {
      var sink := o.paired.value;
      HandedOver(looked, o.second, sink);
      OwnerAfter(handled, sink, true, o.first, o.second, o.fate);
      PairedGrows(server.log, Request(sink, true, o.fate, o.first, o.second, false));
    }
  }

  /** The request a restore makes, when it makes one. */
  ghost function Unmute(server: Server, sink: string, o: Restoring): Request {
    var took := o.fate.obeyed && OwnerOf(HandledAll(HandledAll(server, o.first), o.second), sink) == User;
    Request(sink, false, o.fate, o.first, o.second, took)
  }

  lemma RestoreTakes(server: Server, muted: Record, o: Restoring)
    requires Recorded(server, muted) && muted.applied && IsMuted(HandledAll(server, o.first), muted.sink.value)
    ensures var r := Unmute(server, muted.sink.value, o);
      r.took <==> TakesAway(server.log[|server.log| - 1], r)
  {
    HandedOver(server, o.first, muted.sink.value);
    HandedOver(HandledAll(server, o.first), o.second, muted.sink.value);
  }

  lemma RestoreLog(server: Server, sink: string, o: Restoring)
    ensures var made := o.described && IsMuted(HandledAll(server, o.first), sink);
      RestoreLocal(server, Record(Some(sink), true), o).log ==
        if made then server.log + [Unmute(server, sink, o)] else server.log
  {
    HandsAreNotOurs(server, o.first);
    HandsAreNotOurs(HandledAll(server, o.first), o.second);
  }

  lemma RestorePairs(server: Server, muted: Record, o: Restoring)
    requires Recorded(server, muted)
    ensures Paired(RestoreLocal(server, muted, o).log)
  {
    if muted.applied {
      var sink := muted.sink.value;
      RestoreLog(server, sink, o);
      if o.described && IsMuted(HandledAll(server, o.first), sink) {
        RestoreTakes(server, muted, o);
        PairedGrows(server.log, Unmute(server, sink, o));
      }
    }
  }

  lemma RestoreUndoes(server: Server, muted: Record, o: Restoring)
    requires Recorded(server, muted)
    ensures Paired(RestoreLocal(server, muted, o).log)
    ensures Accounted(server, muted) && Obliges(o) ==> LetGo(RestoreLocal(server, muted, o))
  {
    RestorePairs(server, muted, o);
    var looked := HandledAll(server, o.first);
    HandsAreNotOurs(server, o.first);
    HandsAreNotOurs(looked, o.second);
    if muted.applied {
      OwnerAfter(HandledAll(looked, o.second), muted.sink.value, false, o.first, o.second, o.fate);
    }
  }

  lemma HeededKept(server: Server, muted: Record, p: Pass)
    requires Recorded(server, muted)
    ensures var (s, m) := Heeded(server, muted, p);
      && Recorded(s, m) && (Accounted(server, muted) && Honest(p) ==> Accounted(s, m))
      && (p.asked && m.applied ==> p.muteWanted)
  {
    var (s, m) := if p.moving then (RestoreLocal(server, muted, p.leaving), NOTHING) else (server, muted);
    RestoreUndoes(server, muted, p.leaving);
    MuteRecords(s, p.muting);
    RestoreUndoes(s, m, p.lettingGo);
  }

  lemma FollowedKept(server: Server, muted: Record, p: Pass)
    requires Recorded(server, muted)
    ensures var (s, m) := Followed(server, muted, p);
      && Recorded(s, m) && (Accounted(server, muted) && Honest(p) ==> Accounted(s, m))
      && (p.following && m.applied ==> p.muteThen)
  {
    RestoreUndoes(server, muted, p.left);
    MuteRecords(RestoreLocal(server, muted, p.left), p.mutingThen);
  }

  /** The mute setting the loop read last, over the passes it got through. */
  ghost function LastWanted(start: bool, passes: seq<Pass>): bool
    decreases |passes|
  {
    if passes == [] then start
    else
      var p := passes[|passes| - 1];
      if p.following then p.muteThen
      else if p.asked then p.muteWanted
      else LastWanted(start, passes[..|passes| - 1])
  }

  /**
   Through device changes, default changes and failed reopens the loop holds at most one record,
   which covers every mute of this host's in force, and holds one only if muting is wanted.
   */
  lemma {:induction false} TurnsKept(server: Server, muted: Record, start: bool, passes: seq<Pass>)
    requires Recorded(server, muted) && (muted.applied ==> start)
    ensures var (s, m) := TurnedAll(server, muted, passes);
      && Recorded(s, m) && (m.applied ==> LastWanted(start, passes))
      && (Accounted(server, muted) && (forall p :: p in passes ==> Honest(p)) ==> Accounted(s, m))
    decreases |passes|
  {
    if passes != [] {
      var front, p := passes[..|passes| - 1], passes[|passes| - 1];
      assert p in passes;
      TurnsKept(server, muted, start, front);
      var (s, m) := TurnedAll(server, muted, front);
      HeededKept(s, m, p);
      var (s', m') := Heeded(s, m, p);
      FollowedKept(s', m', p);
    }
  }

  /**
   A whole capture.  Every unmute it asks for undoes its own mute, the request directly before it;
   it takes away a person's mute exactly when `TakesAway` says; and if the server keeps faith, none
   of this host's mutes is left in force, however the loop ended.
   */
  lemma SpeakersPutBack(server: Server, start: bool, muting: Muting, passes: seq<Pass>, leaving: Restoring)
    requires server.log == []
    ensures Paired(Served(server, start, muting, passes, leaving).log)
    ensures LetGo(server) && KeepsFaith(muting) && (forall p :: p in passes ==> Honest(p)) && Obliges(leaving) ==>
      LetGo(Served(server, start, muting, passes, leaving))
  {
    MuteRecords(server, muting);
    var (s, m) := if start then MuteLocal(server, muting) else (server, NOTHING);
    TurnsKept(s, m, start, passes);
    var (s', m') := TurnedAll(s, m, passes);
    RestoreUndoes(s', m', leaving);
  }

  /** A mute that meets a server that does as it is asked, and nobody at the machine. */
  ghost predicate Smooth(o: Muting, sink: string) {
    && o.source && o.paired == Some(sink) && o.described && o.mutesItself
    && o.first == [] && o.second == [] && o.fate == Fate(true, true)
  }

  /** Muting that is asked for is done: at once, after a device change, and after a new default output. */
  lemma SilencedWhenWanted(server: Server, muted: Record, p: Pass, sink: string)
    ensures p.asked && p.muteWanted && (p.moving || !muted.applied) && !p.following && Smooth(p.muting, sink) ==>
      IsMuted(Turned(server, muted, p).0, sink)
    ensures p.following && p.muteThen && Smooth(p.mutingThen, sink) ==> IsMuted(Turned(server, muted, p).0, sink)
    ensures p.asked && p.muteWanted && !p.moving && !p.following && muted.applied ==>
      Turned(server, muted, p) == (server, muted)
    ensures !p.asked && !p.following ==> Turned(server, muted, p) == (server, muted)
  {
  }

  // ------------------------------------------------------------------ a person's mute taken away

  /** What a mute and the restore of its record meet, as the requests that they make. */
  ghost function MuteOf(o: Muting): Request
    requires o.paired.Some?
  {
    Request(o.paired.value, true, o.fate, o.first, o.second, false)
  }

  ghost function UnmuteOf(sink: string, o: Restoring): Request {
    Request(sink, false, o.fate, o.first, o.second, true)
  }

  /**
   The record says that this host asked for the mute and was answered, not that the mute is its
   own.  A restore takes away a person's mute exactly when the server obliges it and what people
   did around the two requests is as `TakesAway` says.
   */
  lemma PersonsMuteUndone(server: Server, m: Muting, r: Restoring)
    requires MuteLocal(server, m).1.applied
    ensures var (muted, record) := MuteLocal(server, m);
      var restored := RestoreLocal(muted, record, r);
      (|restored.log| == |server.log| + 2 && restored.log[|server.log| + 1].took) <==>
        r.described && TakesAway(MuteOf(m), UnmuteOf(m.paired.value, r))
  {
    var sink := m.paired.value;
    var looked := HandledAll(server, m.first);
    var handled := HandledAll(looked, m.second);
    HandsAreNotOurs(server, m.first);
    HandsAreNotOurs(looked, m.second);
    HandedOver(looked, m.second, sink);
    OwnerAfter(handled, sink, true, m.first, m.second, m.fate);
    var muted := MuteLocal(server, m).0;
    HandsAreNotOurs(muted, r.first);
    HandsAreNotOurs(HandledAll(muted, r.first), r.second);
    HandedOver(muted, r.first, sink);
    HandedOver(HandledAll(muted, r.first), r.second, sink);
  }

  /** All three happen, with every request answered and the sink never left alone by the server. */
  lemma TakenThreeWays(sink: string)
    ensures var done := Fate(true, true); var refused := Fate(true, false);
      var muting := Muting(true, Some(sink), [], true, true, [], done);
      var restoring := Restoring([], true, [], done);
      var mutes, unmutes := Hand(sink, true), Hand(sink, false);
      // muted by hand just before the host's request was made
      && Taken(sink, muting.(second := [mutes]), restoring)
      // unmuted and muted again by hand while the host held its record
      && Taken(sink, muting, restoring.(first := [unmutes, mutes]))
      // muted by hand after a request that was answered and not obeyed
      && Taken(sink, muting.(fate := refused), restoring.(first := [mutes]))
  {
    var mutes, unmutes := Hand(sink, true), Hand(sink, false);
    assert [mutes][0] == mutes && [mutes][0..] == [mutes];
    assert [unmutes, mutes][1] == mutes && [unmutes, mutes][1..] == [mutes];
    assert [unmutes, mutes][0] == unmutes;
    assert MutedLast([mutes], sink) && MutedLast([unmutes, mutes], sink) && Unmuted([unmutes, mutes], sink);
    var muting := Muting(true, Some(sink), [], true, true, [], Fate(true, true));
    var restoring := Restoring([], true, [], Fate(true, true));
    var server := Server(map[], []);
    PersonsMuteUndone(server, muting.(second := [mutes]), restoring);
    PersonsMuteUndone(server, muting, restoring.(first := [unmutes, mutes]));
    PersonsMuteUndone(server, muting.(fate := Fate(true, false)), restoring.(first := [mutes]));
  }

  /** On a server where nobody has muted anything, a mute is answered and its restore takes a person's mute. */
  ghost predicate Taken(sink: string, m: Muting, r: Restoring) {
    var (muted, record) := MuteLocal(Server(map[], []), m);
    var log := RestoreLocal(muted, record, r).log;
    record == Record(Some(sink), true) && |log| == 2 && log[1].took
  }

  // ------------------------------------------------------------------ a mute nobody undoes

  /**
   When a mute goes unrecorded: exactly when the server obeys a request that the host gave up
   waiting for.
   */
  lemma UnrecordedMute(server: Server, o: Muting)
    requires LetGo(server)
    ensures var (muted, record) := MuteLocal(server, o);
      !Accounted(muted, record) <==>
        (&& o.source && o.paired.Some? && o.described && o.mutesItself
         && !IsMuted(HandledAll(server, o.first), o.paired.value)
         && !IsMuted(HandledAll(HandledAll(server, o.first), o.second), o.paired.value)
         && o.fate.obeyed && !o.fate.answered)
  {
    var looked := HandledAll(server, o.first);
    HandsAreNotOurs(server, o.first);
    HandsAreNotOurs(looked, o.second);
    if o.paired.Some? {
      OwnerAfter(HandledAll(looked, o.second), o.paired.value, true, o.first, o.second, o.fate);
    }
  }

  /** When a restore leaves this host's mute in force; the loop drops the record all the same. */
  lemma RestoreFails(server: Server, sink: string, o: Restoring)
    requires OwnerOf(server, sink) == Host
    ensures OwnerOf(RestoreLocal(server, Record(Some(sink), true), o), sink) == Host <==>
      !Unmuted(o.first, sink) && (!o.described || (!o.fate.obeyed && !Unmuted(o.second, sink)))
  {
    var looked := HandledAll(server, o.first);
    HandedOver(server, o.first, sink);
    HandedOver(looked, o.second, sink);
    OwnerAfter(HandledAll(looked, o.second), sink, false, o.first, o.second, o.fate);
  }

  /** This host's mute of the sink is in force, and no record says so. */
  ghost predicate Forgotten(server: Server, muted: Record, sink: string) {
    OwnerOf(server, sink) == Host && !(muted.applied && muted.sink == Some(sink))
  }

  ghost predicate NobodyUnmutes(p: Pass, sink: string) {
    && NoUnmute(p.leaving, sink) && NoUnmute(p.lettingGo, sink) && NoUnmute(p.left, sink)
    && !Unmuted(p.muting.first, sink) && !Unmuted(p.muting.second, sink)
    && !Unmuted(p.mutingThen.first, sink) && !Unmuted(p.mutingThen.second, sink)
  }

  ghost predicate NoUnmute(o: Restoring, sink: string) { !Unmuted(o.first, sink) && !Unmuted(o.second, sink) }

  lemma ForgottenByMute(server: Server, o: Muting, sink: string)
    requires OwnerOf(server, sink) == Host && !Unmuted(o.first, sink) && !Unmuted(o.second, sink)
    ensures Forgotten(MuteLocal(server, o).0, MuteLocal(server, o).1, sink)
  {
    HandedOver(server, o.first, sink);
    HandedOver(HandledAll(server, o.first), o.second, sink);
  }

  lemma ForgottenByRestore(server: Server, muted: Record, o: Restoring, sink: string)
    requires Forgotten(server, muted, sink) && NoUnmute(o, sink)
    ensures OwnerOf(RestoreLocal(server, muted, o), sink) == Host
  {
    HandedOver(server, o.first, sink);
    HandedOver(HandledAll(server, o.first), o.second, sink);
  }

  /** Such a mute outlasts the capture, unless somebody unmutes the sink by hand. */
  lemma {:induction false} NeverUndone(server: Server, muted: Record, passes: seq<Pass>, leaving: Restoring,
                                       sink: string)
    requires Forgotten(server, muted, sink)
    requires (forall p :: p in passes ==> NobodyUnmutes(p, sink)) && NoUnmute(leaving, sink)
    ensures var (s, m) := TurnedAll(server, muted, passes);
      Forgotten(s, m, sink) && OwnerOf(RestoreLocal(s, m, leaving), sink) == Host
    decreases |passes|
  {
    if passes != [] {
      var front, p := passes[..|passes| - 1], passes[|passes| - 1];
      assert p in passes;
      NeverUndone(server, muted, front, leaving, sink);
      var (s, m) := TurnedAll(server, muted, front);
      ForgottenByTurn(s, m, p, sink);
    }
    var (s, m) := TurnedAll(server, muted, passes);
    ForgottenByRestore(s, m, leaving, sink);
  }

  lemma ForgottenByTurn(server: Server, muted: Record, p: Pass, sink: string)
    requires Forgotten(server, muted, sink) && NobodyUnmutes(p, sink)
    ensures Forgotten(Turned(server, muted, p).0, Turned(server, muted, p).1, sink)
  {
    ForgottenByRestore(server, muted, p.leaving, sink);
    var (s, m) := if p.moving then (RestoreLocal(server, muted, p.leaving), NOTHING) else (server, muted);
    ForgottenByMute(s, p.muting, sink);
    ForgottenByRestore(s, m, p.lettingGo, sink);
    var (s', m') := Heeded(server, muted, p);
    assert Forgotten(s', m', sink);
    ForgottenByRestore(s', m', p.left, sink);
    ForgottenByMute(RestoreLocal(s', m', p.left), p.mutingThen, sink);
  }

  // ------------------------------------------------------------------ exactly what is left in force

  /** A capture as the calls it makes, each with what it meets. */
  datatype Call = MuteCall(m: Muting) | RestoreCall(r: Restoring)

  /** A restore drops the record, whatever came of it. */
  function Done(server: Server, muted: Record, c: Call): (Server, Record) {
    match c
    case MuteCall(m) => MuteLocal(server, m)
    case RestoreCall(r) => (RestoreLocal(server, muted, r), NOTHING)
  }

  function DoneAll(server: Server, muted: Record, calls: seq<Call>): (Server, Record)
    decreases |calls|
  {
    if calls == [] then (server, muted)
    else
      var (s, m) := Done(server, muted, calls[0]);
      DoneAll(s, m, calls[1..])
  }

  function HeedCalls(muted: Record, p: Pass): seq<Call> {
    if !p.asked then []
    else
      var applied := muted.applied && !p.moving;
      (if p.moving then [RestoreCall(p.leaving)] else []) +
      (if p.muteWanted && !applied then [MuteCall(p.muting)]
       else if !p.muteWanted && applied then [RestoreCall(p.lettingGo)]
       else [])
  }

  function FollowCalls(p: Pass): seq<Call> {
    if !p.following then [] else [RestoreCall(p.left)] + (if p.muteThen then [MuteCall(p.mutingThen)] else [])
  }

  /** The calls of the loop's turns. */
  function LoopCalls(server: Server, muted: Record, passes: seq<Pass>): seq<Call> {
    if passes == [] then []
    else
      var front, p := passes[..|passes| - 1], passes[|passes| - 1];
      LoopCalls(server, muted, front) + (HeedCalls(TurnedAll(server, muted, front).1, p) + FollowCalls(p))
  }

  function CaptureCalls(server: Server, start: bool, muting: Muting, passes: seq<Pass>, leaving: Restoring)
    : seq<Call>
  {
    var first := if start then [MuteCall(muting)] else [];
    var (s, m) := DoneAll(server, NOTHING, first);
    first + (LoopCalls(s, m, passes) + [RestoreCall(leaving)])
  }

  /** Nothing is muted over a record. */
  ghost predicate Proper(server: Server, muted: Record, calls: seq<Call>)
    decreases |calls|
  {
    calls == [] ||
    (&& (calls[0].MuteCall? ==> !muted.applied)
     && var (s, m) := Done(server, muted, calls[0]);
     Proper(s, m, calls[1..]))
  }

  lemma {:induction false} DoneTwice(server: Server, muted: Record, a: seq<Call>, b: seq<Call>)
    ensures var (s, m) := DoneAll(server, muted, a);
      && DoneAll(server, muted, a + b) == DoneAll(s, m, b)
      && (Proper(server, muted, a + b) <==> Proper(server, muted, a) && Proper(s, m, b))
    decreases |a|
  {
    if a == [] {
      assert a + b == b;
    } else {
      assert (a + b)[1..] == a[1..] + b;
      var (s, m) := Done(server, muted, a[0]);
      DoneTwice(s, m, a[1..], b);
    }
  }

  lemma OneCall(server: Server, muted: Record, c: Call)
    ensures DoneAll(server, muted, [c]) == Done(server, muted, c)
    ensures Proper(server, muted, [c]) <==> (c.MuteCall? ==> !muted.applied)
  {
    assert [c][1..] == [];
  }

  lemma HeededByCalls(server: Server, muted: Record, p: Pass)
    ensures DoneAll(server, muted, HeedCalls(muted, p)) == Heeded(server, muted, p)
    ensures Proper(server, muted, HeedCalls(muted, p))
  {
    if p.asked {
      var first := if p.moving then [RestoreCall(p.leaving)] else [];
      OneCall(server, muted, RestoreCall(p.leaving));
      var (s, m) := DoneAll(server, muted, first);
      OneCall(s, m, MuteCall(p.muting));
      OneCall(s, m, RestoreCall(p.lettingGo));
      DoneTwice(server, muted, first, HeedCalls(muted, p)[|first|..]);
      assert HeedCalls(muted, p) == first + HeedCalls(muted, p)[|first|..];
    }
  }

  lemma FollowedByCalls(server: Server, muted: Record, p: Pass)
    ensures DoneAll(server, muted, FollowCalls(p)) == Followed(server, muted, p)
    ensures Proper(server, muted, FollowCalls(p))
  {
    var s := RestoreLocal(server, muted, p.left);
    OneCall(server, muted, RestoreCall(p.left));
    OneCall(s, NOTHING, MuteCall(p.mutingThen));
    DoneTwice(server, muted, [RestoreCall(p.left)], if p.muteThen then [MuteCall(p.mutingThen)] else []);
  }

  lemma {:induction false} LoopByCalls(server: Server, muted: Record, passes: seq<Pass>)
    ensures DoneAll(server, muted, LoopCalls(server, muted, passes)) == TurnedAll(server, muted, passes)
    ensures Proper(server, muted, LoopCalls(server, muted, passes))
    decreases |passes|
  {
    if passes != [] {
      var front, p := passes[..|passes| - 1], passes[|passes| - 1];
      LoopByCalls(server, muted, front);
      var (s, m) := TurnedAll(server, muted, front);
      HeededByCalls(s, m, p);
      var (s', m') := Heeded(s, m, p);
      FollowedByCalls(s', m', p);
      DoneTwice(s, m, HeedCalls(m, p), FollowCalls(p));
      DoneTwice(server, muted, LoopCalls(server, muted, front), HeedCalls(m, p) + FollowCalls(p));
    }
  }

  /** A capture is its calls, the last of them a restore. */
  lemma CaptureByCalls(server: Server, start: bool, muting: Muting, passes: seq<Pass>, leaving: Restoring)
    ensures var calls := CaptureCalls(server, start, muting, passes, leaving);
      && DoneAll(server, NOTHING, calls) == (Served(server, start, muting, passes, leaving), NOTHING)
      && Proper(server, NOTHING, calls)
  {
    var first := if start then [MuteCall(muting)] else [];
    OneCall(server, NOTHING, MuteCall(muting));
    var (s, m) := DoneAll(server, NOTHING, first);
    LoopByCalls(s, m, passes);
    var (s', m') := TurnedAll(s, m, passes);
    OneCall(s', m', RestoreCall(leaving));
    DoneTwice(s, m, LoopCalls(s, m, passes), [RestoreCall(leaving)]);
    DoneTwice(server, NOTHING, first, LoopCalls(s, m, passes) + [RestoreCall(leaving)]);
  }

  /** What people do during a call. */
  ghost function HandsOf(server: Server, muted: Record, c: Call): seq<Hand> {
    match c
    case MuteCall(o) =>
      if !o.source || o.paired.None? then []
      else
        var asked := o.described && o.mutesItself && !IsMuted(HandledAll(server, o.first), o.paired.value);
        o.first + (if asked then o.second else [])
    case RestoreCall(o) =>
      if !muted.applied || muted.sink.None? then []
      else if o.described && IsMuted(HandledAll(server, o.first), muted.sink.value) then o.first + o.second
      else o.first
  }

  ghost predicate NobodyEver(server: Server, muted: Record, calls: seq<Call>, sink: string)
    decreases |calls|
  {
    calls == [] ||
    (&& !Unmuted(HandsOf(server, muted, calls[0]), sink)
     && var (s, m) := Done(server, muted, calls[0]);
     NobodyEver(s, m, calls[1..], sink))
  }

  /**
   The call lets a mute of this host's slip: a mute that is obeyed and not answered, or a restore
   that is not described, or not obeyed, of a mute that nobody has undone by hand.
   */
  ghost predicate Slips(server: Server, muted: Record, c: Call, sink: string) {
    match c
    case MuteCall(o) =>
      && o.source && o.paired == Some(sink) && o.described && o.mutesItself
      && !IsMuted(HandledAll(server, o.first), sink)
      && !IsMuted(HandledAll(HandledAll(server, o.first), o.second), sink)
      && o.fate.obeyed && !o.fate.answered
    case RestoreCall(o) =>
      && muted.applied && muted.sink == Some(sink) && OwnerOf(server, sink) == Host
      && !Unmuted(o.first, sink) && (!o.described || (!o.fate.obeyed && !Unmuted(o.second, sink)))
  }

  /** Some call lets it slip, and nobody unmutes the sink after that. */
  ghost predicate Slipped(server: Server, muted: Record, calls: seq<Call>, sink: string)
    decreases |calls|
  {
    calls != [] &&
    var (s, m) := Done(server, muted, calls[0]);
    (Slips(server, muted, calls[0], sink) && NobodyEver(s, m, calls[1..], sink)) || Slipped(s, m, calls[1..], sink)
  }

  lemma MuteSlips(server: Server, muted: Record, o: Muting, sink: string)
    requires !muted.applied
    ensures var (s, m) := MuteLocal(server, o);
      Forgotten(s, m, sink) <==>
        || (Forgotten(server, muted, sink) && !Unmuted(HandsOf(server, muted, MuteCall(o)), sink))
        || Slips(server, muted, MuteCall(o), sink)
  {
    var looked := HandledAll(server, o.first);
    HandedOver(server, o.first, sink);
    HandedOver(looked, o.second, sink);
    if o.paired.Some? {
      OwnerAfter(HandledAll(looked, o.second), o.paired.value, true, o.first, o.second, o.fate);
    }
  }

  lemma RestoreSlips(server: Server, muted: Record, o: Restoring, sink: string)
    requires muted.applied ==> muted.sink.Some?
    ensures Forgotten(RestoreLocal(server, muted, o), NOTHING, sink) <==>
      || (Forgotten(server, muted, sink) && !Unmuted(HandsOf(server, muted, RestoreCall(o)), sink))
      || Slips(server, muted, RestoreCall(o), sink)
  {
    var looked := HandledAll(server, o.first);
    HandedOver(server, o.first, sink);
    HandedOver(looked, o.second, sink);
    if muted.applied {
      OwnerAfter(HandledAll(looked, o.second), muted.sink.value, false, o.first, o.second, o.fate);
    }
  }

  lemma {:induction false} InForceIff(server: Server, muted: Record, calls: seq<Call>, sink: string)
    requires Proper(server, muted, calls) && !DoneAll(server, muted, calls).1.applied
    requires muted.applied ==> muted.sink.Some?
    ensures OwnerOf(DoneAll(server, muted, calls).0, sink) == Host <==>
      (Forgotten(server, muted, sink) && NobodyEver(server, muted, calls, sink)) || Slipped(server, muted, calls, sink)
    decreases |calls|
  {
    if calls != [] {
      match calls[0] {
        case MuteCall(o) => MuteSlips(server, muted, o, sink);
        case RestoreCall(o) => RestoreSlips(server, muted, o, sink);
      }
      var (s, m) := Done(server, muted, calls[0]);
      InForceIff(s, m, calls[1..], sink);
    }
  }

  /**
   The exact condition over a whole capture, whatever the server and people do: a mute of this host's
   is in force at its end if and only if some call let it slip and nobody unmuted the sink since.
   */
  lemma LeftInForceIff(server: Server, start: bool, muting: Muting, passes: seq<Pass>, leaving: Restoring, sink: string)
    requires LetGo(server)
    ensures OwnerOf(Served(server, start, muting, passes, leaving), sink) == Host <==>
      Slipped(server, NOTHING, CaptureCalls(server, start, muting, passes, leaving), sink)
  {
    CaptureByCalls(server, start, muting, passes, leaving);
    InForceIff(server, NOTHING, CaptureCalls(server, start, muting, passes, leaving), sink);
  }

  /** Both happen, in a capture of no passes: a mute given up on and obeyed, and a restore not obeyed. */
  lemma LeftTwoWays(sink: string)
    ensures var done := Fate(true, true);
      var muting := Muting(true, Some(sink), [], true, true, [], done);
      var restoring := Restoring([], true, [], done);
      var silent := Server(map[], []);
      && OwnerOf(Served(silent, true, muting.(fate := Fate(false, true)), [], restoring), sink) == Host
      && OwnerOf(Served(silent, true, muting, [], restoring.(fate := Fate(true, false))), sink) == Host
  {
  }
}
