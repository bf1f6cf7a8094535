/**
 How a running audio capture learns of new settings: setters store under a lock and then bump a
 32-bit generation, and the capture loop reads the generation, then the settings, then moves its
 stream and mutes the speakers as they say.
 */
module Handoff {
  import opened Options

  const U32_SPAN := 0x1_0000_0000

  datatype Live = Live(device: Option<string>, muteLocal: bool)

  /** The shared object.  `Set` is two steps, so that another thread can run in between. */
  class Wanted {
    var live: Live
    var asked: nat

    constructor (live: Live)
      ensures this.live == live && asked == 0
    {
      this.live, asked := live, 0;
    }

    /** `set` with nobody else running: storing what is stored already leaves the generation alone. */
    method Set(value: Live)
      requires asked < U32_SPAN
      modifies this
      ensures live == value
      ensures asked == if old(live) == value then old(asked) else (old(asked) + 1) % U32_SPAN
    {
      var changed := StoreLocked(value);
      if changed {
        Bump();
      }
    }

    /** The locked half of `set`; the flag says whether the setter must still bump. */
    method StoreLocked(value: Live) returns (changed: bool)
      modifies this`live
      ensures live == value && changed == (old(live) != value)
    {
      changed := live != value;
      live := value;
    }

    /** `fetch_add`, which wraps. */
    method Bump()
      requires asked < U32_SPAN
      modifies this`asked
      ensures asked == (old(asked) + 1) % U32_SPAN
    {
      asked := if asked + 1 == U32_SPAN then 0 else asked + 1;
    }
  }

  /** The device asked for, if one was; a name that cannot be passed on counts as none. */
  function WantedDevice(device: Option<string>): Option<string> {
    if device.Some? && device.value != "" && '\0' !in device.value then device else None
  }

  /** Where opening a stream leads: to the device wanted, or to the default output's monitor. */
  function Target(device: Option<string>, output: string): string {
    if WantedDevice(device).Some? then device.value else output
  }

  /** The `moving` guard: only a named device other than the stream's makes the loop reopen it. */
  predicate Leaves(device: Option<string>, stream: string) {
    device.Some? && device.value != "" && device.value != stream
  }

  /** Where the loop is.  `Moving` carries the settings it has read. */
  datatype Phase =
    | Starting | Opened | Muted      // before the first generation read
    | Watching                       // at the top of a pass
    | Reading | Moving(live: Live)   // acting on new settings
    | Checking | Following | Remuting   // the default output's half of a pass

  /**
   `bumps` counts every bump ever made, so the stored generation is `bumps % U32_SPAN`; `owing`
   setters have stored and not bumped.  The loop has noticed `seen` bumps; `atOpen` and `first` were
   made before it opened its stream and before it began to watch.  `passes` counts how often it
   acted, and `changes` how often what is stored changed.
   */
  datatype Counts = Counts(bumps: nat, owing: nat, seen: nat, atOpen: nat, first: nat, passes: nat, changes: nat)

  /**
   The device the stream is on, the default output's monitor, and whether the server has said that
   something changed there.  Then history: the device the stream first opened on, and how often the
   stored device changed since; whether, since a stream was last opened, one failed to open or
   somebody moved it; and whether the last change that left no device named was stored while the
   stream was off the default output, with nothing to bring it there since.
   */
  datatype Place = Place(stream: string, output: string, changed: bool, openedOn: string, moves: nat,
                         disturbed: bool, adrift: bool)

  /** Whether the speakers are to be muted, and whether the stored flag is a different one by now. */
  datatype Mute = Mute(on: bool, flipped: bool)

  datatype World = World(live: Live, phase: Phase, count: Counts, place: Place, mute: Mute)

  datatype Step =
    | Store(value: Live)
    | Bump
    | NewDefault(name: string)   // the default output changes, and the server says so
    | Moved(name: string)        // somebody moves the stream
    | OpenStream | ReadMute | FirstGeneration
    | ReadGeneration | ReadLive | Reopen(ok: bool)
    | CheckFlags | Follow(ok: bool) | Remute

  predicate Enabled(w: World, step: Step) {
    match step
    case Store(_) => true
    case Bump => w.count.owing > 0
    case NewDefault(_) => true
    case Moved(_) => !w.phase.Starting?
    case OpenStream => w.phase.Starting?
    case ReadMute => w.phase.Opened?
    case FirstGeneration => w.phase.Muted?
    case ReadGeneration => w.phase.Watching?
    case ReadLive => w.phase.Reading?
    case Reopen(_) => w.phase.Moving?
    case CheckFlags => w.phase.Checking?
    case Follow(_) => w.phase.Following?
    case Remute => w.phase.Remuting?
  }

  predicate Differs(c: Counts) { c.bumps % U32_SPAN != c.seen % U32_SPAN }

  function NextPhase(w: World, step: Step): Phase
    requires Enabled(w, step)
  {
    match step
    case OpenStream => Opened
    case ReadMute => Muted
    case FirstGeneration => Watching
    case ReadGeneration => if Differs(w.count) then Reading else Checking
    case ReadLive => if Leaves(w.live.device, w.place.stream) then Moving(w.live) else Checking
    case Reopen(_) => Checking
    case CheckFlags => if w.place.changed && WantedDevice(w.live.device).None? then Following else Watching
    case Follow(_) => Remuting
    case Remute => Watching
    case _ => w.phase
  }

  function NextCounts(w: World, step: Step): Counts
    requires Enabled(w, step)
  {
    var c := w.count;
    match step
    case Store(value) => if value == w.live then c else c.(owing := c.owing + 1, changes := c.changes + 1)
    case Bump => c.(owing := c.owing - 1, bumps := c.bumps + 1)
    case OpenStream => c.(atOpen := c.bumps)
    case FirstGeneration => c.(seen := c.bumps, first := c.bumps)
    case ReadGeneration => if Differs(c) then c.(seen := c.bumps) else c
    case ReadLive => if Leaves(w.live.device, w.place.stream) then c else c.(passes := c.passes + 1)
    case Reopen(_) => c.(passes := c.passes + 1)
    case _ => c
  }

  /** The stream is on the default output, or the server's notice will take it there. */
  predicate HomeBound(w: World) { w.place.stream == w.place.output || w.place.changed || w.phase.Following? }

  /** `Stream::open`, which reads the wanted device itself; a failure keeps the stream there was. */
  function Opening(live: Live, p: Place, ok: bool): Place {
    if ok then p.(stream := Target(live.device, p.output), disturbed := false, adrift := false)
    else p.(disturbed := true)
  }

  function NextPlace(w: World, step: Step): Place
    requires Enabled(w, step)
  {
    var p := w.place;
    match step
    case Store(value) =>
      if value == w.live then p
      else
        p.(moves := p.moves + (if value.device != w.live.device then 1 else 0),
           adrift := WantedDevice(value.device).None? && !HomeBound(w))
    case NewDefault(name) => p.(output := name, changed := true, adrift := false)
    case Moved(name) => p.(stream := name, disturbed := true)
    case OpenStream =>
      Place(Target(w.live.device, p.output), p.output, p.changed, Target(w.live.device, p.output), 0, false, false)
    case Reopen(ok) => Opening(w.live, p, ok)
    case CheckFlags => p.(changed := false)
    case Follow(ok) => Opening(w.live, p, ok)
    case _ => p
  }

  function NextMute(w: World, step: Step): Mute
    requires Enabled(w, step)
  {
    var m := w.mute;
    match step
    case Store(value) => Mute(m.on, m.flipped != (value.muteLocal != w.live.muteLocal))
    case ReadMute => Mute(w.live.muteLocal, false)
    case ReadLive => if Leaves(w.live.device, w.place.stream) then Mute(m.on, false) else Mute(w.live.muteLocal, false)
    case Reopen(_) => Mute(w.phase.live.muteLocal, m.flipped)
    case Remute => Mute(w.live.muteLocal, false)
    case _ => m
  }

  function Next(w: World, step: Step): World
    requires Enabled(w, step)
  {
    World(if step.Store? then step.value else w.live, NextPhase(w, step), NextCounts(w, step),
          NextPlace(w, step), NextMute(w, step))
  }

  ghost predicate IsRun(w: World, steps: seq<Step>)
    decreases |steps|
  {
    steps == [] || (Enabled(w, steps[0]) && IsRun(Next(w, steps[0]), steps[1..]))
  }

  ghost function After(w: World, steps: seq<Step>): World
    requires IsRun(w, steps)
    decreases |steps|
  {
    if steps == [] then w else After(Next(w, steps[0]), steps[1..])
  }

  /** A capture starts; the settings may be old ones, bumped often, with a setter still to bump. */
  ghost predicate Init(w: World) {
    w.phase.Starting? && !w.place.changed && w.count.passes == 0 && w.count.changes == 0
  }

  // ------------------------------------------------------------------ invariants

  predicate Looping(p: Phase) { !p.Starting? && !p.Opened? && !p.Muted? }

  /** The loop has read the settings since it last noticed a bump. */
  predicate Settled(p: Phase) { Looping(p) && !p.Reading? && !p.Moving? }

  /** A bump later than the first `n` has been made or is still to come. */
  ghost predicate Noted(c: Counts, n: nat) { c.owing > 0 || c.bumps > n }

  /** What is stored changed while the stream opened, and no bump has been noticed since. */
  ghost predicate Missed(c: Counts) { c.seen == c.first && c.first > c.atOpen }

  ghost predicate CountInv(start: Counts, phase: Phase, c: Counts) {
    && c.bumps + c.owing == start.bumps + start.owing + c.changes
    && start.bumps <= c.bumps
    && (!Looping(phase) ==> c.passes == 0)
    && (phase.Opened? || phase.Muted? ==> c.atOpen <= c.bumps)
    && (Looping(phase) ==> start.bumps <= c.first <= c.seen <= c.bumps)
    && (Looping(phase) ==> c.passes + (if Settled(phase) then 0 else 1) <= c.seen - c.first)
  }

  /** The speakers are as stored, or a bump will say that they are not, or it was missed. */
  ghost predicate MuteInv(w: World) {
    && (w.phase.Muted? ==> w.mute.on == w.live.muteLocal || Noted(w.count, w.count.atOpen))
    && (w.phase.Moving? ==> w.phase.live.muteLocal == w.live.muteLocal || Noted(w.count, w.count.seen))
    && (Settled(w.phase) ==> w.mute.on == w.live.muteLocal || Noted(w.count, w.count.seen) || Missed(w.count))
  }

  ghost predicate FlipInv(w: World) {
    && (w.phase.Moving? ==> (w.phase.live.muteLocal == w.live.muteLocal <==> !w.mute.flipped))
    && (w.phase.Muted? || Settled(w.phase) ==> (w.mute.on == w.live.muteLocal <==> !w.mute.flipped))
  }

  /** The same for a named device and the stream. */
  ghost predicate DeviceInv(w: World) {
    WantedDevice(w.live.device).Some? && !w.place.disturbed ==>
      var there := w.place.stream == w.live.device.value;
      && (w.phase.Opened? || w.phase.Muted? ==> there || Noted(w.count, w.count.atOpen))
      && (Settled(w.phase) ==> there || Noted(w.count, w.count.seen) || Missed(w.count))
  }

  /** With no device named, the stream is bound for the default output, or adrift. */
  ghost predicate HomeInv(w: World) {
    WantedDevice(w.live.device).None? && !w.place.disturbed && !w.phase.Starting? ==>
      (HomeBound(w) <==> !w.place.adrift)
  }

  /** While no bump has come since the loop began to watch, a stream with a named device stays where it opened. */
  ghost predicate OpeningInv(w: World) {
    var named := WantedDevice(w.live.device).Some?;
    && (!w.phase.Starting? && named && w.place.moves == 0 ==> w.place.openedOn == w.live.device.value)
    && (w.phase.Following? ==> !named || Noted(w.count, w.count.seen))
    && ((w.phase.Opened? || w.phase.Muted?) && !w.place.disturbed ==> w.place.stream == w.place.openedOn)
    && (Settled(w.phase) && !w.place.disturbed && named && !Noted(w.count, w.count.first) ==>
          w.place.stream == w.place.openedOn)
  }

  ghost predicate Inv(start: World, w: World) {
    && CountInv(start.count, w.phase, w.count)
    && MuteInv(w) && FlipInv(w) && DeviceInv(w) && HomeInv(w) && OpeningInv(w)
  }

  lemma CountKept(start: Counts, w: World, step: Step)
    requires CountInv(start, w.phase, w.count) && Enabled(w, step)
    ensures CountInv(start, NextPhase(w, step), NextCounts(w, step))
  {
  }

  lemma MuteKept(start: Counts, w: World, step: Step)
    requires CountInv(start, w.phase, w.count) && MuteInv(w) && Enabled(w, step)
    ensures MuteInv(Next(w, step))
  {
  }

  lemma FlipKept(w: World, step: Step)
    requires FlipInv(w) && Enabled(w, step)
    ensures FlipInv(Next(w, step))
  {
  }

  lemma DeviceKept(start: Counts, w: World, step: Step)
    requires CountInv(start, w.phase, w.count) && DeviceInv(w) && Enabled(w, step)
    ensures DeviceInv(Next(w, step))
  {
  }

  lemma HomeKept(w: World, step: Step)
    requires HomeInv(w) && Enabled(w, step)
    ensures HomeInv(Next(w, step))
  {
  }

  lemma OpeningKept(start: Counts, w: World, step: Step)
    requires CountInv(start, w.phase, w.count) && OpeningInv(w) && Enabled(w, step)
    ensures OpeningInv(Next(w, step))
  {
  }

  lemma {:induction false} Reachable(start: World, w: World, steps: seq<Step>)
    requires Inv(start, w) && IsRun(w, steps)
    ensures Inv(start, After(w, steps))
    decreases |steps|
  {
    if steps != [] {
      CountKept(start.count, w, steps[0]);
      MuteKept(start.count, w, steps[0]);
      FlipKept(w, steps[0]);
      DeviceKept(start.count, w, steps[0]);
      HomeKept(w, steps[0]);
      OpeningKept(start.count, w, steps[0]);
      Reachable(start, Next(w, steps[0]), steps[1..]);
    }
  }

  // ------------------------------------------------------------------ one more pass

  /** One whole pass of the loop, with no setter running; `ok` says whether a stream it opens opens. */
  function Pass(w: World, ok: bool): World
    requires w.phase.Watching?
  {
    var w1 := Next(w, ReadGeneration);
    var w2 := if w1.phase.Reading? then Acting(w1, ok) else w1;
    var w3 := Next(w2, CheckFlags);
    if w3.phase.Following? then Next(Next(w3, Follow(ok)), Remute) else w3
  }

  function Acting(w: World, ok: bool): (w': World)
    requires w.phase.Reading?
    ensures w'.phase.Checking?
  {
    var read := Next(w, ReadLive);
    if read.phase.Moving? then Next(read, Reopen(ok)) else read
  }

  /** The stream is on the device stored, or on the default output if none is named. */
  predicate OnStored(w: World) { w.place.stream == Target(w.live.device, w.place.output) }

  /** A device is named, by a name that can be passed on. */
  ghost predicate Named(device: Option<string>) {
    device.Some? && device.value != "" && forall i :: 0 <= i < |device.value| ==> device.value[i] != '\0'
  }

  predicate Follows(w: World) { w.place.changed && WantedDevice(w.live.device).None? }

  lemma PassOutcome(w: World, ok: bool)
    requires w.phase.Watching?
    ensures var w' := Pass(w, ok);
      && w'.phase.Watching? && w'.live == w.live && w'.place.output == w.place.output
      && w'.mute.on == (if Differs(w.count) || Follows(w) then w.live.muteLocal else w.mute.on)
      && var opens := ok && ((Differs(w.count) && Leaves(w.live.device, w.place.stream)) || Follows(w));
      w'.place.stream == if opens then Target(w.live.device, w.place.output) else w.place.stream
  {
  }

  lemma SameResidue(a: nat, b: nat)
    requires b <= a
    ensures a % U32_SPAN == b % U32_SPAN <==> (a - b) % U32_SPAN == 0
  {
    var q, r := b / U32_SPAN, b % U32_SPAN;
    var d, e := (a - b) / U32_SPAN, (a - b) % U32_SPAN;
    assert a == (q + d) * U32_SPAN + (r + e);
    if r + e < U32_SPAN {
      Residue(q + d, r + e);
    } else {
      Residue(q + d + 1, r + e - U32_SPAN);
    }
  }

  lemma Residue(q: nat, r: nat)
    requires r < U32_SPAN
    ensures (q * U32_SPAN + r) % U32_SPAN == r
  {
  }

  /** At the top of a pass, with every setter done and fewer than 2^32 bumps since the last one. */
  ghost predicate Quiet(w: World) {
    w.phase.Watching? && w.count.owing == 0 && w.count.bumps < w.count.seen + 0x1_0000_0000
  }

  /** A bump came after the loop began to watch, or none came while its stream opened. */
  predicate Watched(c: Counts) { c.bumps > c.first || c.first <= c.atOpen }

  lemma Arrive(start: World, steps: seq<Step>)
    requires Init(start) && IsRun(start, steps)
    ensures Inv(start, After(start, steps))
    ensures var w := After(start, steps);
      w.phase.Watching? ==>
        && w.count.seen <= w.count.bumps
        && (Differs(w.count) <==> (w.count.bumps - w.count.seen) % U32_SPAN != 0)
        && (Quiet(w) ==> (Differs(w.count) <==> w.count.bumps > w.count.seen))
  {
    Reachable(start, start, steps);
    var w := After(start, steps);
    if w.phase.Watching? {
      SameResidue(w.count.bumps, w.count.seen);
    }
  }

  /**
   In every run: once the setters are done and the loop watched, one more pass mutes the speakers as
   stored, and leaves the stream on the device stored, if one is named.
   */
  lemma NothingSetIsLost(start: World, steps: seq<Step>, ok: bool)
    requires Init(start) && IsRun(start, steps) && Quiet(After(start, steps)) && Watched(After(start, steps).count)
    ensures var w := After(start, steps);
      && Pass(w, ok).mute.on == w.live.muteLocal
      && (Named(w.live.device) && !w.place.disturbed && ok ==> Pass(w, ok).place.stream == w.live.device.value)
  {
    Arrive(start, steps);
    PassOutcome(After(start, steps), ok);
  }

  /**
   With no device named, one more pass leaves the stream on the default output if and only if it is
   not adrift: the change away from the last named device was stored while the stream was on the
   default output or a notice of the server's was still to be read, or the default output changed or
   a stream was opened since.  (A name that cannot be passed on makes the loop reopen all the same.)
   */
  lemma DefaultIff(start: World, steps: seq<Step>)
    requires Init(start) && IsRun(start, steps) && Quiet(After(start, steps))
    ensures var w := After(start, steps);
      !Named(w.live.device) && !w.place.disturbed ==>
        (Pass(w, true).place.stream == w.place.output <==>
           || !w.place.adrift
           || (&& w.live.device.Some? && w.live.device.value != "" && w.live.device.value != w.place.stream
               && w.count.bumps > w.count.seen))
  {
    Arrive(start, steps);
    PassOutcome(After(start, steps), true);
  }

  /**
   When the settings changed only while the stream opened: the speakers are as stored if and only if
   the flag changed an even number of times since it was read, or the loop follows a new default
   output; and the stream is on a named device if and only if it opened there, as it did if the
   stored device has not changed since.
   */
  lemma OpeningIff(start: World, steps: seq<Step>, ok: bool)
    requires Init(start) && IsRun(start, steps)
    requires var w := After(start, steps); Quiet(w) && w.count.bumps == w.count.first
    ensures var w := After(start, steps);
      && (Pass(w, ok).mute.on == w.live.muteLocal <==>
            !w.mute.flipped || (w.place.changed && !Named(w.live.device)))
      && (Named(w.live.device) && !w.place.disturbed ==>
            var there := Pass(w, ok).place.stream == w.live.device.value;
            (there <==> w.place.openedOn == w.live.device.value) && (w.place.moves == 0 ==> there))
  {
    Arrive(start, steps);
    PassOutcome(After(start, steps), ok);
  }

  /** What a pass does for the stream, disturbed or not: a failure to open keeps the one there was. */
  lemma PassIff(w: World)
    requires w.phase.Watching? && w.count.seen <= w.count.bumps
    ensures Pass(w, false).place.stream == w.place.stream
    ensures var unseen := w.count.bumps - w.count.seen;
      var stored := if Named(w.live.device) then w.live.device.value else w.place.output;
      Pass(w, true).place.stream == stored <==>
        || w.place.stream == stored || (w.place.changed && !Named(w.live.device))
        || (&& unseen % 0x1_0000_0000 != 0
            && w.live.device.Some? && w.live.device.value != "" && w.live.device.value != w.place.stream)
  {
    SameResidue(w.count.bumps, w.count.seen);
    PassOutcome(w, true);
    PassOutcome(w, false);
  }

  /** Storing what is stored changes nothing, and no run acts more often than settings were set anew. */
  lemma ActsOnlyOnChanges(start: World, steps: seq<Step>)
    requires Init(start) && IsRun(start, steps)
    ensures var w := After(start, steps);
      && w.count.passes <= w.count.changes + start.count.owing
      && Next(w, Store(w.live)) == w
  {
    Arrive(start, steps);
  }

  // ------------------------------------------------------------------ three settings that are lost

  function Passes(w: World, oks: seq<bool>): World
    requires w.phase.Watching?
    decreases |oks|
  {
    if oks == [] then w else PassOutcome(w, oks[0]); Passes(Pass(w, oks[0]), oks[1..])
  }

  /** A stream that no pass would move stays put over any number of them. */
  lemma {:induction false} StaysPut(w: World, oks: seq<bool>)
    requires w.phase.Watching? && !Follows(w) && !(Differs(w.count) && Leaves(w.live.device, w.place.stream))
    ensures Passes(w, oks).place.stream == w.place.stream
    decreases |oks|
  {
    if oks != [] {
      PassOutcome(w, oks[0]);
      PassIsQuiet(w, oks[0]);
      StaysPut(Pass(w, oks[0]), oks[1..]);
    }
  }

  lemma PassIsQuiet(w: World, ok: bool)
    requires w.phase.Watching?
    ensures !Differs(Pass(w, ok).count) && !Pass(w, ok).place.changed
  {
  }

  lemma Extend(w: World, step: Step, rest: seq<Step>)
    requires Enabled(w, step) && IsRun(Next(w, step), rest)
    ensures IsRun(w, [step] + rest) && After(w, [step] + rest) == After(Next(w, step), rest)
  {
    assert ([step] + rest)[1..] == rest;
  }

  lemma Three(w: World, a: Step, b: Step, c: Step, rest: seq<Step>)
    requires Enabled(w, a) && Enabled(Next(w, a), b) && Enabled(Next(Next(w, a), b), c)
    requires IsRun(Next(Next(Next(w, a), b), c), rest)
    ensures IsRun(w, [a, b, c] + rest)
    ensures After(w, [a, b, c] + rest) == After(Next(Next(Next(w, a), b), c), rest)
  {
    Extend(Next(Next(w, a), b), c, rest);
    Extend(Next(w, a), b, [c] + rest);
    Extend(w, a, [b] + ([c] + rest));
    assert [a, b, c] + rest == [a] + ([b] + ([c] + rest));
  }

  /** Going back to the default output is not taken up: the bump is noticed and the stream stays. */
  lemma NoneIsNotTakenUp(w: World, device: string, oks: seq<bool>) returns (steps: seq<Step>)
    requires Init(w) && w.live == Live(Some(device), false) && w.count.owing == 0
    requires WantedDevice(Some(device)).Some? && device != w.place.output
    ensures steps == [OpenStream, ReadMute, FirstGeneration, Store(Live(None, false)), Bump]
    ensures IsRun(w, steps)
    ensures var end := After(w, steps);
      Quiet(end) && end.count.bumps > end.count.seen && Watched(end.count) && !end.place.disturbed && end.place.adrift
    ensures var end := After(w, steps);
      end.live.device.None? && end.place.output == w.place.output && Passes(end, oks).place.stream == device
  {
    var w3 := Next(Next(Next(w, OpenStream), ReadMute), FirstGeneration);
    var store := Store(Live(None, false));
    var end := Next(Next(w3, store), Bump);
    Extend(Next(w3, store), Bump, []);
    Extend(w3, store, [Bump] + []);
    Three(w, OpenStream, ReadMute, FirstGeneration, [store] + ([Bump] + []));
    steps := [OpenStream, ReadMute, FirstGeneration, store, Bump];
    assert steps == [OpenStream, ReadMute, FirstGeneration] + ([store] + ([Bump] + []));
    StaysPut(end, oks);
  }

  /** A device asked for while the stream opens is not taken up by any pass, until the next bump. */
  lemma LostWhileOpening(w: World, device: string, oks: seq<bool>) returns (steps: seq<Step>)
    requires Init(w) && w.live == Live(None, false) && w.count.owing == 0
    requires WantedDevice(Some(device)).Some? && device != w.place.output
    ensures var wanted := Live(Some(device), false);
      steps == [OpenStream, Store(wanted), Bump, ReadMute, FirstGeneration] && IsRun(w, steps)
    ensures var end := After(w, steps); Quiet(end) && !Watched(end.count) && !end.place.disturbed
    ensures var end := After(w, steps);
      end.live.device == Some(device) && Passes(end, oks).place.stream == w.place.output
  {
    var store := Store(Live(Some(device), false));
    var w3 := Next(Next(Next(w, OpenStream), store), Bump);
    var end := Next(Next(w3, ReadMute), FirstGeneration);
    Extend(Next(w3, ReadMute), FirstGeneration, []);
    Extend(w3, ReadMute, [FirstGeneration] + []);
    Three(w, OpenStream, store, Bump, [ReadMute] + ([FirstGeneration] + []));
    steps := [OpenStream, store, Bump, ReadMute, FirstGeneration];
    assert steps == [OpenStream, store, Bump] + ([ReadMute] + ([FirstGeneration] + []));
    StaysPut(end, oks);
  }

  /** Nor is a mute flag that changes after the loop read it and before the first generation read. */
  lemma MuteLostWhileOpening(w: World, ok: bool) returns (steps: seq<Step>)
    requires Init(w) && w.live == Live(None, false) && w.count.owing == 0
    ensures steps == [OpenStream, ReadMute, Store(Live(None, true)), Bump, FirstGeneration] && IsRun(w, steps)
    ensures var end := After(w, steps);
      && Quiet(end) && end.count.bumps == end.count.first && end.mute.flipped && !Follows(end)
      && end.live.muteLocal && !Pass(end, ok).mute.on
  {
    var store := Store(Live(None, true));
    var w3 := Next(Next(Next(w, OpenStream), ReadMute), store);
    var end := Next(Next(w3, Bump), FirstGeneration);
    Extend(Next(w3, Bump), FirstGeneration, []);
    Extend(w3, Bump, [FirstGeneration] + []);
    Three(w, OpenStream, ReadMute, store, [Bump] + ([FirstGeneration] + []));
    steps := [OpenStream, ReadMute, store, Bump, FirstGeneration];
    assert steps == [OpenStream, ReadMute, store] + ([Bump] + ([FirstGeneration] + []));
    PassOutcome(end, ok);
  }
}
