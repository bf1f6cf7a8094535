/**
 The byte-stream half of the iOS video view: splitting an H.264 Annex B byte stream into NAL
 units (section B.1 of ITU-T H.264) and rewriting them with four-byte big-endian lengths.
 */
module AnnexB {
  import opened Options

  /** Bytes as integers; the splitter compares them with 0 and 1 and asks nothing else of them. */
  type Bytes = seq<int>

  ghost predicate IsBytes(b: Bytes) { forall i :: 0 <= i < |b| ==> 0 <= b[i] < 256 }

  // ----------------------------------------------------------------- splitting

  /** A start code found by the scan: where it is and how long it is. */
  datatype Start = Start(offset: nat, length: nat)

  /** The length of the start code the scan recognises at `i`, or 0. */
  function CodeAt(b: Bytes, i: nat): nat {
    if i + 3 < |b| && b[i] == 0 && b[i + 1] == 0 && b[i + 2] == 1 then 3
    else if i + 4 < |b| && b[i] == 0 && b[i + 1] == 0 && b[i + 2] == 0 && b[i + 3] == 1 then 4
    else 0
  }

  /** The start codes found from `i` on. */
  function Starts(b: Bytes, i: nat): seq<Start>
    decreases |b| - i
  {
    if i + 3 >= |b| then []
    else if CodeAt(b, i) > 0 then [Start(i, CodeAt(b, i))] + Starts(b, i + CodeAt(b, i))
    else Starts(b, i + 1)
  }

  lemma {:induction false} StartsBounded(b: Bytes, i: nat)
    ensures forall k :: 0 <= k < |Starts(b, i)| ==>
      i <= Starts(b, i)[k].offset && Starts(b, i)[k].offset + Starts(b, i)[k].length < |b|
    decreases |b| - i
  {
    if i + 3 < |b| {
      StartsBounded(b, if CodeAt(b, i) > 0 then i + CodeAt(b, i) else i + 1);
    }
  }

  /** Where the span after the first of `starts` ends. */
  function SpanEnd(b: Bytes, starts: seq<Start>): nat
    requires starts != []
  {
    if |starts| > 1 then starts[1].offset else |b|
  }

  /** The non-empty spans between the start codes. */
  function Units(b: Bytes, starts: seq<Start>): seq<Bytes> {
    if starts == [] then []
    else
      var begin, end := starts[0].offset + starts[0].length, SpanEnd(b, starts);
      (if begin < end <= |b| then [b[begin..end]] else []) + Units(b, starts[1..])
  }

  function Split(b: Bytes): seq<Bytes> { Units(b, Starts(b, 0)) }

  /** `Units`, one start code at a time. */
  lemma UnitsStep(b: Bytes, s: Start, rest: seq<Start>)
    ensures var end := if rest == [] then |b| else rest[0].offset;
      Units(b, [s] + rest) ==
      (if s.offset + s.length < end <= |b| then [b[s.offset + s.length..end]] else []) + Units(b, rest)
  {
    assert ([s] + rest)[1..] == rest;
  }

  lemma Assoc<T>(a: seq<T>, b: seq<T>, c: seq<T>)
    ensures a + (b + c) == (a + b) + c
  {
  }

  method FindStarts(bytes: Bytes) returns (starts: seq<Start>)
    ensures starts == Starts(bytes, 0)
  {
    starts := [];
    var index := 0;
    while index + 3 < |bytes|
      invariant starts + Starts(bytes, index) == Starts(bytes, 0)
      decreases |bytes| - index
    {
      ghost var code := CodeAt(bytes, index);
      Assoc(starts, [Start(index, code)], Starts(bytes, index + code));
      if bytes[index] == 0 && bytes[index + 1] == 0 && bytes[index + 2] == 1 {
        starts := starts + [Start(index, 3)];
        index := index + 3;
      } else if index + 4 < |bytes| && bytes[index] == 0 && bytes[index + 1] == 0 && bytes[index + 2] == 0
                && bytes[index + 3] == 1 {
        starts := starts + [Start(index, 4)];
        index := index + 4;
      } else {
        index := index + 1;
      }
    }
  }

  /** The span after the start code at `p`, if it is not empty. */
  function SpanAt(b: Bytes, starts: seq<Start>, p: nat): seq<Bytes>
    requires p < |starts|
  {
    var begin := starts[p].offset + starts[p].length;
    var end := if p + 1 < |starts| then starts[p + 1].offset else |b|;
    if begin < end <= |b| then [b[begin..end]] else []
  }

  /** Moving the span at `p` from what is left to what is done. */
  lemma UnitsAdvance(b: Bytes, starts: seq<Start>, p: nat, done: seq<Bytes>)
    requires p < |starts|
    ensures done + Units(b, starts[p..]) == done + SpanAt(b, starts, p) + Units(b, starts[p + 1..])
  {
    var rest := starts[p + 1..];
    assert starts[p..] == [starts[p]] + rest;
    UnitsStep(b, starts[p], rest);
    Assoc(done, SpanAt(b, starts, p), Units(b, rest));
  }

  /** The spans after the first `p` start codes. */
  ghost function SpansUpTo(b: Bytes, starts: seq<Start>, p: nat): seq<Bytes>
    requires p <= |starts|
  {
    if p == 0 then [] else SpansUpTo(b, starts, p - 1) + SpanAt(b, starts, p - 1)
  }

  lemma {:induction false} SpansAreUnits(b: Bytes, starts: seq<Start>, p: nat)
    requires p <= |starts|
    ensures SpansUpTo(b, starts, p) + Units(b, starts[p..]) == Units(b, starts)
  {
    if p == 0 {
      assert starts[0..] == starts;
    } else {
      SpansAreUnits(b, starts, p - 1);
      UnitsAdvance(b, starts, p - 1, SpansUpTo(b, starts, p - 1));
    }
  }

  method NalUnits(bytes: Bytes) returns (units: seq<Bytes>)
    ensures units == Split(bytes)
  {
    var starts := FindStarts(bytes);
    StartsBounded(bytes, 0);
    units := [];
    for position := 0 to |starts|
      invariant units == SpansUpTo(bytes, starts, position)
    {
      var begin := starts[position].offset + starts[position].length;
      var end := if position + 1 < |starts| then starts[position + 1].offset else |bytes|;
      if begin < end {
        units := units + [bytes[begin..end]];
      }
    }
    SpansAreUnits(bytes, starts, |starts|);
    assert starts[|starts|..] == [];
  }

  // ----------------------------------------------------------------- printing

  /** One NAL unit of a byte stream, after a three- or four-byte start code. */
  datatype Coded = Coded(long: bool, nal: Bytes)

  function CodeLen(long: bool): nat { if long then 4 else 3 }

  function Code(long: bool): (r: Bytes)
    ensures |r| == CodeLen(long)
  {
    if long then [0, 0, 0, 1] else [0, 0, 1]
  }

  function Print(us: seq<Coded>): Bytes {
    if us == [] then [] else Code(us[0].long) + us[0].nal + Print(us[1..])
  }

  function Nals(us: seq<Coded>): seq<Bytes> {
    if us == [] then [] else [us[0].nal] + Nals(us[1..])
  }

  /** A start-code prefix inside `nal` at `i`. */
  predicate PrefixAt(nal: Bytes, i: nat) {
    i + 2 < |nal| && nal[i] == 0 && nal[i + 1] == 0 && nal[i + 2] == 1
  }

  /**
   What the splitter needs of the first unit: not empty, no start-code prefix inside it unless it
   ends the whole stream, and no trailing zero when a three-byte start code follows.
   */
  ghost predicate CleanHead(us: seq<Coded>)
    requires us != []
  {
    var nal := us[0].nal;
    && nal != []
    && (forall i: nat :: PrefixAt(nal, i) ==> |us| == 1 && i + 3 == |nal|)
    && (|us| > 1 && !us[1].long ==> nal[|nal| - 1] != 0)
  }

  ghost predicate Clean(us: seq<Coded>) {
    us == [] || (CleanHead(us) && Clean(us[1..]))
  }

  /** The end of the first unit of a stream printed at `o`. */
  function HeadEnd(o: nat, us: seq<Coded>): nat
    requires us != []
  {
    o + CodeLen(us[0].long) + |us[0].nal|
  }

  /** Where `Print` puts the start codes when it starts at `o`. */
  ghost function Positions(us: seq<Coded>, o: nat): seq<Start> {
    if us == [] then []
    else [Start(o, CodeLen(us[0].long))] + Positions(us[1..], HeadEnd(o, us))
  }

  lemma {:induction false} SkipTo(b: Bytes, i: nat, j: nat)
    requires i <= j <= |b|
    requires forall k :: i <= k < j ==> CodeAt(b, k) == 0
    ensures Starts(b, i) == Starts(b, j)
    decreases j - i
  {
    if i < j && i + 3 < |b| {
      SkipTo(b, i + 1, j);
    }
  }

  /** `b` holds the print of `us` from `o` to its end. */
  ghost predicate PrintedAt(b: Bytes, o: nat, us: seq<Coded>) {
    o <= |b| && b[o..] == Print(us)
  }

  lemma Parts(a: Bytes, b: Bytes, c: Bytes)
    ensures var t := a + b + c; t[..|a|] == a && t[|a|..|a| + |b|] == b && t[|a| + |b|..] == c
  {
  }

  lemma SubSlice(b: Bytes, o: nat, i: nat, j: nat)
    requires i <= j && o + j <= |b|
    ensures b[o..][i..j] == b[o + i..o + j] && b[o..][j..] == b[o + j..]
  {
  }

  /** The bytes of the first unit and what follows it. */
  lemma Layout(b: Bytes, o: nat, us: seq<Coded>)
    requires us != [] && PrintedAt(b, o, us)
    ensures var L := CodeLen(us[0].long); var e := o + L + |us[0].nal|;
      && b[o..o + L] == Code(us[0].long) && b[o + L..e] == us[0].nal && PrintedAt(b, e, us[1..])
  {
    var L, n := CodeLen(us[0].long), |us[0].nal|;
    Parts(Code(us[0].long), us[0].nal, Print(us[1..]));
    SubSlice(b, o, 0, L);
    SubSlice(b, o, L, L + n);
  }

  /** Which byte of a printed stream is where: the start code at `o`. */
  lemma CodeCells(b: Bytes, o: nat, us: seq<Coded>)
    requires us != [] && PrintedAt(b, o, us)
    ensures o + CodeLen(us[0].long) <= |b| && b[o] == 0 && b[o + 1] == 0
    ensures us[0].long ==> b[o + 2] == 0 && b[o + 3] == 1
    ensures !us[0].long ==> b[o + 2] == 1
  {
    Layout(b, o, us);
    var head := b[o..o + CodeLen(us[0].long)];
    assert head[0] == b[o] && head[1] == b[o + 1] && head[2] == b[o + 2];
    assert us[0].long ==> head[3] == b[o + 3];
  }

  ghost predicate AllNonEmpty(us: seq<Coded>) {
    forall k :: 0 <= k < |us| ==> us[k].nal != []
  }

  ghost predicate HidesNoCode(b: Bytes, from: nat, to: nat) {
    forall k :: from <= k < to ==> CodeAt(b, k) == 0
  }

  /** The scan recognises the start code of a printed unit that is not empty. */
  lemma CodeFound(b: Bytes, o: nat, us: seq<Coded>)
    requires us != [] && us[0].nal != [] && PrintedAt(b, o, us)
    ensures CodeAt(b, o) == CodeLen(us[0].long)
    ensures Starts(b, o) == [Start(o, CodeAt(b, o))] + Starts(b, o + CodeAt(b, o))
  {
    CodeCells(b, o, us);
    Layout(b, o, us);
  }

  /** The bytes of the first unit, and of the start code after it. */
  lemma HeadCells(b: Bytes, o: nat, us: seq<Coded>)
    requires us != [] && AllNonEmpty(us) && PrintedAt(b, o, us)
    ensures var begin, e := o + CodeLen(us[0].long), HeadEnd(o, us);
      && e <= |b| && (|us| == 1 ==> e == |b|)
      && (forall k :: begin <= k < e ==> b[k] == us[0].nal[k - begin])
      && (|us| > 1 ==> e + 3 < |b| && b[e] == 0 && b[e + 1] == 0)
      && (|us| > 1 ==> if us[1].long then b[e + 2] == 0 else b[e + 2] == 1)
  {
    Layout(b, o, us);
    var begin, e := o + CodeLen(us[0].long), HeadEnd(o, us);
    assert forall k :: 0 <= k < |us[0].nal| ==> b[begin..e][k] == b[begin + k];
    if |us| > 1 {
      CodeCells(b, e, us[1..]);
      Layout(b, e, us[1..]);
      assert us[1..][0].nal != [];
    }
  }

  /** The scan finds nothing inside a clean first unit. */
  lemma CleanHides(b: Bytes, o: nat, us: seq<Coded>, k: nat)
    requires us != [] && AllNonEmpty(us) && PrintedAt(b, o, us) && CleanHead(us)
    requires o + CodeLen(us[0].long) <= k < HeadEnd(o, us)
    ensures CodeAt(b, k) == 0
  {
    HeadCells(b, o, us);
    var i := k - o - CodeLen(us[0].long);
    assert !PrefixAt(us[0].nal, i) || HeadEnd(o, us) == |b|;
    assert !PrefixAt(us[0].nal, i + 1) || HeadEnd(o, us) == |b|;
  }

  /** A first unit in which the scan finds nothing is clean. */
  lemma HiddenIsClean(b: Bytes, o: nat, us: seq<Coded>)
    requires us != [] && AllNonEmpty(us) && PrintedAt(b, o, us)
    requires HidesNoCode(b, o + CodeLen(us[0].long), HeadEnd(o, us))
    ensures CleanHead(us)
  {
    HeadCells(b, o, us);
    var begin, e := o + CodeLen(us[0].long), HeadEnd(o, us);
    forall i: nat | PrefixAt(us[0].nal, i)
      ensures |us| == 1 && i + 3 == |us[0].nal|
    {
      assert CodeAt(b, begin + i) == 0;
    }
    assert CodeAt(b, e - 1) == 0;
  }

  /** The scan passes over a clean first unit. */
  lemma CleanHeadSkipped(b: Bytes, o: nat, us: seq<Coded>)
    requires us != [] && AllNonEmpty(us) && PrintedAt(b, o, us) && CleanHead(us)
    ensures Starts(b, o) == [Start(o, CodeLen(us[0].long))] + Starts(b, HeadEnd(o, us))
  {
    CodeFound(b, o, us);
    HeadCells(b, o, us);
    forall k | o + CodeLen(us[0].long) <= k < HeadEnd(o, us)
      ensures CodeAt(b, k) == 0
    {
      CleanHides(b, o, us, k);
    }
    SkipTo(b, o + CodeLen(us[0].long), HeadEnd(o, us));
  }

  /** Behind its first unit a printed stream is a printed stream. */
  lemma PrintedTail(b: Bytes, o: nat, us: seq<Coded>)
    requires us != [] && PrintedAt(b, o, us)
    ensures PrintedAt(b, HeadEnd(o, us), us[1..])
  {
    Layout(b, o, us);
  }

  lemma CleanStep(b: Bytes, o: nat, us: seq<Coded>)
    requires us != [] && Clean(us) && PrintedAt(b, o, us)
    ensures Starts(b, o) == [Start(o, CodeLen(us[0].long))] + Starts(b, HeadEnd(o, us))
    ensures Clean(us[1..]) && PrintedAt(b, HeadEnd(o, us), us[1..])
  {
    CleanNonEmpty(us);
    CleanHeadSkipped(b, o, us);
    PrintedTail(b, o, us);
  }

  /** On a clean stream the scan finds the printed start codes and nothing else. */
  lemma {:induction false} CleanStarts(b: Bytes, o: nat, us: seq<Coded>)
    requires PrintedAt(b, o, us) && Clean(us)
    ensures Starts(b, o) == Positions(us, o)
    decreases |us|
  {
    if us == [] {
      assert |b[o..]| == 0;
    } else {
      CleanStep(b, o, us);
      CleanStarts(b, HeadEnd(o, us), us[1..]);
    }
  }

  lemma {:induction false} UnitsAtPositions(b: Bytes, o: nat, us: seq<Coded>)
    requires PrintedAt(b, o, us) && AllNonEmpty(us)
    ensures Units(b, Positions(us, o)) == Nals(us)
    decreases |us|
  {
    if us != [] {
      Layout(b, o, us);
      var e := HeadEnd(o, us);
      if us[1..] == [] {
        assert |b[e..]| == 0;
      }
      UnitsAtPositions(b, e, us[1..]);
      UnitsStep(b, Start(o, CodeLen(us[0].long)), Positions(us[1..], e));
    }
  }

  lemma {:induction false} CleanNonEmpty(us: seq<Coded>)
    requires Clean(us)
    ensures AllNonEmpty(us)
  {
    if us != [] {
      CleanNonEmpty(us[1..]);
      assert us == [us[0]] + us[1..];
    }
  }

  // ----------------------------------------------------------------- only clean streams survive

  ghost function Sum(xs: seq<Bytes>): nat {
    if xs == [] then 0 else |xs[0]| + Sum(xs[1..])
  }

  /** Bytes from `i` on that the scan leaves outside every start code. */
  ghost function Loose(b: Bytes, i: nat): nat
    requires i <= |b|
    decreases |b| - i
  {
    if i + 3 >= |b| then |b| - i
    else if CodeAt(b, i) > 0 then Loose(b, i + CodeAt(b, i))
    else 1 + Loose(b, i + 1)
  }

  /** What the scan finds first. */
  lemma {:induction false} FirstStart(b: Bytes, i: nat)
    requires i <= |b|
    ensures Starts(b, i) == [] ==> HidesNoCode(b, i, |b|)
    ensures Starts(b, i) != [] ==>
      var s := Starts(b, i)[0];
      && i <= s.offset && s.offset + s.length < |b|
      && HidesNoCode(b, i, s.offset) && s.length == CodeAt(b, s.offset) > 0
      && Starts(b, i)[1..] == Starts(b, s.offset + s.length)
    decreases |b| - i
  {
    if i + 3 < |b| && CodeAt(b, i) == 0 {
      FirstStart(b, i + 1);
    }
  }

  /** Bytes passed over before `j` are loose. */
  lemma {:induction false} LooseSkip(b: Bytes, i: nat, j: nat)
    requires i <= j <= |b| && HidesNoCode(b, i, j)
    ensures Loose(b, i) == j - i + Loose(b, j)
    decreases j - i
  {
    if i < j && i + 3 < |b| {
      LooseSkip(b, i + 1, j);
    }
  }

  lemma {:induction false} SumUnits(b: Bytes, s: Start, i: nat)
    requires s.offset + s.length == i <= |b|
    ensures Sum(Units(b, [s] + Starts(b, i))) == Loose(b, i)
    decreases |b| - i
  {
    var rest := Starts(b, i);
    FirstStart(b, i);
    UnitsStep(b, s, rest);
    var end := if rest == [] then |b| else rest[0].offset;
    LooseSkip(b, i, end);
    var tail := Units(b, rest);
    if rest == [] {
      assert Sum(tail) == Loose(b, end);
    } else {
      var t := rest[0];
      SumUnits(b, t, t.offset + t.length);
      assert rest == [t] + Starts(b, t.offset + t.length);
      assert Sum(tail) == Loose(b, end);
    }
    if i < end {
      SumCons(b[i..end], tail);
    } else {
      assert [] + tail == tail;
    }
  }

  lemma SumCons(x: Bytes, xs: seq<Bytes>)
    ensures Sum([x] + xs) == |x| + Sum(xs)
  {
    assert ([x] + xs)[1..] == xs;
  }

  /** The bytes of the units themselves. */
  ghost function Bulk(us: seq<Coded>): nat {
    if us == [] then 0 else |us[0].nal| + Bulk(us[1..])
  }

  lemma {:induction false} BulkIsSum(us: seq<Coded>)
    ensures Sum(Nals(us)) == Bulk(us)
  {
    if us != [] {
      BulkIsSum(us[1..]);
      assert Nals(us)[1..] == Nals(us[1..]);
    }
  }

  /** A start code found inside a unit overlaps the next printed one only by its last zero. */
  lemma Straddle(b: Bytes, i: nat, e: nat, rest: seq<Coded>)
    requires i < e < i + CodeAt(b, i) && PrintedAt(b, e, rest)
    ensures rest != [] && !rest[0].long && i + CodeAt(b, i) == e + 3
  {
    if rest != [] {
      CodeCells(b, e, rest);
    }
  }

  /** The scan covers every printed start code, so a start code found inside a unit costs bytes. */
  lemma {:induction false} LooseBound(b: Bytes, i: nat, e: nat, rest: seq<Coded>)
    requires i <= e && PrintedAt(b, e, rest) && AllNonEmpty(rest)
    ensures Loose(b, i) <= e - i + Bulk(rest)
    ensures i < e && CodeAt(b, i) > 0 ==> Loose(b, i) < e - i + Bulk(rest)
    decreases |b| - i
  {
    var code := CodeAt(b, i);
    if i < e {
      if code == 0 {
        LooseBound(b, i + 1, e, rest);
      } else if i + code <= e {
        LooseBound(b, i + code, e, rest);
      } else {
        Straddle(b, i, e, rest);
        PrintedTail(b, e, rest);
        LooseBound(b, e + 3, HeadEnd(e, rest), rest[1..]);
      }
    } else if rest != [] {
      CodeFound(b, e, rest);
      PrintedTail(b, e, rest);
      LooseBound(b, e + code, HeadEnd(e, rest), rest[1..]);
    } else {
      assert |b[e..]| == 0;
    }
  }

  lemma {:induction false} UnitsNonEmpty(b: Bytes, starts: seq<Start>)
    ensures forall k :: 0 <= k < |Units(b, starts)| ==> Units(b, starts)[k] != []
  {
    if starts != [] {
      UnitsNonEmpty(b, starts[1..]);
    }
  }

  lemma {:induction false} NalsAt(us: seq<Coded>)
    ensures |Nals(us)| == |us|
    ensures forall k :: 0 <= k < |us| ==> Nals(us)[k] == us[k].nal
  {
    if us != [] {
      NalsAt(us[1..]);
    }
  }

  /** A start code right at the beginning of a unit leaves too few bytes to give the units back. */
  lemma {:induction false} NoCodeAtBegin(b: Bytes, o: nat, us: seq<Coded>)
    requires us != [] && PrintedAt(b, o, us) && AllNonEmpty(us)
    requires Units(b, Starts(b, o)) == Nals(us)
    ensures CodeAt(b, o + CodeLen(us[0].long)) == 0
  {
    CodeFound(b, o, us);
    PrintedTail(b, o, us);
    var begin := o + CodeLen(us[0].long);
    SumUnits(b, Start(o, begin - o), begin);
    BulkIsSum(us);
    LooseBound(b, begin, HeadEnd(o, us), us[1..]);
  }

  /** If the units are given back, the first span ends where the first unit does. */
  lemma {:induction false} HeadSurvives(b: Bytes, o: nat, us: seq<Coded>)
    requires us != [] && PrintedAt(b, o, us) && AllNonEmpty(us)
    requires Units(b, Starts(b, o)) == Nals(us)
    ensures HidesNoCode(b, o + CodeLen(us[0].long), HeadEnd(o, us))
  {
    CodeFound(b, o, us);
    NoCodeAtBegin(b, o, us);
    var begin := o + CodeLen(us[0].long);
    FirstSpan(b, Start(o, begin - o), Nals(us));
  }

  lemma {:induction false} FirstSpan(b: Bytes, s: Start, nals: seq<Bytes>)
    requires var begin := s.offset + s.length;
      begin < |b| && CodeAt(b, begin) == 0 && Units(b, [s] + Starts(b, begin)) == nals
    ensures nals != [] && HidesNoCode(b, s.offset + s.length, s.offset + s.length + |nals[0]|)
  {
    var begin := s.offset + s.length;
    var rest := Starts(b, begin);
    FirstStart(b, begin);
    UnitsStep(b, s, rest);
    var p := if rest == [] then |b| else rest[0].offset;
    assert begin < p <= |b|;
    var tail := Units(b, rest);
    assert nals == [b[begin..p]] + tail;
  }

  lemma {:induction false} SurvivorsAreClean(b: Bytes, o: nat, us: seq<Coded>)
    requires PrintedAt(b, o, us) && AllNonEmpty(us)
    requires Units(b, Starts(b, o)) == Nals(us)
    ensures Clean(us)
    decreases |us|
  {
    if us != [] {
      HeadSurvives(b, o, us);
      HiddenIsClean(b, o, us);
      TailSurvives(b, o, us);
      PrintedTail(b, o, us);
      SurvivorsAreClean(b, HeadEnd(o, us), us[1..]);
    }
  }

  /** Behind a clean first unit the rest of the stream is split on its own. */
  lemma {:induction false} TailSurvives(b: Bytes, o: nat, us: seq<Coded>)
    requires us != [] && PrintedAt(b, o, us) && AllNonEmpty(us) && CleanHead(us)
    requires Units(b, Starts(b, o)) == Nals(us)
    ensures Units(b, Starts(b, HeadEnd(o, us))) == Nals(us[1..])
  {
    CleanHeadSkipped(b, o, us);
    HeadCells(b, o, us);
    var begin, e := o + CodeLen(us[0].long), HeadEnd(o, us);
    var rest := Starts(b, e);
    StartsBounded(b, e);
    UnitsStep(b, Start(o, begin - o), rest);
    var p := if rest == [] then |b| else rest[0].offset;
    assert ([b[begin..p]] + Units(b, rest))[1..] == Units(b, rest);
    assert Nals(us)[1..] == Nals(us[1..]);
  }

  /**
   Splitting undoes printing exactly for clean streams.  Unlike the units section 7.4.1 of
   ITU-T H.264 allows, a clean unit may end in zero bytes when a four-byte start code follows.
   */
  lemma {:induction false} SplitUndoesPrint(us: seq<Coded>)
    ensures Split(Print(us)) == Nals(us) <==> Clean(us)
  {
    var b := Print(us);
    assert b[0..] == b;
    if Clean(us) {
      CleanNonEmpty(us);
      CleanStarts(b, 0, us);
      UnitsAtPositions(b, 0, us);
    }
    if Split(b) == Nals(us) {
      UnitsNonEmpty(b, Starts(b, 0));
      NalsAt(us);
      SurvivorsAreClean(b, 0, us);
    }
  }

  /** What section 7.4.1 of ITU-T H.264 guarantees of a NAL unit. */
  ghost predicate Conforming(nal: Bytes) {
    nal != [] && nal[|nal| - 1] != 0 && forall i: nat :: !PrefixAt(nal, i)
  }

  lemma {:induction false} ConformingSurvives(us: seq<Coded>)
    requires forall k :: 0 <= k < |us| ==> Conforming(us[k].nal)
    ensures Clean(us) && Split(Print(us)) == Nals(us)
  {
    ConformingClean(us);
    SplitUndoesPrint(us);
  }

  lemma {:induction false} ConformingClean(us: seq<Coded>)
    requires forall k :: 0 <= k < |us| ==> Conforming(us[k].nal)
    ensures Clean(us)
  {
    if us != [] {
      assert Conforming(us[0].nal);
      ConformingClean(us[1..]);
    }
  }

  // ----------------------------------------------------------------- arbitrary bytes

  /** The start codes found, each with the span behind it, empty ones too. */
  ghost function Scanned(b: Bytes, starts: seq<Start>): seq<Coded> {
    if starts == [] then []
    else
      var begin, end := starts[0].offset + starts[0].length, SpanEnd(b, starts);
      [Coded(starts[0].length == 4, if begin <= end <= |b| then b[begin..end] else [])] + Scanned(b, starts[1..])
  }

  ghost function NonEmpty(us: seq<Coded>): seq<Coded> {
    if us == [] then [] else (if us[0].nal == [] then [] else [us[0]]) + NonEmpty(us[1..])
  }

  lemma CodeBytes(b: Bytes, o: nat)
    requires CodeAt(b, o) > 0
    ensures o + CodeAt(b, o) < |b| && b[o..o + CodeAt(b, o)] == Code(CodeAt(b, o) == 4)
  {
  }

  lemma PrintCons(u: Coded, us: seq<Coded>)
    ensures Print([u] + us) == Code(u.long) + u.nal + Print(us)
  {
    assert ([u] + us)[1..] == us;
  }

  lemma CutTwice(b: Bytes, i: nat, j: nat, k: nat)
    requires i <= j <= k <= |b|
    ensures b[i..] == b[i..j] + b[j..k] + b[k..]
  {
  }

  /** One start code and the span behind it. */
  lemma ScannedStep(b: Bytes, s: Start, rest: seq<Start>)
    requires CodeAt(b, s.offset) == s.length > 0
    requires var end := if rest == [] then |b| else rest[0].offset;
      s.offset + s.length <= end <= |b| && b[end..] == Print(Scanned(b, rest))
    ensures b[s.offset..] == Print(Scanned(b, [s] + rest))
  {
    var begin, end := s.offset + s.length, if rest == [] then |b| else rest[0].offset;
    assert ([s] + rest)[1..] == rest;
    CodeBytes(b, s.offset);
    CutTwice(b, s.offset, begin, end);
    PrintCons(Coded(s.length == 4, b[begin..end]), Scanned(b, rest));
  }

  lemma {:induction false} UnitsAreScanned(b: Bytes, starts: seq<Start>)
    ensures Units(b, starts) == Nals(NonEmpty(Scanned(b, starts))) && |Scanned(b, starts)| == |starts|
  {
    if starts != [] {
      UnitsAreScanned(b, starts[1..]);
      var all := Scanned(b, starts);
      assert all[1..] == Scanned(b, starts[1..]);
      var tail := NonEmpty(all[1..]);
      if all[0].nal == [] {
        assert NonEmpty(all) == tail;
        assert Units(b, starts) == Units(b, starts[1..]);
      } else {
        assert ([all[0]] + tail)[1..] == tail;
      }
    }
  }

  lemma {:induction false} ScanCovers(b: Bytes, i: nat)
    requires i <= |b|
    ensures var starts := Starts(b, i); var first := if starts == [] then |b| else starts[0].offset;
      && i <= first <= |b| && HidesNoCode(b, i, first)
      && b[i..] == b[i..first] + Print(Scanned(b, starts))
    decreases |b| - i
  {
    FirstStart(b, i);
    var starts := Starts(b, i);
    if starts == [] {
      assert b[i..] == b[i..|b|] + [];
    } else {
      var s := starts[0];
      var begin := s.offset + s.length;
      var rest := Starts(b, begin);
      assert starts == [s] + rest;
      ScanCovers(b, begin);
      Drop(b, begin, if rest == [] then |b| else rest[0].offset, Print(Scanned(b, rest)));
      ScannedStep(b, s, rest);
      Cut(b, i, s.offset);
    }
  }

  /**
   Nothing is lost on any input.  The input is a prefix without a start code, then for each start
   code found its bytes, `00 00 01` or `00 00 00 01`, and a span; and the units returned are the
   non-empty ones among these spans, in order.
   */
  lemma NothingLost(b: Bytes)
    ensures var starts := Starts(b, 0); var us := Scanned(b, starts);
      var first := if starts == [] then |b| else starts[0].offset;
      && first <= |b| && HidesNoCode(b, 0, first)
      && |us| == |starts| && b == b[..first] + Print(us)
      && Split(b) == Nals(NonEmpty(us))
  {
    ScanCovers(b, 0);
    UnitsAreScanned(b, Starts(b, 0));
    assert b[0..] == b;
  }

  /** The scan says so wherever there is a start code, and nowhere else. */
  lemma {:induction false} StartsExact(b: Bytes, i: nat, k: nat)
    requires i <= |b| && k < |Starts(b, i)|
    ensures var s := Starts(b, i)[k];
      CodeAt(b, s.offset) == s.length > 0 && HidesNoCode(b, s.offset + s.length, SpanEnd(b, Starts(b, i)[k..]))
    decreases k
  {
    FirstStart(b, i);
    var s := Starts(b, i)[0];
    var rest := Starts(b, s.offset + s.length);
    assert Starts(b, i) == [s] + rest;
    if k == 0 {
      FirstStart(b, s.offset + s.length);
      assert Starts(b, i)[0..] == Starts(b, i);
    } else {
      StartsExact(b, s.offset + s.length, k - 1);
      assert Starts(b, i)[k..] == rest[k - 1..];
    }
  }

  lemma Cut(b: Bytes, i: nat, j: nat)
    requires i <= j <= |b|
    ensures b[i..] == b[i..j] + b[j..]
  {
  }

  lemma Drop(b: Bytes, i: nat, j: nat, tail: Bytes)
    requires i <= j <= |b| && b[i..] == b[i..j] + tail
    ensures b[j..] == tail
  {
    assert b[j..] == b[i..][j - i..];
  }

  // ----------------------------------------------------------------- length-prefixed form

  const WORD := 0x1_0000_0000

  function BigEndian(n: nat): Bytes
    requires n < WORD
  {
    [n / 0x100_0000, n / 0x1_0000 % 0x100, n / 0x100 % 0x100, n % 0x100]
  }

  function FromBigEndian(b: Bytes): int
    requires |b| == 4
  {
    b[0] * 0x100_0000 + b[1] * 0x1_0000 + b[2] * 0x100 + b[3]
  }

  ghost predicate Fits(nals: seq<Bytes>) {
    forall k :: 0 <= k < |nals| ==> |nals[k]| < WORD
  }

  function Prefixed(nals: seq<Bytes>): Bytes
    requires Fits(nals)
  {
    if nals == [] then [] else BigEndian(|nals[0]|) + nals[0] + Prefixed(nals[1..])
  }

  method LengthPrefix(nals: seq<Bytes>) returns (avcc: Bytes)
    requires Fits(nals)
    ensures avcc == Prefixed(nals)
  {
    avcc := [];
    for k := 0 to |nals|
      invariant avcc + Prefixed(nals[k..]) == Prefixed(nals)
    {
      assert nals[k..][1..] == nals[k + 1..];
      avcc := avcc + BigEndian(|nals[k]|);
      avcc := avcc + nals[k];
    }
  }

  /** What a decoder told to expect four-byte lengths reads. */
  function ReadPrefixed(b: Bytes): Option<seq<Bytes>> {
    if b == [] then Some([])
    else if |b| < 4 then None
    else
      var n := FromBigEndian(b[..4]);
      if !(0 <= n <= |b| - 4) then None
      else
        match ReadPrefixed(b[4 + n..])
        case None => None
        case Some(rest) => Some([b[4..4 + n]] + rest)
  }

  lemma BigEndianRoundTrip(n: nat)
    requires n < WORD
    ensures FromBigEndian(BigEndian(n)) == n
  {
    assert n == n / 0x100 * 0x100 + n % 0x100;
    assert n / 0x100 == n / 0x1_0000 * 0x100 + n / 0x100 % 0x100;
    assert n / 0x1_0000 == n / 0x100_0000 * 0x100 + n / 0x1_0000 % 0x100;
  }

  lemma DivMod256(q: int, r: int)
    requires 0 <= r < 256
    ensures (q * 256 + r) / 256 == q && (q * 256 + r) % 256 == r
  {
  }

  lemma BigEndianUnique(b: Bytes)
    requires |b| == 4 && IsBytes(b)
    ensures 0 <= FromBigEndian(b) < WORD && BigEndian(FromBigEndian(b)) == b
  {
    var n := FromBigEndian(b);
    DivMod256(b[0] * 0x1_0000 + b[1] * 0x100 + b[2], b[3]);
    DivMod256(b[0] * 0x100 + b[1], b[2]);
    DivMod256(b[0], b[1]);
    assert n / 0x1_0000 == n / 0x100 / 0x100;
    assert n / 0x100_0000 == n / 0x1_0000 / 0x100;
  }

  lemma {:induction false} ReadUndoesPrefix(nals: seq<Bytes>)
    requires Fits(nals)
    ensures ReadPrefixed(Prefixed(nals)) == Some(nals)
  {
    if nals != [] {
      var n, b := |nals[0]|, Prefixed(nals);
      BigEndianRoundTrip(n);
      ReadUndoesPrefix(nals[1..]);
      assert b[..4] == BigEndian(n) && b[4..4 + n] == nals[0] && b[4 + n..] == Prefixed(nals[1..]);
      assert nals == [nals[0]] + nals[1..];
    }
  }

  lemma PrefixedCons(nal: Bytes, rest: seq<Bytes>)
    requires |nal| < WORD && Fits(rest)
    ensures Fits([nal] + rest) && Prefixed([nal] + rest) == BigEndian(|nal|) + (nal + Prefixed(rest))
  {
    assert ([nal] + rest)[1..] == rest;
    Assoc(BigEndian(|nal|), nal, Prefixed(rest));
  }

  lemma PrefixStep(b: Bytes, n: nat, rest: seq<Bytes>)
    requires 4 + n <= |b| && n < WORD && b[..4] == BigEndian(n) && Fits(rest) && Prefixed(rest) == b[4 + n..]
    ensures Fits([b[4..4 + n]] + rest) && Prefixed([b[4..4 + n]] + rest) == b
  {
    PrefixedCons(b[4..4 + n], rest);
    Cut(b, 4, 4 + n);
    assert b == b[..4] + b[4..];
  }

  /** The form is unambiguous: whatever reads back was printed from what was read. */
  lemma {:induction false} PrefixUndoesRead(b: Bytes)
    requires IsBytes(b)
    ensures ReadPrefixed(b).Some? ==> Fits(ReadPrefixed(b).value) && Prefixed(ReadPrefixed(b).value) == b
    decreases |b|
  {
    if ReadPrefixed(b).Some? && b != [] {
      var n := FromBigEndian(b[..4]);
      BigEndianUnique(b[..4]);
      PrefixUndoesRead(b[4 + n..]);
      PrefixStep(b, n, ReadPrefixed(b[4 + n..]).value);
    }
  }

  /** The whole rewriting keeps the units: what a decoder reads is what was printed. */
  lemma RewritingKeepsUnits(us: seq<Coded>)
    requires Clean(us) && |Print(us)| < WORD
    ensures Fits(Split(Print(us))) && ReadPrefixed(Prefixed(Split(Print(us)))) == Some(Nals(us))
  {
    SplitUndoesPrint(us);
    SplitFits(Print(us), Starts(Print(us), 0));
    ReadUndoesPrefix(Nals(us));
  }

  lemma {:induction false} SplitFits(b: Bytes, starts: seq<Start>)
    ensures forall k :: 0 <= k < |Units(b, starts)| ==> |Units(b, starts)[k]| <= |b|
  {
    if starts != [] {
      SplitFits(b, starts[1..]);
    }
  }
}
