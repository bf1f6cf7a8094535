/** The audio capture's reassembly of fixed-size frames from fragments of any size. */
module Reassembly {

  /** 960 samples, two channels, two bytes each. */
  const FRAME_BYTES := 3_840

  type Bytes = seq<int>

  function Flatten(frames: seq<Bytes>): Bytes {
    if frames == [] then [] else Flatten(frames[..|frames| - 1]) + frames[|frames| - 1]
  }

  ghost predicate Whole(frames: seq<Bytes>) {
    forall k :: 0 <= k < |frames| ==> |frames[k]| == 3_840
  }

  /** `frames` and `partial` are `stream`, cut into whole frames and a remainder too short for one. */
  ghost predicate Cut(stream: Bytes, frames: seq<Bytes>, partial: Bytes) {
    Whole(frames) && |partial| < 3_840 && Flatten(frames) + partial == stream
  }

  /** The capture state: what the sink was handed, and the bytes waiting for the rest of a frame. */
  class State {
    var frames: seq<Bytes>
    var partial: Bytes
    ghost var stream: Bytes

    /** The bytes that ever arrived are the frames handed on and the remainder. */
    ghost predicate Valid()
      reads this
    {
      Cut(stream, frames, partial)
    }

    constructor ()
      ensures Valid() && stream == []
    {
      frames, partial, stream := [], [], [];
    }

    method Take(fragment: Bytes)
      requires Valid()
      modifies this
      ensures Valid() && stream == old(stream) + fragment
      ensures old(frames) <= frames
    {
      var rest := fragment;
      while rest != []
        invariant Valid() && stream + rest == old(stream) + fragment
        invariant old(frames) <= frames
        decreases |rest|
      {
        var want := FRAME_BYTES - |partial|;
        var n := if want < |rest| then want else |rest|;
        var head := rest[..n];
        assert stream + rest == (stream + head) + rest[n..];
        assert Flatten(frames) + (partial + head) == (Flatten(frames) + partial) + head;
        stream := stream + head;
        partial := partial + head;
        rest := rest[n..];
        if |partial| == FRAME_BYTES {
          assert (frames + [partial])[..|frames|] == frames;
          frames := frames + [partial];
          partial := [];
        }
      }
      assert stream + [] == stream;
    }
  }

  lemma {:induction false} FlattenLength(frames: seq<Bytes>)
    requires Whole(frames)
    ensures |Flatten(frames)| == |frames| * FRAME_BYTES
  {
    if frames != [] {
      FlattenLength(frames[..|frames| - 1]);
    }
  }

  /** There is only one way to cut a stream, so how it was fragmented cannot matter. */
  lemma {:induction false} CutIsUnique(stream: Bytes, f: seq<Bytes>, p: Bytes, g: seq<Bytes>, q: Bytes)
    requires Cut(stream, f, p) && Cut(stream, g, q)
    ensures f == g && p == q
  {
    FlattenLength(f);
    FlattenLength(g);
    assert |f| == |g| && |p| == |q|;
    var n := |Flatten(f)|;
    assert Flatten(f) == stream[..n] && Flatten(g) == stream[..n];
    assert p == stream[n..] && q == stream[n..];
    FlattenInjective(f, g);
  }

  lemma {:induction false} FlattenInjective(f: seq<Bytes>, g: seq<Bytes>)
    requires Whole(f) && Whole(g) && |f| == |g| && Flatten(f) == Flatten(g)
    ensures f == g
  {
    if f != [] {
      var n := |f| - 1;
      var a, b := Flatten(f[..n]), Flatten(g[..n]);
      FlattenLength(f[..n]);
      FlattenLength(g[..n]);
      assert (a + f[n])[..|a|] == a && (b + g[n])[..|b|] == b;
      assert (a + f[n])[|a|..] == f[n] && (b + g[n])[|b|..] == g[n];
      FlattenInjective(f[..n], g[..n]);
      assert f == f[..n] + [f[n]] && g == g[..n] + [g[n]];
    }
  }

  /** Two captures fed the same bytes in different fragments hand on the same frames. */
  method FeedAll(state: State, fragments: seq<Bytes>)
    requires state.Valid()
    modifies state
    ensures state.Valid() && state.stream == old(state.stream) + Flatten(fragments)
  {
    for k := 0 to |fragments|
      invariant state.Valid() && state.stream == old(state.stream) + Flatten(fragments[..k])
    {
      assert fragments[..k + 1][..k] == fragments[..k];
      ghost var before := state.stream;
      state.Take(fragments[k]);
      assert state.stream == old(state.stream) + (Flatten(fragments[..k]) + fragments[k]);
    }
    assert fragments[..|fragments|] == fragments;
  }

  method FragmentationDoesNotMatter(one: State, other: State, fragments: seq<Bytes>, others: seq<Bytes>)
    requires one != other && one.Valid() && other.Valid() && one.stream == other.stream
    requires Flatten(fragments) == Flatten(others)
    modifies one, other
    ensures one.frames == other.frames && one.partial == other.partial
  {
    FeedAll(one, fragments);
    FeedAll(other, others);
    CutIsUnique(one.stream, one.frames, one.partial, other.frames, other.partial);
  }
}
