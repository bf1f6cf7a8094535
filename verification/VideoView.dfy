/**
 The iOS video view on its main queue: it remembers the parameter sets it has seen, keeps a format
 description made from them, and hands the decoder length-prefixed access units.
 */
module VideoView {
  import opened AnnexB
  import opened Options

  const SPS := 7
  const PPS := 8

  /** `first & 0x1f`, or -1 for an empty unit. */
  function UnitType(nal: Bytes): int { if nal == [] then -1 else nal[0] % 32 }

  /** The last unit of type `t`, or `prior` when there is none. */
  function LastOf(units: seq<Bytes>, t: int, prior: Option<Bytes>): Option<Bytes> {
    if units == [] then prior
    else if UnitType(units[|units| - 1]) == t then Some(units[|units| - 1])
    else LastOf(units[..|units| - 1], t, prior)
  }

  /** Unit `k` is a parameter set other than the one in force when the scan reaches it. */
  predicate Replaces(units: seq<Bytes>, k: nat, sps: Option<Bytes>, pps: Option<Bytes>)
    requires k < |units|
  {
    || (UnitType(units[k]) == SPS && LastOf(units[..k], SPS, sps) != Some(units[k]))
    || (UnitType(units[k]) == PPS && LastOf(units[..k], PPS, pps) != Some(units[k]))
  }

  ghost predicate Changes(units: seq<Bytes>, sps: Option<Bytes>, pps: Option<Bytes>) {
    exists k :: 0 <= k < |units| && Replaces(units, k, sps, pps)
  }

  /** The `k`th unit is the last whose first byte has `t` in its low five bits. */
  ghost predicate IsLast(units: seq<Bytes>, t: int, k: nat) {
    && k < |units| && units[k] != [] && units[k][0] % 32 == t
    && forall j :: k < j < |units| ==> units[j] == [] || units[j][0] % 32 != t
  }

  /** `held` is that unit, or `prior` if there is none. */
  ghost predicate Newest(units: seq<Bytes>, t: int, prior: Option<Bytes>, held: Option<Bytes>) {
    && (forall k: nat :: IsLast(units, t, k) ==> held == Some(units[k]))
    && ((forall k :: 0 <= k < |units| ==> units[k] == [] || units[k][0] % 32 != t) ==> held == prior)
  }

  lemma {:induction false} LastIsNewest(units: seq<Bytes>, t: int, prior: Option<Bytes>)
    requires 0 <= t
    ensures Newest(units, t, prior, LastOf(units, t, prior))
    decreases |units|
  {
    if units != [] {
      var last := |units| - 1;
      var front := units[..last];
      LastIsNewest(front, t, prior);
      forall k: nat | IsLast(units, t, k)
        ensures LastOf(units, t, prior) == Some(units[k])
      {
        if k < last {
          assert units[last] == [] || units[last][0] % 32 != t;
          assert IsLast(front, t, k);
        }
      }
    }
  }

  datatype Format = Format(sps: Bytes, pps: Bytes)

  class View {
    var sps: Option<Bytes>
    var pps: Option<Bytes>
    var format: Option<Format>

    /** A format description in force was made from the parameter sets in force. */
    ghost predicate Valid()
      reads this
    {
      format.Some? ==> sps == Some(format.value.sps) && pps == Some(format.value.pps)
    }

    constructor ()
      ensures Valid() && sps == None && pps == None && format == None
    {
      sps, pps, format := None, None, None;
    }

    /** The scan over the units of one access unit. */
    method NoteParameterSets(units: seq<Bytes>) returns (changed: bool)
      modifies this`sps, this`pps
      ensures sps == LastOf(units, SPS, old(sps)) && pps == LastOf(units, PPS, old(pps))
      ensures Newest(units, 7, old(sps), sps) && Newest(units, 8, old(pps), pps)
      ensures changed == Changes(units, old(sps), old(pps))
      ensures !changed ==> sps == old(sps) && pps == old(pps)
    {
      changed := false;
      for k := 0 to |units|
        invariant sps == LastOf(units[..k], SPS, old(sps)) && pps == LastOf(units[..k], PPS, old(pps))
        invariant changed == exists j :: 0 <= j < k && Replaces(units, j, old(sps), old(pps))
        invariant !changed ==> sps == old(sps) && pps == old(pps)
      {
        assert units[..k + 1][..k] == units[..k];
        ghost var was, hit := changed, Replaces(units, k, old(sps), old(pps));
        var nal := units[k];
        if nal != [] {
          if nal[0] % 32 == SPS {
            changed := changed || sps != Some(nal);
            sps := Some(nal);
          } else if nal[0] % 32 == PPS {
            changed := changed || pps != Some(nal);
            pps := Some(nal);
          }
        }
        assert changed == (was || hit);
      }
      assert units[..|units|] == units;
      LastIsNewest(units, 7, old(sps));
      LastIsNewest(units, 8, old(pps));
    }

    /**
     One access unit.  `made` says whether VideoToolbox accepts the parameter sets and `ready`
     whether the display layer takes data.  What is displayed carries exactly the units of the
     access unit, under a format made from the newest parameter sets up to and including it.  A format
     outlasts the access unit unless a parameter set changes, and is then remade or missing.
     */
    method EnqueueOnMain(accessUnit: Bytes, made: bool, ready: bool) returns (sample: Option<Bytes>)
      requires Valid() && |accessUnit| < WORD
      modifies this
      ensures Valid()
      ensures sps == LastOf(Split(accessUnit), SPS, old(sps)) && pps == LastOf(Split(accessUnit), PPS, old(pps))
      ensures Newest(Split(accessUnit), 7, old(sps), sps) && Newest(Split(accessUnit), 8, old(pps), pps)
      ensures sample.Some? ==>
        && sps.Some? && pps.Some? && format == Some(Format(sps.value, pps.value))
        && Split(accessUnit) != [] && ReadPrefixed(sample.value) == Some(Split(accessUnit))
      ensures sample.None? <==> !ready || Split(accessUnit) == [] || format.None? || sps.None? || pps.None?
      ensures var kept := if Changes(Split(accessUnit), old(sps), old(pps)) then None else old(format);
        var needed := kept.None? && sps.Some? && pps.Some? && Split(accessUnit) != [];
        format == if needed && made then Some(Format(sps.value, pps.value)) else kept
    {
      var units := NalUnits(accessUnit);
      var changed := NoteParameterSets(units);
      if changed {
        format := None;
      }
      if sps.None? || pps.None? || units == [] {
        return None;
      }
      if format.None? && made {
        format := Some(Format(sps.value, pps.value));
      }
      if format.None? || !ready {
        return None;
      }
      SplitFits(accessUnit, Starts(accessUnit, 0));
      ReadUndoesPrefix(units);
      var avcc := LengthPrefix(units);
      return Some(avcc);
    }
  }
}
