/**
 * The two pure choices both renderers make while setting up: which adapter
 * to create the device on (get_dxgi_adaptor), and which flags to present
 * with (present_flags). The two renderers carry identical copies of both.
 */
module DeviceSetup {

  /** What the selection learns about the adapter at one enumeration index. */
  datatype AdapterDesc = AdapterDesc(software: bool, createsDevice: bool, dedicatedVideoMemory: nat)

  /** Survives both filters: not a software (WARP) adapter, and a
      feature-level 11.0 device can be created on it. */
  predicate IsCandidate(a: AdapterDesc)
  {
    !a.software && a.createsDevice
  }

  /**
   * The candidate indices from `from` on, in enumeration order. `adapters`
   * holds what enumeration finds at indices 0, 1, ...; enumeration reports
   * "not found" at index |adapters|, which ends the take-while.
   */
  function CandidatesFrom(adapters: seq<AdapterDesc>, from: nat): (c: seq<nat>)
    ensures forall i :: i in c <==> from <= i < |adapters| && IsCandidate(adapters[i])
    ensures forall k :: 0 <= k < |c| ==> from <= c[k] < |adapters|
    ensures forall p, q :: 0 <= p < q < |c| ==> c[p] < c[q]
    decreases |adapters| - from
  {
    if from >= |adapters| then []
    else
      var rest := CandidatesFrom(adapters, from + 1);
      if IsCandidate(adapters[from]) then
        [from] + rest
      else rest
  }

  function Candidates(adapters: seq<AdapterDesc>): seq<nat>
  {
    CandidatesFrom(adapters, 0)
  }

  /** The accumulator of the fold: the index returned so far and the running
      maximum the folding lambda keeps by reference. */
  datatype Acc = Acc(index: nat, maxMemory: nat)

  /** One step of the fold: an adapter with strictly more dedicated memory
      than the running maximum replaces the index and the maximum. */
  function IndexWithMostMemory(adapters: seq<AdapterDesc>, acc: Acc, index: nat): (r: Acc)
    requires index < |adapters|
    ensures acc.maxMemory <= r.maxMemory && adapters[index].dedicatedVideoMemory <= r.maxMemory
    ensures r.maxMemory == acc.maxMemory ==> r == acc
    ensures r != acc ==> r.index == index && r.maxMemory == adapters[index].dedicatedVideoMemory
  {
    if adapters[index].dedicatedVideoMemory > acc.maxMemory
    then Acc(index, adapters[index].dedicatedVideoMemory)
    else acc
  }

  /** std::accumulate over the candidate indices, left to right; what it
      computes is stated by AccumulateFindsFirstMaximum below. */
  function Accumulate(adapters: seq<AdapterDesc>, indices: seq<nat>, acc: Acc): (r: Acc)
    requires forall k :: 0 <= k < |indices| ==> indices[k] < |adapters|
    decreases |indices|
  {
    if indices == [] then acc
    else Accumulate(adapters, indices[1..], IndexWithMostMemory(adapters, acc, indices[0]))
  }

  /** The index the device is created on: the fold over the candidates
      starting from index 0 and maximum 0. */
  function SelectAdapter(adapters: seq<AdapterDesc>): nat
  {
    Accumulate(adapters, Candidates(adapters), Acc(0, 0)).index
  }

  /**
   * What the fold computes from any starting accumulator over increasing
   * indices: the maximum never decreases and bounds every index seen; if it
   * did not grow, the accumulator is returned unchanged; if it grew, the
   * index is the first one seen that holds the new maximum.
   */
  lemma {:induction false} AccumulateFindsFirstMaximum(adapters: seq<AdapterDesc>, indices: seq<nat>, acc: Acc)
    requires forall k :: 0 <= k < |indices| ==> indices[k] < |adapters|
    requires forall p, q :: 0 <= p < q < |indices| ==> indices[p] < indices[q]
    ensures var r := Accumulate(adapters, indices, acc);
      && acc.maxMemory <= r.maxMemory
      && (forall i :: i in indices ==> adapters[i].dedicatedVideoMemory <= r.maxMemory)
      && (r.maxMemory == acc.maxMemory ==> r == acc)
      && (r.maxMemory > acc.maxMemory ==>
            && r.index in indices
            && adapters[r.index].dedicatedVideoMemory == r.maxMemory
            && forall i :: i in indices && i < r.index ==> adapters[i].dedicatedVideoMemory < r.maxMemory)
    decreases |indices|
  {
    if indices != [] {
      var first := indices[0];
      var rest := indices[1..];
      var acc1 := IndexWithMostMemory(adapters, acc, first);
      assert forall i :: i in rest ==> i in indices;
      assert forall p, q :: 0 <= p < q < |rest| ==> rest[p] == indices[p + 1] && rest[q] == indices[q + 1];
      AccumulateFindsFirstMaximum(adapters, rest, acc1);
      var r := Accumulate(adapters, rest, acc1);
      assert r == Accumulate(adapters, indices, acc);
      forall i | i in indices
        ensures i == first || i in rest
      {
        var p :| 0 <= p < |indices| && indices[p] == i;
        if p > 0 {
          assert rest[p - 1] == i;
        }
      }
      if r.maxMemory > acc1.maxMemory {
        var p :| 0 <= p < |rest| && rest[p] == r.index;
        assert indices[p + 1] == r.index;
        assert first < r.index;
      }
    }
  }

  /**
   * The selected adapter is either the first candidate with the most
   * dedicated memory, when some candidate has any, or index 0, when no
   * candidate has any (or there is none).
   */
  lemma SelectAdapterChoosesFirstLargest(adapters: seq<AdapterDesc>)
    ensures var r := SelectAdapter(adapters);
      var c := Candidates(adapters);
      || (&& r in c && adapters[r].dedicatedVideoMemory > 0
          && (forall i :: i in c ==> adapters[i].dedicatedVideoMemory <= adapters[r].dedicatedVideoMemory)
          && (forall i :: i in c && i < r ==> adapters[i].dedicatedVideoMemory < adapters[r].dedicatedVideoMemory))
      || (r == 0 && forall i :: i in c ==> adapters[i].dedicatedVideoMemory == 0)
  {
    AccumulateFindsFirstMaximum(adapters, Candidates(adapters), Acc(0, 0));
  }

  /** vsync_enabled: both renderers present with vsync on. */
  const VsyncEnabled: bool := true

  /** DXGI_PRESENT_ALLOW_TEARING. */
  const PresentAllowTearing: nat := 0x200

  /** The flags every Present call passes: ALLOW_TEARING exactly when the
      device supports tearing and vsync is off, and no flag otherwise. */
  function PresentFlags(allowTearing: bool, vsyncEnabled: bool): (flags: nat)
    ensures flags == PresentAllowTearing || flags == 0
    ensures flags == PresentAllowTearing <==> allowTearing && !vsyncEnabled
  {
    if allowTearing && !vsyncEnabled then PresentAllowTearing else 0
  }
}
