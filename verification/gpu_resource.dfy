/**
 * The resource-state tracker (gpu_resource): a native resource together with
 * the state the last recorded barrier left it in. `transition_to` produces the
 * barrier from the tracked state to the requested one and updates the tracked
 * state at record time.
 */
module GpuResources {
  import opened Gpu

  /**
   * The states a caller may ask for. Present, RenderTarget and CopyDest are
   * the enumerators of the source; DepthWrite is the one enumerator the
   * corrected depth-buffer wrapper needs (see DrawCubeRenderer).
   */
  datatype ResourceState = Present | RenderTarget | CopyDest | DepthWrite

  /** The D3D12_RESOURCE_STATES value a requested state stands for. */
  function MapToResourceState(state: ResourceState): (native: nat)
    ensures FromNativeState(native) == Some(state)
  {
    match state
    case Present => StatePresent
    case RenderTarget => StateRenderTarget
    case CopyDest => StateCopyDest
    case DepthWrite => StateDepthWrite
  }

  /** The inverse of MapToResourceState on the values it produces. */
  function FromNativeState(native: nat): Option<ResourceState>
  {
    if native == StatePresent then Some(Present)
    else if native == StateRenderTarget then Some(RenderTarget)
    else if native == StateCopyDest then Some(CopyDest)
    else if native == StateDepthWrite then Some(DepthWrite)
    else None
  }

  /** Distinct requested states map to distinct native states. */
  lemma MapToResourceStateInjective(a: ResourceState, b: ResourceState)
    ensures MapToResourceState(a) == MapToResourceState(b) <==> a == b
  {
    if MapToResourceState(a) == MapToResourceState(b) {
      assert Some(a) == FromNativeState(MapToResourceState(a)) == Some(b);
    }
  }

  /** A sequence of requested states is legal from `current` when no request
      asks for the state the resource is already in. */
  ghost predicate LegalTransitions(current: nat, targets: seq<ResourceState>)
    decreases |targets|
  {
    targets == []
    || (MapToResourceState(targets[0]) != current
        && LegalTransitions(MapToResourceState(targets[0]), targets[1..]))
  }

  /** The barriers successive transition_to calls record, starting from the
      tracked state `current`. */
  function TransitionBarriers(resource: Handle, current: nat, targets: seq<ResourceState>): seq<Barrier>
    decreases |targets|
  {
    if targets == [] then []
    else
      var next := MapToResourceState(targets[0]);
      [Transition(resource, current, next)] + TransitionBarriers(resource, next, targets[1..])
  }

  /** The tracked state after successive transition_to calls. */
  function StateAfter(current: nat, targets: seq<ResourceState>): nat
    decreases |targets|
  {
    if targets == [] then current
    else StateAfter(MapToResourceState(targets[0]), targets[1..])
  }

  /**
   * The recorded barriers form a chain: one per request, each for the
   * wrapped resource, the first leaving the starting state, each next one
   * leaving the state the previous one entered, none a no-op, and the last
   * entering the tracked state.
   */
  lemma {:induction false} TransitionBarriersChain(resource: Handle, current: nat, targets: seq<ResourceState>)
    requires LegalTransitions(current, targets)
    ensures var bs := TransitionBarriers(resource, current, targets);
      && |bs| == |targets|
      && (forall k :: 0 <= k < |bs| ==>
            bs[k].resource == resource && bs[k].after == MapToResourceState(targets[k])
            && bs[k].before != bs[k].after)
      && (|bs| > 0 ==> bs[0].before == current && bs[|bs| - 1].after == StateAfter(current, targets))
      && (forall k :: 0 <= k < |bs| - 1 ==> bs[k].after == bs[k + 1].before)
    decreases |targets|
  {
    if targets != [] {
      var next := MapToResourceState(targets[0]);
      TransitionBarriersChain(resource, next, targets[1..]);
      var rest := TransitionBarriers(resource, next, targets[1..]);
      var bs := TransitionBarriers(resource, current, targets);
      assert bs == [Transition(resource, current, next)] + rest;
      forall k | 0 <= k < |bs|
        ensures bs[k].after == MapToResourceState(targets[k])
      {
        if k > 0 {
          assert bs[k] == rest[k - 1];
          assert targets[k] == targets[1..][k - 1];
        }
      }
      forall k | 0 <= k < |bs| - 1
        ensures bs[k].after == bs[k + 1].before
      {
        if k > 0 {
          assert bs[k] == rest[k - 1] && bs[k + 1] == rest[k];
        }
      }
    }
  }

  /** Present, then RenderTarget, then back to Present: two barriers with
      mirrored states, ending where it started. */
  lemma PresentRenderTargetRoundTrip(resource: Handle)
    ensures LegalTransitions(StatePresent, [RenderTarget, Present])
    ensures TransitionBarriers(resource, StatePresent, [RenderTarget, Present])
         == [Transition(resource, StatePresent, StateRenderTarget),
             Transition(resource, StateRenderTarget, StatePresent)]
    ensures StateAfter(StatePresent, [RenderTarget, Present]) == StatePresent
  {
    assert [RenderTarget, Present][1..] == [Present];
  }

  /** Asking twice in a row for the same state is never legal. */
  lemma RepeatedTargetIllegal(current: nat, target: ResourceState)
    ensures !LegalTransitions(current, [target, target])
  {
    assert [target, target][1..] == [target];
  }

  /**
   * A wrapped resource. `currentState` is the tracked state; the ghost
   * `actualState` is the state the GPU will observe after everything recorded
   * so far. They agree (Tracked) when the wrapper was created in the state the
   * native resource really is in.
   */
  class GpuResource {
    const resource: Handle
    var currentState: nat
    ghost var actualState: nat

    ghost predicate Tracked()
      reads this
    {
      currentState == actualState
    }

    /** Wraps `res`, which the device created in the native state
        `createdIn`, with the tracked state the caller passes. */
    constructor (res: Handle, state: ResourceState, ghost createdIn: nat)
      ensures resource == res
      ensures currentState == MapToResourceState(state) && actualState == createdIn
    {
      resource := res;
      currentState := MapToResourceState(state);
      actualState := createdIn;
    }

    /**
     * Records the move to `state`: the barrier leaves the tracked state and
     * enters the requested one, and the tracked state becomes the requested
     * one. Asking for the current state is an assertion failure. The barrier
     * is correct only when the tracked state is the real one.
     */
    method TransitionTo(state: ResourceState) returns (barrier: Barrier)
      requires Tracked()
      requires MapToResourceState(state) != currentState
      modifies this
      ensures Tracked()
      ensures barrier == Transition(resource, old(currentState), MapToResourceState(state))
      ensures barrier == TransitionBarriers(resource, old(currentState), [state])[0]
      ensures currentState == MapToResourceState(state) == StateAfter(old(currentState), [state])
    {
      var prevState := currentState;
      currentState := MapToResourceState(state);
      actualState := currentState;
      barrier := Transition(resource, prevState, currentState);
    }
  }
}
