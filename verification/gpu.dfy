/**
 * Abstract models of the Direct3D 12 collaborators the renderer drives: the
 * fence a queue signals, the command list commands are recorded into, and the
 * resource-state values barriers carry. Nothing here is the application's own
 * code; the GPU's asynchronous progress is reduced to the single step
 * Fence.GpuAdvance, which may only raise the completed value up to the last
 * value the queue was asked to signal.
 */
module Gpu {

  /** Identity of a native resource (the ID3D12Resource a wrapper holds). */
  type Handle = nat

  // D3D12_RESOURCE_STATES values used by the renderer.
  const StatePresent: nat := 0
  const StateRenderTarget: nat := 0x4
  const StateDepthWrite: nat := 0x10
  const StateCopyDest: nat := 0x400

  /** A transition barrier: `resource` goes from `before` to `after`. */
  datatype Barrier = Transition(resource: Handle, before: nat, after: nat)

  /** The commands the renderer records into a command list. */
  datatype Command =
    | ResourceBarrier(barrier: Barrier)
    | ClearRenderTarget(backBuffer: nat)
    | ClearDepthStencil

  datatype Option<T> = None | Some(value: T)

  /** What guards a command allocator against reuse: the GPU is done with
      the commands recorded in it once the guarding fence reaches `until`;
      Unguarded when its commands were submitted with no signal after them
      on that fence. */
  datatype AllocatorUse = Guarded(until: nat) | Unguarded

  /** The values 1, 2, ..., n: what a counter that starts at 0 and is
      pre-incremented before every signal has issued after n signals. */
  ghost function SignalValues(n: nat): seq<nat>
  {
    seq(n, j => j + 1)
  }

  ghost predicate Increasing(s: seq<nat>)
  {
    forall i, j :: 0 <= i < j < |s| ==> s[i] < s[j]
  }

  lemma SignalValuesNext(n: nat)
    ensures SignalValues(n) + [n + 1] == SignalValues(n + 1)
  {
    var s := SignalValues(n) + [n + 1];
    forall j | 0 <= j < n + 1
      ensures s[j] == SignalValues(n + 1)[j]
    {
      if j < n {
        assert s[j] == SignalValues(n)[j];
      }
    }
  }

  lemma SignalValuesIncreasing(n: nat)
    ensures Increasing(SignalValues(n))
    ensures n > 0 ==> SignalValues(n)[n - 1] == n
  {
  }

  /**
   * An ID3D12Fence created with initial value 0. `completed` is what
   * GetCompletedValue reports; `signals` is every value a queue has been
   * asked to write into the fence, in submission order.
   */
  class Fence {
    var completed: nat
    ghost var signals: seq<nat>

    ghost function LastSignal(): nat
      reads this
    {
      if signals == [] then 0 else signals[|signals| - 1]
    }

    ghost predicate Valid()
      reads this
    {
      completed <= LastSignal()
    }

    constructor ()
      ensures Valid() && completed == 0 && signals == []
    {
      completed := 0;
      signals := [];
    }

    /** ID3D12CommandQueue::Signal: the GPU writes `v` once all work
        submitted before it has finished. This abstract fence only accepts
        increasing values. */
    method Signal(v: nat)
      requires Valid() && LastSignal() < v
      modifies this
      ensures Valid() && signals == old(signals) + [v] && completed == old(completed)
    {
      signals := signals + [v];
    }

    /** The GPU finishing work: the completed value rises, but never past
        the last value signalled. */
    method GpuAdvance(v: nat)
      requires Valid() && completed <= v <= LastSignal()
      modifies this
      ensures Valid() && completed == v && signals == old(signals)
    {
      completed := v;
    }

    /** SetEventOnCompletion(v) followed by an infinite WaitForSingleObject:
        returns once the GPU has reached `v`. Waiting for a value that was
        never signalled would never return, hence the precondition. */
    method WaitOnCompletion(v: nat)
      requires Valid() && v <= LastSignal()
      modifies this
      ensures Valid() && signals == old(signals)
      ensures old(completed) <= completed && v <= completed
    {
      if completed < v {
        completed := v;
      }
    }
  }

  /**
   * An ID3D12GraphicsCommandList: open (recording into the allocator of
   * slot `allocator`) or closed, with the commands recorded since its last
   * reset.
   */
  class CommandList {
    var isOpen: bool
    var allocator: nat
    var commands: seq<Command>

    /** CreateCommandList returns a list that is already open. */
    constructor (allocator: nat)
      ensures isOpen && this.allocator == allocator && commands == []
    {
      isOpen := true;
      this.allocator := allocator;
      commands := [];
    }

    /** Reset: only a closed list may be reopened. */
    method Reset(allocator: nat)
      requires !isOpen
      modifies this
      ensures isOpen && this.allocator == allocator && commands == []
    {
      isOpen := true;
      this.allocator := allocator;
      commands := [];
    }

    method Record(c: Command)
      requires isOpen
      modifies this
      ensures isOpen && allocator == old(allocator) && commands == old(commands) + [c]
    {
      commands := commands + [c];
    }

    method Close()
      requires isOpen
      modifies this
      ensures !isOpen && allocator == old(allocator) && commands == old(commands)
    {
      isOpen := false;
    }
  }
}
