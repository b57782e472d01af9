/**
 * The Basic Window renderer (the first directx_12): one queue, one fence
 * shared by all frames with one monotonic counter, one allocator per back
 * buffer, and the fence value each back buffer's last frame was signalled
 * with. A frame resets the active buffer's allocator, records the two
 * hard-coded barriers around a clear, submits, signals, moves to
 * the swap chain's next buffer and waits for that buffer's last frame.
 */
module BasicWindow {
  import opened Gpu
  import opened DeviceSetup

  /** num_frame_buffers. */
  const NumFrameBuffers: nat := 2

  /** INFINITE, the timeout WaitForSingleObject never gives up on. */
  const Infinite: nat := 0xFFFF_FFFF

  /** std::chrono::milliseconds::max().count(): the largest 64-bit count. */
  const MillisecondsMax: int := 0x7FFF_FFFF_FFFF_FFFF

  /** static_cast<DWORD> of a millisecond count: the 32-bit unsigned value
      congruent to it. */
  function ToDword(ms: int): (d: nat)
    ensures d < 0x1_0000_0000 && (ms - d) % 0x1_0000_0000 == 0
  {
    ms % 0x1_0000_0000
  }

  /** Narrowing the largest millisecond count to a DWORD gives exactly
      INFINITE, so the waits that pass it never time out. */
  lemma MaxDurationWaitsForever()
    ensures ToDword(MillisecondsMax) == Infinite
  {
  }

  /** signal_fence: pre-increments the counter, asks the queue to signal the
      new value, and returns it. */
  method SignalFence(fence: Fence, fenceValue: nat) returns (newFenceValue: nat, signalValue: nat)
    requires fence.Valid() && fence.LastSignal() <= fenceValue
    modifies fence
    ensures newFenceValue == fenceValue + 1 && signalValue == newFenceValue
    ensures fence.Valid() && fence.signals == old(fence.signals) + [signalValue]
    ensures fence.completed == old(fence.completed)
  {
    newFenceValue := fenceValue + 1;
    signalValue := newFenceValue;
    fence.Signal(signalValue);
  }

  /**
   * wait_for_fence_value: returns at once when the fence has reached
   * `value`; otherwise waits for it for `durationMs` narrowed to a DWORD.
   * With INFINITE the wait returns only once the value is reached; a finite
   * timeout is taken to expire first.
   */
  method WaitForFenceValue(fence: Fence, value: nat, durationMs: int)
    requires fence.Valid()
    requires ToDword(durationMs) == Infinite ==> value <= fence.LastSignal()
    modifies fence
    ensures fence.Valid() && fence.signals == old(fence.signals)
    ensures old(fence.completed) <= fence.completed
    ensures old(fence.completed) >= value ==> fence.completed == old(fence.completed)
    ensures ToDword(durationMs) == Infinite ==> fence.completed >= value
  {
    if fence.completed >= value {
      return;
    }
    if ToDword(durationMs) == Infinite {
      fence.WaitOnCompletion(value);
    }
  }

  class Renderer {
    const adapterIndex: nat
    const presentFlags: nat
    const fence: Fence
    const commandList: CommandList
    const backBuffers: seq<Handle>
    const frameFenceValues: array<nat>
    var currentFenceValue: nat
    var activeBackBufferIndex: nat
    /** The state each back buffer is in on the GPU timeline. */
    ghost var bufferStates: seq<nat>
    /** The guard of each back buffer's allocator, on the shared fence. */
    ghost var allocatorUse: seq<AllocatorUse>
    /** The command lists submitted to the queue, in order. */
    ghost var executed: seq<seq<Command>>
    ghost const Repr: set<object>

    ghost predicate Valid()
      reads this, Repr
    {
      && this in Repr && fence in Repr && commandList in Repr && frameFenceValues in Repr
      && frameFenceValues.Length == NumFrameBuffers
      && |backBuffers| == NumFrameBuffers
      && |bufferStates| == NumFrameBuffers
      && |allocatorUse| == NumFrameBuffers
      // every value signalled so far is 1, 2, ..., currentFenceValue
      && fence.Valid() && fence.signals == SignalValues(currentFenceValue)
      && (forall k :: 0 <= k < NumFrameBuffers ==> frameFenceValues[k] <= currentFenceValue)
      && (forall k :: 0 <= k < NumFrameBuffers && allocatorUse[k].Guarded? ==>
            allocatorUse[k].until <= frameFenceValues[k])
      && activeBackBufferIndex < NumFrameBuffers
      && commandList.allocator < NumFrameBuffers
    }

    /** Between frames: the list is closed, every submission has been
        signalled, every back buffer is presentable, and the GPU is done
        with the active buffer's previous frame. */
    ghost predicate Idle()
      requires Valid()
      reads this, Repr
    {
      && !commandList.isOpen
      && (forall k :: 0 <= k < NumFrameBuffers ==> allocatorUse[k].Guarded?)
      && (forall k :: 0 <= k < NumFrameBuffers ==> bufferStates[k] == StatePresent)
      && frameFenceValues[activeBackBufferIndex] <= fence.completed
    }

    /** Between clear and present: the list is open on the active buffer's
        allocator and only the active buffer is a render target. */
    ghost predicate Recording()
      requires Valid()
      reads this, Repr
    {
      && commandList.isOpen && commandList.allocator == activeBackBufferIndex
      && (forall k :: 0 <= k < NumFrameBuffers ==> allocatorUse[k].Guarded?)
      && (forall k :: 0 <= k < NumFrameBuffers ==>
            bufferStates[k] == if k == activeBackBufferIndex then StateRenderTarget else StatePresent)
    }

    /**
     * Picks the adapter, fixes the present flags, creates the command list
     * (open, then closed), takes the swap chain's images (presentable), and
     * creates the fence at 0 with every frame's value and the counter at 0.
     */
    constructor (adapters: seq<AdapterDesc>, allowTearing: bool, images: seq<Handle>)
      requires |images| == NumFrameBuffers
      ensures Valid() && Idle() && fresh(Repr)
      ensures adapterIndex == SelectAdapter(adapters)
      ensures presentFlags == PresentFlags(allowTearing, VsyncEnabled) == 0
      ensures backBuffers == images && activeBackBufferIndex == 0
      ensures currentFenceValue == 0 && frameFenceValues[..] == [0, 0] && fence.completed == 0
      ensures executed == []
    {
      adapterIndex := SelectAdapter(adapters);
      presentFlags := PresentFlags(allowTearing, VsyncEnabled);
      var list := new CommandList(0);
      list.Close();
      commandList := list;
      backBuffers := images;
      var f := new Fence();
      fence := f;
      var values := new nat[NumFrameBuffers](_ => 0);
      frameFenceValues := values;
      currentFenceValue := 0;
      activeBackBufferIndex := 0;
      bufferStates := [StatePresent, StatePresent];
      allocatorUse := [Guarded(0), Guarded(0)];
      executed := [];
      Repr := {this, f, list, values};
      new;
      assert frameFenceValues[..] == [0, 0];
    }

    /** One iteration of the window loop: clear, then present. */
    method RenderFrame(next: nat)
      requires Valid() && Idle() && next < NumFrameBuffers
      modifies this, fence, commandList, frameFenceValues
      ensures Valid() && Idle() && activeBackBufferIndex == next
      ensures var buffer := backBuffers[old(activeBackBufferIndex)];
        executed == old(executed) + [[
          ResourceBarrier(Transition(buffer, StatePresent, StateRenderTarget)),
          ClearRenderTarget(old(activeBackBufferIndex)),
          ResourceBarrier(Transition(buffer, StateRenderTarget, StatePresent))]]
      ensures currentFenceValue == old(currentFenceValue) + 1
      ensures frameFenceValues[..] == old(frameFenceValues[..])[old(activeBackBufferIndex) := currentFenceValue]
      ensures old(fence.completed) <= fence.completed
    {
      ghost var active := activeBackBufferIndex;
      Clear();
      ghost var cleared := commandList.commands;
      Present(next);
      assert cleared + [ResourceBarrier(Transition(backBuffers[active], StateRenderTarget, StatePresent))]
        == [cleared[0], cleared[1], ResourceBarrier(Transition(backBuffers[active], StateRenderTarget, StatePresent))];
    }

    /** clear: reopens the list on the active buffer's allocator, moves the
        active buffer to render target and clears it. */
    method Clear()
      requires Valid() && Idle()
      modifies this, commandList
      ensures Valid() && Recording()
      ensures commandList.commands == [
        ResourceBarrier(Transition(backBuffers[activeBackBufferIndex], StatePresent, StateRenderTarget)),
        ClearRenderTarget(activeBackBufferIndex)]
      ensures activeBackBufferIndex == old(activeBackBufferIndex)
      ensures currentFenceValue == old(currentFenceValue) && executed == old(executed)
    {
      OpenCommandList();
      SetBufferToRender();
      commandList.Record(ClearRenderTarget(activeBackBufferIndex));
    }

    /**
     * present: moves the active buffer back to present, closes and submits
     * the list, then signals and advances to `next`, the swap chain's current
     * buffer, waiting until the GPU is done with its last frame.
     */
    method Present(next: nat)
      requires Valid() && Recording() && next < NumFrameBuffers
      modifies this, fence, commandList, frameFenceValues
      ensures Valid() && Idle() && activeBackBufferIndex == next
      ensures executed == old(executed) + [old(commandList.commands) + [
        ResourceBarrier(Transition(backBuffers[old(activeBackBufferIndex)], StateRenderTarget, StatePresent))]]
      ensures currentFenceValue == old(currentFenceValue) + 1
      ensures frameFenceValues[..] == old(frameFenceValues[..])[old(activeBackBufferIndex) := currentFenceValue]
      ensures old(fence.completed) <= fence.completed
    {
      SetBufferToPresent();
      CloseExecuteCommandList();
      NextFenceAndBuffer(next);
    }

    /** open_command_list: resets the active buffer's allocator, which the
        GPU must be done with, and reopens the closed list on it. */
    method OpenCommandList()
      requires Valid() && !commandList.isOpen
      requires allocatorUse[activeBackBufferIndex].Guarded?
      requires allocatorUse[activeBackBufferIndex].until <= fence.completed
      modifies commandList
      ensures Valid()
      ensures commandList.isOpen && commandList.allocator == activeBackBufferIndex
      ensures commandList.commands == []
    {
      commandList.Reset(activeBackBufferIndex);
    }

    /** set_buffer_to_render: records the fixed present-to-render-target
        barrier, which is correct only if the buffer is presentable. */
    method SetBufferToRender()
      requires Valid() && commandList.isOpen
      requires bufferStates[activeBackBufferIndex] == StatePresent
      modifies this`bufferStates, commandList
      ensures Valid() && commandList.isOpen && commandList.allocator == old(commandList.allocator)
      ensures commandList.commands == old(commandList.commands) + [
        ResourceBarrier(Transition(backBuffers[activeBackBufferIndex], StatePresent, StateRenderTarget))]
      ensures bufferStates == old(bufferStates)[activeBackBufferIndex := StateRenderTarget]
    {
      var barrier := Transition(backBuffers[activeBackBufferIndex], StatePresent, StateRenderTarget);
      commandList.Record(ResourceBarrier(barrier));
      bufferStates := bufferStates[activeBackBufferIndex := StateRenderTarget];
    }

    /** set_buffer_to_present: records the fixed render-target-to-present
        barrier, which is correct only if the buffer is a render target. */
    method SetBufferToPresent()
      requires Valid() && commandList.isOpen
      requires bufferStates[activeBackBufferIndex] == StateRenderTarget
      modifies this`bufferStates, commandList
      ensures Valid() && commandList.isOpen && commandList.allocator == old(commandList.allocator)
      ensures commandList.commands == old(commandList.commands) + [
        ResourceBarrier(Transition(backBuffers[activeBackBufferIndex], StateRenderTarget, StatePresent))]
      ensures bufferStates == old(bufferStates)[activeBackBufferIndex := StatePresent]
    {
      var barrier := Transition(backBuffers[activeBackBufferIndex], StateRenderTarget, StatePresent);
      commandList.Record(ResourceBarrier(barrier));
      bufferStates := bufferStates[activeBackBufferIndex := StatePresent];
    }

    /** close_execute_command_list: only an open list is closed, and only the
        closed list is submitted; its allocator is then in use by the GPU. */
    method CloseExecuteCommandList()
      requires Valid() && commandList.isOpen
      modifies this`executed, this`allocatorUse, commandList
      ensures Valid() && !commandList.isOpen
      ensures commandList.allocator == old(commandList.allocator)
      ensures commandList.commands == old(commandList.commands)
      ensures executed == old(executed) + [commandList.commands]
      ensures allocatorUse == old(allocatorUse)[commandList.allocator := Unguarded]
    {
      commandList.Close();
      executed := executed + [commandList.commands];
      allocatorUse := allocatorUse[commandList.allocator := Unguarded];
    }

    /**
     * next_fence_and_buffer: stores a fresh signal value as the active
     * buffer's frame value while the index still names the buffer just
     * submitted, then takes the swap chain's index and waits for the value
     * stored for that buffer.
     */
    method NextFenceAndBuffer(next: nat)
      requires Valid() && next < NumFrameBuffers
      modifies this, fence, frameFenceValues
      ensures Valid() && activeBackBufferIndex == next
      ensures currentFenceValue == old(currentFenceValue) + 1
      ensures fence.signals == old(fence.signals) + [currentFenceValue]
      ensures frameFenceValues[..] == old(frameFenceValues[..])[old(activeBackBufferIndex) := currentFenceValue]
      ensures allocatorUse == old(allocatorUse)[old(activeBackBufferIndex) := Guarded(currentFenceValue)]
      ensures old(fence.completed) <= fence.completed && frameFenceValues[next] <= fence.completed
      ensures bufferStates == old(bufferStates) && executed == old(executed)
    {
      var signalValue;
      currentFenceValue, signalValue := SignalFence(fence, currentFenceValue);
      frameFenceValues[activeBackBufferIndex] := signalValue;
      allocatorUse := allocatorUse[activeBackBufferIndex := Guarded(signalValue)];
      activeBackBufferIndex := next;
      SignalValuesIncreasing(currentFenceValue);
      WaitForFenceValue(fence, frameFenceValues[activeBackBufferIndex], MillisecondsMax);
    }

    /** The destructor: one more signal, waited for with no timeout, so the
        GPU has finished everything ever submitted. */
    method Destroy()
      requires Valid()
      modifies this`currentFenceValue, fence
      ensures currentFenceValue == old(currentFenceValue) + 1
      ensures fence.signals == old(fence.signals) + [currentFenceValue]
      ensures fence.completed == fence.LastSignal() == currentFenceValue
      ensures forall k :: 0 <= k < NumFrameBuffers ==> frameFenceValues[k] < fence.completed
    {
      var fenceValue;
      currentFenceValue, fenceValue := SignalFence(fence, currentFenceValue);
      MaxDurationWaitsForever();
      WaitForFenceValue(fence, fenceValue, MillisecondsMax);
    }
  }
}
