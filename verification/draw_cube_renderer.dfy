/**
 * The Draw Cube renderer (the second directx_12): a cmd_queue with one fence
 * per frame slot, the swap chain's back buffers wrapped in gpu_resource
 * state trackers, and a depth buffer. A frame acquires the command list for
 * the active back buffer (waiting for that slot's previous frame), moves the
 * buffer to render target and clears it and the depth buffer, then moves it
 * back to present, executes with a signal on the same slot, and takes the
 * swap chain's next index.
 */
module DrawCubeRenderer {
  import opened Gpu
  import opened GpuResources
  import opened CmdQueues
  import opened DeviceSetup

  /** create_back_buffers: wraps each swap-chain image, in order, with the
      tracked state present, which is the state the swap chain hands it out
      in. */
  method CreateBackBuffers(images: seq<Handle>) returns (buffers: seq<GpuResource>)
    ensures |buffers| == |images|
    ensures forall k :: 0 <= k < |images| ==>
      && fresh(buffers[k]) && buffers[k].resource == images[k]
      && buffers[k].currentState == StatePresent && buffers[k].Tracked()
    ensures forall j, k :: 0 <= j < k < |images| ==> buffers[j] != buffers[k]
  {
    var created: seq<GpuResource> := [];
    while |created| < |images|
      invariant |created| <= |images|
      invariant forall k :: 0 <= k < |created| ==>
        && fresh(created[k]) && created[k].resource == images[k]
        && created[k].currentState == StatePresent && created[k].Tracked()
      invariant forall j, k :: 0 <= j < k < |created| ==> created[j] != created[k]
    {
      var buffer := new GpuResource(images[|created|], Present, StatePresent);
      created := created + [buffer];
    }
    buffers := created;
  }

  /** create_depthstencil_buffer as written: the buffer is created in
      DEPTH_WRITE but wrapped with the tracked state present, so the tracker
      is wrong from the start. */
  method CreateDepthStencilBufferAsWritten(depthHandle: Handle) returns (depth: GpuResource)
    ensures fresh(depth) && depth.resource == depthHandle
    ensures depth.currentState == StatePresent && depth.actualState == StateDepthWrite
    ensures !depth.Tracked()
  {
    depth := new GpuResource(depthHandle, Present, StateDepthWrite);
  }

  /** Whatever the as-written depth buffer is asked to move to, the barrier
      its tracker would record starts from its tracked state, present, not
      from the DEPTH_WRITE state the resource is really in. */
  lemma DepthStencilAsWrittenBarrierMismatch(depth: GpuResource, target: ResourceState)
    requires depth.currentState == StatePresent && depth.actualState == StateDepthWrite
    requires target != Present
    ensures LegalTransitions(depth.currentState, [target])
    ensures TransitionBarriers(depth.resource, depth.currentState, [target])[0]
         == Transition(depth.resource, StatePresent, MapToResourceState(target))
    ensures TransitionBarriers(depth.resource, depth.currentState, [target])[0].before
         != depth.actualState
  {
    MapToResourceStateInjective(target, Present);
  }

  /** create_depthstencil_buffer corrected: tracked in the state it is
      created in, so every later barrier starts from the real state. */
  method CreateDepthStencilBuffer(depthHandle: Handle) returns (depth: GpuResource)
    ensures fresh(depth) && depth.resource == depthHandle
    ensures depth.currentState == StateDepthWrite && depth.Tracked()
  {
    depth := new GpuResource(depthHandle, DepthWrite, StateDepthWrite);
  }

  class Renderer {
    const adapterIndex: nat
    const presentFlags: nat
    const queue: CmdQueue
    const backBuffers: seq<GpuResource>
    const depthBuffer: GpuResource
    var activeBackBufferIndex: nat
    ghost const Repr: set<object>

    ghost predicate Valid()
      reads this, Repr
    {
      && Disjoint() && queue.Valid() && BuffersTracked()
      && activeBackBufferIndex < FrameBufferCount
    }

    /** The renderer's objects: the queue's own, the back buffers and the
        depth buffer, all distinct. */
    ghost predicate Disjoint()
    {
      && this in Repr && queue in Repr && depthBuffer in Repr && queue.Repr <= Repr
      && this !in queue.Repr && depthBuffer !in queue.Repr
      && |backBuffers| == FrameBufferCount
      && (forall k :: 0 <= k < FrameBufferCount ==>
            backBuffers[k] in Repr && backBuffers[k] !in queue.Repr && backBuffers[k] != depthBuffer)
      && (forall j, k :: 0 <= j < k < FrameBufferCount ==> backBuffers[j] != backBuffers[k])
    }

    /** Every tracker holds the state its resource is really in, and the
        depth buffer is tracked as DEPTH_WRITE. */
    ghost predicate BuffersTracked()
      reads backBuffers, depthBuffer
    {
      && (forall k :: 0 <= k < |backBuffers| ==> backBuffers[k].Tracked())
      && depthBuffer.Tracked() && depthBuffer.currentState == StateDepthWrite
    }

    /** Between frames: the list is closed, every slot's allocator is guarded
        by a signal on its fence, and every back buffer is presentable. */
    ghost predicate Idle()
      reads queue, queue.commandList, backBuffers
    {
      && !queue.commandList.isOpen && queue.AllocatorsAccounted()
      && forall k :: 0 <= k < |backBuffers| ==> backBuffers[k].currentState == StatePresent
    }

    /** Between get_cleared_cmd_list and present: the list is open on the
        active slot's allocator and only the active back buffer is a render
        target. */
    ghost predicate Recording()
      reads this, queue, queue.commandList, backBuffers
    {
      && queue.commandList.isOpen && queue.commandList.allocator == activeBackBufferIndex
      && queue.AllocatorsAccounted()
      && forall k :: 0 <= k < |backBuffers| ==>
           backBuffers[k].currentState
           == if k == activeBackBufferIndex then StateRenderTarget else StatePresent
    }

    /**
     * Picks the adapter and the present flags, creates a direct queue, takes
     * the swap chain's images and its current index `firstIndex`, and
     * creates the depth buffer.
     */
    constructor (adapters: seq<AdapterDesc>, allowTearing: bool, images: seq<Handle>,
                 depthHandle: Handle, firstIndex: nat)
      requires |images| == FrameBufferCount && firstIndex < FrameBufferCount
      ensures Valid() && Idle() && fresh(Repr)
      ensures adapterIndex == SelectAdapter(adapters)
      ensures presentFlags == PresentFlags(allowTearing, VsyncEnabled) == 0
      ensures queue.queueType == Direct && queue.executed == []
      ensures forall k :: 0 <= k < FrameBufferCount ==>
        backBuffers[k].resource == images[k] && queue.Slot(k) == SlotView(0, 0)
      ensures depthBuffer.resource == depthHandle
      ensures activeBackBufferIndex == firstIndex
    {
      adapterIndex := SelectAdapter(adapters);
      presentFlags := PresentFlags(allowTearing, VsyncEnabled);
      var q := new CmdQueue(Direct);
      queue := q;
      var buffers := CreateBackBuffers(images);
      backBuffers := buffers;
      var depth := CreateDepthStencilBuffer(depthHandle);
      depthBuffer := depth;
      activeBackBufferIndex := firstIndex;
      Repr := {this, q, depth} + q.Repr + set k | 0 <= k < |buffers| :: buffers[k];
    }

    /**
     * get_cleared_cmd_list: waits for the active slot's previous frame,
     * reopens the list on its allocator, moves the active back buffer from
     * present to render target, and clears it and the depth buffer.
     */
    method GetClearedCmdList() returns (list: CommandList)
      requires Valid() && Idle()
      modifies queue.Repr, backBuffers[activeBackBufferIndex]
      ensures Valid() && Recording() && list == queue.commandList
      ensures list.commands == [
        ResourceBarrier(Transition(backBuffers[activeBackBufferIndex].resource, StatePresent, StateRenderTarget)),
        ClearRenderTarget(activeBackBufferIndex),
        ClearDepthStencil]
      ensures queue.Slot(activeBackBufferIndex).value == old(queue.Slot(activeBackBufferIndex).value)
      ensures queue.Slot(activeBackBufferIndex).completed >= queue.Slot(activeBackBufferIndex).value
      ensures old(queue.Slot(activeBackBufferIndex).completed) <= queue.Slot(activeBackBufferIndex).completed
      ensures forall k :: 0 <= k < FrameBufferCount && k != activeBackBufferIndex ==>
        queue.Slot(k) == old(queue.Slot(k))
      ensures queue.executed == old(queue.executed) && unchanged(depthBuffer)
    {
      var active := activeBackBufferIndex;
      var barrier := backBuffers[active].TransitionTo(RenderTarget);
      var status;
      list, status := queue.GetCommandList(active, barrier);
      list.Record(ClearRenderTarget(active));
      list.Record(ClearDepthStencil);
    }

    /**
     * present: moves the active back buffer back to present, executes the
     * list with a signal on the same slot, and only then takes `next`, the
     * swap chain's current index, as the active index.
     */
    method Present(next: nat)
      requires Valid() && Recording() && next < FrameBufferCount
      modifies this, queue.Repr, backBuffers[activeBackBufferIndex]
      ensures Valid() && Idle() && activeBackBufferIndex == next
      ensures queue.executed == old(queue.executed) + [old(queue.commandList.commands) + [
        ResourceBarrier(Transition(backBuffers[old(activeBackBufferIndex)].resource, StateRenderTarget, StatePresent))]]
      ensures queue.Slot(old(activeBackBufferIndex))
           == SlotView(old(queue.Slot(activeBackBufferIndex).value) + 1,
                       old(queue.Slot(activeBackBufferIndex).completed))
      ensures forall k :: 0 <= k < FrameBufferCount && k != old(activeBackBufferIndex) ==>
        queue.Slot(k) == old(queue.Slot(k))
      ensures unchanged(depthBuffer)
    {
      ExecuteActive();
      activeBackBufferIndex := next;
    }

    /** The part of present before the index changes: the barrier back to
        present and the execution with a signal on the active slot. */
    method ExecuteActive()
      requires Valid() && Recording()
      modifies queue.Repr, backBuffers[activeBackBufferIndex]
      ensures Valid() && Idle()
      ensures queue.executed == old(queue.executed) + [old(queue.commandList.commands) + [
        ResourceBarrier(Transition(backBuffers[activeBackBufferIndex].resource, StateRenderTarget, StatePresent))]]
      ensures queue.Slot(activeBackBufferIndex)
           == SlotView(old(queue.Slot(activeBackBufferIndex).value) + 1,
                       old(queue.Slot(activeBackBufferIndex).completed))
      ensures forall k :: 0 <= k < FrameBufferCount && k != activeBackBufferIndex ==>
        queue.Slot(k) == old(queue.Slot(k))
      ensures unchanged(depthBuffer)
    {
      var active := activeBackBufferIndex;
      var barrier := backBuffers[active].TransitionTo(ResourceState.Present);
      var _ := queue.ExecuteCommandList(active, barrier);
    }

    /**
     * One render call: the active back buffer goes through exactly the two
     * barriers of present -> render target -> present, one list holding them
     * around the two clears is submitted, the slot is signalled with its next
     * value, and the depth buffer is never transitioned.
     */
    method Frame(next: nat)
      requires Valid() && Idle() && next < FrameBufferCount
      modifies this, queue.Repr, backBuffers[activeBackBufferIndex]
      ensures Valid() && Idle() && activeBackBufferIndex == next
      ensures var active := old(activeBackBufferIndex);
        var buffer := backBuffers[active].resource;
        var barriers := TransitionBarriers(buffer, StatePresent, [RenderTarget, ResourceState.Present]);
        queue.executed == old(queue.executed) + [[
          ResourceBarrier(barriers[0]), ClearRenderTarget(active), ClearDepthStencil,
          ResourceBarrier(barriers[1])]]
      ensures queue.Slot(old(activeBackBufferIndex)).value
           == old(queue.Slot(activeBackBufferIndex).value) + 1
      ensures queue.Slot(old(activeBackBufferIndex)).completed >= old(queue.Slot(activeBackBufferIndex).value)
      ensures queue.Slot(old(activeBackBufferIndex)).completed >= old(queue.Slot(activeBackBufferIndex).completed)
      ensures forall k :: 0 <= k < FrameBufferCount && k != old(activeBackBufferIndex) ==>
        queue.Slot(k) == old(queue.Slot(k))
      ensures unchanged(depthBuffer)
    {
      ghost var active := activeBackBufferIndex;
      ghost var buffer := backBuffers[active].resource;
      PresentRenderTargetRoundTrip(buffer);
      var list := GetClearedCmdList();
      ghost var cleared := list.commands;
      Present(next);
      assert cleared + [ResourceBarrier(Transition(buffer, StateRenderTarget, StatePresent))]
        == [cleared[0], cleared[1], cleared[2], ResourceBarrier(Transition(buffer, StateRenderTarget, StatePresent))];
    }

    /** The destructor: the queue, destroyed before the buffers, drains every
        slot, so the GPU is done with every allocator before any buffer is
        released. */
    method Destroy()
      requires Valid()
      modifies queue.Repr
      ensures queue.Valid() && queue.executed == old(queue.executed)
      ensures forall k :: 0 <= k < FrameBufferCount ==> queue.AllocatorIdle(k)
      ensures forall k :: 0 <= k < FrameBufferCount ==>
        queue.Slot(k).completed >= queue.Slot(k).value == old(queue.Slot(k).value) + 1
      ensures queue.blockingWaits == old(queue.blockingWaits) + FrameBufferCount
      ensures forall k :: 0 <= k < FrameBufferCount ==> unchanged(backBuffers[k])
      ensures unchanged(depthBuffer)
    {
      queue.Drain();
    }
  }
}
