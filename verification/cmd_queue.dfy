/**
 * The command queue of the Draw Cube renderer (cmd_queue): a hardware queue,
 * one command allocator and one fence with its CPU-side value per frame slot,
 * and one command list shared by all slots. A slot's allocator may be reset
 * only once the GPU has reached the value last signalled on that slot's
 * fence; `get_command_list` waits for exactly that before reopening the list.
 */
module CmdQueues {
  import opened Gpu

  /** frame_buffer_count: the number of frame slots. */
  const FrameBufferCount: nat := 2

  datatype CmdQueueType = Direct | Bundle | Compute | Copy

  // D3D12_COMMAND_LIST_TYPE values.
  const ListTypeDirect: nat := 0
  const ListTypeBundle: nat := 1
  const ListTypeCompute: nat := 2
  const ListTypeCopy: nat := 3

  /** The command-list type a queue of the given kind is created with. */
  function MapToCmdListType(t: CmdQueueType): (listType: nat)
    ensures FromCmdListType(listType) == Some(t)
  {
    match t
    case Direct => ListTypeDirect
    case Bundle => ListTypeBundle
    case Compute => ListTypeCompute
    case Copy => ListTypeCopy
  }

  /** The inverse of MapToCmdListType on the values it produces. */
  function FromCmdListType(listType: nat): Option<CmdQueueType>
  {
    if listType == ListTypeDirect then Some(Direct)
    else if listType == ListTypeBundle then Some(Bundle)
    else if listType == ListTypeCompute then Some(Compute)
    else if listType == ListTypeCopy then Some(Copy)
    else None
  }

  /** One element of the `fences` array: the slot's fence and the value last
      signalled on it. */
  datatype FrameFence = FrameFence(fence: Fence, value: nat)

  /** A slot access through std::array::at either succeeds or throws
      std::out_of_range. */
  datatype Status = Ok | OutOfRange

  /** What is observable of one slot: its CPU-side value and its fence's
      completed value. */
  datatype SlotView = SlotView(value: nat, completed: nat)

  /** create_fences: one fresh fence, created at 0, per slot, and value 0. */
  method CreateFences(n: nat) returns (fences: array<FrameFence>, ghost objects: seq<Fence>)
    ensures fresh(fences) && fences.Length == n && |objects| == n
    ensures forall k :: 0 <= k < n ==>
      fences[k] == FrameFence(objects[k], 0) && fresh(objects[k])
      && objects[k].Valid() && objects[k].completed == 0 && objects[k].signals == []
    ensures forall j, k :: 0 <= j < k < n ==> objects[j] != objects[k]
  {
    var created: seq<Fence> := [];
    while |created| < n
      invariant |created| <= n
      invariant forall k :: 0 <= k < |created| ==>
        fresh(created[k]) && created[k].Valid() && created[k].completed == 0 && created[k].signals == []
      invariant forall j, k :: 0 <= j < k < |created| ==> created[j] != created[k]
    {
      var f := new Fence();
      created := created + [f];
    }
    fences := new FrameFence[n](k requires 0 <= k < n => FrameFence(created[k], 0));
    objects := created;
  }

  class CmdQueue {
    const queueType: CmdQueueType
    const listType: nat
    const fences: array<FrameFence>
    const commandList: CommandList
    ghost const fenceObjects: seq<Fence>
    ghost const Repr: set<object>
    /** The guard of each slot's allocator. */
    ghost var allocatorUse: seq<AllocatorUse>
    /** The command lists submitted to the hardware queue, in order. */
    ghost var executed: seq<seq<Command>>
    /** How many waits actually blocked on the GPU. */
    ghost var blockingWaits: nat

    ghost function Fences(): set<object>
      reads this
    {
      set k | 0 <= k < |fenceObjects| :: fenceObjects[k]
    }

    ghost predicate Valid()
      reads this, Repr
    {
      fences in Repr && Footprint() && SlotsValid() && commandList.allocator < FrameBufferCount
    }

    /** The objects of the queue: one distinct fence per slot, each the fence
        of that slot's array element, and one guard per allocator. */
    ghost predicate Footprint()
      reads this, fences
    {
      && this in Repr && fences in Repr && commandList in Repr && Fences() <= Repr
      && fences.Length == FrameBufferCount
      && |fenceObjects| == FrameBufferCount
      && |allocatorUse| == FrameBufferCount
      && (forall k :: 0 <= k < FrameBufferCount ==> fences[k].fence == fenceObjects[k])
      && (forall j, k :: 0 <= j < k < FrameBufferCount ==> fenceObjects[j] != fenceObjects[k])
    }

    /** Every value signalled on slot k so far is 1, 2, ..., value, and an
        allocator is only ever guarded by a value already signalled on its
        slot. */
    ghost predicate SlotsValid()
      requires Footprint()
      reads this, fences, Fences()
    {
      && (forall k :: 0 <= k < FrameBufferCount ==>
            fenceObjects[k].Valid() && fenceObjects[k].signals == SignalValues(fences[k].value))
      && (forall k :: 0 <= k < FrameBufferCount && allocatorUse[k].Guarded? ==>
            allocatorUse[k].until <= fences[k].value)
    }

    ghost function Slot(k: nat): SlotView
      requires k < fences.Length && k < |fenceObjects|
      reads this, fences, fenceObjects[k]
    {
      SlotView(fences[k].value, fenceObjects[k].completed)
    }

    /** Every submitted list was followed by a signal on the fence of the
        slot whose allocator it was recorded with. */
    ghost predicate AllocatorsAccounted()
      reads this
    {
      forall k :: 0 <= k < |allocatorUse| ==> allocatorUse[k].Guarded?
    }

    /** The GPU has finished with everything recorded in slot k's allocator. */
    ghost predicate AllocatorIdle(k: nat)
      requires k < |allocatorUse| && k < |fenceObjects|
      reads this, fenceObjects[k]
    {
      allocatorUse[k].Guarded? && allocatorUse[k].until <= fenceObjects[k].completed
    }

    /**
     * Creates the queue of the given kind, one allocator and one fence per
     * slot with value 0, and the shared command list, which is created open
     * on the first allocator and closed at once.
     */
    constructor (t: CmdQueueType)
      ensures Valid() && fresh(Repr)
      ensures queueType == t && listType == MapToCmdListType(t)
      ensures forall k :: 0 <= k < FrameBufferCount ==> Slot(k) == SlotView(0, 0)
      ensures !commandList.isOpen && commandList.commands == []
      ensures AllocatorsAccounted() && executed == [] && blockingWaits == 0
    {
      queueType := t;
      listType := MapToCmdListType(t);
      var list := new CommandList(0);
      var fs, objects := CreateFences(FrameBufferCount);
      fences := fs;
      fenceObjects := objects;
      commandList := list;
      Repr := {this, fs, list} + set k | 0 <= k < |objects| :: objects[k];
      allocatorUse := seq(FrameBufferCount, _ => Guarded(0));
      executed := [];
      blockingWaits := 0;
      new;
      CloseCommandList();
    }

    /**
     * The destructor's drain: for each slot in order, signal it once more and
     * wait for that value. Afterwards every slot's fence has reached its
     * final value, so no allocator is still in use by the GPU. Every slot is
     * signalled again even when it was already idle. In this model the GPU
     * makes no progress between a signal and the check that follows it, so
     * every wait takes the blocking path; a real GPU may already have
     * reached the value, and the wait then returns at once.
     */
    method Drain()
      requires Valid()
      modifies Repr
      ensures Valid() && unchanged(commandList) && executed == old(executed)
      ensures forall k :: 0 <= k < FrameBufferCount ==>
        Slot(k).value == old(Slot(k).value) + 1 && Slot(k).completed >= Slot(k).value
      ensures forall k :: 0 <= k < FrameBufferCount ==> AllocatorIdle(k)
      ensures blockingWaits == old(blockingWaits) + FrameBufferCount
    {
      var i := 0;
      while i < fences.Length
        invariant 0 <= i <= FrameBufferCount && Valid()
        invariant unchanged(commandList) && executed == old(executed)
        invariant blockingWaits == old(blockingWaits) + i
        invariant forall k :: 0 <= k < i ==>
          Slot(k).value == old(Slot(k).value) + 1 && Slot(k).completed >= Slot(k).value
          && allocatorUse[k] == Guarded(Slot(k).value)
        invariant forall k :: i <= k < FrameBufferCount ==> Slot(k) == old(Slot(k))
      {
        FinalSignalAndWait(i);
        i := i + 1;
      }
    }

    /** One step of the drain: signal slot i once more and wait for it. In
        this model the wait takes the blocking path, since the GPU makes no
        progress between the signal and the check. */
    method FinalSignalAndWait(i: nat)
      requires Valid() && i < FrameBufferCount
      modifies this, fences, Fences()
      ensures Valid() && unchanged(commandList) && executed == old(executed)
      ensures Slot(i).value == old(Slot(i).value) + 1 && Slot(i).completed >= Slot(i).value
      ensures allocatorUse == old(allocatorUse)[i := Guarded(Slot(i).value)]
      ensures blockingWaits == old(blockingWaits) + 1
      ensures forall k :: 0 <= k < FrameBufferCount && k != i ==> Slot(k) == old(Slot(k))
    {
      var _ := SetFrameCompleteSignal(i);
      var _ := WaitForPreviousFrame(i);
    }

    /**
     * Waits until the GPU has finished slot i's previous frame, then reopens
     * the shared list on slot i's allocator and records `barrier` into it.
     * A slot index out of range throws before anything changes.
     */
    method GetCommandList(i: nat, barrier: Barrier) returns (list: CommandList, status: Status)
      requires Valid() && !commandList.isOpen
      requires i < FrameBufferCount ==> allocatorUse[i].Guarded?
      modifies Repr
      ensures Valid() && list == commandList
      ensures allocatorUse == old(allocatorUse) && executed == old(executed)
      ensures status == (if i < FrameBufferCount then Ok else OutOfRange)
      ensures status == OutOfRange ==> unchanged(commandList) && blockingWaits == old(blockingWaits)
      ensures status == Ok ==>
        && blockingWaits
           == old(blockingWaits) + (if old(Slot(i).completed) < old(Slot(i).value) then 1 else 0)
        && Slot(i).value == old(Slot(i).value) && Slot(i).completed >= Slot(i).value
        && old(Slot(i).completed) <= Slot(i).completed
        && (old(Slot(i).completed) >= old(Slot(i).value) ==> Slot(i) == old(Slot(i)))
        && commandList.isOpen && commandList.allocator == i
        && commandList.commands == [ResourceBarrier(barrier)]
      ensures forall k :: 0 <= k < FrameBufferCount && k != i ==> Slot(k) == old(Slot(k))
    {
      status := WaitForPreviousFrame(i);
      if status == OutOfRange {
        list := commandList;
        return;
      }
      var _ := OpenCommandList(i);
      commandList.Record(ResourceBarrier(barrier));
      list := commandList;
    }

    /**
     * Records `barrier`, closes the list, submits it, and then signals slot
     * i. A slot index out of range throws only at the signal: the list has
     * been closed and submitted by then, and its allocator is left with no
     * signal guarding it.
     */
    method ExecuteCommandList(i: nat, barrier: Barrier) returns (status: Status)
      requires Valid() && commandList.isOpen
      modifies Repr
      ensures Valid() && blockingWaits == old(blockingWaits)
      ensures !commandList.isOpen && commandList.allocator == old(commandList.allocator)
      ensures commandList.commands == old(commandList.commands) + [ResourceBarrier(barrier)]
      ensures executed == old(executed) + [commandList.commands]
      ensures status == (if i < FrameBufferCount then Ok else OutOfRange)
      ensures status == Ok ==> Slot(i) == SlotView(old(Slot(i).value) + 1, old(Slot(i).completed))
      ensures forall k :: 0 <= k < FrameBufferCount && k != i ==> Slot(k) == old(Slot(k))
      ensures allocatorUse ==
        var submitted := old(allocatorUse)[old(commandList.allocator) := Unguarded];
        if status == Ok then submitted[i := Guarded(Slot(i).value)] else submitted
    {
      commandList.Record(ResourceBarrier(barrier));
      CloseCommandList();
      SubmitList();
      status := SetFrameCompleteSignal(i);
    }

    /** Resets slot i's allocator and reopens the shared list on it. The
        allocator may be reset only once the GPU is done with it, and only a
        closed list may be reopened. */
    method OpenCommandList(i: nat) returns (status: Status)
      requires Valid() && !commandList.isOpen
      requires i < FrameBufferCount ==> AllocatorIdle(i)
      modifies commandList
      ensures Valid()
      ensures status == (if i < FrameBufferCount then Ok else OutOfRange)
      ensures status == OutOfRange ==> unchanged(commandList)
      ensures status == Ok ==>
        commandList.isOpen && commandList.allocator == i && commandList.commands == []
    {
      if i >= FrameBufferCount {
        return OutOfRange;
      }
      commandList.Reset(i);
      status := Ok;
    }

    method CloseCommandList()
      requires commandList.isOpen
      modifies commandList
      ensures !commandList.isOpen
      ensures commandList.allocator == old(commandList.allocator)
      ensures commandList.commands == old(commandList.commands)
    {
      commandList.Close();
    }

    /** ExecuteCommandLists on the closed list: the GPU now reads the list's
        allocator, with no signal after it yet. */
    method SubmitList()
      requires Valid() && !commandList.isOpen
      modifies this
      ensures Valid() && blockingWaits == old(blockingWaits)
      ensures executed == old(executed) + [commandList.commands]
      ensures allocatorUse == old(allocatorUse)[commandList.allocator := Unguarded]
    {
      executed := executed + [commandList.commands];
      allocatorUse := allocatorUse[commandList.allocator := Unguarded];
    }

    /**
     * Returns at once when slot i's fence has reached the slot's value;
     * otherwise blocks until it does.
     */
    method WaitForPreviousFrame(i: nat) returns (status: Status)
      requires Valid()
      modifies this, Fences()
      ensures Valid() && allocatorUse == old(allocatorUse) && executed == old(executed)
      ensures status == (if i < FrameBufferCount then Ok else OutOfRange)
      ensures status == Ok ==>
        && Slot(i).value == old(Slot(i).value)
        && old(Slot(i).completed) <= Slot(i).completed
        && Slot(i).completed >= Slot(i).value
        && (old(Slot(i).completed) >= old(Slot(i).value) ==> Slot(i) == old(Slot(i)))
        && blockingWaits
           == old(blockingWaits) + (if old(Slot(i).completed) < old(Slot(i).value) then 1 else 0)
      ensures status == OutOfRange ==> blockingWaits == old(blockingWaits)
      ensures forall k :: 0 <= k < FrameBufferCount && k != i ==> Slot(k) == old(Slot(k))
    {
      if i >= fences.Length {
        return OutOfRange;
      }
      status := Ok;
      var fence := fences[i].fence;
      var signalValue := fences[i].value;
      if fence.completed >= signalValue {
        return;
      }
      SignalValuesIncreasing(signalValue);
      fence.WaitOnCompletion(signalValue);
      blockingWaits := blockingWaits + 1;
    }

    /** Raises slot i's value by one and asks the queue to signal that value
        on slot i's fence, which then guards slot i's allocator. */
    method SetFrameCompleteSignal(i: nat) returns (status: Status)
      requires Valid()
      modifies this, fences, Fences()
      ensures Valid() && executed == old(executed) && blockingWaits == old(blockingWaits)
      ensures status == (if i < FrameBufferCount then Ok else OutOfRange)
      ensures status == Ok ==>
        && Slot(i) == SlotView(old(Slot(i).value) + 1, old(Slot(i).completed))
        && fenceObjects[i].signals == old(fenceObjects[i].signals) + [Slot(i).value]
        && allocatorUse == old(allocatorUse)[i := Guarded(Slot(i).value)]
      ensures status == OutOfRange ==> allocatorUse == old(allocatorUse)
      ensures forall k :: 0 <= k < FrameBufferCount && k != i ==> Slot(k) == old(Slot(k))
    {
      if i >= fences.Length {
        return OutOfRange;
      }
      var frameFence := fences[i];
      var signalValue := frameFence.value + 1;
      fences[i] := frameFence.(value := signalValue);
      SignalValuesIncreasing(frameFence.value);
      SignalValuesNext(frameFence.value);
      frameFence.fence.Signal(signalValue);
      allocatorUse := allocatorUse[i := Guarded(signalValue)];
      status := Ok;
    }

    /** The GPU finishing slot k's work up to `v`. */
    method GpuAdvance(k: nat, v: nat)
      requires Valid() && k < FrameBufferCount
      requires Slot(k).completed <= v <= Slot(k).value
      modifies Fences()
      ensures Valid() && Slot(k) == SlotView(old(Slot(k).value), v)
      ensures forall j :: 0 <= j < FrameBufferCount && j != k ==> Slot(j) == old(Slot(j))
    {
      SignalValuesIncreasing(fences[k].value);
      fences[k].fence.GpuAdvance(v);
    }
  }
}
