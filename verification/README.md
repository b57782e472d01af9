# GPU synchronization bookkeeping of DirectX12_Lessons

This project is a Dafny model of the CPU-side bookkeeping that keeps the two
Direct3D 12 renderers of DirectX12_Lessons from handing the GPU memory that
it is still reading. It proves properties of that model. It covers:

- **gpu_resource**: a native resource plus the state its last recorded
  barrier left it in. `transition_to` records the barrier from that state to
  the requested one.
- **cmd_queue**: the Draw Cube queue. Each frame slot has a command
  allocator, a fence and the value last signalled on that fence. All slots
  share one command list. A slot's allocator is reset only after waiting for
  the slot's last value. The destructor drains every slot.
- **Basic Window renderer**: one fence and one monotonic counter for all
  frames, and one stored fence value per back buffer. A frame goes: reset the
  active allocator, barrier, clear, barrier, close and execute, present,
  signal, advance, wait for the new buffer's stored value.
- **Draw Cube renderer**: the same frame built on `cmd_queue` and on
  `gpu_resource`-wrapped back buffers and depth buffer.
- **Adapter choice and present flags**: the adapter fold and the
  `present_flags` rule, which both renderers carry in identical form.
- **game_clock**: `tick` and `reset`.

The GPU and the driver are represented by abstract collaborators in module
`Gpu`:

- A `Fence` has a completed value and a log of the values it was asked to
  signal. Its completed value rises only through `GpuAdvance` or a wait, and
  never past the last signal.
- A `CommandList` is open or closed, is bound to an allocator slot, and holds
  the commands recorded since its last reset.

Hazards are preconditions:

- An allocator may be reset only when it is guarded by a signal the fence has
  reached (ghost `allocatorUse`).
- Only a closed list may be reset, and only an open one recorded into or
  closed.
- A barrier must start from the state the GPU will really see (ghost
  `actualState` of `GpuResource`).

Two behaviours of the code worth stating:

- The destructor of `cmd_queue` signals every slot once more and waits for
  each of those values, even when the slots are already idle
  (`CmdQueues.CmdQueue.Drain`). In this model the GPU makes no progress
  between a signal and the check that follows it, so every one of those
  waits takes the blocking path.
- The Draw Cube `directx12.cpp` calls `get_command_list(index)` and
  `set_command_list_barrier(barrier)`. The `cmd_queue.h` of the same revision
  declares `get_command_list(index, barrier)` and
  `execute_command_list(index, barrier)`. The model computes the barrier
  first and then calls the two-argument form. The commands recorded are the
  same, in the same order.

## Model

| member | source | states |
|---|---|---|
| Gpu.SignalValuesNext | src/L2.Draw_Cube/cmd_queue.cpp:181-184 | one more pre-increment-then-signal after the values 1..n issues exactly n+1, so n signals issue 1..n |
| Gpu.SignalValuesIncreasing | src/L1.Basic_Window/directx12.cpp:150-157 | the signalled values 1..n strictly increase and the last is n, the counter's value |
| Gpu.Fence.WaitOnCompletion | src/L2.Draw_Cube/cmd_queue.cpp:171-174 | an infinite wait on a signalled value returns only once the fence has reached it, leaving the signal log alone |
| Gpu.CommandList.constructor | src/L2.Draw_Cube/cmd_queue.cpp:101-106 | a created command list is open on the given allocator and empty |
| GpuResources.MapToResourceState | src/L2.Draw_Cube/gpu_resource.cpp:13-24 | each requested state maps to a native state that maps back to it, so the mapping loses nothing |
| GpuResources.MapToResourceStateInjective | src/L2.Draw_Cube/gpu_resource.cpp:13-24 | distinct requested states (present, render_target, copy_dest) map to distinct native states, and equal ones to equal ones |
| GpuResources.TransitionBarriersChain | src/L2.Draw_Cube/gpu_resource.cpp:35-45 | successive legal transition_to calls record one barrier each, for the wrapped resource only, each leaving the state the previous one entered, none a no-op, the last entering the tracked state |
| GpuResources.PresentRenderTargetRoundTrip | src/L2.Draw_Cube/gpu_resource.cpp:35-45 | present, then render_target, then present gives exactly two mirrored barriers and ends in present |
| GpuResources.RepeatedTargetIllegal | src/L2.Draw_Cube/gpu_resource.cpp:40 | asking twice in a row for the same state always violates the assertion |
| GpuResources.GpuResource.constructor | src/L2.Draw_Cube/gpu_resource.cpp:27-31 | the tracked state is the mapped initial state and the handle is the one passed in |
| GpuResources.GpuResource.TransitionTo | src/L2.Draw_Cube/gpu_resource.cpp:35-45 | needs a target other than the tracked state; the barrier goes from the old tracked state to the mapped target, the tracked state becomes the target, and the handle is untouched |
| CmdQueues.MapToCmdListType | src/L2.Draw_Cube/cmd_queue.cpp:11-28 | each queue kind maps to a command-list type that maps back to it |
| CmdQueues.CreateFences | src/L2.Draw_Cube/cmd_queue.cpp:112-128 | one distinct fresh fence per slot, created at 0 with nothing signalled, and each slot's value 0 |
| CmdQueues.CmdQueue.constructor | src/L2.Draw_Cube/cmd_queue.cpp:31-39 | after construction every slot's value and completed value are 0, the list is closed and empty, and every allocator is guarded |
| CmdQueues.CmdQueue.Drain | src/L2.Draw_Cube/cmd_queue.cpp:41-50 | every slot, idle or not, is signalled once more: its value goes up by exactly one, its fence reaches that value, and every allocator ends idle; in this model every slot's wait takes the blocking path |
| CmdQueues.CmdQueue.FinalSignalAndWait | src/L2.Draw_Cube/cmd_queue.cpp:45-46 | one destructor iteration: slot i's value goes up by one, its fence reaches that value, its allocator is guarded by it, the wait takes the blocking path in this model, and the other slots and the list are unchanged |
| CmdQueues.CmdQueue.GetCommandList | src/L2.Draw_Cube/cmd_queue.cpp:52-61 | waits until the slot's fence reaches its value (blocking only if not yet reached, changing nothing when it already has; completed never falls), then reopens the list on that slot's allocator holding just the barrier; an index of 2 or more changes nothing and reports out_of_range |
| CmdQueues.CmdQueue.ExecuteCommandList | src/L2.Draw_Cube/cmd_queue.cpp:63-72 | appends the barrier, closes, submits exactly the closed list, then raises and signals the same slot; with a bad index the list is still submitted, its allocator is left unguarded, and out_of_range is reported |
| CmdQueues.CmdQueue.OpenCommandList | src/L2.Draw_Cube/cmd_queue.cpp:139-144 | needs the slot's allocator idle and the list closed; reopens the empty list on that slot, or reports out_of_range |
| CmdQueues.CmdQueue.CloseCommandList | src/L2.Draw_Cube/cmd_queue.cpp:146-150 | needs an open list; closes it keeping its commands and allocator |
| CmdQueues.CmdQueue.SubmitList | src/L2.Draw_Cube/cmd_queue.cpp:152-160 | needs a closed list; appends it to what the queue executes and marks its allocator as read by the GPU with no signal yet |
| CmdQueues.CmdQueue.WaitForPreviousFrame | src/L2.Draw_Cube/cmd_queue.cpp:162-175 | returns at once when completed is at least the slot value; otherwise blocks until it is; afterwards completed is at least the slot value and the other slots are unchanged |
| CmdQueues.CmdQueue.SetFrameCompleteSignal | src/L2.Draw_Cube/cmd_queue.cpp:177-186 | raises slot i's value by exactly one, signals that value on slot i's fence, guards slot i's allocator with it, and leaves the other slots unchanged; out_of_range for a bad index |
| DeviceSetup.CandidatesFrom | src/L1.Basic_Window/directx12.cpp:100-103 | the candidates are exactly the enumerated indices that are neither software adapters nor unable to create a device, in increasing order |
| DeviceSetup.AccumulateFindsFirstMaximum | src/L1.Basic_Window/directx12.cpp:105-125 | what the std::accumulate fold computes: its maximum never falls and covers every folded adapter; an accumulator whose maximum did not grow comes back unchanged, otherwise the result is the first folded index holding that maximum |
| DeviceSetup.IndexWithMostMemory | src/L1.Basic_Window/directx12.cpp:105-121 | one step of the fold: the running maximum never falls and covers this adapter's memory; the accumulator changes only to this index with its memory as the new maximum, and is kept when the maximum did not grow |
| DeviceSetup.SelectAdapterChoosesFirstLargest | src/L2.Draw_Cube/directx12.cpp:130-155 | the adapter the device is created on is the first candidate with the most dedicated memory, or index 0 when no candidate has any; both renderers share this fold (also src/L1.Basic_Window/directx12.cpp:99-125) |
| DeviceSetup.PresentFlags | src/L1.Basic_Window/directx12.cpp:185 | the flags are ALLOW_TEARING exactly when tearing is allowed and vsync is off, and 0 otherwise; with vsync_enabled on, as both renderers are configured, they are always 0 (also src/L2.Draw_Cube/directx12.cpp:193) |
| BasicWindow.ToDword | src/L1.Basic_Window/directx12.cpp:169 | the DWORD timeout is the 32-bit value congruent to the millisecond count |
| BasicWindow.MaxDurationWaitsForever | src/L1.Basic_Window/directx12.cpp:169 | milliseconds::max() narrowed to a DWORD is exactly INFINITE |
| BasicWindow.SignalFence | src/L1.Basic_Window/directx12.cpp:150-157 | pre-increments the counter, returns the new value, and signals exactly that value |
| BasicWindow.WaitForFenceValue | src/L1.Basic_Window/directx12.cpp:159-170 | returns at once when completed is at least the value; with an INFINITE timeout it returns only once the value is reached |
| BasicWindow.Renderer.constructor | src/L1.Basic_Window/directx12.cpp:173-199 | selects the adapter, sets present flags to 0, creates a closed list and a fence at 0, with every frame value and the counter at 0 and all buffers presentable |
| BasicWindow.Renderer.RenderFrame | src/L1.Basic_Window/main.cpp:30-37 | one clear-and-present submits exactly [present to render target, clear, render target to present] for the active buffer, stores the next counter value for it while keeping the other buffer's stored value, never lowers the fence's completed value, and ends idle on the swap chain's next buffer |
| BasicWindow.Renderer.Clear | src/L1.Basic_Window/directx12.cpp:214-228 | reopens the list on the active allocator, which the GPU is done with, and records the barrier to render target and the clear |
| BasicWindow.Renderer.Present | src/L1.Basic_Window/directx12.cpp:230-240 | records the barrier back to present, submits the list, signals once, stores the new value for the active buffer only, never lowers the completed value, and ends idle on the next buffer with the GPU done with that buffer's last frame |
| BasicWindow.Renderer.OpenCommandList | src/L1.Basic_Window/directx12.cpp:402-407 | needs a closed list and the active allocator guarded by a reached value; reopens the empty list on it |
| BasicWindow.Renderer.SetBufferToRender | src/L1.Basic_Window/directx12.cpp:422-431 | needs the active buffer presentable; records the present-to-render-target barrier for it |
| BasicWindow.Renderer.SetBufferToPresent | src/L1.Basic_Window/directx12.cpp:433-442 | needs the active buffer a render target; records the render-target-to-present barrier for it |
| BasicWindow.Renderer.CloseExecuteCommandList | src/L1.Basic_Window/directx12.cpp:409-420 | closes the open list and submits exactly it; its allocator is then in use with no signal yet |
| BasicWindow.Renderer.NextFenceAndBuffer | src/L1.Basic_Window/directx12.cpp:444-456 | stores the fresh signal value at the old active index, then switches index and waits until the new index's stored value is reached; every stored value stays at most the counter |
| BasicWindow.Renderer.Destroy | src/L1.Basic_Window/directx12.cpp:201-212 | one extra signal, waited for with no timeout, leaves the fence at the counter, above every frame value |
| DrawCubeRenderer.CreateBackBuffers | src/L2.Draw_Cube/directx12.cpp:314-336 | each swap-chain image, in order, is wrapped in its own tracker with tracked state present |
| DrawCubeRenderer.CreateDepthStencilBufferAsWritten | src/L2.Draw_Cube/directx12.cpp:338-372 | the depth buffer is created in DEPTH_WRITE but tracked as present, so its tracker is wrong from the start |
| DrawCubeRenderer.DepthStencilAsWrittenBarrierMismatch | src/L2.Draw_Cube/directx12.cpp:371 | any transition the as-written depth buffer is asked for records a barrier that starts from present, not from DEPTH_WRITE |
| DrawCubeRenderer.CreateDepthStencilBuffer | src/L2.Draw_Cube/directx12.cpp:338-372 | corrected: the depth buffer is tracked as DEPTH_WRITE, the state it is created in |
| DrawCubeRenderer.Renderer.constructor | src/L2.Draw_Cube/directx12.cpp:181-205 | selects the adapter, present flags 0, a direct queue with every slot at 0, presentable back buffers over the swap-chain images, and the swap chain's current index; the depth buffer comes from the corrected `CreateDepthStencilBuffer` (see Left out) |
| DrawCubeRenderer.Renderer.GetClearedCmdList | src/L2.Draw_Cube/directx12.cpp:209-220 | waits for the active slot's previous frame, reopens the list on its allocator, and records the active buffer's present-to-render-target barrier and the two clears; the slot's completed value never falls |
| DrawCubeRenderer.Renderer.ExecuteActive | src/L2.Draw_Cube/directx12.cpp:224-227 | the active buffer's barrier back to present ends the recorded list, which is submitted; the same slot's value rises by one, the other slots and the depth buffer are unchanged, and the renderer is idle again |
| DrawCubeRenderer.Renderer.Present | src/L2.Draw_Cube/directx12.cpp:222-233 | records the same buffer's barrier back to present, executes and signals the same slot, and only then takes the swap chain's index; other slots are unchanged |
| DrawCubeRenderer.Renderer.Frame | src/L2.Draw_Cube/draw_cube.cpp:152-157 | one render submits the active buffer's two round-trip barriers around the clears, raises that slot's value by one after its completed value has reached the slot's previous value (and never fell), leaves every buffer presentable, and records nothing for the depth buffer |
| DrawCubeRenderer.Renderer.Destroy | src/L2.Draw_Cube/directx12.h:62 | the queue is drained before the buffers it used are released: every allocator is idle and the buffers are untouched |
| GameClocks.DeltasTelescope | src/common/clock.cpp:17-23 | the frame durations telescope: their sum is the last reading minus the starting one |
| GameClocks.DeltasNonNegative | src/common/clock.cpp:19-21 | if readings never go backwards, every delta is non-negative and the last reading is at least the start |
| GameClocks.GameClock.constructor | src/common/clock.cpp:10-13 | the previous time point is the reading and delta and total start at zero |
| GameClocks.GameClock.Tick | src/common/clock.cpp:17-23 | delta is the reading minus the previous one, the total grows by it, and the reading becomes the previous one; the total always equals the time since the start, and both are non-negative when time is monotone |
| GameClocks.GameClock.Reset | src/common/clock.cpp:25-30 | the reading becomes the new start and delta and total are zero |

## Left out

- Window creation, the message loop, and device, swap-chain, descriptor-heap and view creation: foreign Win32, D3D12 and DXGI calls. An HRESULT assertion failure is treated as a precondition violation.
- The OS event object. `SetEventOnCompletion` and `WaitForSingleObject` are reduced to `Fence.WaitOnCompletion`. The GPU's own progress is the single step `Fence.GpuAdvance`; concurrency is not modelled.
- BasicWindow.WaitForFenceValue: a finite timeout is taken to expire before the GPU progresses. The model does not say how long a finite wait lasts, because the source never passes a finite one.
- BasicWindow.SignalFence: the 64-bit counter is unbounded here. Wrap-around after 2^64 signals is not modelled.
- CmdQueues.CmdQueue.SetFrameCompleteSignal: the 64-bit slot value is unbounded here, for the same reason.
- CmdQueues.CmdQueue.GetCommandList: the slot index is an unbounded number. The source's `uint8_t` parameter would wrap an index of 256 or more to a small one; no caller passes such an index.
- GameClocks.GameClock.Tick: tick counts are unbounded integers. Overflow of the 64-bit duration is not modelled.
- The swap chain's `IDXGISwapChain::Present` call (src/L1.Basic_Window/directx12.cpp:236, src/L2.Draw_Cube/directx12.cpp:229) is not modelled. Only its effect on the active buffer is: `GetCurrentBackBufferIndex` afterwards is a parameter `next`, assumed below the buffer count, which the swap chain guarantees.
- DrawCubeRenderer.Renderer.constructor: the renderer is built on the corrected depth-buffer tracker (`CreateDepthStencilBuffer`, tracked as DEPTH_WRITE), not on the as-written one of src/L2.Draw_Cube/directx12.cpp:204 and :371, which tracks it as present. The corrected tracker needs a `DepthWrite` requested state that the source's `resource_state` enum (src/L2.Draw_Cube/gpu_resource.h:9-14) does not have. The as-written tracker is modelled separately (`CreateDepthStencilBufferAsWritten`); since no code path transitions the depth buffer, the frame protocol is the same either way.
- CmdQueues.CmdQueue.Drain: the blocking count holds only in this model, where the GPU does not progress between a signal and the check after it. On real hardware an idle queue may reach the value first, and the wait then returns at once.
- Command allocators are represented only by their guard (`allocatorUse`). Descriptor handles and the clear colour are reduced to the index of the cleared buffer.
- The `game_clock::get_*` getters (src/common/clock.cpp:32-78): floating-point unit conversions.
- src/L2.Draw_Cube/draw_cube.cpp: pipeline, root signature, shader loading and geometry upload. Only its `render` call sequence is modelled (`DrawCubeRenderer.Renderer.Frame`).
- COM reference counting and `winrt::com_ptr` lifetimes. Destruction order appears only as the two `Destroy` methods.

## Findings

| source | as written | input that shows it | evidently intended | confidence | as-written member | corrected member |
|---|---|---|---|---|---|---|
| src/L2.Draw_Cube/directx12.cpp:371 | the depth buffer, created in DEPTH_WRITE (line 355), is wrapped with tracked state present | a `transition_to(render_target)` on the depth buffer records PRESENT to RENDER_TARGET while the resource is in DEPTH_WRITE | track it as DEPTH_WRITE, the state it is created in | not executed; latent, because this revision records no barrier for the depth buffer | DrawCubeRenderer.CreateDepthStencilBufferAsWritten | DrawCubeRenderer.CreateDepthStencilBuffer |
