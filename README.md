# lava: the resource lifecycle of a headless Vulkan compute harness

lava is a small C++ harness. It initialises Vulkan through vk-bootstrap and VMA, builds a
compute pipeline for a vector-add kernel, dispatches it over 1024 floats, reads the result back
and checks it. Its companion example writes 0..1023 into a mapped buffer, reads them back and
compares them. Nearly every line of the harness calls a foreign library. This model captures
the protocol around those calls, which is:

- which objects are created, in which order, and with what arguments;
- where each sequence stops when a call fails, and with what message;
- which handles each path leaves live, and what each exit path releases, in order;
- the uint32 work-group arithmetic;
- the check loops and the round trip through mapped memory.

Modules, one per source file:

- `Ledger` (`ledger.dfy`): the foreign libraries as a recording `Driver` class. Its state is:
  - `live`: the handles owned and not yet released;
  - `next`: the next fresh handle; 0 is the null sentinel;
  - `attempts`: the number of fallible calls so far;
  - `log`: every call, in order;
  - `mem`: the mapped memory, one `real` per float.

  A fault schedule `faults` says which fallible call fails and with which library message. Each
  driver method is tied to a pure step function on a `World` value.
- `LvInit` (`lvinit.dfy`): the records `VulkanContext`, `Buffer` and `ComputePipeline` as
  classes, with `init_vulkan` and `create_shader_module`.
- `LvCleanup` (`lvcleanup.dfy`): `destroy_buffer` and `cleanup_vulkan`.
- `LvRun` (`lvrun.dfy`): `setup_compute`, with its two array-filling loops, and
  `record_and_submit_compute`, with the group count.
- `Example` (`example.dfy`): `create_host_visible_buffer` and the transfer example's `main`.
- `MainProgram` (`main.dfy`): the vector-add `main`.

Each imperative operation is a method. Its `ensures` ties the new state, and every field it
writes, to a pure function of the old state (`InitSteps`, `SetupSteps`, `DispatchSteps`,
`MakeBuffer`, `ReleaseBuffer`, `CleanupSteps`, `ExampleSteps`, `MainSteps`). Lemmas then prove
what the source promises about those functions: order, stopping at the first failure, messages,
leaks, teardown order, balance and exit codes.

## Model

| member | source | states |
|---|---|---|
| LvInit.InitVulkan | src/lvinit.cpp:5-45 | The result and the new ledger are InitSteps of the old ones. Each ctx field (instance, physical device, device with its compute family, allocator) is written only when its own step succeeded, and is otherwise left as it was. Mapped memory is untouched. |
| LvInit.InitStopsAtFirstFailure | src/lvinit.cpp:10-44 | The steps that succeed are the first ones up to the first scheduled failure. The result is success exactly when all four succeed. The message is the library's text for the first three steps and the fixed allocator text for the fourth. One fallible call is attempted per step reached. |
| LvInit.InitLog | src/lvinit.cpp:10-42 | The calls made are the creations of InitInfos, up to and including the first that fails. The infos are: headless instance with validation layers, physical device of version 1.1 or later with a dedicated transfer queue, device, allocator. |
| LvInit.InitOrder | src/lvinit.cpp:10-42 | The creations attempted are the first k+1 InitInfos in order, or all four. |
| LvInit.InitHandles | src/lvinit.cpp:13-42 | The handles from successful steps stay live after a later failure. The physical device is never owned. Fresh ledgers stay fresh. |
| LvInit.InitReleasesNothing | src/lvinit.cpp:5-45 | init_vulkan releases nothing, whichever step fails. |
| LvInit.LoadShaderEffect | src/lvinit.cpp:51-74 | A missing file gives "Failed to open shader file", no call and no module. Otherwise there is exactly one creation with codeSize equal to the file length and the file's bytes. It fails exactly when scheduled, with "Failed to create shader module". On success a fresh live module is made. Nothing is released. |
| LvInit.CreateShaderModule | src/lvinit.cpp:47-75 | The result, the module handle and the new ledger are LoadShader of the old ledger. |
| LvCleanup.ReleaseBufferOnce | src/lvcleanup.cpp:3-10 | A non-null buffer is released exactly once with its own allocation. Afterwards the buffer handle is null and the mapping is null. A null buffer makes no call and changes nothing. The allocation and the size never change. |
| LvCleanup.ReleaseBufferIdempotent | src/lvcleanup.cpp:5-9 | A second destroy_buffer is a no-op. |
| LvCleanup.DestroyBuffer | src/lvcleanup.cpp:3-10 | The buffer's fields and the ledger become ReleaseBuffer of the old ones. The allocation's mapping disappears when the buffer was non-null. |
| LvCleanup.CleanupVulkanOrder | src/lvcleanup.cpp:12-17 | The allocator, then the device, then the instance are released, and nothing else. Afterwards the context is no longer live, so a second call is excluded by CleanupVulkan's precondition. |
| LvCleanup.CleanupVulkan | src/lvcleanup.cpp:12-17 | The new ledger is CleanupSteps of the old one. It requires the three handles to be distinct and live. |
| LvRun.GroupCountX | src/lvrun.cpp:158 | In uint32 arithmetic: when n <= 2^32-256, g is the ceiling of n/256, that is (g-1)*256 < n <= g*256. Above that the sum wraps and g is 0. |
| LvRun.GroupCountExamples | src/lvrun.cpp:158 | 0 gives 0, 1 gives 1, 256 gives 1, 257 gives 2 and 1024 (main's count) gives 4. 2^32-256 gives 2^24-1. 2^32-255 wraps to 0. |
| LvRun.DispatchRecorded | src/lvrun.cpp:158-159 | Once the command buffer has begun, the fourth call is vkCmdDispatch(GroupCountX(n), 1, 1). |
| LvRun.MakeLayoutBindings | src/lvrun.cpp:8-14 | The array the first loop fills equals LayoutBindings(). |
| LvRun.LayoutBindingsShape | src/lvrun.cpp:8-19 | There are three bindings; binding i has number i and is one storage-buffer descriptor at the compute stage. |
| LvRun.MakeDescriptorWrites | src/lvrun.cpp:94-107 | The array the second loop fills equals DescriptorWrites(set, a, b, result). |
| LvRun.DescriptorWritesShape | src/lvrun.cpp:94-107 | There are three writes; write i targets binding i of the set with one storage-buffer descriptor over the whole of buffer a, b or result. |
| LvRun.DescriptorWritesUses | src/lvrun.cpp:109 | vkUpdateDescriptorSets uses exactly the device, the set and the three buffers. |
| LvRun.PoolFitsLayout | src/lvrun.cpp:64-91 | The pool allows one set and three storage-buffer descriptors, which is exactly the one set of the three-binding layout allocated from it. |
| LvRun.PipelinePhaseStops | src/lvrun.cpp:21-59 | The first half stops at its first failure with that step's message. A missing shader file stops it after the pipeline layout. |
| LvRun.DescriptorPhaseStops | src/lvrun.cpp:74-134 | The second half stops at its first failure with that step's message and succeeds exactly when all four steps do. |
| LvRun.SetupStopsAtFirstFailure | src/lvrun.cpp:21-136 | The created objects are the first ones up to the first scheduled failure. Success holds exactly when all eight are created, and every failure carries its step's message. |
| LvRun.PipelinePhaseLog | src/lvrun.cpp:21-61 | The calls are the first half's creations up to the failing one. The shader module is destroyed right after the pipeline. |
| LvRun.DescriptorPhaseLog | src/lvrun.cpp:74-134 | The calls are the second half's creations up to the failing one. The set is written right after its allocation. |
| LvRun.SetupLog | src/lvrun.cpp:21-136 | The log of setup_compute is SetupCalls: both halves joined. |
| LvRun.SetupOrder | src/lvrun.cpp:21-134 | The creations are attempted in the order layout, pipeline layout, shader module, pipeline, pool, set, command pool, command buffer, and stop at the first failure. |
| LvRun.PipelinePhaseHandles | src/lvrun.cpp:21-61 | The first half keeps every handle it made except the shader module, which is released once the pipeline exists. |
| LvRun.DescriptorPhaseHandles | src/lvrun.cpp:74-134 | The second half keeps every handle it made. |
| LvRun.SetupHandles | src/lvrun.cpp:21-136 | After a failure at step k every earlier handle stays live. The shader module leaks when the pipeline step fails and is otherwise released only after the pipeline exists. |
| LvRun.SetupFresh | src/lvrun.cpp:21-134 | setup_compute keeps the ledger fresh. |
| LvRun.SetupTeardown | src/lvrun.cpp:40-61 | The only release is the shader module's, once the pipeline exists. |
| LvRun.BuildPipeline | src/lvrun.cpp:7-61 | The result and the ledger are PipelinePhase of the old ones. The layout, pipeline layout and pipeline fields are written only when their step succeeded; the other fields are unchanged. |
| LvRun.AllocateDescriptorSet | src/lvrun.cpp:63-109 | The result and the ledger are DescriptorSetPhase of the old ones. The pool and set fields are written only when their step succeeded; the rest are unchanged. |
| LvRun.CreateCommandBuffer | src/lvrun.cpp:111-136 | The result and the ledger are CommandPhase of the old ones, on the device's compute family. The pool and buffer fields are written only when their step succeeded. |
| LvRun.SetupCompute | src/lvrun.cpp:3-137 | The result and the ledger are SetupSteps of the old ones. Field i is written exactly when step i succeeded, so on success all seven fields hold the new objects and the result is {"", true}. Mapped memory is untouched. |
| LvRun.DispatchStopsAtFirstFailure | src/lvrun.cpp:143-180 | The run stops at the first of begin, end, submit and wait that fails, with that call's message, and succeeds exactly when all four do. |
| LvRun.DispatchLog | src/lvrun.cpp:143-180 | The calls are begin, bind pipeline, bind set, dispatch, end, submit, wait, in that order, up to and including the first that fails. Nothing is created or released. |
| LvRun.DispatchTeardown | src/lvrun.cpp:139-181 | record_and_submit_compute releases nothing. |
| LvRun.RecordAndSubmitCompute | src/lvrun.cpp:139-181 | The result and the ledger are DispatchSteps of the old ones on the context's compute queue. No allocation appears, disappears or changes size. A failure at begin, end or submit leaves mapped memory untouched. Once the submit has succeeded, the kernel may have written memory even if the wait fails. |
| Example.MakeBufferEffect | src/example.cpp:67-91 | There is one vmaCreateBuffer call with the request's size and usage, exclusive sharing, CPU_TO_GPU memory and the mapped flag. It fails exactly when scheduled, with "Failed to create buffer", null handles, and the mapping and size left unassigned. On success there is a fresh live buffer and allocation pair, mapped onto the allocation, with the requested size. |
| Example.CreateHostVisibleBuffer | src/example.cpp:67-91 | The result, the buffer's fields and the ledger are MakeBuffer of the old ones. On success the buffer holds its mapped allocation of size/4 floats. |
| Example.MakeTestData | src/example.cpp:121-125 | Element i of the test data is i, for each of the 1024 elements. |
| Example.VerifyTransfer | src/example.cpp:148-157 | Success holds exactly when the data read back equals the data written. Otherwise it reports the first mismatching index. |
| Example.TransferRoundTrip | src/example.cpp:120-166 | After init, exit code and ledger are ExampleAfterInit: the data read back always matches, so the exit code is 0 exactly when the buffer was created. |
| Example.RunExample | src/example.cpp:109-166 | The exit code and the ledger are ExampleSteps of the old ledger, with the application name "My App". |
| Example.AfterInitExit | src/example.cpp:128-166 | After a successful init the example exits with 0 exactly when vmaCreateBuffer succeeds, and with 1 otherwise. |
| Example.ExampleExitCode | src/example.cpp:109-166 | The exit code is 0 exactly when none of the five fallible calls fails, and 1 otherwise. |
| Example.AfterInitTeardown | src/example.cpp:128-165 | After init, a buffer failure releases only the context. Otherwise the buffer is released before the allocator, device and instance. |
| Example.ExampleTeardown | src/example.cpp:109-166 | A failed init releases nothing. A failed buffer releases only the context. The normal path releases the buffer and then the context. |
| Example.AfterInitLive | src/example.cpp:128-165 | After a successful init, every handle the example made is gone. |
| Example.ExampleBalance | src/example.cpp:109-166 | Once init succeeds the example ends with the handles it started with. A failed init leaks what init made. |
| MainProgram.InputA | src/main.cpp:18 | a_data holds 1024 elements, each 1.0. |
| MainProgram.InputB | src/main.cpp:19 | b_data holds 1024 elements, each 2.0. |
| MainProgram.VerifyResults | src/main.cpp:96-105 | Success holds exactly when every element is within 1e-6 of a[i]+b[i]. Otherwise the first index that is not is reported. |
| Ledger.Driver.WriteMapped | src/example.cpp:139-145 | After a memcpy of nbytes into a mapping, a memcpy of the same nbytes back out returns the first nbytes/4 floats of the data written, for any data and size. The rest of that allocation and every other mapping are unchanged, and the ledger is untouched. |
| MainProgram.CopyInputs | src/main.cpp:61-63 | After the two memcpy calls, A's mapped memory holds the 1024 ones and B's the 1024 twos. Nothing else changes. |
| MainProgram.CheckResults | src/main.cpp:91-105 | result_data is what the result buffer's mapping holds. The flag is true exactly when ResultsCorrect holds. |
| MainProgram.MainInit | src/main.cpp:9-14 | Either init_vulkan makes all four of its fallible calls successfully, or it fails before any later call. |
| MainProgram.MainExitCode | src/main.cpp:5-120 | The exit code is 0 or 1. main completes exactly when the shader file opens and none of its 19 fallible calls fails. It exits with 0 exactly when it completes and every result element is within 1e-6 of 3.0. |
| MainProgram.AfterInitExit | src/main.cpp:22-119 | After init, main completes exactly when the file opens and none of the 15 later fallible calls fails. The exit code is 0 exactly when it completes with correct results. |
| MainProgram.ComputeExit | src/main.cpp:65-119 | Once the buffers exist, main ends in setup (fewer than eight objects), in the dispatch, or completed. It completes exactly when the file opens and none of the 12 calls fails. |
| MainProgram.MainTeardown | src/main.cpp:5-120 | The releases are those MainReleases gives for the branch taken. A failed init releases nothing. A failed buffer k releases the k-1 earlier buffers and then the context. A failed setup releases A, B, the result buffer and the context, without cleanup_compute. Otherwise the order is cleanup_compute, A, B, result buffer, context. cleanup_vulkan is always last. |
| MainProgram.AfterInitTeardown | src/main.cpp:22-119 | After init, the releases are those MainReleases gives for the branch taken. |
| MainProgram.ComputeTeardown | src/main.cpp:65-119 | Once the buffers exist, the releases are those ComputeReleases gives for the branch taken. |
| MainProgram.MainBalance | src/main.cpp:5-120 | main leaves live exactly what it found, plus two kinds of leak: init's objects when init fails part-way, and setup_compute's partial objects when setup fails. Every path past setup releases everything it made. |
| MainProgram.AfterInitLive | src/main.cpp:22-119 | After init, main leaves live what was there before init, plus setup_compute's objects when setup failed. |
| MainProgram.ComputeLive | src/main.cpp:65-119 | Once the buffers exist, main removes the buffers and the context from the live set, and leaves the partial setup objects when setup fails. |
| MainProgram.RunMain | src/main.cpp:5-120 | The exit code and the ledger are MainSteps of the old ledger, on the device's compute family, the shader file and the data read back. result_data holds 1024 floats. |
| MainProgram.AddVectors | src/main.cpp:22-119 | After a successful init, the exit code and the ledger are MainAfterInit. |
| MainProgram.AfterBufferA | src/main.cpp:36-119 | Once buffer A exists, the exit code and the ledger are MainAfterInit. |
| MainProgram.AfterBufferB | src/main.cpp:48-119 | Once A and B exist, the exit code and the ledger are MainAfterInit. |
| MainProgram.ResultBufferFailed | src/main.cpp:52-58 | When the result buffer fails, A and B are released and then the context, the exit code is 1, and the outcome is MainAfterInit's. |
| MainProgram.ComputeOnBuffers | src/main.cpp:61-119 | Once all three buffers exist, the exit code and the ledger are MainAfterInit. |
| MainProgram.ComputeAndRelease | src/main.cpp:61-119 | From the memcpy calls on, the exit code and the ledger are MainCompute on the three buffers. |
| MainProgram.SetupAndRun | src/main.cpp:66-119 | From setup_compute on, the exit code and the ledger are MainCompute. |
| MainProgram.SetupAt | src/main.cpp:66-67 | The result and the ledger are SetupSteps on the three buffers. On success the pipeline holds the objects made from the next handle on. |
| MainProgram.AfterSetupCompute | src/main.cpp:68-119 | After setup_compute, the exit code and the ledger are AfterSetup of its outcome. |
| MainProgram.SetupFailedRelease | src/main.cpp:68-76 | After a failed setup_compute, the three buffers and the context are released with exit code 1. |
| MainProgram.DispatchAndRelease | src/main.cpp:79-119 | After a successful setup, the exit code and the ledger are those of the dispatch followed by AfterDispatchSteps. |
| MainProgram.SubmitAt | src/main.cpp:79 | record_and_submit_compute with 1024 elements on the objects setup_compute made. Its outcome is DispatchSteps. |
| MainProgram.AfterDispatch | src/main.cpp:80-119 | After the dispatch, the exit code and the ledger are AfterDispatchSteps: 1 on a failed dispatch, otherwise the check's verdict. Every path releases cleanup_compute, A, B, the result buffer and then the context. |
| MainProgram.ReleaseComputeBuffersAndContext | src/main.cpp:113-117 | Releases cleanup_compute, A, B, the result buffer and then the context. |
| MainProgram.ReleaseBuffersAndContext | src/main.cpp:71-74 | Releases A, B, the result buffer and then the context. |

## Left out

- Vulkan, VMA and vk-bootstrap internals: each call is an opaque success or failure decided by a fault schedule. A creating call yields the next fresh handle. What the drivers do with the objects is not modelled.
- The kernel `add.comp.spv`: vkQueueWaitIdle, whether it succeeds or fails, leaves every mapped allocation with unspecified contents of the same size, because the submitted work may already have run. The floats main reads back are an input of `MainSteps`.
- Floating point: floats are `real`. NaN, rounding and `std::abs` on floats are not modelled. The tolerance check compares reals against 1e-6.
- `cleanup_compute` is declared but not defined in the sources, so it is one call that releases the pipeline's seven handles together, with no internal order.
- File I/O in `create_shader_module`: the opened file's contents are an `Option<seq<bv8>>` parameter, None when the file cannot be opened. The path `../build/shaders/add.comp.spv` is not modelled.
- `get_queue_index(...).value()` and `get_queue(...).value()`: these are the precondition `ctx.computeFamily.Some?`. The driver's compute family is a constant of the `Driver`. The exception thrown when the device has no compute queue is not modelled.
- Console output on `std::cerr` and `std::cout` is not modelled, nor are validation layers or the instance's headless flag beyond being recorded in the create info.
- A failed `setup_compute` is modelled as the code has it: `src/lvrun.cpp` returns without releasing the objects it made and `main` does not call `cleanup_compute` on that path. They stay live, as `MainProgram.MainBalance` and `LvRun.SetupHandles` state.
- A foreign call that fails is modelled as writing nothing to its output handles, so the fields it would have set keep their earlier values. The exception is vmaCreateBuffer, which on failure writes null to both the buffer and the allocation handle while the mapping and the size stay as they were (`Example.MakeBufferEffect`).
- MainProgram.RunMain: on paths that return before the read back, `result_data` is reported as 1024 zeros, as the source's value-initialised vector is. The exit code on those paths does not depend on it.
- The branches of `main` in both programs are split over several methods (AddVectors, AfterBufferA, AfterBufferB and the rest). Together they make exactly the calls of the one C++ function, in the same order.
- Handle and count widths: handles are unbounded naturals. Only the group count uses explicit uint32 wrap-around.
- `archives/init.cpp` is not part of this model. The headers contribute only the record layouts.
