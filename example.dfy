/** The transfer example: creating a host-visible buffer (create_host_visible_buffer, which the
    vector-add program uses too) and a program that writes 0 to 1023 into a mapped buffer, reads
    them back and compares. */
module Example {
  import opened Ledger
  import opened LvInit
  import opened LvCleanup

  const BufferFailure: string := "Failed to create buffer"

  /** The number of floats each program moves. */
  const DataSize: nat := 1024

  /** The application name the example gives vk-bootstrap. */
  const ExampleAppName: string := "My App"

  /** The vmaCreateBuffer request of create_host_visible_buffer: exclusive sharing, CPU_TO_GPU
      memory, persistently mapped. */
  function HostVisibleRequest(allocator: Handle, size: nat, usage: BufferUsage): BufferRequest
  {
    BufferRequest(allocator, size, usage, Exclusive, CpuToGpu, true)
  }

  /** What create_host_visible_buffer returns, the buffer's fields and the world after it. */
  datatype BufferOutcome = BufferOutcome(result: VulkanError, fields: BufferFields, world: World)

  /** create_host_visible_buffer: vmaCreateBuffer writes the buffer and allocation handles (null
      when it fails); the mapping and the size are set only when it succeeds. */
  function MakeBuffer(faults: map<nat, string>, w: World, allocator: Handle, f: BufferFields,
                      size: nat, usage: BufferUsage): BufferOutcome
  {
    var s := BufferCreateStep(faults, w, HostVisibleRequest(allocator, size, usage));
    var handles := f.(buffer := s.buffer, allocation := s.allocation);
    if !s.ok then BufferOutcome(VulkanError(BufferFailure, false), handles, s.world)
    else BufferOutcome(VulkanError("", true), handles.(mappedData := MappedPtr(s.allocation), size := size), s.world)
  }

  /** One vmaCreateBuffer call with the host-visible request.  It fails exactly when the fault
      schedule names it, with a fixed message, leaving the mapping and the size as they were and
      taking no handle.  On success the buffer holds a fresh buffer and allocation pair, is mapped
      onto that allocation and has the requested size. */
  lemma MakeBufferEffect(faults: map<nat, string>, w: World, allocator: Handle, f: BufferFields,
                         size: nat, usage: BufferUsage)
    requires Fresh(w)
    ensures var o := MakeBuffer(faults, w, allocator, f, size, usage);
            && (o.result.success <==> w.attempts !in faults)
            && o.world.log == w.log + [BufferCreated(HostVisibleRequest(allocator, size, usage), o.result.success,
                                                     o.fields.buffer, o.fields.allocation)]
            && o.world.attempts == w.attempts + 1
            && Teardown(o.world.log) == Teardown(w.log)
            && Fresh(o.world)
            && (!o.result.success ==>
                  && o.result.message == BufferFailure
                  && o.fields == f.(buffer := NullHandle, allocation := NullHandle)
                  && o.world.live == w.live && o.world.next == w.next)
            && (o.result.success ==>
                  && o.fields.size == size && o.fields.mappedData == MappedPtr(o.fields.allocation)
                  && o.fields.buffer == w.next && o.fields.allocation == w.next + 1
                  && o.fields.buffer != NullHandle && o.fields.buffer !in w.live && o.fields.allocation !in w.live
                  && o.world.live == w.live + {o.fields.buffer, o.fields.allocation}
                  && o.world.next == w.next + 2)
  {
    var request := HostVisibleRequest(allocator, size, usage);
    var s := BufferCreateStep(faults, w, request);
    RecordTeardown(if s.ok then World(w.live + {w.next, w.next + 1}, w.next + 2, w.attempts + 1, w.log)
                   else w.(attempts := w.attempts + 1),
                   BufferCreated(request, s.ok, s.buffer, s.allocation));
  }

  method CreateHostVisibleBuffer(drv: Driver, ctx: VulkanContext, buffer: Buffer, size: nat, usage: BufferUsage)
    returns (r: VulkanError)
    requires Fresh(drv.St()) && ctx.allocator in drv.live
    modifies drv, buffer
    ensures var o := MakeBuffer(drv.faults, old(drv.St()), ctx.allocator, old(buffer.Fields()), size, usage);
            r == o.result && buffer.Fields() == o.fields && drv.St() == o.world
    ensures r.success ==> Holds(buffer.Fields(), drv)
                          && drv.mem == old(drv.mem)[buffer.allocation := drv.mem[buffer.allocation]]
    ensures !r.success ==> drv.mem == old(drv.mem)
  {
    var ok, b, a := drv.CreateBuffer(HostVisibleRequest(ctx.allocator, size, usage));
    buffer.buffer, buffer.allocation := b, a;
    if !ok {
      return VulkanError(BufferFailure, false);
    }
    buffer.mappedData := MappedPtr(a);
    buffer.size := size;
    return VulkanError("", true);
  }

  /** The data the example writes: element i is i. */
  method MakeTestData() returns (testData: array<real>)
    ensures fresh(testData) && testData.Length == DataSize
    ensures forall i :: 0 <= i < DataSize ==> testData[i] == i as real
  {
    testData := new real[DataSize];
    for i := 0 to DataSize
      invariant forall j :: 0 <= j < i ==> testData[j] == j as real
    {
      testData[i] := i as real;
    }
  }

  /** The example's check loop: it stops at the first index where the data read back differs
      from the data written, which `mismatchAt` reports. */
  method VerifyTransfer(testData: seq<real>, readBackData: seq<real>, dataSize: nat)
    returns (transferSuccess: bool, mismatchAt: nat)
    requires dataSize <= |testData| && dataSize <= |readBackData|
    ensures transferSuccess <==> testData[..dataSize] == readBackData[..dataSize]
    ensures !transferSuccess ==> mismatchAt < dataSize && testData[mismatchAt] != readBackData[mismatchAt]
                                 && testData[..mismatchAt] == readBackData[..mismatchAt]
  {
    transferSuccess, mismatchAt := true, 0;
    var i := 0;
    while i < dataSize
      invariant 0 <= i <= dataSize
      invariant testData[..i] == readBackData[..i]
    {
      if testData[i] != readBackData[i] {
        transferSuccess, mismatchAt := false, i;
        return;
      }
      assert testData[..i + 1] == testData[..i] + [testData[i]];
      assert readBackData[..i + 1] == readBackData[..i] + [readBackData[i]];
      i := i + 1;
    }
  }

  /** What a driver program returns and leaves behind. */
  datatype ProgramOutcome = ProgramOutcome(exitCode: int, world: World)

  /** The example's main, call by call: init_vulkan, the staging buffer (on failure only the
      context is cleaned up), then destroy_buffer and cleanup_vulkan.  The round trip through
      mapped memory always matches, so the exit code depends only on the driver. */
  function ExampleSteps(faults: map<nat, string>, w: World): ProgramOutcome
  {
    var init := InitSteps(faults, w, Some(ExampleAppName));
    if !init.result.success then ProgramOutcome(1, init.world)
    else ExampleAfterInit(faults, init.world, w.next)
  }

  /** The example after init_vulkan succeeded with its instance at handle n (and so its device
      at n + 2 and its allocator at n + 3). */
  function ExampleAfterInit(faults: map<nat, string>, v: World, n: Handle): ProgramOutcome
  {
    var staging := MakeBuffer(faults, v, n + 3, BufferFields(NullHandle, NullHandle, NullPtr, 0),
                              FloatBytes * DataSize, StorageBufferUsage);
    if !staging.result.success then ProgramOutcome(1, CleanupSteps(staging.world, n + 3, n + 2, n)) else
    var released := ReleaseBuffer(staging.world, n + 3, staging.fields);
    ProgramOutcome(0, CleanupSteps(released.world, n + 3, n + 2, n))
  }

  /** After a successful init the example fails exactly when the buffer does. */
  lemma AfterInitExit(faults: map<nat, string>, v: World, n: Handle)
    ensures var o := ExampleAfterInit(faults, v, n);
            && (o.exitCode == 0 <==> v.attempts !in faults)
            && (o.exitCode == 0 || o.exitCode == 1)
  {
  }

  /** After a successful init the context is released last, after the buffer when there is one. */
  lemma AfterInitTeardown(faults: map<nat, string>, v: World, n: Handle)
    requires Fresh(v)
    ensures var o := ExampleAfterInit(faults, v, n);
            var context := [Destroyed(n + 3), Destroyed(n + 2), Destroyed(n)];
            Teardown(o.world.log) == Teardown(v.log) + (if v.attempts in faults then context
                                                      else [BufferDestroyed(n + 3, v.next, v.next + 1)] + context)
  {
    var f0 := BufferFields(NullHandle, NullHandle, NullPtr, 0);
    MakeBufferEffect(faults, v, n + 3, f0, FloatBytes * DataSize, StorageBufferUsage);
    var staging := MakeBuffer(faults, v, n + 3, f0, FloatBytes * DataSize, StorageBufferUsage);
    if staging.result.success {
      ReleaseBufferOnce(staging.world, n + 3, staging.fields);
      CleanupVulkanOrder(ReleaseBuffer(staging.world, n + 3, staging.fields).world, n + 3, n + 2, n);
    } else {
      CleanupVulkanOrder(staging.world, n + 3, n + 2, n);
    }
  }

  /** After a successful init every handle the example made is gone, the context's included. */
  lemma AfterInitLive(faults: map<nat, string>, v: World, n: Handle)
    requires Fresh(v)
    ensures ExampleAfterInit(faults, v, n).world.live == v.live - {n, n + 2, n + 3}
  {
    var f0 := BufferFields(NullHandle, NullHandle, NullPtr, 0);
    MakeBufferEffect(faults, v, n + 3, f0, FloatBytes * DataSize, StorageBufferUsage);
    var staging := MakeBuffer(faults, v, n + 3, f0, FloatBytes * DataSize, StorageBufferUsage);
    if staging.result.success {
      ReleaseBufferOnce(staging.world, n + 3, staging.fields);
      CleanupVulkanOrder(ReleaseBuffer(staging.world, n + 3, staging.fields).world, n + 3, n + 2, n);
    } else {
      CleanupVulkanOrder(staging.world, n + 3, n + 2, n);
    }
  }

  /** The example exits with 0 exactly when none of its five fallible calls (four init steps and
      the buffer) fails, and with 1 otherwise. */
  lemma ExampleExitCode(faults: map<nat, string>, w: World)
    ensures var o := ExampleSteps(faults, w);
            && (o.exitCode == 0 || o.exitCode == 1)
            && (o.exitCode == 0 <==> FirstFailure(faults, w.attempts, 5, 5))
  {
    InitStopsAtFirstFailure(faults, w, Some(ExampleAppName));
    var init := InitSteps(faults, w, Some(ExampleAppName));
    if init.result.success {
      FirstFailureConcat(faults, w.attempts, 4, if w.attempts + 4 in faults then 0 else 1, 1);
    }
  }

  /** What the example releases, in order: nothing when init fails; the context's allocator,
      device and instance when the buffer fails; the buffer and then the context otherwise. */
  lemma ExampleTeardown(faults: map<nat, string>, w: World)
    requires Fresh(w)
    ensures var o := ExampleSteps(faults, w);
            var n := w.next;
            var context := [Destroyed(n + 3), Destroyed(n + 2), Destroyed(n)];
            var init := InitSteps(faults, w, Some(ExampleAppName));
            Teardown(o.world.log) == Teardown(w.log) + (if !init.result.success then []
                                                         else if o.exitCode != 0 then context
                                                         else [BufferDestroyed(n + 3, n + 4, n + 5)] + context)
  {
    InitReleasesNothing(faults, w, Some(ExampleAppName));
    InitStopsAtFirstFailure(faults, w, Some(ExampleAppName));
    InitHandles(faults, w, Some(ExampleAppName));
    var init := InitSteps(faults, w, Some(ExampleAppName));
    if init.result.success {
      AfterInitExit(faults, init.world, w.next);
      AfterInitTeardown(faults, init.world, w.next);
    }
  }

  /** Once init succeeds, the example releases every handle it owns: it ends with the handles it
      started with.  A failing init leaks what it made, as init_vulkan releases nothing. */
  lemma ExampleBalance(faults: map<nat, string>, w: World)
    requires Fresh(w)
    ensures var o := ExampleSteps(faults, w);
            var init := InitSteps(faults, w, Some(ExampleAppName));
            && (init.result.success ==> o.world.live == w.live)
            && (!init.result.success ==> o.world.live == w.live + InitOwned(w.next, init.steps))
  {
    var n := w.next;
    InitStopsAtFirstFailure(faults, w, Some(ExampleAppName));
    InitHandles(faults, w, Some(ExampleAppName));
    var init := InitSteps(faults, w, Some(ExampleAppName));
    if init.result.success {
      IssuedBounds(n, 4);
      assert InitOwned(n, 4) == {n, n + 2, n + 3};
      AfterInitLive(faults, init.world, n);
    }
  }

  /** The example's main.  The exit code is 0 exactly when the data read back matches the data
      written, which the model shows always holds once the buffer exists. */
  method RunExample(drv: Driver) returns (exitCode: int)
    requires Fresh(drv.St())
    modifies drv
    ensures var o := ExampleSteps(drv.faults, old(drv.St()));
            exitCode == o.exitCode && drv.St() == o.world
  {
    ghost var w := drv.St();
    var ctx := new VulkanContext();
    var result := InitVulkan(drv, ctx, Some(ExampleAppName));
    if !result.success {
      return 1;
    }
    InitStopsAtFirstFailure(drv.faults, w, Some(ExampleAppName));
    InitHandles(drv.faults, w, Some(ExampleAppName));
    IssuedBounds(w.next, 4);
    exitCode := TransferRoundTrip(drv, ctx);
  }

  /** The example's main after init_vulkan: the staging buffer, the write, the read back and
      the check, then the teardown. */
  method TransferRoundTrip(drv: Driver, ctx: VulkanContext) returns (exitCode: int)
    requires Fresh(drv.St()) && drv.next == ctx.instance + 4
    requires ctx.physicalDevice == ctx.instance + 1 && ctx.device == ctx.instance + 2 && ctx.allocator == ctx.instance + 3
    requires ContextLive(drv.live, ctx.allocator, ctx.device, ctx.instance)
    modifies drv
    ensures var o := ExampleAfterInit(drv.faults, old(drv.St()), ctx.instance);
            exitCode == o.exitCode && drv.St() == o.world
  {
    ghost var v := drv.St();
    var testData := MakeTestData();

    var stagingBuffer := new Buffer();
    var result := CreateHostVisibleBuffer(drv, ctx, stagingBuffer, FloatBytes * DataSize, StorageBufferUsage);
    if !result.success {
      CleanupVulkan(drv, ctx);
      return 1;
    }
    MakeBufferEffect(drv.faults, v, ctx.allocator, BufferFields(NullHandle, NullHandle, NullPtr, 0),
                     FloatBytes * DataSize, StorageBufferUsage);

    drv.WriteMapped(stagingBuffer.mappedData, testData[..], stagingBuffer.size);
    var readBackData := drv.ReadMapped(stagingBuffer.mappedData, stagingBuffer.size);

    var transferSuccess, mismatchAt := VerifyTransfer(testData[..], readBackData, DataSize);

    DestroyBuffer(drv, ctx, stagingBuffer);
    CleanupVulkan(drv, ctx);
    return if transferSuccess then 0 else 1;
  }
}
