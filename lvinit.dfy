/** The harness's records (VulkanContext, VulkanError, Buffer, ComputePipeline), the ordered
    four-step context build and the loading of the compute shader. */
module LvInit {
  import opened Ledger

  /** Every operation's result: a message and a success flag. */
  datatype VulkanError = VulkanError(message: string, success: bool)

  const AllocatorFailure: string := "Failed to create VMA allocator: VMA allocation failed"
  const OpenShaderFailure: string := "Failed to open shader file"
  const ShaderModuleFailure: string := "Failed to create shader module"

  /** The device context.  `computeFamily` is the compute queue family that the vk-bootstrap
      device object reports (get_queue_index), absent when the device has none. */
  class VulkanContext {
    var instance: Handle
    var physicalDevice: Handle
    var device: Handle
    var allocator: Handle
    var computeFamily: Option<nat>

    /** `VulkanContext ctx{}`: every handle null. */
    constructor ()
      ensures instance == NullHandle && physicalDevice == NullHandle && device == NullHandle
      ensures allocator == NullHandle && computeFamily == None
    {
      instance, physicalDevice, device, allocator := NullHandle, NullHandle, NullHandle, NullHandle;
      computeFamily := None;
    }
  }

  /** The fields of a Buffer, as a value. */
  datatype BufferFields = BufferFields(buffer: Handle, allocation: Handle, mappedData: Ptr, size: nat)

  /** A host-visible, persistently mapped buffer. */
  class Buffer {
    var buffer: Handle
    var allocation: Handle
    var mappedData: Ptr
    var size: nat

    /** `Buffer b{}`: null handles, null pointer, size 0. */
    constructor ()
      ensures Fields() == BufferFields(NullHandle, NullHandle, NullPtr, 0)
    {
      buffer, allocation, mappedData, size := NullHandle, NullHandle, NullPtr, 0;
    }

    function Fields(): BufferFields
      reads this
    {
      BufferFields(buffer, allocation, mappedData, size)
    }
  }

  /** A buffer that holds a live buffer/allocation pair: its mapping is the allocation's memory,
      which holds `size` bytes. */
  ghost predicate Holds(b: BufferFields, drv: Driver)
    reads drv
  {
    && b.buffer != NullHandle && b.buffer in drv.live && b.allocation in drv.live && b.buffer != b.allocation
    && b.mappedData == MappedPtr(b.allocation) && b.allocation in drv.mem
    && |drv.mem[b.allocation]| == b.size / FloatBytes
  }

  /** The fields of a ComputePipeline, as a value. */
  datatype ComputeFields = ComputeFields(pipeline: Handle, pipelineLayout: Handle, descriptorPool: Handle,
                                         descriptorLayout: Handle, descriptorSet: Handle,
                                         commandPool: Handle, commandBuffer: Handle)

  class ComputePipeline {
    var pipeline: Handle
    var pipelineLayout: Handle
    var descriptorPool: Handle
    var descriptorLayout: Handle
    var descriptorSet: Handle
    var commandPool: Handle
    var commandBuffer: Handle

    /** `ComputePipeline compute{}`: every handle null. */
    constructor ()
      ensures pipeline == NullHandle && pipelineLayout == NullHandle && descriptorPool == NullHandle
      ensures descriptorLayout == NullHandle && descriptorSet == NullHandle
      ensures commandPool == NullHandle && commandBuffer == NullHandle
    {
      pipeline, pipelineLayout, descriptorPool, descriptorLayout := NullHandle, NullHandle, NullHandle, NullHandle;
      descriptorSet, commandPool, commandBuffer := NullHandle, NullHandle, NullHandle;
    }

    function Fields(): ComputeFields
      reads this
    {
      ComputeFields(pipeline, pipelineLayout, descriptorPool, descriptorLayout, descriptorSet, commandPool, commandBuffer)
    }
  }

  /** The four creating calls of init_vulkan, given that each earlier one succeeded and the
      handles were issued from `next` on: instance, physical device (Vulkan 1.1 or later with a
      dedicated transfer queue), logical device, allocator. */
  function InitInfos(next: Handle, appName: Option<string>): seq<CreateInfo>
  {
    [ InstanceInfo(appName, true, true),
      PhysicalDeviceSelection(next, 1, 1, true),
      DeviceInfo(next + 1),
      AllocatorInfo(next, next + 1, next + 2) ]
  }

  /** The handles the context owns after the first k init steps succeeded (the physical device is not owned). */
  function InitOwned(next: Handle, k: nat): set<Handle>
  {
    Issued(next, k) - {next + 1}
  }

  /** What init_vulkan returns and leaves behind: its result, the world after it and the
      number of steps that succeeded. */
  datatype InitOutcome = InitOutcome(result: VulkanError, world: World, steps: nat)

  /** init_vulkan step by step: each step runs only when the one before succeeded; the three
      vk-bootstrap steps report the library's error text, the allocator a fixed message. */
  function InitSteps(faults: map<nat, string>, w: World, appName: Option<string>): InitOutcome
  {
    var s1 := CreateStep(faults, w, InstanceInfo(appName, true, true));
    if !s1.ok then InitOutcome(VulkanError(faults[w.attempts], false), s1.world, 0) else
    var s2 := CreateStep(faults, s1.world, PhysicalDeviceSelection(s1.handle, 1, 1, true));
    if !s2.ok then InitOutcome(VulkanError(faults[s1.world.attempts], false), s2.world, 1) else
    var s3 := CreateStep(faults, s2.world, DeviceInfo(s2.handle));
    if !s3.ok then InitOutcome(VulkanError(faults[s2.world.attempts], false), s3.world, 2) else
    var s4 := CreateStep(faults, s3.world, AllocatorInfo(s1.handle, s2.handle, s3.handle));
    if !s4.ok then InitOutcome(VulkanError(AllocatorFailure, false), s4.world, 3) else
    InitOutcome(VulkanError("", true), s4.world, 4)
  }

  /** The message of an init_vulkan whose first k steps succeeded, where `reported` is the
      library's error text for the failing step. */
  function InitMessage(k: nat, reported: string): string
  {
    if k == 4 then "" else if k < 3 then reported else AllocatorFailure
  }

  /** init_vulkan builds the instance, selects a physical device, builds the device and creates
      the allocator, in that order, and stops at the first failure: it succeeds exactly when all
      four steps do, and its message is the failing library's own text for the first three steps
      and a fixed text for the allocator. */
  lemma InitStopsAtFirstFailure(faults: map<nat, string>, w: World, appName: Option<string>)
    ensures var o := InitSteps(faults, w, appName);
            var at := w.attempts;
            && FirstFailure(faults, at, o.steps, 4)
            && (o.result.success <==> o.steps == 4)
            && o.result.message == InitMessage(o.steps, if o.steps < 4 then faults[at + o.steps] else "")
            && o.world.attempts == at + (if o.steps < 4 then o.steps + 1 else 4)
  {
    var s1 := CreateStep(faults, w, InstanceInfo(appName, true, true));
    if !s1.ok { return; }
    var s2 := CreateStep(faults, s1.world, PhysicalDeviceSelection(s1.handle, 1, 1, true));
    assert s1.world.attempts == w.attempts + 1;
    if !s2.ok { return; }
    var s3 := CreateStep(faults, s2.world, DeviceInfo(s2.handle));
    assert s2.world.attempts == w.attempts + 2;
    if !s3.ok { return; }
    var s4 := CreateStep(faults, s3.world, AllocatorInfo(s1.handle, s2.handle, s3.handle));
    assert s3.world.attempts == w.attempts + 3;
  }

  /** The calls init_vulkan makes: the creations of InitInfos, in order, up to and including the
      first that fails. */
  lemma InitLog(faults: map<nat, string>, w: World, appName: Option<string>)
    ensures var o := InitSteps(faults, w, appName);
            o.steps <= 4 && o.world.log == Tried(w.log, InitInfos(w.next, appName), w.next, o.steps, map[])
  {
    var n := w.next;
    var infos := InitInfos(n, appName);
    var s1 := CreateStep(faults, w, infos[0]);
    assert s1.world.log == w.log + [Created(infos[0], s1.ok, s1.handle)];
    if !s1.ok { return; }
    assert s1.world.log == Done(w.log, infos, n, 1, map[]);
    var s2 := CreateStep(faults, s1.world, infos[1]);
    assert s2.world.log == s1.world.log + [Created(infos[1], s2.ok, s2.handle)];
    if !s2.ok { return; }
    assert s2.world.log == Done(w.log, infos, n, 2, map[]);
    var s3 := CreateStep(faults, s2.world, infos[2]);
    assert s3.world.log == s2.world.log + [Created(infos[2], s3.ok, s3.handle)];
    if !s3.ok { return; }
    assert s3.world.log == Done(w.log, infos, n, 3, map[]);
    var s4 := CreateStep(faults, s3.world, infos[3]);
    assert s4.world.log == s3.world.log + [Created(infos[3], s4.ok, s4.handle)];
    if !s4.ok { return; }
    assert s4.world.log == Done(w.log, infos, n, 4, map[]);
  }

  /** init_vulkan attempts the creations of InitInfos in order, stopping at the first failure. */
  lemma InitOrder(faults: map<nat, string>, w: World, appName: Option<string>)
    ensures var o := InitSteps(faults, w, appName);
            var infos := InitInfos(w.next, appName);
            Creations(o.world.log) == Creations(w.log) + (if o.steps < 4 then infos[..o.steps + 1] else infos)
  {
    InitLog(faults, w, appName);
    var o := InitSteps(faults, w, appName);
    TriedCreations(w.log, InitInfos(w.next, appName), w.next, o.steps, map[]);
  }

  /** init_vulkan keeps every handle it made, even when a step fails; the physical device is
      never owned, and fresh handles stay fresh. */
  lemma InitHandles(faults: map<nat, string>, w: World, appName: Option<string>)
    ensures var o := InitSteps(faults, w, appName);
            && o.world.next == w.next + o.steps
            && o.world.live == w.live + InitOwned(w.next, o.steps)
            && (Fresh(w) ==> Fresh(o.world))
  {
    var n := w.next;
    var i1 := InstanceInfo(appName, true, true);
    var s1 := CreateStep(faults, w, i1);
    if Fresh(w) { CreateStepFresh(faults, w, i1); }
    if !s1.ok {
      assert InitOwned(n, 0) == {};
      return;
    }
    assert s1.world.live == w.live + InitOwned(n, 1);
    var i2 := PhysicalDeviceSelection(s1.handle, 1, 1, true);
    var s2 := CreateStep(faults, s1.world, i2);
    if Fresh(w) { CreateStepFresh(faults, s1.world, i2); }
    if !s2.ok { return; }
    assert s2.world.live == w.live + InitOwned(n, 2);
    var i3 := DeviceInfo(s2.handle);
    var s3 := CreateStep(faults, s2.world, i3);
    if Fresh(w) { CreateStepFresh(faults, s2.world, i3); }
    if !s3.ok { return; }
    assert s3.world.live == w.live + InitOwned(n, 3);
    var i4 := AllocatorInfo(s1.handle, s2.handle, s3.handle);
    var s4 := CreateStep(faults, s3.world, i4);
    if Fresh(w) { CreateStepFresh(faults, s3.world, i4); }
    if !s4.ok { return; }
    assert s4.world.live == w.live + InitOwned(n, 4);
  }

  /** init_vulkan releases nothing, whichever step fails. */
  lemma InitReleasesNothing(faults: map<nat, string>, w: World, appName: Option<string>)
    ensures Teardown(InitSteps(faults, w, appName).world.log) == Teardown(w.log)
  {
    InitLog(faults, w, appName);
    var o := InitSteps(faults, w, appName);
    TriedTeardown(w.log, InitInfos(w.next, appName), w.next, o.steps, map[]);
    NothingReleased(Teardown(w.log), o.steps);
  }

  lemma {:induction false} NothingReleased(released: seq<Call>, k: nat)
    ensures Released(released, map[], k) == released
  {
    if k > 0 {
      NothingReleased(released, k - 1);
    }
  }

  method InitVulkan(drv: Driver, ctx: VulkanContext, appName: Option<string>) returns (r: VulkanError)
    modifies drv, ctx
    ensures var o := InitSteps(drv.faults, old(drv.St()), appName);
            var n := old(drv.next);
            && r == o.result && drv.St() == o.world && drv.mem == old(drv.mem)
            && ctx.instance == (if o.steps > 0 then n else old(ctx.instance))
            && ctx.physicalDevice == (if o.steps > 1 then n + 1 else old(ctx.physicalDevice))
            && ctx.device == (if o.steps > 2 then n + 2 else old(ctx.device))
            && ctx.computeFamily == (if o.steps > 2 then drv.computeFamily else old(ctx.computeFamily))
            && ctx.allocator == (if o.steps > 3 then n + 3 else old(ctx.allocator))
  {
    var ok, h := drv.Create(InstanceInfo(appName, true, true));
    if !ok {
      return VulkanError(drv.faults[drv.attempts - 1], false);
    }
    ctx.instance := h;

    ok, h := drv.Create(PhysicalDeviceSelection(ctx.instance, 1, 1, true));
    if !ok {
      return VulkanError(drv.faults[drv.attempts - 1], false);
    }
    ctx.physicalDevice := h;

    ok, h := drv.Create(DeviceInfo(ctx.physicalDevice));
    if !ok {
      return VulkanError(drv.faults[drv.attempts - 1], false);
    }
    ctx.device := h;
    ctx.computeFamily := drv.computeFamily;

    ok, h := drv.Create(AllocatorInfo(ctx.instance, ctx.physicalDevice, ctx.device));
    if !ok {
      return VulkanError(AllocatorFailure, false);
    }
    ctx.allocator := h;
    return VulkanError("", true);
  }

  /** What create_shader_module returns and leaves behind; `shaderModule` is null unless the
      module was created. */
  datatype ShaderOutcome = ShaderOutcome(result: VulkanError, shaderModule: Handle, world: World)

  /** create_shader_module: `file` is the contents of the shader file, or None when it cannot be
      opened.  The module is created from the whole file. */
  function LoadShader(faults: map<nat, string>, w: World, device: Handle, file: Option<seq<bv8>>): ShaderOutcome
  {
    if file.None? then ShaderOutcome(VulkanError(OpenShaderFailure, false), NullHandle, w)
    else
      var s := CreateStep(faults, w, ShaderModuleInfo(device, |file.value|, file.value));
      if !s.ok then ShaderOutcome(VulkanError(ShaderModuleFailure, false), NullHandle, s.world)
      else ShaderOutcome(VulkanError("", true), s.handle, s.world)
  }

  /** A missing file makes no call and creates no module; otherwise one vkCreateShaderModule
      call is made with codeSize equal to the file's length and the file's bytes as code, and the
      module exists exactly when that call succeeds. */
  lemma LoadShaderEffect(faults: map<nat, string>, w: World, device: Handle, file: Option<seq<bv8>>)
    requires Fresh(w)
    ensures var o := LoadShader(faults, w, device, file);
            && (file.None? ==> o.result == VulkanError(OpenShaderFailure, false) && o.shaderModule == NullHandle && o.world == w)
            && (file.Some? ==>
                  && o.world.log[..|w.log|] == w.log
                  && |o.world.log| == |w.log| + 1
                  && o.world.log[|w.log|].Created?
                  && o.world.log[|w.log|].info == ShaderModuleInfo(device, |file.value|, file.value)
                  && o.world.log[|w.log|].info.codeSize == |file.value|
                  && (o.result.success <==> w.attempts !in faults)
                  && (!o.result.success ==> o.result.message == ShaderModuleFailure && o.shaderModule == NullHandle)
                  && (o.result.success ==> o.shaderModule != NullHandle && o.shaderModule !in w.live
                                           && o.world.live == w.live + {o.shaderModule})
                  && Fresh(o.world)
                  && Teardown(o.world.log) == Teardown(w.log))
  {
    if file.Some? {
      var info := ShaderModuleInfo(device, |file.value|, file.value);
      var s := CreateStep(faults, w, info);
      CreateStepFresh(faults, w, info);
      RecordTeardown(w.(attempts := w.attempts + 1), Created(info, s.ok, s.handle));
      assert (w.log + [Created(info, s.ok, s.handle)])[..|w.log|] == w.log;
    }
  }

  method CreateShaderModule(drv: Driver, ctx: VulkanContext, file: Option<seq<bv8>>)
    returns (r: VulkanError, shaderModule: Handle)
    requires ctx.device in drv.live
    modifies drv
    ensures var o := LoadShader(drv.faults, old(drv.St()), ctx.device, file);
            r == o.result && shaderModule == o.shaderModule && drv.St() == o.world && drv.mem == old(drv.mem)
  {
    if file.None? {
      return VulkanError(OpenShaderFailure, false), NullHandle;
    }
    var code := file.value;
    var ok, h := drv.Create(ShaderModuleInfo(ctx.device, |code|, code));
    if !ok {
      return VulkanError(ShaderModuleFailure, false), NullHandle;
    }
    return VulkanError("", true), h;
  }
}
