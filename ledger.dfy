/** The foreign libraries the harness calls (Vulkan, VMA, vk-bootstrap), seen only
    through the handles they hand out and take back.  A `Driver` is a recording
    ledger: every call is appended to `log`, every handle the harness owns and has
    not yet released is in `live`, and whether a fallible call succeeds is decided
    by a fault schedule fixed when the ledger is made. */
module Ledger {

  datatype Option<T> = None | Some(value: T)

  /** A driver handle; 0 is the null sentinel (VK_NULL_HANDLE). */
  type Handle = nat
  const NullHandle: Handle := 0

  /** sizeof(float) */
  const FloatBytes: nat := 4

  /** Host pointer into persistently mapped memory: null, or the mapping of an allocation. */
  datatype Ptr = NullPtr | MappedPtr(allocation: Handle)

  /** The enumerations the harness uses; the first constructor of each is its zero value. */
  datatype DescriptorType = SamplerDescriptor | StorageBufferDescriptor
  datatype ShaderStage = NoStage | ComputeStage
  datatype BufferUsage = StorageBufferUsage
  datatype SharingMode = Exclusive
  datatype MemoryUsage = CpuToGpu
  /** A descriptor's range: a byte count, or VK_WHOLE_SIZE (the rest of the buffer). */
  datatype Range = Bytes(count: nat) | WholeSize

  datatype Binding = Binding(binding: nat, descriptorType: DescriptorType, descriptorCount: nat, stageFlags: ShaderStage)
  datatype PoolSize = PoolSize(descriptorType: DescriptorType, descriptorCount: nat)
  datatype DescriptorBufferInfo = DescriptorBufferInfo(buffer: Handle, offset: nat, range: Range)
  /** A VkWriteDescriptorSet; `bufferInfo` is None where pBufferInfo is null. */
  datatype DescriptorWrite = DescriptorWrite(dstSet: Handle, dstBinding: nat, descriptorType: DescriptorType,
                                             descriptorCount: nat, bufferInfo: Option<DescriptorBufferInfo>)

  /** A queue of `family` on a logical device. */
  datatype Queue = Queue(device: Handle, family: nat)

  /** The arguments of one creating call (vk-bootstrap build/select, vkCreate*, vkAllocate*, vmaCreateAllocator). */
  datatype CreateInfo =
    | InstanceInfo(appName: Option<string>, validationLayers: bool, headless: bool)
    | PhysicalDeviceSelection(instance: Handle, minMajor: nat, minMinor: nat, dedicatedTransferQueue: bool)
    | DeviceInfo(physicalDevice: Handle)
    | AllocatorInfo(instance: Handle, physicalDevice: Handle, device: Handle)
    | DescriptorSetLayoutInfo(device: Handle, bindings: seq<Binding>)
    | PipelineLayoutInfo(device: Handle, setLayouts: seq<Handle>)
    | ShaderModuleInfo(device: Handle, codeSize: nat, code: seq<bv8>)
    | ComputePipelineInfo(device: Handle, stage: ShaderStage, shader: Handle, entryPoint: string, layout: Handle)
    | DescriptorPoolInfo(device: Handle, maxSets: nat, poolSizes: seq<PoolSize>)
    | DescriptorSetInfo(device: Handle, pool: Handle, setLayouts: seq<Handle>)
    | CommandPoolInfo(device: Handle, resetCommandBuffer: bool, queueFamily: nat)
    | CommandBufferInfo(device: Handle, pool: Handle, primary: bool, count: nat)

  /** The arguments of vmaCreateBuffer. */
  datatype BufferRequest = BufferRequest(allocator: Handle, size: nat, usage: BufferUsage, sharing: SharingMode,
                                         memoryUsage: MemoryUsage, persistentlyMapped: bool)

  /** Calls that create nothing: descriptor updates, command recording, submission. */
  datatype Op =
    | DescriptorSetsUpdated(device: Handle, writes: seq<DescriptorWrite>)
    | BeginCommandBuffer(cb: Handle, oneTimeSubmit: bool)
    | BindComputePipeline(cb: Handle, pipeline: Handle)
    | BindDescriptorSets(cb: Handle, layout: Handle, firstSet: nat, sets: seq<Handle>)
    | Dispatch(cb: Handle, x: nat, y: nat, z: nat)
    | EndCommandBuffer(cb: Handle)
    | QueueSubmit(queue: Queue, commandBuffers: seq<Handle>)
    | QueueWaitIdle(queue: Queue)

  /** One entry of the ledger's log. */
  datatype Call =
    | Created(info: CreateInfo, ok: bool, handle: Handle)
    | BufferCreated(request: BufferRequest, ok: bool, buffer: Handle, allocation: Handle)
    | Invoked(op: Op, ok: bool)
    | Destroyed(handle: Handle)
    | BufferDestroyed(allocator: Handle, buffer: Handle, allocation: Handle)
    | PipelineReleased(handles: set<Handle>)

  /** A physical device is selected, not created: nothing ever releases it. */
  predicate Owned(info: CreateInfo) {
    !info.PhysicalDeviceSelection?
  }

  /** The handles a creating call passes to the driver, which must still be live. */
  function Uses(info: CreateInfo): set<Handle> {
    match info
    case InstanceInfo(_, _, _) => {}
    case PhysicalDeviceSelection(instance, _, _, _) => {instance}
    case DeviceInfo(_) => {}
    case AllocatorInfo(instance, _, device) => {instance, device}
    case DescriptorSetLayoutInfo(device, _) => {device}
    case PipelineLayoutInfo(device, layouts) => {device} + (set h | h in layouts)
    case ShaderModuleInfo(device, _, _) => {device}
    case ComputePipelineInfo(device, _, shader, _, layout) => {device, shader, layout}
    case DescriptorPoolInfo(device, _, _) => {device}
    case DescriptorSetInfo(device, pool, layouts) => {device, pool} + (set h | h in layouts)
    case CommandPoolInfo(device, _, _) => {device}
    case CommandBufferInfo(device, pool, _, _) => {device, pool}
  }

  function OpUses(op: Op): set<Handle> {
    match op
    case DescriptorSetsUpdated(device, writes) =>
      {device} + (set w | w in writes :: w.dstSet)
      + (set w | w in writes && w.bufferInfo.Some? :: w.bufferInfo.value.buffer)
    case BeginCommandBuffer(cb, _) => {cb}
    case BindComputePipeline(cb, pipeline) => {cb, pipeline}
    case BindDescriptorSets(cb, layout, _, sets) => {cb, layout} + (set h | h in sets)
    case Dispatch(cb, _, _, _) => {cb}
    case EndCommandBuffer(cb) => {cb}
    case QueueSubmit(queue, cbs) => {queue.device} + (set h | h in cbs)
    case QueueWaitIdle(queue) => {queue.device}
  }

  /** Calls that return a VkResult; the vkCmd* recording calls and vkUpdateDescriptorSets return nothing. */
  predicate Fallible(op: Op) {
    op.BeginCommandBuffer? || op.EndCommandBuffer? || op.QueueSubmit? || op.QueueWaitIdle?
  }

  predicate IsRelease(c: Call) {
    c.Destroyed? || c.BufferDestroyed? || c.PipelineReleased?
  }

  /** The releasing calls of a log, in order. */
  function Teardown(calls: seq<Call>): seq<Call>
  {
    if calls == [] then []
    else
      var last := calls[|calls| - 1];
      Teardown(calls[..|calls| - 1]) + (if IsRelease(last) then [last] else [])
  }

  lemma {:induction false} TeardownAppend(a: seq<Call>, b: seq<Call>)
    ensures Teardown(a + b) == Teardown(a) + Teardown(b)
    decreases |b|
  {
    if b == [] {
      assert a + b == a;
    } else {
      var last := b[|b| - 1];
      assert (a + b)[..|a + b| - 1] == a + b[..|b| - 1];
      TeardownAppend(a, b[..|b| - 1]);
    }
  }

  /** The fallible calls numbered at, ..., at + k - 1 all succeed and, unless k == n, the one
      numbered at + k fails: a sequence of n fallible steps that stops at its first failure
      has made exactly k successful steps. */
  predicate FirstFailure(faults: map<nat, string>, at: nat, k: nat, n: nat) {
    && k <= n
    && (forall i :: at <= i < at + k ==> i !in faults)
    && (k < n ==> at + k in faults)
  }

  /** Two sequences of fallible steps run back to back, the second only when all of the first
      succeed, stop at the first failure of the whole. */
  lemma FirstFailureConcat(faults: map<nat, string>, at: nat, n1: nat, k2: nat, n2: nat)
    requires FirstFailure(faults, at, n1, n1) && FirstFailure(faults, at + n1, k2, n2)
    ensures FirstFailure(faults, at, n1 + k2, n1 + n2)
  {
  }

  /** The handles next, next+1, ..., next+k-1. */
  function Issued(next: Handle, k: nat): set<Handle>
    decreases k
  {
    if k == 0 then {} else Issued(next, k - 1) + {next + k - 1}
  }

  /** Handles issued in two runs, one after the other, are the handles of one longer run. */
  lemma {:induction false} IssuedConcat(next: Handle, j: nat, k: nat)
    ensures Issued(next, j + k) == Issued(next, j) + Issued(next + j, k)
    decreases k
  {
    if k > 0 {
      IssuedConcat(next, j, k - 1);
    }
  }

  /** Every handle of Issued(next, k) lies in [next, next + k). */
  lemma {:induction false} IssuedBounds(next: Handle, k: nat)
    ensures forall h :: h in Issued(next, k) ==> next <= h < next + k
    decreases k
  {
    if k > 0 {
      IssuedBounds(next, k - 1);
    }
  }

  /** `log` followed by the calls of a build sequence whose first k steps succeed: step i creates
      infos[i], receives the handle next + i and then makes the calls extras[i], if any. */
  function Done(log: seq<Call>, infos: seq<CreateInfo>, next: Handle, k: nat, extras: map<nat, seq<Call>>): seq<Call>
    requires k <= |infos|
    decreases k
  {
    if k == 0 then log
    else
      var calls := Done(log, infos, next, k - 1, extras) + [Created(infos[k - 1], true, next + k - 1)];
      if k - 1 in extras then calls + extras[k - 1] else calls
  }

  /** `log` followed by the calls of a build sequence that stops at its first failing step: the
      first k steps succeed and, when k < |infos|, the creation of infos[k] is attempted and fails. */
  function Tried(log: seq<Call>, infos: seq<CreateInfo>, next: Handle, k: nat, extras: map<nat, seq<Call>>): seq<Call>
    requires k <= |infos|
  {
    if k < |infos| then Done(log, infos, next, k, extras) + [Created(infos[k], false, NullHandle)]
    else Done(log, infos, next, k, extras)
  }

  /** The create infos of the creating calls of a log, in order. */
  function Creations(calls: seq<Call>): seq<CreateInfo>
  {
    if calls == [] then []
    else
      var last := calls[|calls| - 1];
      Creations(calls[..|calls| - 1]) + (if last.Created? then [last.info] else [])
  }

  lemma {:induction false} CreationsAppend(a: seq<Call>, b: seq<Call>)
    ensures Creations(a + b) == Creations(a) + Creations(b)
    decreases |b|
  {
    if b == [] {
      assert a + b == a;
    } else {
      assert (a + b)[..|a + b| - 1] == a + b[..|b| - 1];
      CreationsAppend(a, b[..|b| - 1]);
    }
  }

  lemma CreationsSnoc(calls: seq<Call>, c: Call)
    ensures Creations(calls + [c]) == Creations(calls) + (if c.Created? then [c.info] else [])
  {
    assert (calls + [c])[..|calls|] == calls;
  }

  /** One successful step of a build sequence adds its own create info and nothing else. */
  lemma StepCreations(calls: seq<Call>, c: Call, extra: seq<Call>)
    requires c.Created? && Creations(extra) == []
    ensures Creations(calls + [c] + extra) == Creations(calls) + [c.info]
  {
    CreationsSnoc(calls, c);
    CreationsAppend(calls + [c], extra);
  }

  /** The successful steps of a build sequence create infos[..k], in that order, when its extra
      calls create nothing. */
  lemma {:induction false} DoneCreations(log: seq<Call>, infos: seq<CreateInfo>, next: Handle, k: nat, extras: map<nat, seq<Call>>)
    requires k <= |infos|
    requires forall i :: i in extras ==> Creations(extras[i]) == []
    ensures Creations(Done(log, infos, next, k, extras)) == Creations(log) + infos[..k]
    decreases k
  {
    if k == 0 {
      assert infos[..0] == [];
    } else {
      DoneCreations(log, infos, next, k - 1, extras);
      DoneStepCreations(log, infos, next, k, extras);
      PrefixSnoc(Creations(log), infos, k);
    }
  }

  lemma PrefixSnoc<T>(start: seq<T>, xs: seq<T>, k: nat)
    requires 0 < k <= |xs|
    ensures start + xs[..k - 1] + [xs[k - 1]] == start + xs[..k]
  {
    assert xs[..k - 1] + [xs[k - 1]] == xs[..k];
  }

  /** The k-th successful step adds infos[k - 1] to the creations. */
  lemma DoneStepCreations(log: seq<Call>, infos: seq<CreateInfo>, next: Handle, k: nat, extras: map<nat, seq<Call>>)
    requires 0 < k <= |infos|
    requires forall i :: i in extras ==> Creations(extras[i]) == []
    ensures Creations(Done(log, infos, next, k, extras)) == Creations(Done(log, infos, next, k - 1, extras)) + [infos[k - 1]]
  {
    var prefix := Done(log, infos, next, k - 1, extras);
    var c := Created(infos[k - 1], true, next + k - 1);
    var extra := if k - 1 in extras then extras[k - 1] else [];
    assert Done(log, infos, next, k, extras) == prefix + [c] + extra;
    StepCreations(prefix, c, extra);
  }

  /** A build sequence creates its objects in the order of `infos` and stops at its first failure:
      the creations it attempts are exactly the first k + 1 (all of them when no step fails). */
  lemma TriedCreations(log: seq<Call>, infos: seq<CreateInfo>, next: Handle, k: nat, extras: map<nat, seq<Call>>)
    requires k <= |infos|
    requires forall i :: i in extras ==> Creations(extras[i]) == []
    ensures Creations(Tried(log, infos, next, k, extras))
            == Creations(log) + (if k < |infos| then infos[..k + 1] else infos)
  {
    DoneCreations(log, infos, next, k, extras);
    var done := Done(log, infos, next, k, extras);
    if k < |infos| {
      var c := Created(infos[k], false, NullHandle);
      assert Tried(log, infos, next, k, extras) == done + [c];
      CreationsSnoc(done, c);
      assert infos[..k] + [infos[k]] == infos[..k + 1];
    } else {
      assert infos[..k] == infos;
    }
  }

  /** `released` followed by the releasing calls among the extra calls of the first k steps of a
      build sequence. */
  function Released(released: seq<Call>, extras: map<nat, seq<Call>>, k: nat): seq<Call>
    decreases k
  {
    if k == 0 then released
    else Released(released, extras, k - 1) + (if k - 1 in extras then Teardown(extras[k - 1]) else [])
  }

  lemma TeardownSnoc(calls: seq<Call>, c: Call)
    ensures Teardown(calls + [c]) == Teardown(calls) + (if IsRelease(c) then [c] else [])
  {
    assert (calls + [c])[..|calls|] == calls;
  }

  /** One successful creation releases nothing; its extra calls release what they release. */
  lemma StepTeardown(calls: seq<Call>, c: Call, extra: seq<Call>)
    requires c.Created?
    ensures Teardown(calls + [c] + extra) == Teardown(calls) + Teardown(extra)
  {
    TeardownSnoc(calls, c);
    TeardownAppend(calls + [c], extra);
  }

  /** A build sequence releases only what its extra calls release: its creations release nothing. */
  lemma {:induction false} DoneTeardown(log: seq<Call>, infos: seq<CreateInfo>, next: Handle, k: nat, extras: map<nat, seq<Call>>)
    requires k <= |infos|
    ensures Teardown(Done(log, infos, next, k, extras)) == Released(Teardown(log), extras, k)
    decreases k
  {
    if k > 0 {
      DoneTeardown(log, infos, next, k - 1, extras);
      var prefix := Done(log, infos, next, k - 1, extras);
      var c := Created(infos[k - 1], true, next + k - 1);
      var extra := if k - 1 in extras then extras[k - 1] else [];
      assert Done(log, infos, next, k, extras) == prefix + [c] + extra;
      StepTeardown(prefix, c, extra);
    }
  }

  /** The same holds when the sequence stops at a failing creation. */
  lemma TriedTeardown(log: seq<Call>, infos: seq<CreateInfo>, next: Handle, k: nat, extras: map<nat, seq<Call>>)
    requires k <= |infos|
    ensures Teardown(Tried(log, infos, next, k, extras)) == Released(Teardown(log), extras, k)
  {
    DoneTeardown(log, infos, next, k, extras);
    if k < |infos| {
      var done := Done(log, infos, next, k, extras);
      var c := Created(infos[k], false, NullHandle);
      assert Tried(log, infos, next, k, extras) == done + [c];
      TeardownSnoc(done, c);
    }
  }

  /** What the ledger records apart from mapped memory. */
  datatype World = World(live: set<Handle>, next: Handle, attempts: nat, log: seq<Call>)

  /** The outcome of one call: whether it succeeded, the handle it returned (null for calls
      that create nothing, and for failed ones) and the world after it. */
  datatype Step = Step(ok: bool, handle: Handle, world: World)

  /** The outcome of vmaCreateBuffer, which returns a buffer and its allocation. */
  datatype BufferStep = BufferStep(ok: bool, buffer: Handle, allocation: Handle, world: World)

  /** Every live handle was issued before `next`, and none is the null sentinel. */
  predicate Fresh(w: World) {
    0 < w.next && forall h :: h in w.live ==> 0 < h < w.next
  }

  /** The world after appending one call to the log. */
  function Record(w: World, c: Call): World
  {
    w.(log := w.log + [c])
  }

  /** A creating call.  The fallible call numbered `w.attempts` fails exactly when the schedule
      names it; on success it returns the next fresh handle, owned unless it is a physical device. */
  function CreateStep(faults: map<nat, string>, w: World, info: CreateInfo): Step
  {
    if w.attempts in faults then
      Step(false, NullHandle, Record(w.(attempts := w.attempts + 1), Created(info, false, NullHandle)))
    else
      var live := if Owned(info) then w.live + {w.next} else w.live;
      Step(true, w.next, Record(World(live, w.next + 1, w.attempts + 1, w.log), Created(info, true, w.next)))
  }

  /** vmaCreateBuffer: on success a fresh buffer and a fresh allocation, both owned. */
  function BufferCreateStep(faults: map<nat, string>, w: World, request: BufferRequest): BufferStep
  {
    if w.attempts in faults then
      BufferStep(false, NullHandle, NullHandle,
                 Record(w.(attempts := w.attempts + 1), BufferCreated(request, false, NullHandle, NullHandle)))
    else
      var live := w.live + {w.next, w.next + 1};
      BufferStep(true, w.next, w.next + 1,
                 Record(World(live, w.next + 2, w.attempts + 1, w.log), BufferCreated(request, true, w.next, w.next + 1)))
  }

  /** A call that creates nothing; only the calls that return a VkResult can fail. */
  function InvokeStep(faults: map<nat, string>, w: World, op: Op): Step
  {
    if !Fallible(op) then Step(true, NullHandle, Record(w, Invoked(op, true)))
    else
      var ok := w.attempts !in faults;
      Step(ok, NullHandle, Record(w.(attempts := w.attempts + 1), Invoked(op, ok)))
  }

  /** A destroying call on one handle. */
  function DestroyStep(w: World, h: Handle): World
  {
    Record(w.(live := w.live - {h}), Destroyed(h))
  }

  /** vmaDestroyBuffer: releases a buffer and its allocation together. */
  function BufferDestroyStep(w: World, allocator: Handle, buffer: Handle, allocation: Handle): World
  {
    Record(w.(live := w.live - {buffer, allocation}), BufferDestroyed(allocator, buffer, allocation))
  }

  /** cleanup_compute, whose body is not part of this model: one call that releases the
      pipeline's handles together. */
  function ReleaseStep(w: World, handles: set<Handle>): World
  {
    Record(w.(live := w.live - handles), PipelineReleased(handles))
  }

  /** Appending a call adds it to the teardown exactly when it releases something. */
  lemma RecordTeardown(w: World, c: Call)
    ensures Teardown(Record(w, c).log) == Teardown(w.log) + (if IsRelease(c) then [c] else [])
  {
    TeardownSnoc(w.log, c);
  }

  /** Every creating call hands out a handle that is not already live, and keeps the world fresh. */
  lemma CreateStepFresh(faults: map<nat, string>, w: World, info: CreateInfo)
    requires Fresh(w)
    ensures var s := CreateStep(faults, w, info);
            Fresh(s.world) && (s.ok ==> s.handle !in w.live && s.handle != NullHandle)
  {
  }

  /** Two contents of mapped memory with the same allocations, each of the same length. */
  predicate SameShape(before: map<Handle, seq<real>>, after: map<Handle, seq<real>>)
  {
    after.Keys == before.Keys && forall a :: a in after ==> |after[a]| == |before[a]|
  }

  class Driver {
    /** Handles the harness owns and has not released. */
    var live: set<Handle>
    /** The next fresh handle; every handle issued so far is below it. */
    var next: Handle
    /** The fallible calls that fail, by number, each with the error text its library reports. */
    const faults: map<nat, string>
    /** The number of fallible calls made so far. */
    var attempts: nat
    /** The compute queue family of the logical device this driver builds, if it has one. */
    const computeFamily: Option<nat>
    /** Every call made, in order. */
    var log: seq<Call>
    /** The host-visible contents of each mapped allocation, one element per float. */
    var mem: map<Handle, seq<real>>

    function St(): World
      reads this
    {
      World(live, next, attempts, log)
    }

    constructor (faults: map<nat, string>, computeFamily: Option<nat>)
      ensures Fresh(St())
      ensures this.faults == faults && this.computeFamily == computeFamily
      ensures St() == World({}, 1, 0, []) && mem == map[]
    {
      this.faults := faults;
      this.computeFamily := computeFamily;
      live, next, attempts, log, mem := {}, 1, 0, [], map[];
    }

    method Create(info: CreateInfo) returns (ok: bool, h: Handle)
      requires Uses(info) <= live
      modifies this
      ensures Step(ok, h, St()) == CreateStep(faults, old(St()), info)
      ensures mem == old(mem)
    {
      var s := CreateStep(faults, St(), info);
      ok, h := s.ok, s.handle;
      live, next, attempts, log := s.world.live, s.world.next, s.world.attempts, s.world.log;
    }

    /** The new allocation's mapped memory holds request.size bytes of unspecified contents. */
    method CreateBuffer(request: BufferRequest) returns (ok: bool, buffer: Handle, allocation: Handle)
      requires request.allocator in live
      modifies this
      ensures BufferStep(ok, buffer, allocation, St()) == BufferCreateStep(faults, old(St()), request)
      ensures ok ==> allocation in mem && mem == old(mem)[allocation := mem[allocation]]
                     && |mem[allocation]| == request.size / FloatBytes
      ensures !ok ==> mem == old(mem)
    {
      var s := BufferCreateStep(faults, St(), request);
      ok, buffer, allocation := s.ok, s.buffer, s.allocation;
      live, next, attempts, log := s.world.live, s.world.next, s.world.attempts, s.world.log;
      if ok {
        assert |seq(request.size / FloatBytes, _ => 0.0)| == request.size / FloatBytes;
        var contents: seq<real> :| |contents| == request.size / FloatBytes;
        mem := mem[allocation := contents];
      }
    }

    method Invoke(op: Op) returns (ok: bool)
      requires OpUses(op) <= live && !op.QueueWaitIdle?
      modifies this
      ensures Step(ok, NullHandle, St()) == InvokeStep(faults, old(St()), op) && mem == old(mem)
    {
      var s := InvokeStep(faults, St(), op);
      ok := s.ok;
      live, next, attempts, log := s.world.live, s.world.next, s.world.attempts, s.world.log;
    }

    /** vkQueueWaitIdle.  The work submitted before it may have written mapped memory, whether or
        not the wait itself succeeds: what was written is not modelled, only that every
        allocation keeps its size. */
    method WaitIdle(queue: Queue) returns (ok: bool)
      requires queue.device in live
      modifies this
      ensures Step(ok, NullHandle, St()) == InvokeStep(faults, old(St()), QueueWaitIdle(queue))
      ensures SameShape(old(mem), mem)
    {
      var s := InvokeStep(faults, St(), QueueWaitIdle(queue));
      ok := s.ok;
      live, next, attempts, log := s.world.live, s.world.next, s.world.attempts, s.world.log;
      assert SameShape(mem, mem);
      var after: map<Handle, seq<real>> :| SameShape(mem, after);
      mem := after;
    }

    method Destroy(h: Handle)
      requires h in live
      modifies this
      ensures St() == DestroyStep(old(St()), h) && mem == old(mem)
    {
      var w := DestroyStep(St(), h);
      live, log := w.live, w.log;
    }

    method DestroyBuffer(allocator: Handle, buffer: Handle, allocation: Handle)
      requires allocator in live && buffer in live && allocation in live
      modifies this
      ensures St() == BufferDestroyStep(old(St()), allocator, buffer, allocation)
      ensures mem == old(mem) - {allocation}
    {
      var w := BufferDestroyStep(St(), allocator, buffer, allocation);
      live, log := w.live, w.log;
      mem := mem - {allocation};
    }

    method CleanupCompute(handles: set<Handle>)
      requires handles <= live
      modifies this
      ensures St() == ReleaseStep(old(St()), handles) && mem == old(mem)
    {
      var w := ReleaseStep(St(), handles);
      live, log := w.live, w.log;
    }

    /** memcpy of nbytes from host data into mapped memory. */
    method WriteMapped(p: Ptr, data: seq<real>, nbytes: nat)
      requires p.MappedPtr? && p.allocation in mem
      requires nbytes % FloatBytes == 0 && nbytes / FloatBytes <= |data|
      requires nbytes / FloatBytes <= |mem[p.allocation]|
      modifies this
      ensures St() == old(St())
      ensures mem == old(mem)[p.allocation := data[..nbytes / FloatBytes] + old(mem)[p.allocation][nbytes / FloatBytes..]]
      ensures ReadMapped(p, nbytes) == data[..nbytes / FloatBytes]
    {
      var n := nbytes / FloatBytes;
      mem := mem[p.allocation := data[..n] + mem[p.allocation][n..]];
    }

    /** memcpy of nbytes out of mapped memory. */
    function ReadMapped(p: Ptr, nbytes: nat): seq<real>
      reads this
      requires p.MappedPtr? && p.allocation in mem && nbytes / FloatBytes <= |mem[p.allocation]|
    {
      mem[p.allocation][..nbytes / FloatBytes]
    }
  }
}
