/** Building the compute pipeline for the vector-add kernel (setup_compute) and recording,
    submitting and waiting for one dispatch (record_and_submit_compute). */
module LvRun {
  import opened Ledger
  import opened LvInit

  const U32: int := 0x1_0000_0000

  /** uint32_t */
  newtype uint32 = x: int | 0 <= x < 0x1_0000_0000

  /** The workgroup size of the kernel. */
  const LocalSize: nat := 256

  /** `(num_elements + 255) / 256` in uint32_t arithmetic: the number of 256-wide workgroups
      that cover num_elements, as long as the sum does not wrap; when it does (num_elements
      above 2^32 - 256) the count is 0 and no workgroup runs. */
  function GroupCountX(n: uint32): (g: uint32)
    ensures n as int <= U32 - LocalSize ==> (g as int - 1) * LocalSize < n as int <= g as int * LocalSize
    ensures n as int > U32 - LocalSize ==> g == 0
  {
    (((n as int + 255) % U32) / 256) as uint32
  }

  lemma GroupCountExamples()
    ensures GroupCountX(0) == 0 && GroupCountX(1) == 1 && GroupCountX(256) == 1 && GroupCountX(257) == 2
    ensures GroupCountX(1024) == 4
    ensures GroupCountX(0xFFFF_FF00) == 0xFF_FFFF && GroupCountX(0xFFFF_FF01) == 0
  {
  }

  const LayoutFailure: string := "Failed to create descriptor set layout"
  const PipelineLayoutFailure: string := "Failed to create pipeline layout"
  const PipelineFailure: string := "Failed to create compute pipeline"
  const PoolFailure: string := "Failed to create descriptor pool"
  const SetFailure: string := "Failed to allocate descriptor sets"
  const CommandPoolFailure: string := "Failed to create command pool"
  const CommandBufferFailure: string := "Failed to allocate command buffers"

  /** The three bindings of the kernel's descriptor set layout. */
  function LayoutBindings(): seq<Binding>
  {
    [ Binding(0, StorageBufferDescriptor, 1, ComputeStage),
      Binding(1, StorageBufferDescriptor, 1, ComputeStage),
      Binding(2, StorageBufferDescriptor, 1, ComputeStage) ]
  }

  /** The layout has three bindings, numbered 0 to 2, each one storage buffer seen by the compute stage. */
  lemma LayoutBindingsShape()
    ensures |LayoutBindings()| == 3
    ensures forall i :: 0 <= i < |LayoutBindings()| ==>
              var b := LayoutBindings()[i];
              b.binding == i && b.descriptorType == StorageBufferDescriptor
              && b.descriptorCount == 1 && b.stageFlags == ComputeStage
  {
  }

  /** The descriptor writes that point binding i of `descriptorSet` at the whole of buffer a, b or result. */
  function DescriptorWrites(descriptorSet: Handle, a: Handle, b: Handle, result: Handle): seq<DescriptorWrite>
  {
    [ DescriptorWrite(descriptorSet, 0, StorageBufferDescriptor, 1, Some(DescriptorBufferInfo(a, 0, WholeSize))),
      DescriptorWrite(descriptorSet, 1, StorageBufferDescriptor, 1, Some(DescriptorBufferInfo(b, 0, WholeSize))),
      DescriptorWrite(descriptorSet, 2, StorageBufferDescriptor, 1, Some(DescriptorBufferInfo(result, 0, WholeSize))) ]
  }

  /** Write i targets binding i of the set, one storage-buffer descriptor covering the whole of
      buffer a, b or result. */
  lemma DescriptorWritesShape(descriptorSet: Handle, a: Handle, b: Handle, result: Handle)
    ensures var ws := DescriptorWrites(descriptorSet, a, b, result);
            && |ws| == 3
            && forall i :: 0 <= i < |ws| ==>
                 && ws[i].dstSet == descriptorSet && ws[i].dstBinding == i
                 && ws[i].descriptorType == StorageBufferDescriptor && ws[i].descriptorCount == 1
                 && ws[i].bufferInfo == Some(DescriptorBufferInfo([a, b, result][i], 0, WholeSize))
  {
  }

  /** vkUpdateDescriptorSets with these writes touches the device, the set and the three buffers. */
  lemma DescriptorWritesUses(device: Handle, descriptorSet: Handle, a: Handle, b: Handle, result: Handle)
    ensures OpUses(DescriptorSetsUpdated(device, DescriptorWrites(descriptorSet, a, b, result)))
            == {device, descriptorSet, a, b, result}
  {
    var ws := DescriptorWrites(descriptorSet, a, b, result);
    assert ws[0] in ws && ws[1] in ws && ws[2] in ws;
    assert (set w | w in ws :: w.dstSet) == {descriptorSet};
    assert (set w | w in ws && w.bufferInfo.Some? :: w.bufferInfo.value.buffer) == {a, b, result};
  }

  /** The `bindings[3] = {}` array filled in by setup_compute's first loop. */
  method MakeLayoutBindings() returns (bindings: array<Binding>)
    ensures fresh(bindings) && bindings[..] == LayoutBindings()
  {
    bindings := new Binding[3](_ => Binding(0, SamplerDescriptor, 0, NoStage));
    for i := 0 to 3
      invariant forall j :: 0 <= j < i ==> bindings[j] == LayoutBindings()[j]
    {
      bindings[i] := bindings[i].(binding := i);
      bindings[i] := bindings[i].(descriptorType := StorageBufferDescriptor);
      bindings[i] := bindings[i].(descriptorCount := 1);
      bindings[i] := bindings[i].(stageFlags := ComputeStage);
    }
  }

  /** The `descriptor_writes[3] = {}` array filled in by setup_compute's second loop. */
  method MakeDescriptorWrites(descriptorSet: Handle, a: Handle, b: Handle, result: Handle) returns (writes: array<DescriptorWrite>)
    ensures fresh(writes) && writes[..] == DescriptorWrites(descriptorSet, a, b, result)
  {
    var bufferInfo := [DescriptorBufferInfo(a, 0, WholeSize), DescriptorBufferInfo(b, 0, WholeSize),
                       DescriptorBufferInfo(result, 0, WholeSize)];
    writes := new DescriptorWrite[3](_ => DescriptorWrite(NullHandle, 0, SamplerDescriptor, 0, None));
    for i := 0 to 3
      invariant forall j :: 0 <= j < i ==> writes[j] == DescriptorWrites(descriptorSet, a, b, result)[j]
    {
      writes[i] := writes[i].(dstSet := descriptorSet);
      writes[i] := writes[i].(dstBinding := i);
      writes[i] := writes[i].(descriptorType := StorageBufferDescriptor);
      writes[i] := writes[i].(descriptorCount := 1);
      writes[i] := writes[i].(bufferInfo := Some(bufferInfo[i]));
    }
  }

  /** The creating calls of setup_compute's first half, given that each earlier one succeeded and
      the handles were issued from `next` on: descriptor set layout (next), pipeline layout
      (next+1), shader module (next+2), compute pipeline (next+3). */
  function PipelineInfos(next: Handle, device: Handle, code: seq<bv8>): seq<CreateInfo>
  {
    [ DescriptorSetLayoutInfo(device, LayoutBindings()),
      PipelineLayoutInfo(device, [next]),
      ShaderModuleInfo(device, |code|, code),
      ComputePipelineInfo(device, ComputeStage, next + 2, "main", next + 1) ]
  }

  /** The shader module is destroyed right after the pipeline is made. */
  function PipelineExtras(next: Handle): map<nat, seq<Call>>
  {
    map[3 := [Destroyed(next + 2)]]
  }

  /** The creating calls of setup_compute's second half, with handles issued from `next` on:
      descriptor pool (next), descriptor set (next+1) with the given layout, command pool (next+2),
      command buffer (next+3). */
  function DescriptorInfos(next: Handle, device: Handle, family: nat, layout: Handle): seq<CreateInfo>
  {
    [ DescriptorPoolInfo(device, 1, [PoolSize(StorageBufferDescriptor, 3)]),
      DescriptorSetInfo(device, next, [layout]),
      CommandPoolInfo(device, true, family),
      CommandBufferInfo(device, next + 2, true, 1) ]
  }

  /** The descriptor set is written right after it is allocated. */
  function DescriptorExtras(next: Handle, device: Handle, a: Handle, b: Handle, result: Handle): map<nat, seq<Call>>
  {
    map[1 := [Invoked(DescriptorSetsUpdated(device, DescriptorWrites(next + 1, a, b, result)), true)]]
  }

  /** The descriptor pool is sized for exactly what is allocated from it: one set, whose layout
      has three storage-buffer descriptors of one each. */
  lemma PoolFitsLayout(next: Handle, device: Handle, family: nat, layout: Handle)
    ensures var infos := DescriptorInfos(next, device, family, layout);
            && infos[0].maxSets == |infos[1].setLayouts| == 1 && infos[1].setLayouts == [layout]
            && |infos[0].poolSizes| == 1 && infos[0].poolSizes[0].descriptorType == StorageBufferDescriptor
            && infos[0].poolSizes[0].descriptorCount == |LayoutBindings()|
  {
  }

  /** The message of a setup_compute that stopped after k creations. */
  function SetupMessage(k: nat, fileOpened: bool): string
    requires k < 8
  {
    [LayoutFailure, PipelineLayoutFailure, if fileOpened then ShaderModuleFailure else OpenShaderFailure,
     PipelineFailure, PoolFailure, SetFailure, CommandPoolFailure, CommandBufferFailure][k]
  }

  /** What (part of) setup_compute returns and leaves behind; `steps` is the number of objects created. */
  datatype SetupOutcome = SetupOutcome(result: VulkanError, world: World, steps: nat)

  /** The first half of setup_compute: layouts, shader module and pipeline; `file` is the shader
      file's contents, None when it cannot be opened.  All four steps succeeded when `steps` is 4. */
  function PipelinePhase(faults: map<nat, string>, w: World, device: Handle, file: Option<seq<bv8>>): SetupOutcome
  {
    var s1 := CreateStep(faults, w, DescriptorSetLayoutInfo(device, LayoutBindings()));
    if !s1.ok then SetupOutcome(VulkanError(LayoutFailure, false), s1.world, 0) else
    var s2 := CreateStep(faults, s1.world, PipelineLayoutInfo(device, [s1.handle]));
    if !s2.ok then SetupOutcome(VulkanError(PipelineLayoutFailure, false), s2.world, 1) else
    var sh := LoadShader(faults, s2.world, device, file);
    if !sh.result.success then SetupOutcome(sh.result, sh.world, 2) else
    var s4 := CreateStep(faults, sh.world, ComputePipelineInfo(device, ComputeStage, sh.shaderModule, "main", s2.handle));
    if !s4.ok then SetupOutcome(VulkanError(PipelineFailure, false), s4.world, 3) else
    SetupOutcome(VulkanError("", true), DestroyStep(s4.world, sh.shaderModule), 4)
  }

  /** The second half of setup_compute: the descriptor set, then the command buffer, where
      `layout` is the descriptor set layout made in the first half. */
  function DescriptorPhase(faults: map<nat, string>, w: World, device: Handle, family: nat, layout: Handle,
                           a: Handle, b: Handle, result: Handle): SetupOutcome
  {
    var d := DescriptorSetPhase(faults, w, device, layout, a, b, result);
    if d.steps < 2 then d
    else
      var c := CommandPhase(faults, d.world, device, family);
      SetupOutcome(c.result, c.world, 2 + c.steps)
  }

  /** Descriptor pool and set, which is then written. */
  function DescriptorSetPhase(faults: map<nat, string>, w: World, device: Handle, layout: Handle,
                              a: Handle, b: Handle, result: Handle): SetupOutcome
  {
    var s5 := CreateStep(faults, w, DescriptorPoolInfo(device, 1, [PoolSize(StorageBufferDescriptor, 3)]));
    if !s5.ok then SetupOutcome(VulkanError(PoolFailure, false), s5.world, 0) else
    var s6 := CreateStep(faults, s5.world, DescriptorSetInfo(device, s5.handle, [layout]));
    if !s6.ok then SetupOutcome(VulkanError(SetFailure, false), s6.world, 1) else
    var u := InvokeStep(faults, s6.world, DescriptorSetsUpdated(device, DescriptorWrites(s6.handle, a, b, result)));
    SetupOutcome(VulkanError("", true), u.world, 2)
  }

  /** Command pool and command buffer. */
  function CommandPhase(faults: map<nat, string>, w: World, device: Handle, family: nat): SetupOutcome
  {
    var s7 := CreateStep(faults, w, CommandPoolInfo(device, true, family));
    if !s7.ok then SetupOutcome(VulkanError(CommandPoolFailure, false), s7.world, 0) else
    var s8 := CreateStep(faults, s7.world, CommandBufferInfo(device, s7.handle, true, 1));
    if !s8.ok then SetupOutcome(VulkanError(CommandBufferFailure, false), s8.world, 1) else
    SetupOutcome(VulkanError("", true), s8.world, 2)
  }

  /** setup_compute step by step: the second half runs only when the first succeeded, with the
      descriptor set layout the first half created first (handle w.next). */
  function SetupSteps(faults: map<nat, string>, w: World, device: Handle, family: nat,
                      a: Handle, b: Handle, result: Handle, file: Option<seq<bv8>>): SetupOutcome
  {
    var p := PipelinePhase(faults, w, device, file);
    if p.steps < 4 then p
    else
      var d := DescriptorPhase(faults, p.world, device, family, w.next, a, b, result);
      SetupOutcome(d.result, d.world, 4 + d.steps)
  }

  /** The shader code setup_compute builds its module from (none when the file is missing). */
  function Code(file: Option<seq<bv8>>): seq<bv8>
  {
    if file.Some? then file.value else []
  }

  lemma PipelinePhaseStops(faults: map<nat, string>, w: World, device: Handle, file: Option<seq<bv8>>)
    ensures var o := PipelinePhase(faults, w, device, file);
            var at := w.attempts;
            && FirstFailure(faults, at, o.steps, if file.Some? then 4 else 2)
            && (o.result.success <==> o.steps == 4)
            && (o.steps < 4 ==> o.result.message == SetupMessage(o.steps, file.Some?))
            && o.world.attempts == at + (if o.steps < 4 && !(file.None? && o.steps == 2) then o.steps + 1 else o.steps)
            && o.world.next == w.next + o.steps
  {
    var s1 := CreateStep(faults, w, DescriptorSetLayoutInfo(device, LayoutBindings()));
    if !s1.ok { return; }
    var s2 := CreateStep(faults, s1.world, PipelineLayoutInfo(device, [s1.handle]));
    if !s2.ok { return; }
    var sh := LoadShader(faults, s2.world, device, file);
    if !sh.result.success { return; }
    var s4 := CreateStep(faults, sh.world, ComputePipelineInfo(device, ComputeStage, sh.shaderModule, "main", s2.handle));
  }

  lemma DescriptorPhaseStops(faults: map<nat, string>, w: World, device: Handle, family: nat, layout: Handle,
                             a: Handle, b: Handle, result: Handle)
    ensures var o := DescriptorPhase(faults, w, device, family, layout, a, b, result);
            var at := w.attempts;
            && FirstFailure(faults, at, o.steps, 4)
            && (o.result.success <==> o.steps == 4)
            && (o.steps < 4 ==> o.result.message == SetupMessage(4 + o.steps, true))
            && o.world.attempts == at + (if o.steps < 4 then o.steps + 1 else 4)
  {
    var s5 := CreateStep(faults, w, DescriptorPoolInfo(device, 1, [PoolSize(StorageBufferDescriptor, 3)]));
    if !s5.ok { return; }
    var s6 := CreateStep(faults, s5.world, DescriptorSetInfo(device, s5.handle, [layout]));
    if !s6.ok { return; }
    var u := InvokeStep(faults, s6.world, DescriptorSetsUpdated(device, DescriptorWrites(s6.handle, a, b, result)));
    var s7 := CreateStep(faults, u.world, CommandPoolInfo(device, true, family));
    if !s7.ok { return; }
    var s8 := CreateStep(faults, s7.world, CommandBufferInfo(device, s7.handle, true, 1));
  }

  /** setup_compute creates the layout, the pipeline layout, the shader module, the pipeline,
      the pool, the set, the command pool and the command buffer, in that order, and stops at the
      first failure, whose message names the step; it succeeds exactly when all eight do.  A
      missing shader file stops it after the pipeline layout, before any further call. */
  lemma SetupStopsAtFirstFailure(faults: map<nat, string>, w: World, device: Handle, family: nat,
                                 a: Handle, b: Handle, result: Handle, file: Option<seq<bv8>>)
    ensures var o := SetupSteps(faults, w, device, family, a, b, result, file);
            var at := w.attempts;
            && FirstFailure(faults, at, o.steps, if file.Some? then 8 else 2)
            && (o.result.success <==> o.steps == 8)
            && (o.steps < 8 ==> o.result.message == SetupMessage(o.steps, file.Some?))
            && o.world.attempts == at + (if o.steps < 8 && !(file.None? && o.steps == 2) then o.steps + 1 else o.steps)
  {
    PipelinePhaseStops(faults, w, device, file);
    var p := PipelinePhase(faults, w, device, file);
    if p.steps == 4 {
      DescriptorPhaseStops(faults, p.world, device, family, w.next, a, b, result);
      var d := DescriptorPhase(faults, p.world, device, family, w.next, a, b, result);
      FirstFailureConcat(faults, w.attempts, 4, d.steps, 4);
    }
  }

  /** The calls of the first half: the creations of PipelineInfos up to and including the first
      that fails, with the shader module destroyed after the pipeline; a missing shader file ends
      the calls after the pipeline layout. */
  lemma PipelinePhaseLog(faults: map<nat, string>, w: World, device: Handle, file: Option<seq<bv8>>)
    ensures var o := PipelinePhase(faults, w, device, file);
            var infos := PipelineInfos(w.next, device, Code(file));
            && o.steps <= 4
            && o.world.log == if file.None? && o.steps == 2 then Done(w.log, infos, w.next, 2, PipelineExtras(w.next))
                              else Tried(w.log, infos, w.next, o.steps, PipelineExtras(w.next))
  {
    var n := w.next;
    var infos := PipelineInfos(n, device, Code(file));
    var extras := PipelineExtras(n);
    var s1 := CreateStep(faults, w, infos[0]);
    assert s1.world.log == w.log + [Created(infos[0], s1.ok, s1.handle)];
    if !s1.ok { return; }
    assert s1.world.log == Done(w.log, infos, n, 1, extras);
    var s2 := CreateStep(faults, s1.world, infos[1]);
    assert s2.world.log == s1.world.log + [Created(infos[1], s2.ok, s2.handle)];
    if !s2.ok { return; }
    assert s2.world.log == Done(w.log, infos, n, 2, extras);
    if file.None? { return; }
    var s3 := CreateStep(faults, s2.world, infos[2]);
    assert s3.world.log == s2.world.log + [Created(infos[2], s3.ok, s3.handle)];
    if !s3.ok { return; }
    assert s3.world.log == Done(w.log, infos, n, 3, extras);
    var s4 := CreateStep(faults, s3.world, infos[3]);
    assert s4.world.log == s3.world.log + [Created(infos[3], s4.ok, s4.handle)];
    if !s4.ok { return; }
    assert DestroyStep(s4.world, n + 2).log == Done(w.log, infos, n, 4, extras);
  }

  /** The calls of the second half: the creations of DescriptorInfos up to and including the first
      that fails, with the descriptor set written right after it is allocated. */
  lemma DescriptorPhaseLog(faults: map<nat, string>, w: World, device: Handle, family: nat, layout: Handle,
                           a: Handle, b: Handle, result: Handle)
    ensures var o := DescriptorPhase(faults, w, device, family, layout, a, b, result);
            && o.steps <= 4
            && o.world.log == Tried(w.log, DescriptorInfos(w.next, device, family, layout), w.next, o.steps,
                                    DescriptorExtras(w.next, device, a, b, result))
  {
    var n := w.next;
    var infos := DescriptorInfos(n, device, family, layout);
    var extras := DescriptorExtras(n, device, a, b, result);
    DescriptorSetPhaseLog(faults, w, device, family, layout, a, b, result);
    var d := DescriptorSetPhase(faults, w, device, layout, a, b, result);
    if d.steps == 2 {
      CommandPhaseLog(faults, d.world, device, family, w.log, infos, n, extras);
    }
  }

  /** The calls of the descriptor pool and set steps. */
  lemma DescriptorSetPhaseLog(faults: map<nat, string>, w: World, device: Handle, family: nat, layout: Handle,
                              a: Handle, b: Handle, result: Handle)
    ensures var d := DescriptorSetPhase(faults, w, device, layout, a, b, result);
            var infos := DescriptorInfos(w.next, device, family, layout);
            var extras := DescriptorExtras(w.next, device, a, b, result);
            && d.steps <= 2 && d.world.next == w.next + d.steps
            && d.world.log == if d.steps < 2 then Tried(w.log, infos, w.next, d.steps, extras)
                              else Done(w.log, infos, w.next, 2, extras)
  {
    var n := w.next;
    var infos := DescriptorInfos(n, device, family, layout);
    var extras := DescriptorExtras(n, device, a, b, result);
    var s5 := CreateStep(faults, w, infos[0]);
    assert s5.world.log == w.log + [Created(infos[0], s5.ok, s5.handle)];
    if !s5.ok { return; }
    assert s5.world.log == Done(w.log, infos, n, 1, extras);
    var s6 := CreateStep(faults, s5.world, infos[1]);
    assert s6.world.log == s5.world.log + [Created(infos[1], s6.ok, s6.handle)];
    if !s6.ok { return; }
    var update := Invoked(DescriptorSetsUpdated(device, DescriptorWrites(n + 1, a, b, result)), true);
    assert extras[1] == [update];
    assert Record(s6.world, update).log == Done(w.log, infos, n, 2, extras);
  }

  /** The calls of the command pool and command buffer steps, continuing a build sequence whose
      first two steps succeeded. */
  lemma CommandPhaseLog(faults: map<nat, string>, v: World, device: Handle, family: nat,
                        log: seq<Call>, infos: seq<CreateInfo>, n: Handle, extras: map<nat, seq<Call>>)
    requires |infos| == 4 && v.next == n + 2 && 2 !in extras && 3 !in extras
    requires infos[2] == CommandPoolInfo(device, true, family) && infos[3] == CommandBufferInfo(device, n + 2, true, 1)
    requires v.log == Done(log, infos, n, 2, extras)
    ensures var c := CommandPhase(faults, v, device, family);
            c.steps <= 2 && c.world.log == Tried(log, infos, n, 2 + c.steps, extras)
  {
    var s7 := CreateStep(faults, v, infos[2]);
    assert s7.world.log == v.log + [Created(infos[2], s7.ok, s7.handle)];
    if !s7.ok { return; }
    assert s7.world.log == Done(log, infos, n, 3, extras);
    var s8 := CreateStep(faults, s7.world, infos[3]);
    assert s8.world.log == s7.world.log + [Created(infos[3], s8.ok, s8.handle)];
    if !s8.ok { return; }
    assert s8.world.log == Done(log, infos, n, 4, extras);
  }

  /** The eight creating calls of setup_compute, in order, with handles issued from `next` on. */
  function SetupInfos(next: Handle, device: Handle, family: nat, code: seq<bv8>): seq<CreateInfo>
  {
    PipelineInfos(next, device, code) + DescriptorInfos(next + 4, device, family, next)
  }

  /** How many creations setup_compute attempts when it stops after `steps`: the failing one
      too, except when the shader file is missing, which fails before its creation. */
  function SetupAttempted(steps: nat, fileOpened: bool): nat
  {
    if steps == 8 || (!fileOpened && steps == 2) then steps else steps + 1
  }

  /** The calls setup_compute makes, after `log`, when it stops after `steps` creations: the
      creations of its first half up to and including the first failure (with the shader module
      destroyed after the pipeline), and, when all four succeeded, those of its second half (with
      the descriptor set written after its allocation).  A missing shader file ends the calls
      after the pipeline layout. */
  function SetupCalls(log: seq<Call>, next: Handle, device: Handle, family: nat, a: Handle, b: Handle, result: Handle,
                      file: Option<seq<bv8>>, steps: nat): seq<Call>
    requires steps <= 8
  {
    var pipeline := PipelineInfos(next, device, Code(file));
    if steps < 4 then
      if file.None? && steps == 2 then Done(log, pipeline, next, 2, PipelineExtras(next))
      else Tried(log, pipeline, next, steps, PipelineExtras(next))
    else
      Tried(Done(log, pipeline, next, 4, PipelineExtras(next)), DescriptorInfos(next + 4, device, family, next),
            next + 4, steps - 4, DescriptorExtras(next + 4, device, a, b, result))
  }

  lemma PipelinePhaseNext(faults: map<nat, string>, w: World, device: Handle, file: Option<seq<bv8>>)
    ensures var o := PipelinePhase(faults, w, device, file);
            o.world.next == w.next + o.steps
  {
  }

  /** The calls of setup_compute are those of SetupCalls. */
  lemma SetupLog(faults: map<nat, string>, w: World, device: Handle, family: nat,
                 a: Handle, b: Handle, result: Handle, file: Option<seq<bv8>>)
    ensures var o := SetupSteps(faults, w, device, family, a, b, result, file);
            && o.steps <= 8
            && o.world.log == SetupCalls(w.log, w.next, device, family, a, b, result, file, o.steps)
  {
    PipelinePhaseLog(faults, w, device, file);
    PipelinePhaseNext(faults, w, device, file);
    var p := PipelinePhase(faults, w, device, file);
    if p.steps < 4 {
      PhaseLogJoin(w, device, family, a, b, result, file, p, p);
    } else {
      DescriptorPhaseLog(faults, p.world, device, family, w.next, a, b, result);
      var d := DescriptorPhase(faults, p.world, device, family, w.next, a, b, result);
      PhaseLogJoin(w, device, family, a, b, result, file, p, d);
    }
  }

  /** The calls of the two halves combined into those of the whole. */
  lemma PhaseLogJoin(w: World, device: Handle, family: nat, a: Handle, b: Handle, result: Handle,
                     file: Option<seq<bv8>>, p: SetupOutcome, d: SetupOutcome)
    requires var n := w.next;
             var pipeline := PipelineInfos(n, device, Code(file));
             && p.steps <= 4 && p.world.next == n + p.steps
             && p.world.log == if file.None? && p.steps == 2 then Done(w.log, pipeline, n, 2, PipelineExtras(n))
                               else Tried(w.log, pipeline, n, p.steps, PipelineExtras(n))
    requires p.steps == 4 ==>
               && d.steps <= 4
               && d.world.log == Tried(p.world.log, DescriptorInfos(p.world.next, device, family, w.next), p.world.next,
                                       d.steps, DescriptorExtras(p.world.next, device, a, b, result))
    ensures var o := if p.steps < 4 then p else SetupOutcome(d.result, d.world, 4 + d.steps);
            && o.steps <= 8
            && o.world.log == SetupCalls(w.log, w.next, device, family, a, b, result, file, o.steps)
  {
    if p.steps == 4 {
      var n := w.next;
      var pipeline := PipelineInfos(n, device, Code(file));
      assert p.world.log == Done(w.log, pipeline, n, 4, PipelineExtras(n));
    }
  }

  /** setup_compute attempts the creations of SetupInfos in order and stops at the first failure. */
  lemma SetupOrder(faults: map<nat, string>, w: World, device: Handle, family: nat,
                   a: Handle, b: Handle, result: Handle, file: Option<seq<bv8>>)
    ensures var o := SetupSteps(faults, w, device, family, a, b, result, file);
            var infos := SetupInfos(w.next, device, family, Code(file));
            && SetupAttempted(o.steps, file.Some?) <= |infos|
            && Creations(o.world.log) == Creations(w.log) + infos[..SetupAttempted(o.steps, file.Some?)]
  {
    SetupLog(faults, w, device, family, a, b, result, file);
    var o := SetupSteps(faults, w, device, family, a, b, result, file);
    SetupCallsCreations(w.log, w.next, device, family, a, b, result, file, o.steps);
  }

  lemma SetupCallsCreations(log: seq<Call>, n: Handle, device: Handle, family: nat, a: Handle, b: Handle, result: Handle,
                            file: Option<seq<bv8>>, steps: nat)
    requires steps <= 8 && (file.None? ==> steps <= 2)
    ensures var infos := SetupInfos(n, device, family, Code(file));
            && SetupAttempted(steps, file.Some?) <= |infos|
            && Creations(SetupCalls(log, n, device, family, a, b, result, file, steps))
               == Creations(log) + infos[..SetupAttempted(steps, file.Some?)]
  {
    var pipeline := PipelineInfos(n, device, Code(file));
    var descriptors := DescriptorInfos(n + 4, device, family, n);
    PrefixOfConcat(Creations(log), pipeline, descriptors, SetupAttempted(steps, file.Some?));
    if steps < 4 {
      PipelineCallsCreations(log, n, device, file, steps);
    } else {
      DescriptorCallsCreations(log, n, device, family, a, b, result, file, steps - 4);
    }
  }

  lemma PipelineCallsCreations(log: seq<Call>, n: Handle, device: Handle, file: Option<seq<bv8>>, steps: nat)
    requires steps < 4 && (file.None? ==> steps <= 2)
    ensures var pipeline := PipelineInfos(n, device, Code(file));
            var calls := if file.None? && steps == 2 then Done(log, pipeline, n, 2, PipelineExtras(n))
                         else Tried(log, pipeline, n, steps, PipelineExtras(n));
            Creations(calls) == Creations(log) + pipeline[..SetupAttempted(steps, file.Some?)]
  {
    var pipeline := PipelineInfos(n, device, Code(file));
    ExtrasCreateNothing(n, n + 4, device, 0, 0, 0);
    if file.None? && steps == 2 {
      DoneCreations(log, pipeline, n, 2, PipelineExtras(n));
    } else {
      TriedCreations(log, pipeline, n, steps, PipelineExtras(n));
    }
  }

  lemma DescriptorCallsCreations(log: seq<Call>, n: Handle, device: Handle, family: nat, a: Handle, b: Handle, result: Handle,
                                 file: Option<seq<bv8>>, k: nat)
    requires k <= 4
    ensures var pipeline := PipelineInfos(n, device, Code(file));
            var descriptors := DescriptorInfos(n + 4, device, family, n);
            var first := Done(log, pipeline, n, 4, PipelineExtras(n));
            Creations(Tried(first, descriptors, n + 4, k, DescriptorExtras(n + 4, device, a, b, result)))
            == Creations(log) + pipeline + descriptors[..if k < 4 then k + 1 else 4]
  {
    var pipeline := PipelineInfos(n, device, Code(file));
    var descriptors := DescriptorInfos(n + 4, device, family, n);
    ExtrasCreateNothing(n, n + 4, device, a, b, result);
    var first := Done(log, pipeline, n, 4, PipelineExtras(n));
    DoneCreations(log, pipeline, n, 4, PipelineExtras(n));
    assert pipeline[..4] == pipeline;
    TriedCreations(first, descriptors, n + 4, k, DescriptorExtras(n + 4, device, a, b, result));
  }

  /** The calls setup_compute makes between creations create nothing. */
  lemma ExtrasCreateNothing(n: Handle, m: Handle, device: Handle, a: Handle, b: Handle, result: Handle)
    ensures forall i :: i in PipelineExtras(n) ==> Creations(PipelineExtras(n)[i]) == []
    ensures forall i :: i in DescriptorExtras(m, device, a, b, result) ==>
              Creations(DescriptorExtras(m, device, a, b, result)[i]) == []
  {
    var destroy := [Destroyed(n + 2)];
    assert destroy[..0] == [];
    var update := [Invoked(DescriptorSetsUpdated(device, DescriptorWrites(m + 1, a, b, result)), true)];
    assert update[..0] == [];
  }

  lemma PrefixOfConcat<T>(start: seq<T>, x: seq<T>, y: seq<T>, k: nat)
    requires k <= |x| + |y|
    ensures start + (x + y)[..k] == if k <= |x| then start + x[..k] else start + x + y[..k - |x|]
  {
    if k > |x| {
      assert (x + y)[..k] == x + y[..k - |x|];
    }
  }

  /** The first half keeps every handle it makes except the shader module, which it releases
      once the pipeline exists. */
  lemma PipelinePhaseHandles(faults: map<nat, string>, w: World, device: Handle, file: Option<seq<bv8>>)
    ensures var o := PipelinePhase(faults, w, device, file);
            && o.world.next == w.next + o.steps
            && o.world.live == w.live + Issued(w.next, o.steps) - (if o.steps == 4 then {w.next + 2} else {})
  {
    var n := w.next;
    var i1 := DescriptorSetLayoutInfo(device, LayoutBindings());
    var s1 := CreateStep(faults, w, i1);
    if !s1.ok { return; }
    assert s1.world.live == w.live + Issued(n, 1);
    var i2 := PipelineLayoutInfo(device, [s1.handle]);
    var s2 := CreateStep(faults, s1.world, i2);
    if !s2.ok { return; }
    assert s2.world.live == w.live + Issued(n, 2);
    if file.None? { return; }
    var i3 := ShaderModuleInfo(device, |file.value|, file.value);
    var s3 := CreateStep(faults, s2.world, i3);
    if !s3.ok { return; }
    assert s3.world.live == w.live + Issued(n, 3);
    var i4 := ComputePipelineInfo(device, ComputeStage, n + 2, "main", n + 1);
    var s4 := CreateStep(faults, s3.world, i4);
    if !s4.ok { return; }
    assert s4.world.live == w.live + Issued(n, 4);
  }

  /** The second half keeps every handle it makes. */
  lemma DescriptorPhaseHandles(faults: map<nat, string>, w: World, device: Handle, family: nat, layout: Handle,
                               a: Handle, b: Handle, result: Handle)
    ensures var o := DescriptorPhase(faults, w, device, family, layout, a, b, result);
            && o.world.next == w.next + o.steps
            && o.world.live == w.live + Issued(w.next, o.steps)
  {
    var n := w.next;
    var i5 := DescriptorPoolInfo(device, 1, [PoolSize(StorageBufferDescriptor, 3)]);
    var s5 := CreateStep(faults, w, i5);
    if !s5.ok { return; }
    assert s5.world.live == w.live + Issued(n, 1);
    var i6 := DescriptorSetInfo(device, s5.handle, [layout]);
    var s6 := CreateStep(faults, s5.world, i6);
    if !s6.ok { return; }
    assert s6.world.live == w.live + Issued(n, 2);
    var u := InvokeStep(faults, s6.world, DescriptorSetsUpdated(device, DescriptorWrites(s6.handle, a, b, result)));
    assert u.world.live == s6.world.live && u.world.next == s6.world.next;
    var i7 := CommandPoolInfo(device, true, family);
    var s7 := CreateStep(faults, u.world, i7);
    if !s7.ok { return; }
    assert s7.world.live == w.live + Issued(n, 3);
    var i8 := CommandBufferInfo(device, s7.handle, true, 1);
    var s8 := CreateStep(faults, s7.world, i8);
    if !s8.ok { return; }
    assert s8.world.live == w.live + Issued(n, 4);
  }

  /** A failing setup_compute releases nothing it made: every handle created before the failure
      stays live, including the shader module when the pipeline step fails.  Only the shader
      module is released, once the pipeline exists. */
  lemma SetupHandles(faults: map<nat, string>, w: World, device: Handle, family: nat,
                     a: Handle, b: Handle, result: Handle, file: Option<seq<bv8>>)
    ensures var o := SetupSteps(faults, w, device, family, a, b, result, file);
            && o.world.next == w.next + o.steps
            && o.world.live == w.live + Issued(w.next, o.steps) - (if o.steps > 3 then {w.next + 2} else {})
            && (o.steps == 3 ==> w.next + 2 in o.world.live)
  {
    var n := w.next;
    PipelinePhaseHandles(faults, w, device, file);
    var p := PipelinePhase(faults, w, device, file);
    var o := SetupSteps(faults, w, device, family, a, b, result, file);
    if p.steps < 4 {
      assert o == p;
      PhaseHandlesJoin(w, p, p);
    } else {
      DescriptorPhaseHandles(faults, p.world, device, family, n, a, b, result);
      var d := DescriptorPhase(faults, p.world, device, family, n, a, b, result);
      assert o == SetupOutcome(d.result, d.world, 4 + d.steps);
      PhaseHandlesJoin(w, p, d);
    }
  }

  /** The handle facts of the two halves combined into those of the whole. */
  lemma PhaseHandlesJoin(w: World, p: SetupOutcome, d: SetupOutcome)
    requires p.world.next == w.next + p.steps && p.steps <= 4
    requires p.world.live == w.live + Issued(w.next, p.steps) - (if p.steps == 4 then {w.next + 2} else {})
    requires p.steps == 4 ==> d.world.next == p.world.next + d.steps && d.world.live == p.world.live + Issued(p.world.next, d.steps)
    ensures var o := if p.steps < 4 then p else SetupOutcome(d.result, d.world, 4 + d.steps);
            && o.world.next == w.next + o.steps
            && o.world.live == w.live + Issued(w.next, o.steps) - (if o.steps > 3 then {w.next + 2} else {})
            && (o.steps == 3 ==> w.next + 2 in o.world.live)
  {
    if p.steps == 3 {
      IssuedBounds(w.next, 3);
    }
    if p.steps == 4 {
      SetupLiveJoin(w.live, w.next, d.steps);
    }
  }

  /** setup_compute keeps the ledger's handles fresh: every live handle is below `next`. */
  lemma SetupFresh(faults: map<nat, string>, w: World, device: Handle, family: nat,
                   a: Handle, b: Handle, result: Handle, file: Option<seq<bv8>>)
    requires Fresh(w)
    ensures Fresh(SetupSteps(faults, w, device, family, a, b, result, file).world)
  {
    SetupHandles(faults, w, device, family, a, b, result, file);
    IssuedBounds(w.next, SetupSteps(faults, w, device, family, a, b, result, file).steps);
  }

  /** The handles live after both halves: those of the first half without the shader module,
      then those of the second. */
  lemma SetupLiveJoin(live: set<Handle>, n: Handle, k: nat)
    ensures live + Issued(n, 4) - {n + 2} + Issued(n + 4, k) == live + Issued(n, 4 + k) - {n + 2}
  {
    IssuedConcat(n, 4, k);
    IssuedBounds(n + 4, k);
  }

  lemma {:induction false} PipelineReleased(released: seq<Call>, next: Handle, k: nat)
    ensures Released(released, PipelineExtras(next), k) == released + (if k > 3 then [Destroyed(next + 2)] else [])
  {
    if k > 0 {
      PipelineReleased(released, next, k - 1);
      if k - 1 == 3 {
        var extra := [Destroyed(next + 2)];
        assert extra[..0] == [];
        assert Teardown(extra) == extra;
      }
    }
  }

  lemma {:induction false} DescriptorReleased(released: seq<Call>, next: Handle, device: Handle, a: Handle, b: Handle,
                                              result: Handle, k: nat)
    ensures Released(released, DescriptorExtras(next, device, a, b, result), k) == released
  {
    if k > 0 {
      DescriptorReleased(released, next, device, a, b, result, k - 1);
      if k - 1 == 1 {
        var extra := DescriptorExtras(next, device, a, b, result)[1];
        assert extra[..0] == [];
        assert Teardown(extra) == [];
      }
    }
  }

  /** setup_compute's only release is the shader module's, right after the pipeline exists. */
  lemma SetupTeardown(faults: map<nat, string>, w: World, device: Handle, family: nat,
                      a: Handle, b: Handle, result: Handle, file: Option<seq<bv8>>)
    ensures var o := SetupSteps(faults, w, device, family, a, b, result, file);
            Teardown(o.world.log) == Teardown(w.log) + (if o.steps > 3 then [Destroyed(w.next + 2)] else [])
  {
    SetupLog(faults, w, device, family, a, b, result, file);
    var o := SetupSteps(faults, w, device, family, a, b, result, file);
    SetupCallsTeardown(w.log, w.next, device, family, a, b, result, file, o.steps);
  }

  lemma SetupCallsTeardown(log: seq<Call>, n: Handle, device: Handle, family: nat, a: Handle, b: Handle, result: Handle,
                           file: Option<seq<bv8>>, steps: nat)
    requires steps <= 8
    ensures Teardown(SetupCalls(log, n, device, family, a, b, result, file, steps))
            == Teardown(log) + (if steps > 3 then [Destroyed(n + 2)] else [])
  {
    var pipeline := PipelineInfos(n, device, Code(file));
    var pe := PipelineExtras(n);
    if steps < 4 {
      if file.None? && steps == 2 {
        DoneTeardown(log, pipeline, n, 2, pe);
      } else {
        TriedTeardown(log, pipeline, n, steps, pe);
      }
      PipelineReleased(Teardown(log), n, steps);
    } else {
      var de := DescriptorExtras(n + 4, device, a, b, result);
      var first := Done(log, pipeline, n, 4, pe);
      DoneTeardown(log, pipeline, n, 4, pe);
      PipelineReleased(Teardown(log), n, 4);
      TriedTeardown(first, DescriptorInfos(n + 4, device, family, n), n + 4, steps - 4, de);
      DescriptorReleased(Teardown(first), n + 4, device, a, b, result, steps - 4);
    }
  }

  /** setup_compute: `shaderFile` is the contents of the kernel's SPIR-V file, None when it cannot
      be opened.  Each field of `compute` is written by the step that creates it; a failing step
      returns at once and leaves the later fields as they were. */
  method SetupCompute(drv: Driver, ctx: VulkanContext, compute: ComputePipeline,
                      aBuffer: Buffer, bBuffer: Buffer, resultBuffer: Buffer, shaderFile: Option<seq<bv8>>)
    returns (r: VulkanError)
    requires Fresh(drv.St()) && ctx.device in drv.live && ctx.computeFamily.Some?
    requires aBuffer.buffer in drv.live && bBuffer.buffer in drv.live && resultBuffer.buffer in drv.live
    modifies drv, compute
    ensures var o := SetupSteps(drv.faults, old(drv.St()), ctx.device, ctx.computeFamily.value,
                                aBuffer.buffer, bBuffer.buffer, resultBuffer.buffer, shaderFile);
            var n := old(drv.next);
            && r == o.result && drv.St() == o.world && drv.mem == old(drv.mem)
            && compute.descriptorLayout == (if o.steps > 0 then n else old(compute.descriptorLayout))
            && compute.pipelineLayout == (if o.steps > 1 then n + 1 else old(compute.pipelineLayout))
            && compute.pipeline == (if o.steps > 3 then n + 3 else old(compute.pipeline))
            && compute.descriptorPool == (if o.steps > 4 then n + 4 else old(compute.descriptorPool))
            && compute.descriptorSet == (if o.steps > 5 then n + 5 else old(compute.descriptorSet))
            && compute.commandPool == (if o.steps > 6 then n + 6 else old(compute.commandPool))
            && compute.commandBuffer == (if o.steps > 7 then n + 7 else old(compute.commandBuffer))
  {
    ghost var w := drv.St();
    r := BuildPipeline(drv, ctx, compute, shaderFile);
    if !r.success {
      return;
    }
    PipelinePhaseHandles(drv.faults, w, ctx.device, shaderFile);
    IssuedBounds(w.next, 4);
    r := AllocateDescriptorSet(drv, ctx, compute, aBuffer, bBuffer, resultBuffer);
    if !r.success {
      return;
    }
    r := CreateCommandBuffer(drv, ctx, compute);
  }

  /** setup_compute up to the destruction of the shader module. */
  method BuildPipeline(drv: Driver, ctx: VulkanContext, compute: ComputePipeline, shaderFile: Option<seq<bv8>>)
    returns (r: VulkanError)
    requires ctx.device in drv.live
    modifies drv, compute
    ensures var o := PipelinePhase(drv.faults, old(drv.St()), ctx.device, shaderFile);
            var n := old(drv.next);
            && r == o.result && (r.success <==> o.steps == 4) && drv.St() == o.world && drv.mem == old(drv.mem)
            && compute.descriptorLayout == (if o.steps > 0 then n else old(compute.descriptorLayout))
            && compute.pipelineLayout == (if o.steps > 1 then n + 1 else old(compute.pipelineLayout))
            && compute.pipeline == (if o.steps > 3 then n + 3 else old(compute.pipeline))
            && compute.descriptorPool == old(compute.descriptorPool) && compute.descriptorSet == old(compute.descriptorSet)
            && compute.commandPool == old(compute.commandPool) && compute.commandBuffer == old(compute.commandBuffer)
  {
    var device := ctx.device;
    var bindings := MakeLayoutBindings();
    var ok, h := drv.Create(DescriptorSetLayoutInfo(device, bindings[..]));
    if !ok {
      return VulkanError(LayoutFailure, false);
    }
    compute.descriptorLayout := h;

    ok, h := drv.Create(PipelineLayoutInfo(device, [compute.descriptorLayout]));
    if !ok {
      return VulkanError(PipelineLayoutFailure, false);
    }
    compute.pipelineLayout := h;

    var computeShader;
    r, computeShader := CreateShaderModule(drv, ctx, shaderFile);
    if !r.success {
      return r;
    }

    ok, h := drv.Create(ComputePipelineInfo(device, ComputeStage, computeShader, "main", compute.pipelineLayout));
    if !ok {
      return VulkanError(PipelineFailure, false);
    }
    compute.pipeline := h;

    drv.Destroy(computeShader);
    return VulkanError("", true);
  }

  /** The descriptor pool and set of setup_compute, and the write that points the set at the buffers. */
  method AllocateDescriptorSet(drv: Driver, ctx: VulkanContext, compute: ComputePipeline,
                               aBuffer: Buffer, bBuffer: Buffer, resultBuffer: Buffer)
    returns (r: VulkanError)
    requires ctx.device in drv.live && compute.descriptorLayout in drv.live
    requires aBuffer.buffer in drv.live && bBuffer.buffer in drv.live && resultBuffer.buffer in drv.live
    modifies drv, compute
    ensures var o := DescriptorSetPhase(drv.faults, old(drv.St()), ctx.device, old(compute.descriptorLayout),
                                        aBuffer.buffer, bBuffer.buffer, resultBuffer.buffer);
            var n := old(drv.next);
            && r == o.result && (r.success <==> o.steps == 2) && drv.St() == o.world && drv.mem == old(drv.mem)
            && compute.descriptorPool == (if o.steps > 0 then n else old(compute.descriptorPool))
            && compute.descriptorSet == (if o.steps > 1 then n + 1 else old(compute.descriptorSet))
            && compute.descriptorLayout == old(compute.descriptorLayout)
            && compute.pipelineLayout == old(compute.pipelineLayout) && compute.pipeline == old(compute.pipeline)
            && compute.commandPool == old(compute.commandPool) && compute.commandBuffer == old(compute.commandBuffer)
  {
    var device := ctx.device;
    var ok, h := drv.Create(DescriptorPoolInfo(device, 1, [PoolSize(StorageBufferDescriptor, 3)]));
    if !ok {
      return VulkanError(PoolFailure, false);
    }
    compute.descriptorPool := h;

    ok, h := drv.Create(DescriptorSetInfo(device, compute.descriptorPool, [compute.descriptorLayout]));
    if !ok {
      return VulkanError(SetFailure, false);
    }
    compute.descriptorSet := h;

    var writes := MakeDescriptorWrites(compute.descriptorSet, aBuffer.buffer, bBuffer.buffer, resultBuffer.buffer);
    DescriptorWritesUses(device, compute.descriptorSet, aBuffer.buffer, bBuffer.buffer, resultBuffer.buffer);
    ok := drv.Invoke(DescriptorSetsUpdated(device, writes[..]));
    return VulkanError("", true);
  }

  /** The command pool (on the device's compute queue family) and command buffer of setup_compute. */
  method CreateCommandBuffer(drv: Driver, ctx: VulkanContext, compute: ComputePipeline) returns (r: VulkanError)
    requires ctx.device in drv.live && ctx.computeFamily.Some?
    modifies drv, compute
    ensures var o := CommandPhase(drv.faults, old(drv.St()), ctx.device, ctx.computeFamily.value);
            var n := old(drv.next);
            && r == o.result && drv.St() == o.world && drv.mem == old(drv.mem)
            && compute.commandPool == (if o.steps > 0 then n else old(compute.commandPool))
            && compute.commandBuffer == (if o.steps > 1 then n + 1 else old(compute.commandBuffer))
            && compute.descriptorLayout == old(compute.descriptorLayout)
            && compute.pipelineLayout == old(compute.pipelineLayout) && compute.pipeline == old(compute.pipeline)
            && compute.descriptorPool == old(compute.descriptorPool) && compute.descriptorSet == old(compute.descriptorSet)
  {
    var device := ctx.device;
    var ok, h := drv.Create(CommandPoolInfo(device, true, ctx.computeFamily.value));
    if !ok {
      return VulkanError(CommandPoolFailure, false);
    }
    compute.commandPool := h;

    ok, h := drv.Create(CommandBufferInfo(device, compute.commandPool, true, 1));
    if !ok {
      return VulkanError(CommandBufferFailure, false);
    }
    compute.commandBuffer := h;
    return VulkanError("", true);
  }

  const BeginFailure: string := "Failed to begin command buffer"
  const EndFailure: string := "Failed to end command buffer"
  const SubmitFailure: string := "Failed to submit compute work"
  const WaitFailure: string := "Failed to wait for compute queue"

  /** The calls of record_and_submit_compute, in order, for the pipeline `f` and the compute
      queue: begin (one-time submit), bind the pipeline, bind the descriptor set, dispatch
      GroupCountX(numElements) x 1 x 1 workgroups, end, submit the command buffer, wait for idle. */
  function DispatchOps(f: ComputeFields, queue: Queue, numElements: uint32): seq<Op>
  {
    var cb := f.commandBuffer;
    [ BeginCommandBuffer(cb, true), BindComputePipeline(cb, f.pipeline),
      BindDescriptorSets(cb, f.pipelineLayout, 0, [f.descriptorSet]),
      Dispatch(cb, GroupCountX(numElements) as nat, 1, 1), EndCommandBuffer(cb),
      QueueSubmit(queue, [cb]), QueueWaitIdle(queue) ]
  }

  /** What record_and_submit_compute returns and leaves behind; `steps` counts the calls returning
      a VkResult that succeeded (begin, end, submit, wait). */
  datatype DispatchOutcome = DispatchOutcome(result: VulkanError, world: World, steps: nat)

  /** record_and_submit_compute step by step. */
  function DispatchSteps(faults: map<nat, string>, w: World, f: ComputeFields, queue: Queue, numElements: uint32): DispatchOutcome
  {
    var ops := DispatchOps(f, queue, numElements);
    var begin := InvokeStep(faults, w, ops[0]);
    if !begin.ok then DispatchOutcome(VulkanError(BeginFailure, false), begin.world, 0) else
    var bind := InvokeStep(faults, begin.world, ops[1]);
    var bindSets := InvokeStep(faults, bind.world, ops[2]);
    var dispatch := InvokeStep(faults, bindSets.world, ops[3]);
    var end := InvokeStep(faults, dispatch.world, ops[4]);
    if !end.ok then DispatchOutcome(VulkanError(EndFailure, false), end.world, 1) else
    var submit := InvokeStep(faults, end.world, ops[5]);
    if !submit.ok then DispatchOutcome(VulkanError(SubmitFailure, false), submit.world, 2) else
    var wait := InvokeStep(faults, submit.world, ops[6]);
    if !wait.ok then DispatchOutcome(VulkanError(WaitFailure, false), wait.world, 3) else
    DispatchOutcome(VulkanError("", true), wait.world, 4)
  }

  /** The message of a record_and_submit_compute whose k-th call returning a VkResult failed. */
  function DispatchMessage(k: nat): string
    requires k < 4
  {
    [BeginFailure, EndFailure, SubmitFailure, WaitFailure][k]
  }

  /** How many of DispatchOps are made when `steps` of the calls returning a VkResult succeeded. */
  function DispatchReach(steps: nat): nat
  {
    if steps == 0 then 1 else if steps < 4 then steps + 4 else 7
  }

  /** `log` followed by the entries of the first k of `ops`, each made successfully. */
  function Performed(log: seq<Call>, ops: seq<Op>, k: nat): seq<Call>
    requires k <= |ops|
  {
    if k == 0 then log else Performed(log, ops, k - 1) + [Invoked(ops[k - 1], true)]
  }

  /** The log after record_and_submit_compute: the calls of DispatchOps up to DispatchReach(steps),
      the last of them failed unless all four checked calls succeeded. */
  function DispatchCalls(log: seq<Call>, ops: seq<Op>, steps: nat): seq<Call>
    requires |ops| == 7
  {
    var reach := DispatchReach(steps);
    if steps >= 4 then Performed(log, ops, 7)
    else Performed(log, ops, reach - 1) + [Invoked(ops[reach - 1], false)]
  }

  /** record_and_submit_compute stops at the first of begin, end, submit and wait that fails,
      with that step's message, and succeeds exactly when all four do. */
  lemma DispatchStopsAtFirstFailure(faults: map<nat, string>, w: World, f: ComputeFields, queue: Queue, numElements: uint32)
    ensures var o := DispatchSteps(faults, w, f, queue, numElements);
            && FirstFailure(faults, w.attempts, o.steps, 4)
            && (o.result.success <==> o.steps == 4)
            && (o.steps < 4 ==> o.result.message == DispatchMessage(o.steps))
            && o.world.attempts == w.attempts + (if o.steps < 4 then o.steps + 1 else 4)
  {
  }

  /** The calls record_and_submit_compute makes: DispatchOps in order up to and including the
      first that fails; it creates and releases nothing. */
  lemma DispatchLog(faults: map<nat, string>, w: World, f: ComputeFields, queue: Queue, numElements: uint32)
    ensures var o := DispatchSteps(faults, w, f, queue, numElements);
            && o.steps <= 4
            && o.world.log == DispatchCalls(w.log, DispatchOps(f, queue, numElements), o.steps)
            && o.world.live == w.live && o.world.next == w.next
  {
    var ops := DispatchOps(f, queue, numElements);
    var begin := InvokeStep(faults, w, ops[0]);
    if !begin.ok { return; }
    assert begin.world.log == Performed(w.log, ops, 1);
    var bind := InvokeStep(faults, begin.world, ops[1]);
    assert bind.world.log == Performed(w.log, ops, 2);
    var bindSets := InvokeStep(faults, bind.world, ops[2]);
    assert bindSets.world.log == Performed(w.log, ops, 3);
    var dispatch := InvokeStep(faults, bindSets.world, ops[3]);
    assert dispatch.world.log == Performed(w.log, ops, 4);
    var end := InvokeStep(faults, dispatch.world, ops[4]);
    if !end.ok { return; }
    assert end.world.log == Performed(w.log, ops, 5);
    var submit := InvokeStep(faults, end.world, ops[5]);
    if !submit.ok { return; }
    assert submit.world.log == Performed(w.log, ops, 6);
    var wait := InvokeStep(faults, submit.world, ops[6]);
    if !wait.ok { return; }
    assert wait.world.log == Performed(w.log, ops, 7);
  }

  /** Entry j of Performed(log, ops, k) after `log` is the successful call of ops[j]. */
  lemma {:induction false} PerformedAt(log: seq<Call>, ops: seq<Op>, k: nat, j: nat)
    requires j < k <= |ops|
    ensures |Performed(log, ops, k)| == |log| + k
    ensures Performed(log, ops, k)[|log| + j] == Invoked(ops[j], true)
  {
    if j < k - 1 {
      PerformedAt(log, ops, k - 1, j);
    } else {
      PerformedLength(log, ops, k - 1);
    }
  }

  lemma {:induction false} PerformedLength(log: seq<Call>, ops: seq<Op>, k: nat)
    requires k <= |ops|
    ensures |Performed(log, ops, k)| == |log| + k
  {
    if k > 0 {
      PerformedLength(log, ops, k - 1);
    }
  }

  /** Once the command buffer has begun, the dispatch is recorded with GroupCountX(numElements)
      workgroups in X and one in Y and Z, as the fourth call. */
  lemma DispatchRecorded(faults: map<nat, string>, w: World, f: ComputeFields, queue: Queue, numElements: uint32)
    ensures var o := DispatchSteps(faults, w, f, queue, numElements);
            o.steps > 0 ==>
              && |o.world.log| > |w.log| + 3
              && o.world.log[|w.log| + 3] == Invoked(Dispatch(f.commandBuffer, GroupCountX(numElements) as nat, 1, 1), true)
  {
    DispatchLog(faults, w, f, queue, numElements);
    var o := DispatchSteps(faults, w, f, queue, numElements);
    var ops := DispatchOps(f, queue, numElements);
    if o.steps > 0 {
      var k := if o.steps >= 4 then 7 else DispatchReach(o.steps) - 1;
      PerformedAt(w.log, ops, k, 3);
      assert o.world.log[..|w.log| + k] == Performed(w.log, ops, k);
    }
  }

  /** record_and_submit_compute releases nothing. */
  lemma DispatchTeardown(faults: map<nat, string>, w: World, f: ComputeFields, queue: Queue, numElements: uint32)
    ensures var o := DispatchSteps(faults, w, f, queue, numElements);
            Teardown(o.world.log) == Teardown(w.log)
  {
    DispatchLog(faults, w, f, queue, numElements);
    var o := DispatchSteps(faults, w, f, queue, numElements);
    var ops := DispatchOps(f, queue, numElements);
    if o.steps >= 4 {
      PerformedReleasesNothing(w.log, ops, 7);
    } else {
      var k := DispatchReach(o.steps) - 1;
      PerformedReleasesNothing(w.log, ops, k);
      TeardownSnoc(Performed(w.log, ops, k), Invoked(ops[k], false));
    }
  }

  lemma {:induction false} PerformedReleasesNothing(log: seq<Call>, ops: seq<Op>, k: nat)
    requires k <= |ops|
    ensures Teardown(Performed(log, ops, k)) == Teardown(log)
  {
    if k > 0 {
      PerformedReleasesNothing(log, ops, k - 1);
      TeardownSnoc(Performed(log, ops, k - 1), Invoked(ops[k - 1], true));
    }
  }

  /** record_and_submit_compute on the compute queue of `ctx`'s device.  Once the submit has
      succeeded the kernel may write mapped memory, even when the wait then fails: its output is
      not modelled, only that no allocation appears, disappears or changes size.  A failure
      before the submit leaves mapped memory as it was. */
  method RecordAndSubmitCompute(drv: Driver, ctx: VulkanContext, compute: ComputePipeline, numElements: uint32)
    returns (r: VulkanError)
    requires ctx.device in drv.live && ctx.computeFamily.Some?
    requires compute.commandBuffer in drv.live && compute.pipeline in drv.live
    requires compute.pipelineLayout in drv.live && compute.descriptorSet in drv.live
    modifies drv
    ensures var o := DispatchSteps(drv.faults, old(drv.St()), compute.Fields(), Queue(ctx.device, ctx.computeFamily.value), numElements);
            && r == o.result && drv.St() == o.world
    ensures SameShape(old(drv.mem), drv.mem)
    ensures !r.success && r.message != WaitFailure ==> drv.mem == old(drv.mem)
  {
    var cb := compute.commandBuffer;
    var ok := drv.Invoke(BeginCommandBuffer(cb, true));
    if !ok {
      return VulkanError(BeginFailure, false);
    }

    ok := drv.Invoke(BindComputePipeline(cb, compute.pipeline));
    ok := drv.Invoke(BindDescriptorSets(cb, compute.pipelineLayout, 0, [compute.descriptorSet]));

    var groupCountX := GroupCountX(numElements);
    ok := drv.Invoke(Dispatch(cb, groupCountX as nat, 1, 1));

    ok := drv.Invoke(EndCommandBuffer(cb));
    if !ok {
      return VulkanError(EndFailure, false);
    }

    var computeQueue := Queue(ctx.device, ctx.computeFamily.value);
    ok := drv.Invoke(QueueSubmit(computeQueue, [cb]));
    if !ok {
      return VulkanError(SubmitFailure, false);
    }

    ok := drv.WaitIdle(computeQueue);
    if !ok {
      return VulkanError(WaitFailure, false);
    }
    return VulkanError("", true);
  }
}
