/** The vector-add program: it fills two host-visible buffers with 1.0 and 2.0, runs the compute
    pipeline over 1024 elements, reads the result back and checks every element against the
    sum, releasing on each path exactly what that path made. */
module MainProgram {
  import opened Ledger
  import opened LvInit
  import opened LvCleanup
  import opened LvRun
  import opened Example

  /** `data_size` passed to record_and_submit_compute, whose parameter is a 32-bit count. */
  const ElementCount: uint32 := 1024

  /** Each buffer holds DataSize floats. */
  const InputBytes: nat := FloatBytes * DataSize

  /** The tolerance of the check, 1e-6. */
  const Tolerance: real := 1.0 / 1000000.0

  /** `a_data`: DataSize ones. */
  function InputA(): (a: seq<real>)
    ensures |a| == DataSize && forall i :: 0 <= i < |a| ==> a[i] == 1.0
  {
    seq(DataSize, _ => 1.0)
  }

  /** `b_data`: DataSize twos. */
  function InputB(): (b: seq<real>)
    ensures |b| == DataSize && forall i :: 0 <= i < |b| ==> b[i] == 2.0
  {
    seq(DataSize, _ => 2.0)
  }

  function Abs(x: real): real
  {
    if x < 0.0 then -x else x
  }

  /** An element passes the check when it is within the tolerance of the expected sum. */
  predicate Close(actual: real, expected: real)
  {
    Abs(actual - expected) <= Tolerance
  }

  /** Every element of the result is close to the sum of the two inputs at that index. */
  predicate ResultsCorrect(aData: seq<real>, bData: seq<real>, resultData: seq<real>)
  {
    && |resultData| == DataSize && |aData| == DataSize && |bData| == DataSize
    && forall i :: 0 <= i < DataSize ==> Close(resultData[i], aData[i] + bData[i])
  }

  /** Which branch of main ran; the failures are the messages main prints before returning. */
  datatype MainStage =
    | InitFailed
    | BufferFailed(index: nat)  // 0 for buffer A, 1 for buffer B, 2 for the result buffer
    | SetupFailed(created: nat) // the number of objects setup_compute made before failing
    | DispatchFailed
    | Completed

  /** What main returns, the world it leaves and the branch it took. */
  datatype MainOutcome = MainOutcome(exitCode: int, world: World, stage: MainStage)

  /** The objects setup_compute makes when the first handle it takes is m (m + 2 is the shader
      module, destroyed inside setup_compute). */
  function SetupFields(m: Handle): ComputeFields
  {
    ComputeFields(m + 3, m + 1, m + 4, m, m + 5, m + 6, m + 7)
  }

  /** The handles a compute pipeline holds, which cleanup_compute releases. */
  function FieldHandles(f: ComputeFields): set<Handle>
  {
    {f.pipeline, f.pipelineLayout, f.descriptorPool, f.descriptorLayout, f.descriptorSet, f.commandPool, f.commandBuffer}
  }

  /** Three destroy_buffer calls in a row: A, B, then the result buffer. */
  function ReleaseThree(w: World, allocator: Handle, fa: BufferFields, fb: BufferFields, fr: BufferFields): World
  {
    ReleaseBuffer(ReleaseBuffer(ReleaseBuffer(w, allocator, fa).world, allocator, fb).world, allocator, fr).world
  }


  /** main, call by call, given the compute queue family the device reports, the shader file
      (None when it cannot be opened) and the floats the result buffer holds after the kernel. */
  function MainSteps(faults: map<nat, string>, w: World, family: nat, file: Option<seq<bv8>>,
                     resultData: seq<real>): MainOutcome
  {
    var init := InitSteps(faults, w, None);
    AfterInit(init, MainAfterInit(faults, init.world, w.next, family, file, resultData))
  }

  /** The branch main takes on init_vulkan: a failure returns 1 at once, releasing nothing;
      otherwise main goes on to `rest`. */
  function AfterInit(init: InitOutcome, rest: MainOutcome): MainOutcome
  {
    if !init.result.success then MainOutcome(1, init.world, InitFailed) else rest
  }

  /** main after init_vulkan succeeded with its instance at handle n (its device at n + 2, its
      allocator at n + 3): the three buffers, then the compute work.  Every later outcome is
      computed from the world the earlier call left, and AfterBuffers consults it only when the
      earlier calls succeeded, as main returns at the first failure. */
  function MainAfterInit(faults: map<nat, string>, v: World, n: Handle, family: nat, file: Option<seq<bv8>>,
                         resultData: seq<real>): MainOutcome
  {
    var f0 := BufferFields(NullHandle, NullHandle, NullPtr, 0);
    var a := MakeBuffer(faults, v, n + 3, f0, InputBytes, StorageBufferUsage);
    var b := MakeBuffer(faults, a.world, n + 3, f0, InputBytes, StorageBufferUsage);
    var r := MakeBuffer(faults, b.world, n + 3, f0, InputBytes, StorageBufferUsage);
    AfterBuffers(a, b, r, n, MainCompute(faults, r.world, n, family, a.fields, b.fields, r.fields, file, resultData))
  }

  /** The branch main takes on its three buffers: a failure releases the buffers made before it
      and then the context; when all three exist main goes on to `rest`. */
  function AfterBuffers(a: BufferOutcome, b: BufferOutcome, r: BufferOutcome, n: Handle, rest: MainOutcome): MainOutcome
  {
    if !a.result.success then MainOutcome(1, CleanupSteps(a.world, n + 3, n + 2, n), BufferFailed(0))
    else if !b.result.success then
      MainOutcome(1, CleanupSteps(ReleaseBuffer(b.world, n + 3, a.fields).world, n + 3, n + 2, n), BufferFailed(1))
    else if !r.result.success then
      var afterA := ReleaseBuffer(r.world, n + 3, a.fields).world;
      MainOutcome(1, CleanupSteps(ReleaseBuffer(afterA, n + 3, b.fields).world, n + 3, n + 2, n), BufferFailed(2))
    else rest
  }

  /** main once its three buffers exist: setup_compute, then record_and_submit_compute on the
      objects it made (consulted only when setup succeeded). */
  function MainCompute(faults: map<nat, string>, u: World, n: Handle, family: nat,
                       fa: BufferFields, fb: BufferFields, fr: BufferFields, file: Option<seq<bv8>>,
                       resultData: seq<real>): MainOutcome
  {
    var s := SetupSteps(faults, u, n + 2, family, fa.buffer, fb.buffer, fr.buffer, file);
    var d := DispatchSteps(faults, s.world, SetupFields(u.next), Queue(n + 2, family), ElementCount);
    AfterSetup(s, d, u.next, n, fa, fb, fr, resultData)
  }

  /** main after setup_compute returned `s`, having taken its handles from m on, and
      record_and_submit_compute returned `d`.  A failed setup releases the buffers and the context
      but not the compute objects.  Otherwise the results are checked when the dispatch
      succeeded, and cleanup_compute, A, B, the result buffer and the context are released. */
  function AfterSetup(s: SetupOutcome, d: DispatchOutcome, m: Handle, n: Handle,
                      fa: BufferFields, fb: BufferFields, fr: BufferFields, resultData: seq<real>): MainOutcome
  {
    if !s.result.success then
      MainOutcome(1, CleanupSteps(ReleaseThree(s.world, n + 3, fa, fb, fr), n + 3, n + 2, n), SetupFailed(s.steps))
    else AfterDispatchSteps(d, m, n, fa, fb, fr, resultData)
  }

  /** main after a successful setup_compute and record_and_submit_compute returned `d`: the
      results are checked when the dispatch succeeded, then cleanup_compute, A, B, the result
      buffer and the context are released. */
  function AfterDispatchSteps(d: DispatchOutcome, m: Handle, n: Handle,
                              fa: BufferFields, fb: BufferFields, fr: BufferFields, resultData: seq<real>): MainOutcome
  {
    var released := CleanupSteps(ReleaseThree(ReleaseStep(d.world, FieldHandles(SetupFields(m))), n + 3, fa, fb, fr),
                                 n + 3, n + 2, n);
    if !d.result.success then MainOutcome(1, released, DispatchFailed)
    else MainOutcome(if ResultsCorrect(InputA(), InputB(), resultData) then 0 else 1, released, Completed)
  }

  // Exit codes

  /** How main ends once its buffers exist, when the first call of setup_compute is fallible
      call number `at`: in setup_compute (having made fewer than its eight objects), in the
      dispatch, or completed; it completes exactly when the shader file opened and none of the
      twelve calls of setup_compute and record_and_submit_compute failed, and it exits with 0
      exactly when it completes and the results are correct. */
  predicate ComputeEnds(c: MainOutcome, faults: map<nat, string>, at: nat, fileOpened: bool, resultData: seq<real>)
  {
    && (c.stage.SetupFailed? || c.stage.DispatchFailed? || c.stage.Completed?)
    && (c.stage.SetupFailed? ==> c.stage.created < 8)
    && (c.stage.Completed? <==> fileOpened && FirstFailure(faults, at, 12, 12))
    && c.exitCode == (if c.stage.Completed? && ResultsCorrect(InputA(), InputB(), resultData) then 0 else 1)
  }

  /** Once the buffers exist, main ends as ComputeEnds says. */
  lemma ComputeExit(faults: map<nat, string>, u: World, n: Handle, family: nat,
                    fa: BufferFields, fb: BufferFields, fr: BufferFields, file: Option<seq<bv8>>, resultData: seq<real>)
    ensures ComputeEnds(MainCompute(faults, u, n, family, fa, fb, fr, file, resultData), faults, u.attempts, file.Some?, resultData)
  {
    SetupStopsAtFirstFailure(faults, u, n + 2, family, fa.buffer, fb.buffer, fr.buffer, file);
    var s := SetupSteps(faults, u, n + 2, family, fa.buffer, fb.buffer, fr.buffer, file);
    DispatchStopsAtFirstFailure(faults, s.world, SetupFields(u.next), Queue(n + 2, family), ElementCount);
    var d := DispatchSteps(faults, s.world, SetupFields(u.next), Queue(n + 2, family), ElementCount);
    AfterSetupExit(faults, u.attempts, file.Some?, s, d, u.next, n, fa, fb, fr, resultData);
  }

  lemma AfterSetupExit(faults: map<nat, string>, at: nat, fileOpened: bool, s: SetupOutcome, d: DispatchOutcome,
                       m: Handle, n: Handle, fa: BufferFields, fb: BufferFields, fr: BufferFields, resultData: seq<real>)
    requires FirstFailure(faults, at, s.steps, if fileOpened then 8 else 2)
    requires s.result.success <==> s.steps == 8
    requires s.result.success ==> s.world.attempts == at + 8
    requires FirstFailure(faults, s.world.attempts, d.steps, 4)
    requires d.result.success <==> d.steps == 4
    ensures ComputeEnds(AfterSetup(s, d, m, n, fa, fb, fr, resultData), faults, at, fileOpened, resultData)
  {
    if s.result.success {
      FirstFailureConcat(faults, at, 8, d.steps, 4);
    }
  }

  /** After init, main completes exactly when the shader file opens and none of the fifteen
      calls that follow (three buffers, setup, dispatch) fails. */
  lemma AfterInitExit(faults: map<nat, string>, v: World, n: Handle, family: nat, file: Option<seq<bv8>>,
                      resultData: seq<real>)
    ensures var o := MainAfterInit(faults, v, n, family, file, resultData);
            && !o.stage.InitFailed? && (o.stage.BufferFailed? ==> o.stage.index < 3)
            && (o.stage.Completed? <==> file.Some? && FirstFailure(faults, v.attempts, 15, 15))
            && o.exitCode == (if o.stage.Completed? && ResultsCorrect(InputA(), InputB(), resultData) then 0 else 1)
  {
    var f0 := BufferFields(NullHandle, NullHandle, NullPtr, 0);
    BuffersAttempts(faults, v, n);
    var a := MakeBuffer(faults, v, n + 3, f0, InputBytes, StorageBufferUsage);
    var b := MakeBuffer(faults, a.world, n + 3, f0, InputBytes, StorageBufferUsage);
    var r := MakeBuffer(faults, b.world, n + 3, f0, InputBytes, StorageBufferUsage);
    ComputeExit(faults, r.world, n, family, a.fields, b.fields, r.fields, file, resultData);
    var c := MainCompute(faults, r.world, n, family, a.fields, b.fields, r.fields, file, resultData);
    AfterBuffersExit(faults, v.attempts, file.Some?, a, b, r, n, c, resultData);
  }

  lemma AfterBuffersExit(faults: map<nat, string>, at: nat, fileOpened: bool,
                         a: BufferOutcome, b: BufferOutcome, r: BufferOutcome, n: Handle, c: MainOutcome, resultData: seq<real>)
    requires BuffersTried(faults, at, a, b, r) && ComputeEnds(c, faults, r.world.attempts, fileOpened, resultData)
    ensures var o := AfterBuffers(a, b, r, n, c);
            && !o.stage.InitFailed? && (o.stage.BufferFailed? ==> o.stage.index < 3)
            && (o.stage.Completed? <==> fileOpened && FirstFailure(faults, at, 15, 15))
            && o.exitCode == (if o.stage.Completed? && ResultsCorrect(InputA(), InputB(), resultData) then 0 else 1)
  {
    if a.result.success && b.result.success && r.result.success && fileOpened && FirstFailure(faults, at + 3, 12, 12) {
      FirstFailureConcat(faults, at, 3, 12, 12);
    }
  }

  /** main exits with 0 exactly when the shader file opens, none of its nineteen fallible calls
      fails (four in init_vulkan, three buffers, eight in setup_compute, four in
      record_and_submit_compute) and every result element is within 1e-6 of 1.0 + 2.0; with 1
      otherwise. */
  lemma MainExitCode(faults: map<nat, string>, w: World, family: nat, file: Option<seq<bv8>>, resultData: seq<real>)
    ensures var o := MainSteps(faults, w, family, file, resultData);
            && (o.exitCode == 0 || o.exitCode == 1)
            && (o.stage.Completed? <==> file.Some? && FirstFailure(faults, w.attempts, 19, 19))
            && (o.exitCode == 0 <==> o.stage.Completed? && ResultsCorrect(InputA(), InputB(), resultData))
  {
    MainInit(faults, w);
    var init := InitSteps(faults, w, None);
    AfterInitExit(faults, init.world, w.next, family, file, resultData);
    InitThenExit(faults, w.attempts, init, MainAfterInit(faults, init.world, w.next, family, file, resultData),
                 file.Some?, resultData);
  }

  lemma InitThenExit(faults: map<nat, string>, at: nat, init: InitOutcome, rest: MainOutcome, fileOpened: bool,
                     resultData: seq<real>)
    requires init.result.success ==> init.world.attempts == at + 4 && FirstFailure(faults, at, 4, 4)
    requires !init.result.success ==> !FirstFailure(faults, at, 19, 19)
    requires !rest.stage.InitFailed? && (rest.stage.BufferFailed? ==> rest.stage.index < 3)
    requires rest.stage.Completed? <==> fileOpened && FirstFailure(faults, init.world.attempts, 15, 15)
    requires rest.exitCode == (if rest.stage.Completed? && ResultsCorrect(InputA(), InputB(), resultData) then 0 else 1)
    ensures var o := AfterInit(init, rest);
            && (o.exitCode == 0 || o.exitCode == 1)
            && (o.stage.Completed? <==> fileOpened && FirstFailure(faults, at, 19, 19))
            && (o.exitCode == 0 <==> o.stage.Completed? && ResultsCorrect(InputA(), InputB(), resultData))
  {
    if init.result.success && FirstFailure(faults, at + 4, 15, 15) {
      FirstFailureConcat(faults, at, 4, 15, 15);
    }
  }

  /** main's init_vulkan (with no application name) either makes all four of its fallible calls
      successfully or fails before any later call is made. */
  lemma MainInit(faults: map<nat, string>, w: World)
    ensures var init := InitSteps(faults, w, None);
            && (init.result.success ==> init.world.attempts == w.attempts + 4 && FirstFailure(faults, w.attempts, 4, 4))
            && (!init.result.success ==> !FirstFailure(faults, w.attempts, 19, 19))
  {
    InitStopsAtFirstFailure(faults, w, None);
  }

  // What each path releases

  /** The buffer create_host_visible_buffer makes when handed the handles h (buffer) and h + 1
      (allocation). */
  function BufferAt(h: Handle): BufferFields
  {
    BufferFields(h, h + 1, MappedPtr(h + 1), InputBytes)
  }

  /** The three destroy_buffer calls, in order. */
  function BufferReleases(allocator: Handle, fa: BufferFields, fb: BufferFields, fr: BufferFields): seq<Call>
  {
    [BufferDestroyed(allocator, fa.buffer, fa.allocation), BufferDestroyed(allocator, fb.buffer, fb.allocation),
     BufferDestroyed(allocator, fr.buffer, fr.allocation)]
  }

  /** What cleanup_vulkan releases for the context whose instance is n: allocator, device, instance. */
  function ContextReleases(n: Handle): seq<Call>
  {
    [Destroyed(n + 3), Destroyed(n + 2), Destroyed(n)]
  }

  /** What main releases once its buffers exist, by the branch it took; the shader module is
      destroyed inside setup_compute once the pipeline exists. */
  function ComputeReleases(stage: MainStage, m: Handle, n: Handle, fa: BufferFields, fb: BufferFields, fr: BufferFields): seq<Call>
  {
    var buffers := BufferReleases(n + 3, fa, fb, fr);
    if stage.SetupFailed? then (if stage.created > 3 then [Destroyed(m + 2)] else []) + buffers + ContextReleases(n)
    else [Destroyed(m + 2), PipelineReleased(FieldHandles(SetupFields(m)))] + buffers + ContextReleases(n)
  }

  /** What main releases, in order, by the branch it took, when its instance is handle n: its
      buffers take n + 4 to n + 9 and setup_compute starts at n + 10. */
  function MainReleases(stage: MainStage, n: Handle): seq<Call>
  {
    var fa, fb, fr := BufferAt(n + 4), BufferAt(n + 6), BufferAt(n + 8);
    match stage
    case InitFailed => []
    case BufferFailed(k) =>
      (if k == 0 then [] else if k == 1 then [BufferDestroyed(n + 3, fa.buffer, fa.allocation)]
       else BufferReleases(n + 3, fa, fb, fr)[..2]) + ContextReleases(n)
    case _ => ComputeReleases(stage, n + 10, n, fa, fb, fr)
  }

  // Each helper below either extends a teardown by one call or rearranges a sequence of releases,
  // so that no proof has to do both at once.

  /** destroy_buffer on a non-null buffer adds exactly its release to the teardown. */
  lemma ReleaseOneTeardown(w: World, released: seq<Call>, allocator: Handle, b: BufferFields)
    requires b.buffer != NullHandle && Teardown(w.log) == released
    ensures Teardown(ReleaseBuffer(w, allocator, b).world.log) == released + [BufferDestroyed(allocator, b.buffer, b.allocation)]
  {
    ReleaseBufferOnce(w, allocator, b);
  }

  /** Releasing A, B and the result buffer adds their three releases, in that order. */
  lemma ReleaseThreeTeardown(w: World, released: seq<Call>, allocator: Handle, fa: BufferFields, fb: BufferFields, fr: BufferFields)
    requires fa.buffer != NullHandle && fb.buffer != NullHandle && fr.buffer != NullHandle
    requires Teardown(w.log) == released
    ensures Teardown(ReleaseThree(w, allocator, fa, fb, fr).log)
            == released + [BufferDestroyed(allocator, fa.buffer, fa.allocation)]
               + [BufferDestroyed(allocator, fb.buffer, fb.allocation)] + [BufferDestroyed(allocator, fr.buffer, fr.allocation)]
  {
    var w1 := ReleaseBuffer(w, allocator, fa).world;
    var w2 := ReleaseBuffer(w1, allocator, fb).world;
    ReleaseOneTeardown(w, released, allocator, fa);
    var r1 := released + [BufferDestroyed(allocator, fa.buffer, fa.allocation)];
    ReleaseOneTeardown(w1, r1, allocator, fb);
    ReleaseOneTeardown(w2, r1 + [BufferDestroyed(allocator, fb.buffer, fb.allocation)], allocator, fr);
  }

  /** cleanup_vulkan on main's context adds the allocator, the device and the instance. */
  lemma ContextTeardown(w: World, released: seq<Call>, n: Handle)
    requires Teardown(w.log) == released
    ensures Teardown(CleanupSteps(w, n + 3, n + 2, n).log) == released + ContextReleases(n)
  {
    CleanupVulkanOrder(w, n + 3, n + 2, n);
  }

  /** cleanup_compute adds its one release. */
  lemma PipelineTeardown(w: World, released: seq<Call>, handles: set<Handle>)
    requires Teardown(w.log) == released
    ensures Teardown(ReleaseStep(w, handles).log) == released + [PipelineReleased(handles)]
  {
    RecordTeardown(w.(live := w.live - handles), PipelineReleased(handles));
  }

  /** The releases of a failed setup_compute, as main makes them, are ComputeReleases's. */
  lemma SetupFailedReleases(released: seq<Call>, m: Handle, n: Handle, fa: BufferFields, fb: BufferFields, fr: BufferFields,
                            created: nat)
    ensures var pre := if created > 3 then [Destroyed(m + 2)] else [];
            released + pre + [BufferDestroyed(n + 3, fa.buffer, fa.allocation)]
              + [BufferDestroyed(n + 3, fb.buffer, fb.allocation)] + [BufferDestroyed(n + 3, fr.buffer, fr.allocation)]
              + ContextReleases(n)
            == released + ComputeReleases(SetupFailed(created), m, n, fa, fb, fr)
  {
  }

  /** The releases after a successful setup_compute, as main makes them, are ComputeReleases's. */
  lemma SetupDoneReleases(released: seq<Call>, m: Handle, n: Handle, fa: BufferFields, fb: BufferFields, fr: BufferFields,
                          stage: MainStage)
    requires !stage.SetupFailed?
    ensures released + [Destroyed(m + 2)] + [PipelineReleased(FieldHandles(SetupFields(m)))]
              + [BufferDestroyed(n + 3, fa.buffer, fa.allocation)] + [BufferDestroyed(n + 3, fb.buffer, fb.allocation)]
              + [BufferDestroyed(n + 3, fr.buffer, fr.allocation)] + ContextReleases(n)
            == released + ComputeReleases(stage, m, n, fa, fb, fr)
  {
  }

  /** What main's teardown needs of setup_compute (`s`) and record_and_submit_compute (`d`):
      setup succeeds when it makes all eight objects and releases the shader module (m + 2) once
      the pipeline exists; the dispatch releases nothing. */
  predicate ComputeReleased(s: SetupOutcome, d: DispatchOutcome, released: seq<Call>, m: Handle)
  {
    && (s.result.success <==> s.steps == 8)
    && Teardown(s.world.log) == released + (if s.steps > 3 then [Destroyed(m + 2)] else [])
    && Teardown(d.world.log) == Teardown(s.world.log)
  }

  lemma ComputeSteps(faults: map<nat, string>, u: World, n: Handle, family: nat,
                     fa: BufferFields, fb: BufferFields, fr: BufferFields, file: Option<seq<bv8>>)
    ensures var s := SetupSteps(faults, u, n + 2, family, fa.buffer, fb.buffer, fr.buffer, file);
            var d := DispatchSteps(faults, s.world, SetupFields(u.next), Queue(n + 2, family), ElementCount);
            ComputeReleased(s, d, Teardown(u.log), u.next)
  {
    SetupStopsAtFirstFailure(faults, u, n + 2, family, fa.buffer, fb.buffer, fr.buffer, file);
    SetupTeardown(faults, u, n + 2, family, fa.buffer, fb.buffer, fr.buffer, file);
    var s := SetupSteps(faults, u, n + 2, family, fa.buffer, fb.buffer, fr.buffer, file);
    DispatchTeardown(faults, s.world, SetupFields(u.next), Queue(n + 2, family), ElementCount);
  }

  /** Once the buffers exist, main releases what ComputeReleases says, cleanup_vulkan last. */
  lemma ComputeTeardown(faults: map<nat, string>, u: World, n: Handle, family: nat,
                        fa: BufferFields, fb: BufferFields, fr: BufferFields, file: Option<seq<bv8>>, resultData: seq<real>)
    requires fa.buffer != NullHandle && fb.buffer != NullHandle && fr.buffer != NullHandle
    ensures var o := MainCompute(faults, u, n, family, fa, fb, fr, file, resultData);
            && (o.stage.SetupFailed? || o.stage.DispatchFailed? || o.stage.Completed?)
            && Teardown(o.world.log) == Teardown(u.log) + ComputeReleases(o.stage, u.next, n, fa, fb, fr)
  {
    ComputeSteps(faults, u, n, family, fa, fb, fr, file);
    var s := SetupSteps(faults, u, n + 2, family, fa.buffer, fb.buffer, fr.buffer, file);
    var d := DispatchSteps(faults, s.world, SetupFields(u.next), Queue(n + 2, family), ElementCount);
    AfterSetupTeardown(s, d, Teardown(u.log), u.next, n, fa, fb, fr, resultData);
  }

  lemma AfterSetupTeardown(s: SetupOutcome, d: DispatchOutcome, released: seq<Call>, m: Handle, n: Handle,
                           fa: BufferFields, fb: BufferFields, fr: BufferFields, resultData: seq<real>)
    requires fa.buffer != NullHandle && fb.buffer != NullHandle && fr.buffer != NullHandle
    requires ComputeReleased(s, d, released, m)
    ensures var o := AfterSetup(s, d, m, n, fa, fb, fr, resultData);
            && (o.stage.SetupFailed? || o.stage.DispatchFailed? || o.stage.Completed?)
            && Teardown(o.world.log) == released + ComputeReleases(o.stage, m, n, fa, fb, fr)
  {
    var o := AfterSetup(s, d, m, n, fa, fb, fr, resultData);
    var da, db, dr := BufferDestroyed(n + 3, fa.buffer, fa.allocation), BufferDestroyed(n + 3, fb.buffer, fb.allocation),
                      BufferDestroyed(n + 3, fr.buffer, fr.allocation);
    if !s.result.success {
      var r0 := released + (if s.steps > 3 then [Destroyed(m + 2)] else []);
      ReleaseThreeTeardown(s.world, r0, n + 3, fa, fb, fr);
      ContextTeardown(ReleaseThree(s.world, n + 3, fa, fb, fr), r0 + [da] + [db] + [dr], n);
      SetupFailedReleases(released, m, n, fa, fb, fr, s.steps);
    } else {
      var handles := FieldHandles(SetupFields(m));
      var r0 := released + [Destroyed(m + 2)];
      PipelineTeardown(d.world, r0, handles);
      var r1 := r0 + [PipelineReleased(handles)];
      ReleaseThreeTeardown(ReleaseStep(d.world, handles), r1, n + 3, fa, fb, fr);
      ContextTeardown(ReleaseThree(ReleaseStep(d.world, handles), n + 3, fa, fb, fr), r1 + [da] + [db] + [dr], n);
      SetupDoneReleases(released, m, n, fa, fb, fr, o.stage);
    }
  }

  /** What main's teardown needs of one create_host_visible_buffer call: it releases nothing and,
      when it succeeds, yields the buffer at the next two handles. */
  lemma MakeBufferShape(faults: map<nat, string>, w: World, n: Handle, released: seq<Call>)
    requires Fresh(w) && Teardown(w.log) == released
    ensures var o := MakeBuffer(faults, w, n + 3, BufferFields(NullHandle, NullHandle, NullPtr, 0), InputBytes, StorageBufferUsage);
            && (o.result.success <==> w.attempts !in faults) && o.world.attempts == w.attempts + 1
            && Teardown(o.world.log) == released && Fresh(o.world)
            && (o.result.success ==> o.fields == BufferAt(w.next) && o.world.next == w.next + 2)
  {
    MakeBufferEffect(faults, w, n + 3, BufferFields(NullHandle, NullHandle, NullPtr, 0), InputBytes, StorageBufferUsage);
  }

  /** Whether one create_host_visible_buffer call succeeds depends only on the fault schedule. */
  lemma MakeBufferTry(faults: map<nat, string>, w: World, n: Handle)
    ensures var o := MakeBuffer(faults, w, n + 3, BufferFields(NullHandle, NullHandle, NullPtr, 0), InputBytes, StorageBufferUsage);
            (o.result.success <==> w.attempts !in faults) && o.world.attempts == w.attempts + 1
  {
  }

  /** main's three create_host_visible_buffer calls `a`, `b` and `r` are the fallible calls
      numbered at, at + 1 and at + 2. */
  predicate BuffersTried(faults: map<nat, string>, at: nat, a: BufferOutcome, b: BufferOutcome, r: BufferOutcome)
  {
    && (a.result.success <==> at !in faults) && (b.result.success <==> at + 1 !in faults)
    && (r.result.success <==> at + 2 !in faults) && r.world.attempts == at + 3
  }

  lemma BuffersAttempts(faults: map<nat, string>, v: World, n: Handle)
    ensures var f0 := BufferFields(NullHandle, NullHandle, NullPtr, 0);
            var a := MakeBuffer(faults, v, n + 3, f0, InputBytes, StorageBufferUsage);
            var b := MakeBuffer(faults, a.world, n + 3, f0, InputBytes, StorageBufferUsage);
            var r := MakeBuffer(faults, b.world, n + 3, f0, InputBytes, StorageBufferUsage);
            BuffersTried(faults, v.attempts, a, b, r)
  {
    var f0 := BufferFields(NullHandle, NullHandle, NullPtr, 0);
    MakeBufferTry(faults, v, n);
    var a := MakeBuffer(faults, v, n + 3, f0, InputBytes, StorageBufferUsage);
    MakeBufferTry(faults, a.world, n);
    var b := MakeBuffer(faults, a.world, n + 3, f0, InputBytes, StorageBufferUsage);
    MakeBufferTry(faults, b.world, n);
  }

  /** main's three create_host_visible_buffer calls release nothing, and each buffer made takes
      the next two handles after init's: A n + 4, B n + 6, the result buffer n + 8. */
  lemma BuffersChain(faults: map<nat, string>, v: World, n: Handle)
    requires Fresh(v) && v.next == n + 4
    ensures var f0 := BufferFields(NullHandle, NullHandle, NullPtr, 0);
            var a := MakeBuffer(faults, v, n + 3, f0, InputBytes, StorageBufferUsage);
            var b := MakeBuffer(faults, a.world, n + 3, f0, InputBytes, StorageBufferUsage);
            var r := MakeBuffer(faults, b.world, n + 3, f0, InputBytes, StorageBufferUsage);
            && Teardown(a.world.log) == Teardown(v.log) && Teardown(b.world.log) == Teardown(v.log)
            && Teardown(r.world.log) == Teardown(v.log)
            && (a.result.success ==> a.fields == BufferAt(n + 4))
            && (a.result.success && b.result.success ==> b.fields == BufferAt(n + 6))
            && (a.result.success && b.result.success && r.result.success ==> r.fields == BufferAt(n + 8) && r.world.next == n + 10)
  {
    var f0 := BufferFields(NullHandle, NullHandle, NullPtr, 0);
    var released := Teardown(v.log);
    MakeBufferShape(faults, v, n, released);
    var a := MakeBuffer(faults, v, n + 3, f0, InputBytes, StorageBufferUsage);
    MakeBufferShape(faults, a.world, n, released);
    var b := MakeBuffer(faults, a.world, n + 3, f0, InputBytes, StorageBufferUsage);
    MakeBufferShape(faults, b.world, n, released);
    if a.result.success {
      assert a.world.next == n + 6;
      if b.result.success {
        assert b.world.next == n + 8;
      }
    }
  }

  /** After init, main releases what MainReleases says for the branch it took. */
  lemma AfterInitTeardown(faults: map<nat, string>, v: World, n: Handle, family: nat, file: Option<seq<bv8>>,
                          resultData: seq<real>)
    requires Fresh(v) && v.next == n + 4
    ensures var o := MainAfterInit(faults, v, n, family, file, resultData);
            Teardown(o.world.log) == Teardown(v.log) + MainReleases(o.stage, n)
  {
    var f0 := BufferFields(NullHandle, NullHandle, NullPtr, 0);
    BuffersChain(faults, v, n);
    var a := MakeBuffer(faults, v, n + 3, f0, InputBytes, StorageBufferUsage);
    var b := MakeBuffer(faults, a.world, n + 3, f0, InputBytes, StorageBufferUsage);
    var r := MakeBuffer(faults, b.world, n + 3, f0, InputBytes, StorageBufferUsage);
    var c := MainCompute(faults, r.world, n, family, a.fields, b.fields, r.fields, file, resultData);
    if a.result.success && b.result.success && r.result.success {
      ComputeTeardown(faults, r.world, n, family, a.fields, b.fields, r.fields, file, resultData);
      BuffersMadeTeardown(a, b, r, n, r.world.next, c, Teardown(r.world.log));
    } else {
      BufferFailedTeardown(a, b, r, n, c, Teardown(v.log));
    }
  }

  lemma BuffersMadeTeardown(a: BufferOutcome, b: BufferOutcome, r: BufferOutcome, n: Handle, m: Handle, c: MainOutcome,
                            released: seq<Call>)
    requires a.result.success && b.result.success && r.result.success
    requires a.fields == BufferAt(n + 4) && b.fields == BufferAt(n + 6) && r.fields == BufferAt(n + 8) && m == n + 10
    requires c.stage.SetupFailed? || c.stage.DispatchFailed? || c.stage.Completed?
    requires Teardown(c.world.log) == released + ComputeReleases(c.stage, m, n, a.fields, b.fields, r.fields)
    ensures var o := AfterBuffers(a, b, r, n, c);
            Teardown(o.world.log) == released + MainReleases(o.stage, n)
  {
  }

  lemma BufferFailedTeardown(a: BufferOutcome, b: BufferOutcome, r: BufferOutcome, n: Handle, c: MainOutcome,
                             released: seq<Call>)
    requires !(a.result.success && b.result.success && r.result.success)
    requires Teardown(a.world.log) == released && Teardown(b.world.log) == released && Teardown(r.world.log) == released
    requires a.result.success ==> a.fields == BufferAt(n + 4)
    requires a.result.success && b.result.success ==> b.fields == BufferAt(n + 6)
    ensures var o := AfterBuffers(a, b, r, n, c);
            Teardown(o.world.log) == released + MainReleases(o.stage, n)
  {
    if !a.result.success {
      CleanupVulkanOrder(a.world, n + 3, n + 2, n);
    } else if !b.result.success {
      OneBufferTeardown(b.world, released, n);
    } else {
      TwoBuffersTeardown(r.world, released, n);
    }
  }

  /** Buffer B failed: A, then the context. */
  lemma OneBufferTeardown(w: World, released: seq<Call>, n: Handle)
    requires Teardown(w.log) == released
    ensures Teardown(CleanupSteps(ReleaseBuffer(w, n + 3, BufferAt(n + 4)).world, n + 3, n + 2, n).log)
            == released + MainReleases(BufferFailed(1), n)
  {
    var da := BufferDestroyed(n + 3, n + 4, n + 5);
    ReleaseOneTeardown(w, released, n + 3, BufferAt(n + 4));
    ContextTeardown(ReleaseBuffer(w, n + 3, BufferAt(n + 4)).world, released + [da], n);
    OneBufferReleases(released, n);
  }

  lemma OneBufferReleases(released: seq<Call>, n: Handle)
    ensures released + [BufferDestroyed(n + 3, n + 4, n + 5)] + ContextReleases(n) == released + MainReleases(BufferFailed(1), n)
  {
  }

  /** The result buffer failed: A, B, then the context. */
  lemma TwoBuffersTeardown(w: World, released: seq<Call>, n: Handle)
    requires Teardown(w.log) == released
    ensures var afterA := ReleaseBuffer(w, n + 3, BufferAt(n + 4)).world;
            Teardown(CleanupSteps(ReleaseBuffer(afterA, n + 3, BufferAt(n + 6)).world, n + 3, n + 2, n).log)
            == released + MainReleases(BufferFailed(2), n)
  {
    var da, db := BufferDestroyed(n + 3, n + 4, n + 5), BufferDestroyed(n + 3, n + 6, n + 7);
    var w1 := ReleaseBuffer(w, n + 3, BufferAt(n + 4)).world;
    ReleaseOneTeardown(w, released, n + 3, BufferAt(n + 4));
    ReleaseOneTeardown(w1, released + [da], n + 3, BufferAt(n + 6));
    ContextTeardown(ReleaseBuffer(w1, n + 3, BufferAt(n + 6)).world, released + [da] + [db], n);
    TwoBuffersReleases(released, n);
  }

  lemma TwoBuffersReleases(released: seq<Call>, n: Handle)
    ensures released + [BufferDestroyed(n + 3, n + 4, n + 5)] + [BufferDestroyed(n + 3, n + 6, n + 7)] + ContextReleases(n)
            == released + MainReleases(BufferFailed(2), n)
  {
  }

  /** main releases, in order, what MainReleases says for the branch it took: nothing after a
      failed init; otherwise the buffers it made (A, then B, then the result buffer), after the
      compute objects once setup_compute succeeded, and cleanup_vulkan always last. */
  lemma MainTeardown(faults: map<nat, string>, w: World, family: nat, file: Option<seq<bv8>>, resultData: seq<real>)
    requires Fresh(w)
    ensures var o := MainSteps(faults, w, family, file, resultData);
            Teardown(o.world.log) == Teardown(w.log) + MainReleases(o.stage, w.next)
  {
    InitReleasesNothing(faults, w, None);
    InitStopsAtFirstFailure(faults, w, None);
    InitHandles(faults, w, None);
    var init := InitSteps(faults, w, None);
    if init.result.success {
      AfterInitTeardown(faults, init.world, w.next, family, file, resultData);
    }
  }

  // What each path leaves live

  /** The objects setup_compute leaves live after making k of them with handles from m on: the
      shader module (m + 2) is destroyed once the pipeline, the fourth object, exists. */
  function SetupMade(m: Handle, k: nat): set<Handle>
  {
    Issued(m, k) - (if k > 3 then {m + 2} else {})
  }

  /** What main leaves live of setup_compute's objects: all of them when setup_compute failed,
      as main returns without cleanup_compute; none once setup succeeded. */
  function SetupLeft(m: Handle, stage: MainStage): set<Handle>
  {
    if stage.SetupFailed? then SetupMade(m, stage.created) else {}
  }

  /** The buffer and allocation handles of main's three buffers. */
  function BufferHandles(fa: BufferFields, fb: BufferFields, fr: BufferFields): set<Handle>
  {
    {fa.buffer, fa.allocation, fb.buffer, fb.allocation, fr.buffer, fr.allocation}
  }

  /** Once all eight exist, setup_compute's live objects are exactly the seven cleanup_compute releases. */
  lemma SetupMadeAll(m: Handle)
    ensures SetupMade(m, 8) == FieldHandles(SetupFields(m))
  {
    assert Issued(m, 4) == {m, m + 1, m + 2, m + 3};
    assert Issued(m, 8) == {m, m + 1, m + 2, m + 3, m + 4, m + 5, m + 6, m + 7};
  }

  /** Releasing A, B and the result buffer drops their six handles from the live set. */
  lemma ReleaseThreeLive(w: World, allocator: Handle, fa: BufferFields, fb: BufferFields, fr: BufferFields)
    requires fa.buffer != NullHandle && fb.buffer != NullHandle && fr.buffer != NullHandle
    ensures ReleaseThree(w, allocator, fa, fb, fr).live == w.live - BufferHandles(fa, fb, fr)
  {
    var w1 := ReleaseBuffer(w, allocator, fa).world;
    var w2 := ReleaseBuffer(w1, allocator, fb).world;
    ReleaseBufferOnce(w, allocator, fa);
    ReleaseBufferOnce(w1, allocator, fb);
    ReleaseBufferOnce(w2, allocator, fr);
  }

  /** cleanup_vulkan on main's context drops its three handles from the live set. */
  lemma ContextGone(w: World, n: Handle)
    ensures CleanupSteps(w, n + 3, n + 2, n).live == w.live - {n + 3, n + 2, n}
  {
    CleanupVulkanOrder(w, n + 3, n + 2, n);
  }

  /** What main's live-set accounting needs of setup_compute and record_and_submit_compute. */
  lemma ComputeLiveSteps(faults: map<nat, string>, u: World, n: Handle, family: nat,
                         fa: BufferFields, fb: BufferFields, fr: BufferFields, file: Option<seq<bv8>>)
    requires Fresh(u)
    ensures var s := SetupSteps(faults, u, n + 2, family, fa.buffer, fb.buffer, fr.buffer, file);
            var d := DispatchSteps(faults, s.world, SetupFields(u.next), Queue(n + 2, family), ElementCount);
            && (s.result.success <==> s.steps == 8)
            && s.world.live == u.live + SetupMade(u.next, s.steps)
            && d.world.live == s.world.live
  {
    var s := SetupSteps(faults, u, n + 2, family, fa.buffer, fb.buffer, fr.buffer, file);
    SetupLive(faults, u, n + 2, family, fa.buffer, fb.buffer, fr.buffer, file);
    DispatchLog(faults, s.world, SetupFields(u.next), Queue(n + 2, family), ElementCount);
  }

  /** setup_compute succeeds exactly when all eight objects exist, and adds what it made to the live set. */
  lemma SetupLive(faults: map<nat, string>, u: World, device: Handle, family: nat,
                  a: Handle, b: Handle, r: Handle, file: Option<seq<bv8>>)
    requires Fresh(u)
    ensures var s := SetupSteps(faults, u, device, family, a, b, r, file);
            && (s.result.success <==> s.steps == 8)
            && s.world.live == u.live + SetupMade(u.next, s.steps)
  {
    SetupStopsAtFirstFailure(faults, u, device, family, a, b, r, file);
    SetupHandles(faults, u, device, family, a, b, r, file);
    var s := SetupSteps(faults, u, device, family, a, b, r, file);
    SetupMadeAdded(u.live, u.next, s.steps);
  }

  /** Setup's objects are added to a live set holding no handle from m on. */
  lemma SetupMadeAdded(live: set<Handle>, m: Handle, k: nat)
    requires forall h :: h in live ==> h < m
    ensures live + Issued(m, k) - (if k > 3 then {m + 2} else {}) == live + SetupMade(m, k)
  {
  }

  /** Once the buffers exist, main leaves live what it found, less the buffers and the context,
      plus whatever a failed setup_compute made. */
  lemma ComputeLive(faults: map<nat, string>, u: World, n: Handle, family: nat,
                    fa: BufferFields, fb: BufferFields, fr: BufferFields, file: Option<seq<bv8>>, resultData: seq<real>)
    requires Fresh(u) && u.next == n + 10
    requires fa == BufferAt(n + 4) && fb == BufferAt(n + 6) && fr == BufferAt(n + 8)
    ensures var o := MainCompute(faults, u, n, family, fa, fb, fr, file, resultData);
            o.world.live == (u.live - BufferHandles(fa, fb, fr) - {n + 3, n + 2, n}) + SetupLeft(u.next, o.stage)
  {
    ComputeLiveSteps(faults, u, n, family, fa, fb, fr, file);
    var s := SetupSteps(faults, u, n + 2, family, fa.buffer, fb.buffer, fr.buffer, file);
    var d := DispatchSteps(faults, s.world, SetupFields(u.next), Queue(n + 2, family), ElementCount);
    AfterSetupLive(s, d, u.live, u.next, n, fa, fb, fr, resultData);
  }

  lemma AfterSetupLive(s: SetupOutcome, d: DispatchOutcome, base: set<Handle>, m: Handle, n: Handle,
                       fa: BufferFields, fb: BufferFields, fr: BufferFields, resultData: seq<real>)
    requires fa == BufferAt(n + 4) && fb == BufferAt(n + 6) && fr == BufferAt(n + 8) && m == n + 10
    requires forall h :: h in base ==> h < m
    requires s.result.success <==> s.steps == 8
    requires s.world.live == base + SetupMade(m, s.steps) && d.world.live == s.world.live
    ensures var o := AfterSetup(s, d, m, n, fa, fb, fr, resultData);
            o.world.live == (base - BufferHandles(fa, fb, fr) - {n + 3, n + 2, n}) + SetupLeft(m, o.stage)
  {
    var handles := FieldHandles(SetupFields(m));
    if !s.result.success {
      ReleaseThreeLive(s.world, n + 3, fa, fb, fr);
      ContextGone(ReleaseThree(s.world, n + 3, fa, fb, fr), n);
      SetupMadeAbove(m, s.steps);
      LeftUntouched(base, SetupMade(m, s.steps), n);
    } else {
      var c := ReleaseStep(d.world, handles);
      ReleaseThreeLive(c, n + 3, fa, fb, fr);
      ContextGone(ReleaseThree(c, n + 3, fa, fb, fr), n);
      SetupMadeAll(m);
      AllReleased(base, handles, m, n);
    }
  }

  /** setup_compute's objects have handles from m on. */
  lemma SetupMadeAbove(m: Handle, k: nat)
    ensures forall h :: h in SetupMade(m, k) ==> m <= h
  {
    IssuedBounds(m, k);
  }

  /** Handles from n + 10 on are untouched by releasing the buffers and the context. */
  lemma LeftUntouched(base: set<Handle>, left: set<Handle>, n: Handle)
    requires forall h :: h in left ==> n + 10 <= h
    ensures (base + left) - BufferHandles(BufferAt(n + 4), BufferAt(n + 6), BufferAt(n + 8)) - {n + 3, n + 2, n}
            == (base - BufferHandles(BufferAt(n + 4), BufferAt(n + 6), BufferAt(n + 8)) - {n + 3, n + 2, n}) + left
  {
  }

  /** cleanup_compute releases exactly the objects a successful setup_compute left live, none of
      which main held before. */
  lemma AllReleased(base: set<Handle>, handles: set<Handle>, m: Handle, n: Handle)
    requires m == n + 10 && handles == FieldHandles(SetupFields(m))
    requires forall h :: h in base ==> h < m
    ensures (base + handles) - handles - BufferHandles(BufferAt(n + 4), BufferAt(n + 6), BufferAt(n + 8)) - {n + 3, n + 2, n}
            == (base - BufferHandles(BufferAt(n + 4), BufferAt(n + 6), BufferAt(n + 8)) - {n + 3, n + 2, n}) + {}
  {
    assert (base + handles) - handles == base;
  }

  /** Once all eight of setup_compute's objects exist, the live set holds exactly the seven
      cleanup_compute releases on top of what was live before. */
  lemma SetupDoneLive(s: SetupOutcome, base: set<Handle>, m: Handle)
    requires s.steps == 8 && s.world.live == base + SetupMade(m, s.steps)
    ensures s.world.live == base + FieldHandles(SetupFields(m))
  {
    SetupMadeAll(m);
  }

  /** cleanup_compute, after a successful setup_compute, leaves live exactly what was live before
      setup_compute. */
  lemma ComputeGone(base: set<Handle>, m: Handle)
    requires forall h :: h in base ==> h < m
    ensures (base + FieldHandles(SetupFields(m))) - FieldHandles(SetupFields(m)) == base
  {
  }

  /** What main's live-set accounting needs of one create_host_visible_buffer call. */
  lemma MakeBufferLive(faults: map<nat, string>, w: World, n: Handle)
    requires Fresh(w)
    ensures var o := MakeBuffer(faults, w, n + 3, BufferFields(NullHandle, NullHandle, NullPtr, 0), InputBytes, StorageBufferUsage);
            && Fresh(o.world)
            && (o.result.success ==> o.world.live == w.live + {w.next, w.next + 1} && o.world.next == w.next + 2
                                     && o.fields == BufferAt(w.next))
            && (!o.result.success ==> o.world.live == w.live && o.world.next == w.next)
  {
    MakeBufferEffect(faults, w, n + 3, BufferFields(NullHandle, NullHandle, NullPtr, 0), InputBytes, StorageBufferUsage);
  }

  /** The live set after each of main's three buffer calls, by which of them succeeded. */
  lemma BuffersLive(faults: map<nat, string>, v: World, n: Handle)
    requires Fresh(v) && v.next == n + 4
    ensures var f0 := BufferFields(NullHandle, NullHandle, NullPtr, 0);
            var a := MakeBuffer(faults, v, n + 3, f0, InputBytes, StorageBufferUsage);
            var b := MakeBuffer(faults, a.world, n + 3, f0, InputBytes, StorageBufferUsage);
            var r := MakeBuffer(faults, b.world, n + 3, f0, InputBytes, StorageBufferUsage);
            && (a.result.success ==> a.fields == BufferAt(n + 4))
            && (a.result.success && b.result.success ==> b.fields == BufferAt(n + 6))
            && (!a.result.success ==> a.world.live == v.live)
            && (a.result.success && !b.result.success ==> b.world.live == v.live + {n + 4, n + 5})
            && (a.result.success && b.result.success && !r.result.success ==>
                  r.world.live == v.live + {n + 4, n + 5} + {n + 6, n + 7})
            && (a.result.success && b.result.success && r.result.success ==>
                  && r.fields == BufferAt(n + 8) && Fresh(r.world) && r.world.next == n + 10
                  && r.world.live == v.live + {n + 4, n + 5} + {n + 6, n + 7} + {n + 8, n + 9})
  {
    var f0 := BufferFields(NullHandle, NullHandle, NullPtr, 0);
    MakeBufferLive(faults, v, n);
    var a := MakeBuffer(faults, v, n + 3, f0, InputBytes, StorageBufferUsage);
    MakeBufferLive(faults, a.world, n);
    var b := MakeBuffer(faults, a.world, n + 3, f0, InputBytes, StorageBufferUsage);
    MakeBufferLive(faults, b.world, n);
    if a.result.success {
      assert a.world.next == n + 6;
      if b.result.success {
        assert b.world.next == n + 8;
      }
    }
  }

  /** After init, main leaves live what it found before init (`base`), plus whatever a failed
      setup_compute made: every buffer it made is released, and so is the context. */
  lemma AfterInitLive(faults: map<nat, string>, v: World, n: Handle, family: nat, file: Option<seq<bv8>>,
                      resultData: seq<real>, base: set<Handle>)
    requires Fresh(v) && v.next == n + 4
    requires v.live == base + {n + 3, n + 2, n} && forall h :: h in base ==> h < n
    ensures var o := MainAfterInit(faults, v, n, family, file, resultData);
            o.world.live == base + SetupLeft(n + 10, o.stage)
  {
    var f0 := BufferFields(NullHandle, NullHandle, NullPtr, 0);
    BuffersLive(faults, v, n);
    var a := MakeBuffer(faults, v, n + 3, f0, InputBytes, StorageBufferUsage);
    var b := MakeBuffer(faults, a.world, n + 3, f0, InputBytes, StorageBufferUsage);
    var r := MakeBuffer(faults, b.world, n + 3, f0, InputBytes, StorageBufferUsage);
    var c := MainCompute(faults, r.world, n, family, a.fields, b.fields, r.fields, file, resultData);
    if a.result.success && b.result.success && r.result.success {
      ComputeLive(faults, r.world, n, family, a.fields, b.fields, r.fields, file, resultData);
      BuffersMadeLive(a, b, r, n, r.world.next, c, v.live, base);
    } else {
      BufferFailedLive(a, b, r, n, c, v.live, base);
    }
  }

  lemma BuffersMadeLive(a: BufferOutcome, b: BufferOutcome, r: BufferOutcome, n: Handle, m: Handle, c: MainOutcome,
                        live: set<Handle>, base: set<Handle>)
    requires a.result.success && b.result.success && r.result.success
    requires a.fields == BufferAt(n + 4) && b.fields == BufferAt(n + 6) && r.fields == BufferAt(n + 8) && m == n + 10
    requires live == base + {n + 3, n + 2, n} && forall h :: h in base ==> h < n
    requires r.world.live == live + {n + 4, n + 5} + {n + 6, n + 7} + {n + 8, n + 9}
    requires c.world.live == (r.world.live - BufferHandles(a.fields, b.fields, r.fields) - {n + 3, n + 2, n}) + SetupLeft(m, c.stage)
    ensures var o := AfterBuffers(a, b, r, n, c);
            o.world.live == base + SetupLeft(n + 10, o.stage)
  {
    BuffersDropped(base, n);
  }

  /** Buffers made after init and then released, with the context, leave what was live before init. */
  lemma BuffersDropped(base: set<Handle>, n: Handle)
    requires forall h :: h in base ==> h < n
    ensures (base + {n + 3, n + 2, n} + {n + 4, n + 5} + {n + 6, n + 7} + {n + 8, n + 9})
              - BufferHandles(BufferAt(n + 4), BufferAt(n + 6), BufferAt(n + 8)) - {n + 3, n + 2, n}
            == base
  {
  }

  lemma BufferFailedLive(a: BufferOutcome, b: BufferOutcome, r: BufferOutcome, n: Handle, c: MainOutcome,
                         live: set<Handle>, base: set<Handle>)
    requires !(a.result.success && b.result.success && r.result.success)
    requires live == base + {n + 3, n + 2, n} && forall h :: h in base ==> h < n
    requires a.result.success ==> a.fields == BufferAt(n + 4)
    requires a.result.success && b.result.success ==> b.fields == BufferAt(n + 6)
    requires !a.result.success ==> a.world.live == live
    requires a.result.success && !b.result.success ==> b.world.live == live + {n + 4, n + 5}
    requires a.result.success && b.result.success && !r.result.success ==> r.world.live == live + {n + 4, n + 5} + {n + 6, n + 7}
    ensures var o := AfterBuffers(a, b, r, n, c);
            o.world.live == base + SetupLeft(n + 10, o.stage)
  {
    if !a.result.success {
      NoBufferLive(a.world, base, n);
    } else if !b.result.success {
      OneBufferLive(b.world, base, n);
    } else {
      TwoBuffersLive(r.world, base, n);
    }
  }

  /** Buffer A failed: only the context is released. */
  lemma NoBufferLive(w: World, base: set<Handle>, n: Handle)
    requires forall h :: h in base ==> h < n
    requires w.live == base + {n + 3, n + 2, n}
    ensures CleanupSteps(w, n + 3, n + 2, n).live == base + SetupLeft(n + 10, BufferFailed(0))
  {
    ContextGone(w, n);
    assert base + {n + 3, n + 2, n} - {n + 3, n + 2, n} == base + {};
  }

  /** Buffer B failed: A is released, then the context. */
  lemma OneBufferLive(w: World, base: set<Handle>, n: Handle)
    requires forall h :: h in base ==> h < n
    requires w.live == base + {n + 3, n + 2, n} + {n + 4, n + 5}
    ensures CleanupSteps(ReleaseBuffer(w, n + 3, BufferAt(n + 4)).world, n + 3, n + 2, n).live
            == base + SetupLeft(n + 10, BufferFailed(1))
  {
    ReleaseBufferOnce(w, n + 3, BufferAt(n + 4));
    ContextGone(ReleaseBuffer(w, n + 3, BufferAt(n + 4)).world, n);
    assert base + {n + 3, n + 2, n} + {n + 4, n + 5} - {n + 4, n + 5} - {n + 3, n + 2, n} == base + {};
  }

  /** The result buffer failed: A and B are released, then the context. */
  lemma TwoBuffersLive(w: World, base: set<Handle>, n: Handle)
    requires forall h :: h in base ==> h < n
    requires w.live == base + {n + 3, n + 2, n} + {n + 4, n + 5} + {n + 6, n + 7}
    ensures var afterA := ReleaseBuffer(w, n + 3, BufferAt(n + 4)).world;
            CleanupSteps(ReleaseBuffer(afterA, n + 3, BufferAt(n + 6)).world, n + 3, n + 2, n).live
            == base + SetupLeft(n + 10, BufferFailed(2))
  {
    var w1 := ReleaseBuffer(w, n + 3, BufferAt(n + 4)).world;
    ReleaseBufferOnce(w, n + 3, BufferAt(n + 4));
    ReleaseBufferOnce(w1, n + 3, BufferAt(n + 6));
    ContextGone(ReleaseBuffer(w1, n + 3, BufferAt(n + 6)).world, n);
    assert base + {n + 3, n + 2, n} + {n + 4, n + 5} + {n + 6, n + 7} - {n + 4, n + 5} - {n + 6, n + 7} - {n + 3, n + 2, n}
           == base + {};
  }

  /** init_vulkan's owned objects: the instance, the device and the allocator. */
  lemma InitOwnedAll(n: Handle)
    ensures InitOwned(n, 4) == {n + 3, n + 2, n}
  {
    assert Issued(n, 4) == {n, n + 1, n + 2, n + 3};
  }

  /** main leaves live exactly what it found, except what it never releases: init_vulkan's
      objects when init_vulkan fails part-way, and setup_compute's objects when setup_compute
      fails.  Every path that gets past setup_compute releases everything it made. */
  lemma MainBalance(faults: map<nat, string>, w: World, family: nat, file: Option<seq<bv8>>, resultData: seq<real>)
    requires Fresh(w)
    ensures var init := InitSteps(faults, w, None);
            var o := MainSteps(faults, w, family, file, resultData);
            o.world.live == w.live + (if init.result.success then SetupLeft(w.next + 10, o.stage)
                                      else InitOwned(w.next, init.steps))
  {
    MainInitLive(faults, w);
    var init := InitSteps(faults, w, None);
    if init.result.success {
      AfterInitLive(faults, init.world, w.next, family, file, resultData, w.live);
    }
  }

  /** What main's live-set accounting needs of init_vulkan. */
  lemma MainInitLive(faults: map<nat, string>, w: World)
    requires Fresh(w)
    ensures var init := InitSteps(faults, w, None);
            && (forall h :: h in w.live ==> h < w.next)
            && (init.result.success ==>
                  && Fresh(init.world) && init.world.next == w.next + 4
                  && init.world.live == w.live + {w.next + 3, w.next + 2, w.next})
            && (!init.result.success ==> init.world.live == w.live + InitOwned(w.next, init.steps))
  {
    InitStopsAtFirstFailure(faults, w, None);
    InitHandles(faults, w, None);
    InitOwnedAll(w.next);
  }

  // The program

  /** main's check loop: it stops at the first element that is not within the tolerance of the
      sum of the inputs at that index. */
  method VerifyResults(aData: seq<real>, bData: seq<real>, resultData: seq<real>, dataSize: nat)
    returns (computationSuccess: bool, mismatchAt: nat)
    requires dataSize <= |aData| && dataSize <= |bData| && dataSize <= |resultData|
    ensures computationSuccess <==> forall i :: 0 <= i < dataSize ==> Close(resultData[i], aData[i] + bData[i])
    ensures !computationSuccess ==>
              && mismatchAt < dataSize && !Close(resultData[mismatchAt], aData[mismatchAt] + bData[mismatchAt])
              && forall i :: 0 <= i < mismatchAt ==> Close(resultData[i], aData[i] + bData[i])
  {
    computationSuccess, mismatchAt := true, 0;
    for i := 0 to dataSize
      invariant forall j :: 0 <= j < i ==> Close(resultData[j], aData[j] + bData[j])
    {
      var expected := aData[i] + bData[i];
      if Abs(resultData[i] - expected) > Tolerance {
        computationSuccess, mismatchAt := false, i;
        break;
      }
    }
  }

  /** main's two memcpy calls: A's mapped memory receives the ones and B's the twos. */
  method CopyInputs(drv: Driver, aBuffer: Buffer, bBuffer: Buffer)
    requires Holds(aBuffer.Fields(), drv) && Holds(bBuffer.Fields(), drv)
    requires aBuffer.size == InputBytes && bBuffer.size == InputBytes
    modifies drv
    ensures drv.St() == old(drv.St())
    ensures drv.mem == old(drv.mem)[aBuffer.allocation := InputA()][bBuffer.allocation := InputB()]
  {
    drv.WriteMapped(aBuffer.mappedData, InputA(), aBuffer.size);
    assert InputA()[..DataSize] + old(drv.mem)[aBuffer.allocation][DataSize..] == InputA();
    drv.WriteMapped(bBuffer.mappedData, InputB(), bBuffer.size);
    assert InputB()[..DataSize] + old(drv.mem)[aBuffer.allocation := InputA()][bBuffer.allocation][DataSize..] == InputB();
  }

  /** The buffers of main once all three exist, with its instance at handle n: A, B and the
      result buffer hold the handles from n + 4 on, and they and the context are live. */
  predicate BuffersReady(n: Handle, fa: BufferFields, fb: BufferFields, fr: BufferFields, live: set<Handle>)
  {
    && fa == BufferAt(n + 4) && fb == BufferAt(n + 6) && fr == BufferAt(n + 8)
    && BufferHandles(fa, fb, fr) <= live && ContextLive(live, n + 3, n + 2, n)
  }

  /** Making more objects keeps the buffers and the context live. */
  lemma BuffersReadyGrow(n: Handle, fa: BufferFields, fb: BufferFields, fr: BufferFields, live: set<Handle>,
                         more: set<Handle>)
    requires BuffersReady(n, fa, fb, fr, live)
    ensures BuffersReady(n, fa, fb, fr, live + more)
  {
  }

  /** The memory of an allocation that holds one of main's float arrays. */
  predicate Mapped(mem: map<Handle, seq<real>>, allocation: Handle)
  {
    allocation in mem && |mem[allocation]| == DataSize
  }

  /** The release that closes every path of main past its buffers: destroy_buffer on A, B and
      the result buffer, then cleanup_vulkan. */
  method ReleaseBuffersAndContext(drv: Driver, ctx: VulkanContext, aBuffer: Buffer, bBuffer: Buffer, resultBuffer: Buffer,
                                  ghost n: Handle)
    requires ctx.instance == n && ctx.device == n + 2 && ctx.allocator == n + 3
    requires BuffersReady(n, aBuffer.Fields(), bBuffer.Fields(), resultBuffer.Fields(), drv.live)
    modifies drv, aBuffer, bBuffer, resultBuffer
    ensures drv.St() == CleanupSteps(ReleaseThree(old(drv.St()), n + 3, BufferAt(n + 4), BufferAt(n + 6), BufferAt(n + 8)),
                                     n + 3, n + 2, n)
  {
    DestroyBuffer(drv, ctx, aBuffer);
    DestroyBuffer(drv, ctx, bBuffer);
    DestroyBuffer(drv, ctx, resultBuffer);
    CleanupVulkan(drv, ctx);
  }

  /** MainCompute once the buffers and the setup objects take the handles main gives them. */
  lemma MainComputeAt(faults: map<nat, string>, u: World, n: Handle, family: nat, file: Option<seq<bv8>>,
                      resultData: seq<real>)
    requires u.next == n + 10
    ensures var s := SetupSteps(faults, u, n + 2, family, n + 4, n + 6, n + 8, file);
            MainCompute(faults, u, n, family, BufferAt(n + 4), BufferAt(n + 6), BufferAt(n + 8), file, resultData)
            == AfterSetupAt(faults, s, n, family, resultData)
  {
  }

  /** main once its three buffers exist: the memcpy of the inputs and setup_compute, then the
      rest of the work on what setup_compute returned. */
  method ComputeAndRelease(drv: Driver, ctx: VulkanContext, aBuffer: Buffer, bBuffer: Buffer, resultBuffer: Buffer,
                           shaderFile: Option<seq<bv8>>, ghost n: Handle, ghost family: nat)
    returns (exitCode: int, resultData: seq<real>)
    requires Fresh(drv.St()) && drv.next == n + 10
    requires ctx.instance == n && ctx.device == n + 2 && ctx.allocator == n + 3 && ctx.computeFamily == Some(family)
    requires BuffersReady(n, aBuffer.Fields(), bBuffer.Fields(), resultBuffer.Fields(), drv.live)
    requires Mapped(drv.mem, n + 5) && Mapped(drv.mem, n + 7) && Mapped(drv.mem, n + 9)
    modifies drv, aBuffer, bBuffer, resultBuffer
    ensures |resultData| == DataSize
    ensures var o := MainCompute(drv.faults, old(drv.St()), n, family, BufferAt(n + 4), BufferAt(n + 6), BufferAt(n + 8),
                                 shaderFile, resultData);
            exitCode == o.exitCode && drv.St() == o.world
  {
    ghost var u := drv.St();
    CopyInputs(drv, aBuffer, bBuffer);
    exitCode, resultData := SetupAndRun(drv, ctx, aBuffer, bBuffer, resultBuffer, shaderFile, u, n, family);
  }

  /** setup_compute on main's three buffers, then the rest of the work on what it returned. */
  method SetupAndRun(drv: Driver, ctx: VulkanContext, aBuffer: Buffer, bBuffer: Buffer, resultBuffer: Buffer,
                     shaderFile: Option<seq<bv8>>, ghost u: World, ghost n: Handle, ghost family: nat)
    returns (exitCode: int, resultData: seq<real>)
    requires drv.St() == u && Fresh(u) && u.next == n + 10
    requires ctx.instance == n && ctx.device == n + 2 && ctx.allocator == n + 3 && ctx.computeFamily == Some(family)
    requires BuffersReady(n, aBuffer.Fields(), bBuffer.Fields(), resultBuffer.Fields(), u.live)
    requires resultBuffer.allocation in drv.mem && |drv.mem[resultBuffer.allocation]| == DataSize
    modifies drv, aBuffer, bBuffer, resultBuffer
    ensures |resultData| == DataSize
    ensures var o := MainCompute(drv.faults, u, n, family, BufferAt(n + 4), BufferAt(n + 6), BufferAt(n + 8),
                                 shaderFile, resultData);
            exitCode == o.exitCode && drv.St() == o.world
  {
    var compute := new ComputePipeline();
    var result;
    ghost var s;
    result, s := SetupAt(drv, ctx, compute, aBuffer, bBuffer, resultBuffer, shaderFile, u, n, family);
    exitCode, resultData := AfterSetupCompute(drv, ctx, compute, aBuffer, bBuffer, resultBuffer, result, s, u.live, n, family);
    MainComputeAt(drv.faults, u, n, family, shaderFile, resultData);
  }

  /** setup_compute on main's three buffers in a world `u` whose next handle is m = n + 10:
      what it made is live, and a complete setup leaves `compute` holding it. */
  method SetupAt(drv: Driver, ctx: VulkanContext, compute: ComputePipeline,
                 aBuffer: Buffer, bBuffer: Buffer, resultBuffer: Buffer, shaderFile: Option<seq<bv8>>,
                 ghost u: World, ghost n: Handle, ghost family: nat)
    returns (result: VulkanError, ghost s: SetupOutcome)
    requires drv.St() == u && Fresh(u) && u.next == n + 10
    requires ctx.device == n + 2 && ctx.computeFamily == Some(family) && n + 2 in u.live
    requires aBuffer.buffer == n + 4 && bBuffer.buffer == n + 6 && resultBuffer.buffer == n + 8
    requires {n + 4, n + 6, n + 8} <= u.live
    modifies drv, compute
    ensures s == SetupSteps(drv.faults, u, n + 2, family, n + 4, n + 6, n + 8, shaderFile)
    ensures result == s.result && drv.St() == s.world && drv.mem == old(drv.mem)
    ensures (s.result.success <==> s.steps == 8) && s.world.live == u.live + SetupMade(n + 10, s.steps)
    ensures s.result.success ==> compute.Fields() == SetupFields(n + 10)
  {
    s := SetupSteps(drv.faults, u, n + 2, family, n + 4, n + 6, n + 8, shaderFile);
    ComputeLiveSteps(drv.faults, u, n, family, BufferAt(n + 4), BufferAt(n + 6), BufferAt(n + 8), shaderFile);
    result := SetupCompute(drv, ctx, compute, aBuffer, bBuffer, resultBuffer, shaderFile);
  }

  /** main after setup_compute returned `result`, having left the world of `s`: on failure the
      buffers and the context are released; otherwise record_and_submit_compute and the rest. */
  method AfterSetupCompute(drv: Driver, ctx: VulkanContext, compute: ComputePipeline,
                           aBuffer: Buffer, bBuffer: Buffer, resultBuffer: Buffer, result: VulkanError,
                           ghost s: SetupOutcome, ghost base: set<Handle>, ghost n: Handle, ghost family: nat)
    returns (exitCode: int, resultData: seq<real>)
    requires ctx.instance == n && ctx.device == n + 2 && ctx.allocator == n + 3 && ctx.computeFamily == Some(family)
    requires result == s.result && drv.St() == s.world && (s.result.success <==> s.steps == 8)
    requires s.world.live == base + SetupMade(n + 10, s.steps)
    requires BuffersReady(n, aBuffer.Fields(), bBuffer.Fields(), resultBuffer.Fields(), base)
    requires forall h :: h in base ==> h < n + 10
    requires resultBuffer.allocation in drv.mem && |drv.mem[resultBuffer.allocation]| == DataSize
    requires s.result.success ==> compute.Fields() == SetupFields(n + 10)
    modifies drv, aBuffer, bBuffer, resultBuffer
    ensures |resultData| == DataSize
    ensures var o := AfterSetupAt(drv.faults, s, n, family, resultData);
            exitCode == o.exitCode && drv.St() == o.world
  {
    if !result.success {
      exitCode, resultData := SetupFailedRelease(drv, ctx, aBuffer, bBuffer, resultBuffer, s, base, n, family);
    } else {
      SetupDoneLive(s, base, n + 10);
      exitCode, resultData := DispatchAndRelease(drv, ctx, compute, aBuffer, bBuffer, resultBuffer, s, base, n, family);
    }
  }

  /** AfterSetup when setup_compute took its handles from n + 10 on, the buffers hold the
      handles from n + 4 on and record_and_submit_compute runs on what setup_compute made. */
  function AfterSetupAt(faults: map<nat, string>, s: SetupOutcome, n: Handle, family: nat, resultData: seq<real>): MainOutcome
  {
    var d := DispatchSteps(faults, s.world, SetupFields(n + 10), Queue(n + 2, family), ElementCount);
    AfterSetup(s, d, n + 10, n, BufferAt(n + 4), BufferAt(n + 6), BufferAt(n + 8), resultData)
  }

  /** The branch of AfterSetupAt that a failing setup_compute takes. */
  lemma SetupFailedPath(faults: map<nat, string>, s: SetupOutcome, n: Handle, family: nat, resultData: seq<real>)
    requires !s.result.success
    ensures AfterSetupAt(faults, s, n, family, resultData)
            == MainOutcome(1, CleanupSteps(ReleaseThree(s.world, n + 3, BufferAt(n + 4), BufferAt(n + 6), BufferAt(n + 8)),
                                           n + 3, n + 2, n), SetupFailed(s.steps))
  {
  }

  /** The branch of AfterSetupAt that a successful setup_compute takes. */
  lemma SetupDonePath(faults: map<nat, string>, s: SetupOutcome, n: Handle, family: nat, resultData: seq<real>)
    requires s.result.success
    ensures var d := DispatchSteps(faults, s.world, SetupFields(n + 10), Queue(n + 2, family), ElementCount);
            AfterSetupAt(faults, s, n, family, resultData)
            == AfterDispatchSteps(d, n + 10, n, BufferAt(n + 4), BufferAt(n + 6), BufferAt(n + 8), resultData)
  {
  }

  /** main after a failed setup_compute: the buffers and the context are released, the objects
      setup_compute made are not. */
  method SetupFailedRelease(drv: Driver, ctx: VulkanContext, aBuffer: Buffer, bBuffer: Buffer, resultBuffer: Buffer,
                            ghost s: SetupOutcome, ghost base: set<Handle>, ghost n: Handle, ghost family: nat)
    returns (exitCode: int, resultData: seq<real>)
    requires ctx.instance == n && ctx.device == n + 2 && ctx.allocator == n + 3 && ctx.computeFamily == Some(family)
    requires !s.result.success && drv.St() == s.world && s.world.live == base + SetupMade(n + 10, s.steps)
    requires BuffersReady(n, aBuffer.Fields(), bBuffer.Fields(), resultBuffer.Fields(), base)
    modifies drv, aBuffer, bBuffer, resultBuffer
    ensures |resultData| == DataSize
    ensures var o := AfterSetupAt(drv.faults, s, n, family, resultData);
            exitCode == o.exitCode && drv.St() == o.world
  {
    BuffersReadyGrow(n, aBuffer.Fields(), bBuffer.Fields(), resultBuffer.Fields(), base, SetupMade(n + 10, s.steps));
    ReleaseBuffersAndContext(drv, ctx, aBuffer, bBuffer, resultBuffer, n);
    resultData := seq(DataSize, _ => 0.0);
    SetupFailedPath(drv.faults, s, n, family, resultData);
    return 1, resultData;
  }

  /** record_and_submit_compute on what setup_compute made from m = n + 10 on, then the read
      back and the check when it succeeded, and the release of everything main holds. */
  method DispatchAndRelease(drv: Driver, ctx: VulkanContext, compute: ComputePipeline,
                            aBuffer: Buffer, bBuffer: Buffer, resultBuffer: Buffer, ghost s: SetupOutcome,
                            ghost base: set<Handle>, ghost n: Handle, ghost family: nat)
    returns (exitCode: int, resultData: seq<real>)
    requires ctx.instance == n && ctx.device == n + 2 && ctx.allocator == n + 3 && ctx.computeFamily == Some(family)
    requires s.result.success && drv.St() == s.world
    requires compute.Fields() == SetupFields(n + 10)
    requires drv.live == base + FieldHandles(SetupFields(n + 10))
    requires BuffersReady(n, aBuffer.Fields(), bBuffer.Fields(), resultBuffer.Fields(), base)
    requires forall h :: h in base ==> h < n + 10
    requires resultBuffer.allocation in drv.mem && |drv.mem[resultBuffer.allocation]| == DataSize
    modifies drv, aBuffer, bBuffer, resultBuffer
    ensures |resultData| == DataSize
    ensures var o := AfterSetupAt(drv.faults, s, n, family, resultData);
            exitCode == o.exitCode && drv.St() == o.world
  {
    var dispatched;
    ghost var d;
    dispatched, d := SubmitAt(drv, ctx, compute, s.world, n, family);
    exitCode, resultData := AfterDispatch(drv, ctx, compute, aBuffer, bBuffer, resultBuffer, dispatched, d, base, n);
    SetupDonePath(drv.faults, s, n, family, resultData);
  }

  /** record_and_submit_compute on the objects setup_compute made from m = n + 10 on, in the
      queue of the context's compute family; it leaves the live set as it was. */
  method SubmitAt(drv: Driver, ctx: VulkanContext, compute: ComputePipeline, ghost w: World, ghost n: Handle, ghost family: nat)
    returns (dispatched: VulkanError, ghost d: DispatchOutcome)
    requires ctx.instance == n && ctx.device == n + 2 && ctx.computeFamily == Some(family)
    requires drv.St() == w && compute.Fields() == SetupFields(n + 10)
    requires FieldHandles(SetupFields(n + 10)) <= drv.live && n + 2 in drv.live
    modifies drv
    ensures d == DispatchSteps(drv.faults, w, SetupFields(n + 10), Queue(n + 2, family), ElementCount)
    ensures dispatched == d.result && drv.St() == d.world && drv.live == w.live
    ensures SameShape(old(drv.mem), drv.mem)
  {
    d := DispatchSteps(drv.faults, w, SetupFields(n + 10), Queue(n + 2, family), ElementCount);
    DispatchLog(drv.faults, w, SetupFields(n + 10), Queue(n + 2, family), ElementCount);
    dispatched := RecordAndSubmitCompute(drv, ctx, compute, ElementCount);
  }

  /** main after record_and_submit_compute returned `dispatched`, having left the world of `d`:
      on success the read back and the check; then cleanup_compute, the buffers and the context. */
  method AfterDispatch(drv: Driver, ctx: VulkanContext, compute: ComputePipeline,
                       aBuffer: Buffer, bBuffer: Buffer, resultBuffer: Buffer, dispatched: VulkanError,
                       ghost d: DispatchOutcome, ghost base: set<Handle>, ghost n: Handle)
    returns (exitCode: int, resultData: seq<real>)
    requires ctx.instance == n && ctx.device == n + 2 && ctx.allocator == n + 3
    requires dispatched == d.result && drv.St() == d.world
    requires compute.Fields() == SetupFields(n + 10)
    requires drv.live == base + FieldHandles(SetupFields(n + 10))
    requires BuffersReady(n, aBuffer.Fields(), bBuffer.Fields(), resultBuffer.Fields(), base)
    requires forall h :: h in base ==> h < n + 10
    requires resultBuffer.allocation in drv.mem && |drv.mem[resultBuffer.allocation]| == DataSize
    modifies drv, aBuffer, bBuffer, resultBuffer
    ensures |resultData| == DataSize
    ensures var o := AfterDispatchSteps(d, n + 10, n, BufferAt(n + 4), BufferAt(n + 6), BufferAt(n + 8), resultData);
            exitCode == o.exitCode && drv.St() == o.world
  {
    resultData := seq(DataSize, _ => 0.0);
    if !dispatched.success {
      ReleaseComputeBuffersAndContext(drv, ctx, compute, aBuffer, bBuffer, resultBuffer, base, n);
      return 1, resultData;
    }
    var computationSuccess;
    computationSuccess, resultData := CheckResults(drv, resultBuffer);
    ReleaseComputeBuffersAndContext(drv, ctx, compute, aBuffer, bBuffer, resultBuffer, base, n);
    exitCode := if computationSuccess then 0 else 1;
  }

  /** main's read back of the result buffer into `result_data`, followed by its check loop. */
  method CheckResults(drv: Driver, resultBuffer: Buffer) returns (computationSuccess: bool, resultData: seq<real>)
    requires resultBuffer.mappedData == MappedPtr(resultBuffer.allocation) && resultBuffer.size == InputBytes
    requires resultBuffer.allocation in drv.mem && |drv.mem[resultBuffer.allocation]| == DataSize
    ensures resultData == drv.mem[resultBuffer.allocation]
    ensures computationSuccess <==> ResultsCorrect(InputA(), InputB(), resultData)
  {
    resultData := drv.ReadMapped(resultBuffer.mappedData, resultBuffer.size);
    var mismatchAt;
    computationSuccess, mismatchAt := VerifyResults(InputA(), InputB(), resultData, DataSize);
  }

  /** The release after a successful setup_compute: cleanup_compute, then the buffers and the
      context. */
  method ReleaseComputeBuffersAndContext(drv: Driver, ctx: VulkanContext, compute: ComputePipeline,
                                         aBuffer: Buffer, bBuffer: Buffer, resultBuffer: Buffer, ghost base: set<Handle>,
                                         ghost n: Handle)
    requires ctx.instance == n && ctx.device == n + 2 && ctx.allocator == n + 3
    requires compute.Fields() == SetupFields(n + 10)
    requires drv.live == base + FieldHandles(SetupFields(n + 10))
    requires BuffersReady(n, aBuffer.Fields(), bBuffer.Fields(), resultBuffer.Fields(), base)
    requires forall h :: h in base ==> h < n + 10
    modifies drv, aBuffer, bBuffer, resultBuffer
    ensures drv.St() == CleanupSteps(ReleaseThree(ReleaseStep(old(drv.St()), FieldHandles(SetupFields(n + 10))),
                                                  n + 3, BufferAt(n + 4), BufferAt(n + 6), BufferAt(n + 8)),
                                     n + 3, n + 2, n)
  {
    ComputeGone(base, n + 10);
    drv.CleanupCompute(FieldHandles(compute.Fields()));
    ReleaseBuffersAndContext(drv, ctx, aBuffer, bBuffer, resultBuffer, n);
  }

  /** The empty buffer main starts from, and the three create_host_visible_buffer calls after
      init_vulkan. */
  function NoBuffer(): BufferFields
  {
    BufferFields(NullHandle, NullHandle, NullPtr, 0)
  }

  function MakeA(faults: map<nat, string>, v: World, n: Handle): BufferOutcome
  {
    MakeBuffer(faults, v, n + 3, NoBuffer(), InputBytes, StorageBufferUsage)
  }

  function MakeB(faults: map<nat, string>, v: World, n: Handle): BufferOutcome
  {
    MakeBuffer(faults, MakeA(faults, v, n).world, n + 3, NoBuffer(), InputBytes, StorageBufferUsage)
  }

  function MakeR(faults: map<nat, string>, v: World, n: Handle): BufferOutcome
  {
    MakeBuffer(faults, MakeB(faults, v, n).world, n + 3, NoBuffer(), InputBytes, StorageBufferUsage)
  }

  /** The branch of MainAfterInit that a failing buffer A takes. */
  lemma AFailedPath(faults: map<nat, string>, v: World, n: Handle, family: nat, file: Option<seq<bv8>>, resultData: seq<real>)
    requires !MakeA(faults, v, n).result.success
    ensures MainAfterInit(faults, v, n, family, file, resultData)
            == MainOutcome(1, CleanupSteps(MakeA(faults, v, n).world, n + 3, n + 2, n), BufferFailed(0))
  {
  }

  /** The branch of MainAfterInit that a failing buffer B takes. */
  lemma BFailedPath(faults: map<nat, string>, v: World, n: Handle, family: nat, file: Option<seq<bv8>>, resultData: seq<real>)
    requires MakeA(faults, v, n).result.success && !MakeB(faults, v, n).result.success
    ensures MainAfterInit(faults, v, n, family, file, resultData)
            == MainOutcome(1, CleanupSteps(ReleaseBuffer(MakeB(faults, v, n).world, n + 3, MakeA(faults, v, n).fields).world,
                                           n + 3, n + 2, n), BufferFailed(1))
  {
  }

  /** The branch of MainAfterInit that a failing result buffer takes. */
  lemma RFailedPath(faults: map<nat, string>, v: World, n: Handle, family: nat, file: Option<seq<bv8>>, resultData: seq<real>)
    requires MakeA(faults, v, n).result.success && MakeB(faults, v, n).result.success && !MakeR(faults, v, n).result.success
    ensures var afterA := ReleaseBuffer(MakeR(faults, v, n).world, n + 3, MakeA(faults, v, n).fields).world;
            MainAfterInit(faults, v, n, family, file, resultData)
            == MainOutcome(1, CleanupSteps(ReleaseBuffer(afterA, n + 3, MakeB(faults, v, n).fields).world, n + 3, n + 2, n),
                           BufferFailed(2))
  {
  }

  /** The branch of MainAfterInit that goes on to the compute work. */
  lemma BuffersMadePath(faults: map<nat, string>, v: World, n: Handle, family: nat, file: Option<seq<bv8>>, resultData: seq<real>)
    requires MakeA(faults, v, n).result.success && MakeB(faults, v, n).result.success && MakeR(faults, v, n).result.success
    requires MakeA(faults, v, n).fields == BufferAt(n + 4) && MakeB(faults, v, n).fields == BufferAt(n + 6)
    requires MakeR(faults, v, n).fields == BufferAt(n + 8)
    ensures MainAfterInit(faults, v, n, family, file, resultData)
            == MainCompute(faults, MakeR(faults, v, n).world, n, family, BufferAt(n + 4), BufferAt(n + 6), BufferAt(n + 8),
                           file, resultData)
  {
  }

  /** main after init_vulkan: the three buffers, each failure releasing the buffers made before
      it and the context, then the compute work. */
  method AddVectors(drv: Driver, ctx: VulkanContext, shaderFile: Option<seq<bv8>>)
    returns (exitCode: int, resultData: seq<real>)
    requires Fresh(drv.St()) && drv.next == ctx.instance + 4
    requires ctx.device == ctx.instance + 2 && ctx.allocator == ctx.instance + 3 && ctx.computeFamily.Some?
    requires ContextLive(drv.live, ctx.allocator, ctx.device, ctx.instance)
    modifies drv
    ensures |resultData| == DataSize
    ensures var o := MainAfterInit(drv.faults, old(drv.St()), ctx.instance, ctx.computeFamily.value, shaderFile, resultData);
            exitCode == o.exitCode && drv.St() == o.world
  {
    ghost var v, n, family := drv.St(), ctx.instance, ctx.computeFamily.value;
    var aBuffer := new Buffer();
    var bBuffer := new Buffer();
    var resultBuffer := new Buffer();
    var result := CreateHostVisibleBuffer(drv, ctx, aBuffer, InputBytes, StorageBufferUsage);
    MakeBufferLive(drv.faults, v, n);
    if !result.success {
      CleanupVulkan(drv, ctx);
      resultData := seq(DataSize, _ => 0.0);
      AFailedPath(drv.faults, v, n, family, shaderFile, resultData);
      return 1, resultData;
    }
    exitCode, resultData := AfterBufferA(drv, ctx, aBuffer, bBuffer, resultBuffer, shaderFile, v);
  }

  /** main once buffer A exists: buffer B, whose failure releases A and the context, then the
      rest. */
  method AfterBufferA(drv: Driver, ctx: VulkanContext, aBuffer: Buffer, bBuffer: Buffer, resultBuffer: Buffer,
                      shaderFile: Option<seq<bv8>>, ghost v: World)
    returns (exitCode: int, resultData: seq<real>)
    requires v.next == ctx.instance + 4 && ctx.computeFamily.Some?
    requires ctx.device == ctx.instance + 2 && ctx.allocator == ctx.instance + 3
    requires var a := MakeA(drv.faults, v, ctx.instance);
             && a.result.success && drv.St() == a.world && aBuffer.Fields() == a.fields && Fresh(a.world)
             && a.fields == BufferAt(ctx.instance + 4) && drv.next == ctx.instance + 6
    requires ContextLive(drv.live, ctx.allocator, ctx.device, ctx.instance) && Mapped(drv.mem, ctx.instance + 5)
    requires bBuffer.Fields() == NoBuffer() && resultBuffer.Fields() == NoBuffer() && bBuffer != resultBuffer
    modifies drv, aBuffer, bBuffer, resultBuffer
    ensures |resultData| == DataSize
    ensures var o := MainAfterInit(drv.faults, v, ctx.instance, ctx.computeFamily.value, shaderFile, resultData);
            exitCode == o.exitCode && drv.St() == o.world
  {
    ghost var n, family := ctx.instance, ctx.computeFamily.value;
    var result := CreateHostVisibleBuffer(drv, ctx, bBuffer, InputBytes, StorageBufferUsage);
    MakeBufferLive(drv.faults, MakeA(drv.faults, v, n).world, n);
    if !result.success {
      DestroyBuffer(drv, ctx, aBuffer);
      CleanupVulkan(drv, ctx);
      resultData := seq(DataSize, _ => 0.0);
      BFailedPath(drv.faults, v, n, family, shaderFile, resultData);
      return 1, resultData;
    }
    exitCode, resultData := AfterBufferB(drv, ctx, aBuffer, bBuffer, resultBuffer, shaderFile, v);
  }

  /** main once buffers A and B exist: the result buffer, whose failure releases A, B and the
      context, then the compute work. */
  method AfterBufferB(drv: Driver, ctx: VulkanContext, aBuffer: Buffer, bBuffer: Buffer, resultBuffer: Buffer,
                      shaderFile: Option<seq<bv8>>, ghost v: World)
    returns (exitCode: int, resultData: seq<real>)
    requires v.next == ctx.instance + 4 && ctx.computeFamily.Some?
    requires ctx.device == ctx.instance + 2 && ctx.allocator == ctx.instance + 3
    requires var a, b := MakeA(drv.faults, v, ctx.instance), MakeB(drv.faults, v, ctx.instance);
             && a.result.success && b.result.success && drv.St() == b.world && Fresh(b.world)
             && aBuffer.Fields() == a.fields && bBuffer.Fields() == b.fields
             && a.fields == BufferAt(ctx.instance + 4) && b.fields == BufferAt(ctx.instance + 6)
             && drv.next == ctx.instance + 8
    requires ContextLive(drv.live, ctx.allocator, ctx.device, ctx.instance)
    requires Mapped(drv.mem, ctx.instance + 5) && Mapped(drv.mem, ctx.instance + 7)
    requires resultBuffer.Fields() == NoBuffer()
    modifies drv, aBuffer, bBuffer, resultBuffer
    ensures |resultData| == DataSize
    ensures var o := MainAfterInit(drv.faults, v, ctx.instance, ctx.computeFamily.value, shaderFile, resultData);
            exitCode == o.exitCode && drv.St() == o.world
  {
    ghost var n, family := ctx.instance, ctx.computeFamily.value;
    var result := CreateHostVisibleBuffer(drv, ctx, resultBuffer, InputBytes, StorageBufferUsage);
    MakeBufferLive(drv.faults, MakeB(drv.faults, v, n).world, n);
    if !result.success {
      exitCode, resultData := ResultBufferFailed(drv, ctx, aBuffer, bBuffer, shaderFile, v, n, family);
      return;
    }
    exitCode, resultData := ComputeOnBuffers(drv, ctx, aBuffer, bBuffer, resultBuffer, shaderFile, v, n, family);
  }

  /** main when the result buffer cannot be created: A, B and the context are released. */
  method ResultBufferFailed(drv: Driver, ctx: VulkanContext, aBuffer: Buffer, bBuffer: Buffer,
                            shaderFile: Option<seq<bv8>>, ghost v: World, ghost n: Handle, ghost family: nat)
    returns (exitCode: int, resultData: seq<real>)
    requires ctx.instance == n && ctx.device == n + 2 && ctx.allocator == n + 3 && ctx.computeFamily == Some(family)
    requires && MakeA(drv.faults, v, n).result.success && MakeB(drv.faults, v, n).result.success
             && !MakeR(drv.faults, v, n).result.success && drv.St() == MakeR(drv.faults, v, n).world
             && aBuffer.Fields() == MakeA(drv.faults, v, n).fields && bBuffer.Fields() == MakeB(drv.faults, v, n).fields
             && aBuffer.Fields() == BufferAt(n + 4) && bBuffer.Fields() == BufferAt(n + 6)
    requires {n + 4, n + 5, n + 6, n + 7} <= drv.live
    requires ContextLive(drv.live, n + 3, n + 2, n)
    modifies drv, aBuffer, bBuffer
    ensures |resultData| == DataSize
    ensures var o := MainAfterInit(drv.faults, v, n, family, shaderFile, resultData);
            exitCode == o.exitCode && drv.St() == o.world
  {
    DestroyBuffer(drv, ctx, aBuffer);
    DestroyBuffer(drv, ctx, bBuffer);
    CleanupVulkan(drv, ctx);
    resultData := seq(DataSize, _ => 0.0);
    RFailedPath(drv.faults, v, n, family, shaderFile, resultData);
    return 1, resultData;
  }

  /** main once its three buffers exist, as MainAfterInit describes that branch. */
  method ComputeOnBuffers(drv: Driver, ctx: VulkanContext, aBuffer: Buffer, bBuffer: Buffer, resultBuffer: Buffer,
                          shaderFile: Option<seq<bv8>>, ghost v: World, ghost n: Handle, ghost family: nat)
    returns (exitCode: int, resultData: seq<real>)
    requires ctx.instance == n && ctx.device == n + 2 && ctx.allocator == n + 3 && ctx.computeFamily == Some(family)
    requires && MakeA(drv.faults, v, n).result.success && MakeB(drv.faults, v, n).result.success
             && MakeR(drv.faults, v, n).result.success && drv.St() == MakeR(drv.faults, v, n).world
             && MakeA(drv.faults, v, n).fields == BufferAt(n + 4) && MakeB(drv.faults, v, n).fields == BufferAt(n + 6)
             && MakeR(drv.faults, v, n).fields == BufferAt(n + 8)
    requires Fresh(drv.St()) && drv.next == n + 10
    requires BuffersReady(n, aBuffer.Fields(), bBuffer.Fields(), resultBuffer.Fields(), drv.live)
    requires Mapped(drv.mem, n + 5) && Mapped(drv.mem, n + 7) && Mapped(drv.mem, n + 9)
    modifies drv, aBuffer, bBuffer, resultBuffer
    ensures |resultData| == DataSize
    ensures var o := MainAfterInit(drv.faults, v, n, family, shaderFile, resultData);
            exitCode == o.exitCode && drv.St() == o.world
  {
    exitCode, resultData := ComputeAndRelease(drv, ctx, aBuffer, bBuffer, resultBuffer, shaderFile, n, family);
    BuffersMadePath(drv.faults, v, n, family, shaderFile, resultData);
  }

  /** main: init_vulkan with no application name, then the vector addition; a failing init
      returns 1 at once. */
  method RunMain(drv: Driver, shaderFile: Option<seq<bv8>>) returns (exitCode: int, resultData: seq<real>)
    requires Fresh(drv.St()) && drv.computeFamily.Some?
    modifies drv
    ensures |resultData| == DataSize
    ensures var o := MainSteps(drv.faults, old(drv.St()), drv.computeFamily.value, shaderFile, resultData);
            exitCode == o.exitCode && drv.St() == o.world
  {
    ghost var w := drv.St();
    var ctx := new VulkanContext();
    var result := InitVulkan(drv, ctx, None);
    if !result.success {
      return 1, seq(DataSize, _ => 0.0);
    }
    InitStopsAtFirstFailure(drv.faults, w, None);
    InitHandles(drv.faults, w, None);
    InitOwnedAll(w.next);
    exitCode, resultData := AddVectors(drv, ctx, shaderFile);
  }
}
