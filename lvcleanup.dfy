/** Releasing what the harness made: one buffer (destroy_buffer) and the device context
    (cleanup_vulkan). */
module LvCleanup {
  import opened Ledger
  import opened LvInit

  /** A buffer's fields and the world after destroy_buffer. */
  datatype BufferRelease = BufferRelease(fields: BufferFields, world: World)

  /** destroy_buffer: a non-null buffer is handed to vmaDestroyBuffer together with its
      allocation, then the buffer handle and the mapping are nulled; a null buffer is left alone. */
  function ReleaseBuffer(w: World, allocator: Handle, b: BufferFields): BufferRelease
  {
    if b.buffer == NullHandle then BufferRelease(b, w)
    else BufferRelease(b.(buffer := NullHandle, mappedData := NullPtr),
                       BufferDestroyStep(w, allocator, b.buffer, b.allocation))
  }

  /** destroy_buffer releases a non-null buffer exactly once, with the allocation it was made
      with, and leaves it null; a null buffer costs no call.  The allocation handle and the size
      are never touched. */
  lemma ReleaseBufferOnce(w: World, allocator: Handle, b: BufferFields)
    ensures var o := ReleaseBuffer(w, allocator, b);
            && o.fields.buffer == NullHandle
            && o.fields.allocation == b.allocation && o.fields.size == b.size
            && (b.buffer == NullHandle ==> o.fields == b && o.world == w)
            && (b.buffer != NullHandle ==>
                  && o.fields.mappedData == NullPtr
                  && o.world.live == w.live - {b.buffer, b.allocation}
                  && o.world.log == w.log + [BufferDestroyed(allocator, b.buffer, b.allocation)]
                  && Teardown(o.world.log) == Teardown(w.log) + [BufferDestroyed(allocator, b.buffer, b.allocation)])
  {
    if b.buffer != NullHandle {
      RecordTeardown(w.(live := w.live - {b.buffer, b.allocation}), BufferDestroyed(allocator, b.buffer, b.allocation));
    }
  }

  /** A second destroy_buffer on the same buffer does nothing. */
  lemma ReleaseBufferIdempotent(w: World, allocator: Handle, b: BufferFields)
    ensures var o := ReleaseBuffer(w, allocator, b);
            ReleaseBuffer(o.world, allocator, o.fields) == o
  {
  }

  method DestroyBuffer(drv: Driver, ctx: VulkanContext, buffer: Buffer)
    requires buffer.buffer != NullHandle ==>
               ctx.allocator in drv.live && buffer.buffer in drv.live && buffer.allocation in drv.live
    modifies drv, buffer
    ensures var o := ReleaseBuffer(old(drv.St()), ctx.allocator, old(buffer.Fields()));
            buffer.Fields() == o.fields && drv.St() == o.world
    ensures drv.mem == if old(buffer.buffer) == NullHandle then old(drv.mem) else old(drv.mem) - {old(buffer.allocation)}
  {
    if buffer.buffer != NullHandle {
      drv.DestroyBuffer(ctx.allocator, buffer.buffer, buffer.allocation);
      buffer.buffer := NullHandle;
      buffer.mappedData := NullPtr;
    }
  }

  /** cleanup_vulkan: the allocator, then the device, then the instance. */
  function CleanupSteps(w: World, allocator: Handle, device: Handle, instance: Handle): World
  {
    DestroyStep(DestroyStep(DestroyStep(w, allocator), device), instance)
  }

  /** The three handles a context owns, distinct and live: what cleanup_vulkan needs. */
  predicate ContextLive(live: set<Handle>, allocator: Handle, device: Handle, instance: Handle)
  {
    && allocator in live && device in live && instance in live
    && allocator != device && allocator != instance && device != instance
  }

  /** cleanup_vulkan releases the allocator, the device and the instance, in that order, and
      nothing else; afterwards none of them is live, so the context cannot be cleaned up twice. */
  lemma CleanupVulkanOrder(w: World, allocator: Handle, device: Handle, instance: Handle)
    ensures var after := CleanupSteps(w, allocator, device, instance);
            && Teardown(after.log) == Teardown(w.log) + [Destroyed(allocator), Destroyed(device), Destroyed(instance)]
            && after.live == w.live - {allocator, device, instance}
            && after.next == w.next && after.attempts == w.attempts
            && !ContextLive(after.live, allocator, device, instance)
  {
    var w1 := DestroyStep(w, allocator);
    var w2 := DestroyStep(w1, device);
    RecordTeardown(w.(live := w.live - {allocator}), Destroyed(allocator));
    RecordTeardown(w1.(live := w1.live - {device}), Destroyed(device));
    RecordTeardown(w2.(live := w2.live - {instance}), Destroyed(instance));
  }

  method CleanupVulkan(drv: Driver, ctx: VulkanContext)
    requires ContextLive(drv.live, ctx.allocator, ctx.device, ctx.instance)
    modifies drv
    ensures drv.St() == CleanupSteps(old(drv.St()), ctx.allocator, ctx.device, ctx.instance)
    ensures drv.mem == old(drv.mem)
  {
    drv.Destroy(ctx.allocator);
    drv.Destroy(ctx.device);
    drv.Destroy(ctx.instance);
  }
}
