/**
 * The imperative side of arch/arm64/kernel/tso.c: one CPU core with its
 * system registers as fields, threads as objects with a `tso` field, and the
 * four routines of the file as methods proved against the functions of
 * TsoSpec.
 */
module Tso {
  import opened TsoSpec

  /** The part of a task_struct this file touches: `thread.tso`, the thread's saved mode. */
  class Task {
    var tso: bool

    constructor(tso: bool)
      ensures this.tso == tso
    {
      this.tso := tso;
    }
  }

  /**
   * One core. The implementor id (MIDR_EL1) and AIDR_EL1 are read-only, so
   * they are constants; ACTLR_EL1 is the one register the code writes.
   * `tsoWritable` says whether this core honours a write to the TSOEN bit:
   * when it does not, the bit keeps its value and the readback in
   * modify_tso_enable fails. `actlrWrites` counts the writes to ACTLR_EL1,
   * and `threads` is the set of threads the core is observed to run.
   */
  class Cpu {
    const layout: Layout
    const implementor: bv32
    const aidr: bv64
    const tsoWritable: bool
    var actlr: bv64
    var current: Task
    ghost var actlrWrites: nat
    ghost const threads: set<Task>

    constructor(layout: Layout, implementor: bv32, aidr: bv64, tsoWritable: bool, actlr: bv64, current: Task,
                ghost threads: set<Task>)
      ensures this.layout == layout && this.implementor == implementor && this.aidr == aidr
      ensures this.tsoWritable == tsoWritable && this.actlr == actlr && this.current == current
      ensures actlrWrites == 0 && this.threads == threads
    {
      this.layout := layout;
      this.implementor := implementor;
      this.aidr := aidr;
      this.tsoWritable := tsoWritable;
      this.actlr := actlr;
      this.current := current;
      actlrWrites := 0;
      this.threads := threads;
    }

    /** The core as a value: ACTLR_EL1, the saved mode of every thread it runs, and the current thread. */
    ghost function View(): (c: Core<Task>)
      reads this, threads
      ensures c.saved.Keys == threads
    {
      Core(actlr, map t | t in threads :: t.tso, current)
    }

    /** Whether this core supports TSO; depends only on read-only registers. */
    predicate IsSupported() {
      Supported(layout, implementor, aidr)
    }

    // -------------------------------------------------------------------
    // The register accessors
    // -------------------------------------------------------------------

    /** read_cpuid_implementor(). */
    method ReadCpuidImplementor() returns (r: bv32)
      ensures r == implementor
    {
      r := implementor;
    }

    /** read_sysreg(aidr_el1). */
    method ReadAidr() returns (r: bv64)
      ensures r == aidr
    {
      r := aidr;
    }

    /** read_sysreg(actlr_el1). */
    method ReadActlr() returns (r: bv64)
      ensures r == actlr
    {
      r := actlr;
    }

    /** write_sysreg(v, actlr_el1): the TSOEN bit takes `v` only when the core honours it. */
    method WriteActlr(v: bv64)
      modifies this`actlr, this`actlrWrites
      ensures actlr == Written(tsoWritable, old(actlr), v)
      ensures actlrWrites == old(actlrWrites) + 1
    {
      actlr := Written(tsoWritable, actlr, v);
      actlrWrites := actlrWrites + 1;
    }

    // -------------------------------------------------------------------
    // The routines of tso.c
    // -------------------------------------------------------------------

    /** tso_supported: true exactly on an Apple core whose AIDR_EL1 has the TSO bit. */
    method TsoSupported() returns (r: bool)
      ensures r == IsSupported()
    {
      var cpuidImplementor := ReadCpuidImplementor();
      var aidrValue := ReadAidr();
      r := Supported(layout, cpuidImplementor, aidrValue);
    }

    /**
     * tso_enabled: -EOPNOTSUPP exactly on unsupported hardware, otherwise 0
     * or 1, the live TSOEN bit.
     */
    method TsoEnabled() returns (r: int)
      ensures r == EnabledResult(IsSupported(), actlr)
      ensures r == -EOPNOTSUPP <==> !IsSupported()
      ensures IsSupported() ==> (r == 0 || r == 1) && (r == 1 <==> TsoenBit(actlr))
    {
      EnabledResultMeaning(IsSupported(), actlr);
      var supported := TsoSupported();
      if !supported {
        return -EOPNOTSUPP;
      }
      var actlrValue := ReadActlr();
      r := BoolToInt(actlrValue & TSOEN_MASK != 0);
    }

    /**
     * modify_tso_enable: on unsupported hardware, -EOPNOTSUPP and no write.
     * Otherwise one read-modify-write that can change only the TSOEN bit,
     * followed by a readback; the result is 0 exactly when the bit now
     * equals the request, -EOPNOTSUPP otherwise.
     */
    method ModifyTsoEnable(enable: bool) returns (r: int)
      modifies this`actlr, this`actlrWrites
      ensures !IsSupported() ==> r == -EOPNOTSUPP && actlr == old(actlr) && actlrWrites == old(actlrWrites)
      ensures IsSupported() ==>
        actlr == ModifiedActlr(tsoWritable, old(actlr), enable) && actlrWrites == old(actlrWrites) + 1
      ensures OtherBits(actlr) == OtherBits(old(actlr))
      ensures r == ModifyResult(IsSupported(), tsoWritable, old(actlr), enable)
      ensures r == 0 || r == -EOPNOTSUPP
      ensures r == 0 <==> IsSupported() && TsoenBit(actlr) == enable
      ensures r == 0 ==> EnabledResult(IsSupported(), actlr) == BoolToInt(enable)
    {
      ModifyResultMeaning(IsSupported(), tsoWritable, actlr, enable);
      ModifiedKeepsOtherBits(tsoWritable, actlr, enable);
      ModifiedTsoen(tsoWritable, actlr, enable);
      var supported := TsoSupported();
      if !supported {
        return -EOPNOTSUPP;
      }
      var actlrOld := ReadActlr();
      ShiftedEnableIsMask(actlrOld, enable);
      var actlrNew := (actlrOld & !TSOEN_MASK) | ShiftedEnable(enable);
      WriteActlr(actlrNew);
      var enabled := TsoEnabled();
      if enabled != BoolToInt(enable) {
        return -EOPNOTSUPP;
      }
      return 0;
    }

    /**
     * tso_thread_switch: on unsupported hardware nothing changes. Otherwise
     * the outgoing thread's field gets the live TSOEN bit, no other thread's
     * field changes, and the register is modified for the incoming thread's
     * field (read after that assignment, which matters when `next` is the
     * current thread); the bit follows it whenever the core honours the write.
     */
    method TsoThreadSwitch(next: Task)
      modifies this`actlr, this`actlrWrites, current`tso
      ensures !IsSupported() ==>
        actlr == old(actlr) && actlrWrites == old(actlrWrites) && current.tso == old(current.tso)
      ensures IsSupported() ==> current.tso == old(TsoenBit(actlr))
      ensures IsSupported() && next != current ==> next.tso == old(next.tso)
      ensures IsSupported() ==> actlr == ModifiedActlr(tsoWritable, old(actlr), next.tso)
      ensures IsSupported() && tsoWritable ==> TsoenBit(actlr) == next.tso
      ensures current in threads && next in threads ==>
        View() == HookStep(IsSupported(), tsoWritable, old(View()), next)
    {
      ghost var before := View();
      var supported := TsoSupported();
      if supported {
        var enabled := TsoEnabled();
        current.tso := IntToBool(enabled);
        ghost var saved := map t | t in threads :: t.tso;
        if current in threads {
          assert saved == before.saved[current := IntToBool(enabled)];
        }
        var ignored := ModifyTsoEnable(next.tso);
        assert View() == Core(actlr, saved, current);
      }
    }

    /**
     * A whole context switch as this file sees it: the hook runs, then the
     * scheduler makes `next` the current thread.
     */
    method SwitchTo(next: Task)
      modifies this`actlr, this`actlrWrites, this`current, current`tso
      ensures current == next
      ensures !IsSupported() ==>
        actlr == old(actlr) && actlrWrites == old(actlrWrites) && old(current).tso == old(current.tso)
      ensures IsSupported() ==> old(current).tso == old(TsoenBit(actlr))
      ensures IsSupported() && next != old(current) ==> next.tso == old(next.tso)
      ensures IsSupported() ==> actlr == ModifiedActlr(tsoWritable, old(actlr), next.tso)
      ensures old(current) in threads && next in threads ==>
        View() == ContextSwitch(IsSupported(), tsoWritable, old(View()), next)
    {
      TsoThreadSwitch(next);
      current := next;
    }

    /**
     * Switching from the current thread A to another thread B and back, on a
     * supported core that honours the write: ACTLR_EL1 is what it was, A is
     * current again and holds the mode that was live, and B's field is as it
     * was.
     */
    method SwitchAwayAndBack(b: Task)
      requires IsSupported() && tsoWritable && b != current
      modifies this`actlr, this`actlrWrites, this`current, current`tso, b`tso
      ensures current == old(current)
      ensures actlr == old(actlr)
      ensures current.tso == old(TsoenBit(actlr))
      ensures b.tso == old(b.tso)
    {
      var a := current;
      ghost var start := actlr;
      ghost var bMode := b.tso;
      ModifiedTsoen(true, start, bMode);
      SwitchBackRestores(true, start, bMode);
      SwitchTo(b);
      SwitchTo(a);
    }
  }
}
