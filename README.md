# Per-thread TSO mode on Apple arm64 cores

This project models `arch/arm64/kernel/tso.c`. Apple arm64 cores can run in
total store order (TSO) memory ordering. The file makes this mode a property
of each thread. The mode is one bit, TSOEN, of the core-global register
ACTLR_EL1, and each thread's desired mode is saved in its `thread.tso`
field. The file has four routines:

- `tso_supported`: the core is Apple's, and AIDR_EL1 advertises TSO.
- `tso_enabled`: reads the live TSOEN bit. Returns `-EOPNOTSUPP` when TSO is unsupported.
- `modify_tso_enable`: a read-modify-write of ACTLR_EL1 followed by a readback. It reports `-EOPNOTSUPP` when the bit did not take the requested value.
- `tso_thread_switch`: the context-switch hook. It saves the live bit into the outgoing thread and applies the incoming thread's saved bit.

The project has two modules:

- **`TsoSpec`** (`tso_spec.dfy`) is the value-level model:
  - the register computations, written as functions on `bv64`;
  - the C conversions they rely on: bool promotion, the `int` shift, sign extension to `u64`, and assignment of an `int` to a `bool`;
  - a `Core` value: ACTLR_EL1, a map from thread to saved mode, and the current thread;
  - `HookStep` (the hook), `ContextSwitch` (hook then scheduler) and `Run` (a sequence of switches);
  - the lemmas about all of these.
- **`Tso`** (`tso.dfy`) is the imperative model:
  - a `Cpu` class whose fields are the registers and the current thread;
  - a `Task` class with the `tso` field;
  - the four routines as methods proved against the `TsoSpec` functions.

  `Cpu.View()` reads the objects back as a `Core` value. Whenever the outgoing and incoming threads are both in the core's `threads`, `TsoThreadSwitch` and `SwitchTo` are specified as `HookStep` and `ContextSwitch` of that view. So each switch of the objects is one step of `Run`, and the lemmas about `Run` describe a sequence of such switches. No method of `Cpu` runs a whole schedule.

A write to ACTLR_EL1 may be declined by the hardware. `Written` models this:

- when `tsoWritable` holds, the TSOEN bit takes the written value;
- otherwise it keeps its old value;
- every other bit always takes the written value.

Without this, the readback check in `modify_tso_enable` could never fail.

## Model

| member | source | states |
|---|---|---|
| TsoSpec.TsoenConstants | arch/arm64/kernel/tso.c:73-75 | the TSOEN mask is the single bit at TSOEN_SHIFT, the shift is below 31, and `(int)1 << SHIFT` has its sign bit clear |
| TsoSpec.BoolToInt | arch/arm64/kernel/tso.c:79 | a promoted C bool is 0 or 1, and is 1 exactly when the bool is true |
| TsoSpec.EnabledResultMeaning | arch/arm64/kernel/tso.c:57-65 | tso_enabled's value is -EOPNOTSUPP exactly when unsupported; otherwise it is 0 or 1, and 1 exactly when TSOEN is set |
| TsoSpec.ShiftedEnableIsMask | arch/arm64/kernel/tso.c:72-75 | `tso_enable << SHIFT` is a non-negative C int, so its conversion to u64 is the TSOEN mask or 0; hence the C expression at these lines (old value with TSOEN cleared, OR that shifted value) is the old value with TSOEN replaced by the request |
| TsoSpec.RequestedKeepsOtherBits | arch/arm64/kernel/tso.c:72-75 | the value computed for writing agrees with the old register on every bit except TSOEN |
| TsoSpec.RequestedSetsTsoen | arch/arm64/kernel/tso.c:73-75 | the TSOEN bit of the value computed for writing equals `tso_enable` |
| TsoSpec.RequestedIdempotent | arch/arm64/kernel/tso.c:73-75 | applying the computation twice with the same argument gives the same value as applying it once |
| TsoSpec.WrittenOtherBits | arch/arm64/kernel/tso.c:77 | after `write_sysreg`, every bit but TSOEN holds the written value |
| TsoSpec.WrittenTsoen | arch/arm64/kernel/tso.c:77 | after `write_sysreg`, TSOEN holds the written bit if the core honours it, and its previous bit if not |
| TsoSpec.ModifiedKeepsOtherBits | arch/arm64/kernel/tso.c:72-77 | the read-modify-write changes no bit of ACTLR_EL1 outside the TSOEN mask |
| TsoSpec.ModifiedTsoen | arch/arm64/kernel/tso.c:72-77 | after the read-modify-write, TSOEN is the request on a core that honours it, and unchanged otherwise |
| TsoSpec.ModifiedUnwritable | arch/arm64/kernel/tso.c:72-77 | on a core that declines TSOEN writes, the register ends as it began |
| TsoSpec.ModifiedToSame | arch/arm64/kernel/tso.c:72-77 | requesting the mode already live leaves the register unchanged |
| TsoSpec.ModifiedTwice | arch/arm64/kernel/tso.c:72-77 | on a core that honours writes, a second modification overrides the first |
| TsoSpec.ModifyIdempotent | arch/arm64/kernel/tso.c:72-77 | modifying twice with the same request leaves the same register as modifying once, whether or not the core honours it |
| TsoSpec.SwitchBackRestores | arch/arm64/kernel/tso.c:72-77 | modifying the register for another mode and then back for the original one restores it exactly, whether or not the core honours the writes |
| TsoSpec.ModifyResultMeaning | arch/arm64/kernel/tso.c:67-83 | modify_tso_enable returns 0 or -EOPNOTSUPP, and returns 0 exactly when supported and either the core honours the write or the bit already had the requested value |
| TsoSpec.ModifySuccessReadback | arch/arm64/kernel/tso.c:79-82 | a 0 result means a following tso_enabled returns the request, as a promoted 0/1 |
| TsoSpec.HookStep | arch/arm64/kernel/tso.c:85-91 | the hook keeps the current thread and the set of threads; on unsupported hardware it changes nothing; on supported hardware the outgoing thread's saved mode becomes the bit that was live and no other saved mode changes |
| TsoSpec.ContextSwitch | arch/arm64/kernel/tso.c:85-91 | after the hook, `next` is the current thread and the set of threads is unchanged |
| TsoSpec.Run | arch/arm64/kernel/tso.c:85-91 | a sequence of switches keeps the set of threads and ends with the last scheduled thread current |
| TsoSpec.AllKnownTail | arch/arm64/kernel/tso.c:85-91 | a core that knows every thread of a schedule still knows every thread of its tail after a switch |
| TsoSpec.HookKeepsOtherBits | arch/arm64/kernel/tso.c:85-91 | the hook changes no ACTLR_EL1 bit other than TSOEN |
| TsoSpec.HookAppliesNext | arch/arm64/kernel/tso.c:88-89 | on a supported core that honours writes, after the hook TSOEN equals the incoming thread's saved mode |
| TsoSpec.HookUnwritable | arch/arm64/kernel/tso.c:88-89 | on a supported core that declines TSOEN writes, the hook leaves ACTLR_EL1 unchanged |
| TsoSpec.SwitchRoundTrip | arch/arm64/kernel/tso.c:85-91 | switching A→B→A on a supported core that honours writes: the register is restored, A is current again and holds the mode that was live, and every other saved mode is unchanged |
| TsoSpec.RunKeepsModes | arch/arm64/kernel/tso.c:85-91 | on a supported core that honours writes: if the live bit starts equal to the current thread's saved mode, then any sequence of switches keeps every saved mode and every bit outside TSOEN, and the live bit is always the running thread's saved mode |
| TsoSpec.RunUnsupportedInert | arch/arm64/kernel/tso.c:85-87 | on unsupported hardware no sequence of switches changes the register or any saved mode |
| TsoSpec.RunUnwritableKeepsRegister | arch/arm64/kernel/tso.c:85-91 | on a supported core that declines TSOEN writes, no sequence of switches changes the register |
| Tso.Cpu.View | arch/arm64/kernel/tso.c:85-91 | the core read as a value, with one saved-mode entry for each of its threads |
| Tso.Cpu.ReadCpuidImplementor | arch/arm64/kernel/tso.c:50 | returns the core's implementor id |
| Tso.Cpu.ReadAidr | arch/arm64/kernel/tso.c:51 | returns AIDR_EL1 |
| Tso.Cpu.ReadActlr | arch/arm64/kernel/tso.c:62 | returns ACTLR_EL1 |
| Tso.Cpu.WriteActlr | arch/arm64/kernel/tso.c:77 | ACTLR_EL1 takes the written value, except that TSOEN keeps its bit on a core that declines it; exactly one write is counted |
| Tso.Cpu.TsoSupported | arch/arm64/kernel/tso.c:48-55 | returns true exactly when the implementor is Apple's and AIDR_EL1 has the TSO bit (`Supported`), and changes no state |
| Tso.Cpu.TsoEnabled | arch/arm64/kernel/tso.c:57-65 | returns -EOPNOTSUPP exactly when unsupported, and otherwise 0 or 1 equal to the TSOEN bit, and changes no state |
| Tso.Cpu.ModifyTsoEnable | arch/arm64/kernel/tso.c:67-83 | unsupported: -EOPNOTSUPP, no write, register unchanged. Supported: one write, the register is `ModifiedActlr` of the old one, no bit outside TSOEN changes, the result is 0 or -EOPNOTSUPP and is 0 exactly when the bit now equals the request; on 0, tso_enabled would return the request |
| Tso.Cpu.TsoThreadSwitch | arch/arm64/kernel/tso.c:85-91 | unsupported: no write and no field changes. Supported: the outgoing thread's field is the bit live before; a distinct `next` keeps its field; the register is modified for `next`'s field and equals it when the core honours writes; the frame lets no other thread's field change; when both threads are in `threads`, the whole effect is `HookStep` on `View()` |
| Tso.Cpu.SwitchTo | arch/arm64/kernel/tso.c:85-91 | the hook followed by the scheduler's change of current thread: `next` becomes current; on unsupported hardware no write and the outgoing field unchanged; on supported hardware the outgoing field is the live bit and the register is modified for `next`'s field; when both threads are in `threads`, equal to `ContextSwitch` on `View()` |
| Tso.Cpu.SwitchAwayAndBack | arch/arm64/kernel/tso.c:85-91 | on objects, on a supported core that honours writes: switching from A to B and back restores ACTLR_EL1 and leaves B's field as it was; A's field holds the bit that was live |

## Left out

- The register accessors `read_cpuid_implementor`, `read_sysreg` and `write_sysreg` are privileged instructions. They are methods over fields of `Cpu`, and whether a core honours TSOEN writes is the constant `tsoWritable`.
- The values of `ARM_CPU_IMP_APPLE` and `SYS_AIDR_EL1_TSO_MASK` live in `asm/cputype.h` and `asm/sysreg.h`, which are not part of this model. They are the fields of the `Layout` parameter, so every result holds for any values.
- `SYS_ACTLR_EL1_TSOEN_SHIFT` and `SYS_ACTLR_EL1_TSOEN_MASK` come from the same headers. They are fixed at bit 1 (shift 1, mask 0x2), the bit Apple cores use. The code relies only on what `TsoenConstants` states.
- `EOPNOTSUPP` is 95, its Linux value.
- What TSO ordering means for memory accesses is not modelled. It is a memory-model matter, and this code only sets a bit.
- Behaviour across several cores, preemption and the scheduler's switch protocol are left out. Only one core and a sequence of switches are modelled. The change of current thread in `SwitchTo` is the scheduler's, not this file's.
- How a thread's mode is first chosen is left out. That is done by the callers of `modify_tso_enable`.
- The `CONFIG_ARM64_TSO` build guard is left out.
- The saved mode is stored without checking `tso_enabled()` for an error: line 88 assigns its int result to the bool `thread.tso`. Support was checked at line 87, so the stored value is always the 0/1 bit. The model stores `IntToBool(EnabledResult(..))`, as the code does.
- Tso.Cpu.TsoThreadSwitch and Tso.Cpu.SwitchTo: neither states in its own contract that the bits of ACTLR_EL1 outside TSOEN are kept. It follows from their `ModifiedActlr` and `HookStep` clauses through `ModifiedKeepsOtherBits` and `HookKeepsOtherBits`.
