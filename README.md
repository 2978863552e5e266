# litelitedram simulation core in Dafny

This project models the small synchronous circuits in litelitedram's
simulation examples and proves properties of them. All of these circuits are
described with the Migen hardware-description framework.

- **`WBRegister`.** A one-word Wishbone slave that acknowledges every classic
  single read or write in the cycle it is requested.
- **The Wishbone master helpers.** These are `WBInterface.controller_write_hdl`,
  `controller_read_hdl` and `TimeoutCheck`. Each call adds one bus transfer to
  an FSM that is being built:
  - an issuing action list;
  - a `<next>_BEFORE_ENTER_BUS_WAIT` wait state;
  - a `cyc = 0, stb = 0` prefix on the next state.
- **`WBRegisterTester`.** An FSM that is meant to write 0xDEADBEEF, read it
  back into `tmp`, write `tmp + 1`, read that back and finish. An 8-bit
  `tries` counter ends the simulation once it reaches 32. Connected to
  `WBRegister` as written, it times out after the first write (see
  "## Findings").
- **The FOO/BAR example FSM.** It appears in `examples/fsm.py`,
  `examples/barefsm.py` and `examples/barefsmsim.py` with the same actions;
  only the register is called `counterz` in the last one.
- **The naming helpers of `litelitedram/utils.py`.**

## Modules

- `Hdl`: signal widths. Wherever the model assigns a value that may not fit
  its `w`-bit signal, it goes through `Truncate`, which keeps the value
  modulo `2**w`.
- `Migen`: the framework parts the core uses.
  - The statements of an action list.
  - An `Fsm` whose `act` appends to a per-state action list. The first state
    given actions becomes the reset state when none was chosen.
  - Signals with a `backtrace`.
  - `Run`, which gives what an action list does in one cycle:
    - a combinational signal takes the value of the last statement driving it,
      and 0 when none drives it;
    - the last `NextState` and the last `NextValue` win;
    - `Finish` sets a flag.
- `Naming`: the helpers of `litelitedram/utils.py`.
- `WishboneRegister`: `WBRegister` as a class whose `Step` computes the
  combinational block and then performs `q <= d`. Its bus address and its
  address output `a` are `addr_width` bits wide, 1 by default, as the
  register in the simulation SoC is built. A reference function
  `LastWritten` describes what `q` holds.
- `WishboneMaster`: the two helper methods, which update `fsm.actions` in
  place, and lemmas about what the lists they build do in a cycle.
- `RegisterTester`: the tester's constructor, which builds the action lists
  through the helpers. Its result is described by `Program`. A transition
  table gives what each state does in one cycle, and the action lists are
  proved to do exactly that.
- `TesterRun`: the `Tester` class, which steps by running its action lists.
  This module also holds:
  - properties over any bus inputs;
  - the tester connected to a `WBRegister`.
- `FooBar`: the example FSM as a class over an `array` `x`, with a
  transition function and lemmas about runs from reset.

The tester builds its bus with the framework's defaults:

- 32-bit data;
- 30-bit addresses;
- a 4-bit byte select.

The model uses those widths. `x`'s entries are one-bit `Signal()`s, so the 89
that `BAR` stores keeps only its low bit, 1. The model follows the code here.

## Model

| member | source | states |
|---|---|---|
| Hdl.Truncate | examples/sim.py:203-204 | a `w`-bit signal assigned `v` holds `v` modulo `2**w`: a value below `2**w`, and `v` itself when `v` fits |
| Hdl.AllOnesBits | examples/sim.py:140-141 | `2**len(sel) - 1` has exactly the bits below `len(sel)` set |
| Migen.Fsm.Act | examples/sim.py:213-217 | `act` appends its statements to the named state's list, leaves every other state's list alone, and makes the state the reset state when the FSM has none |
| Naming.IsAttrBuiltinChars | litelitedram/utils.py:8-9 | a name is builtin iff it has at least two characters, the first two are `_` and the last two are `_`, so the prefix and suffix may overlap |
| Naming.BuiltinExamples | litelitedram/utils.py:8-9 | `__`, `___` and `__init__` are builtin; the empty name, `_`, `__x` and `x__` are not |
| Naming.NonBuiltinAttrs | litelitedram/utils.py:27-28 | the result holds no builtin name; it holds each non-builtin name exactly as often as `dir` lists it; it keeps the listed order (a subsequence) |
| Naming.MigenObjName | litelitedram/utils.py:88-89 | the name is the last backtrace entry's; there is none exactly when the backtrace is empty (where Python raises) |
| Naming.RenameMigenObj | litelitedram/utils.py:92-93 | the backtrace grows by exactly `(name, None)`, earlier entries are unchanged, and the object's name is now `name` |
| Naming.RenameMigenFsm | litelitedram/utils.py:96-98 | the state register is now named `name_state` and the next-state signal `name_next_state`, each by one appended entry |
| WishboneRegister.Comb | examples/sim.py:85-102 | `ack` iff `cyc & stb`; an active write makes `d = dat_w`, anything else leaves `d = q`; an active read drives `dat_r = q`, anything else leaves it 0; an active transfer sets `a` to the address modulo `2**addr_width`, anything else leaves it 0 |
| WishboneRegister.WBRegister.constructor | examples/sim.py:80-86 | a register of the given data and address widths starts at 0 |
| WishboneRegister.WBRegister.Step | examples/sim.py:89-104 | the cycle's outputs are the combinational block of the old `q`, and then `q` takes `d` |
| WishboneRegister.FinalIsLastWritten | examples/sim.py:90-104 | after any sequence of cycles, `q` is the data of the last active write, or its old value when there was none |
| WishboneRegister.ReadReturnsLastWrite | examples/sim.py:97-104 | a read after any cycles is acknowledged and returns the last written data |
| WishboneRegister.WriteThenRead | examples/sim.py:94-104 | a write of `v`, any cycles that do not write, then a read: the read returns `v` |
| WishboneRegister.QuietKeepsLastWrite | examples/sim.py:90 | cycles without a write do not change what was last written |
| WishboneMaster.ControllerWriteHdl | examples/sim.py:112-152 | appends the wait actions (timeout check if `tries` is given, then a move to `next` on `ack`) to `next_BEFORE_ENTER_BUS_WAIT`; prepends `cyc = 0, stb = 0` to `next`'s list, keeping its actions after them; touches no other state; returns the issuing statements with `we = 1` and a move to the wait state |
| WishboneMaster.ControllerReadHdl | examples/sim.py:154-196 | the same as the write helper, with `we = 0`; the wait state also latches `dat_r` into `dat` on `ack` |
| WishboneMaster.WaitStateNameInjective | examples/sim.py:123 | different target states get different wait states, and no wait state is its own target |
| WishboneMaster.DefaultSelAllLanes | examples/sim.py:140-141 | with no `sel` given, the byte select enables every lane and no bit above them |
| WishboneMaster.WaitEffect | examples/sim.py:126-133 | the wait state drives no bus signal, stays until `ack`, then moves to `next`; for a read it latches `dat_r` on that same cycle; it finishes once `tries >= 32` |
| WishboneMaster.TimeoutEffect | examples/sim.py:107-108 | the timeout check finishes the simulation exactly when `tries >= 32` and does nothing else |
| WishboneMaster.OnAckEffect | examples/sim.py:169-177 | on `ack`, the wait state moves to `next` and a read latches `dat_r` into its data register |
| WishboneMaster.IssueEffect | examples/sim.py:142-152 | the issuing statements drive address, data, byte select, optional `cti`/`bte`, `we`, `cyc = 1` and `stb = 1` over whatever came before; they move to the wait state and latch nothing |
| WishboneMaster.ReleaseEffect | examples/sim.py:138 | the prefix drives exactly `cyc` and `stb` to 0 |
| RegisterTester.NameInjective | examples/sim.py:202-246 | the ten tester states have distinct names |
| RegisterTester.BuildTester | examples/sim.py:199-246 | the constructor's FSM starts in `START`, and every state's action list is `Program`'s |
| RegisterTester.ElaboratedIsProgram | examples/sim.py:206-246 | the lists built in source order are `Program`'s; `READ` carries the release prefix twice because of the `ops` call, and its wait state carries the wait actions twice |
| RegisterTester.ActOn | examples/sim.py:213 | `act` seen per tester state: one state's list grows by the statements |
| RegisterTester.WriteHelperOn | examples/sim.py:222 | the write helper seen per tester state: the release prefix on `next`, the wait actions on its wait state |
| RegisterTester.ReadHelperOn | examples/sim.py:228 | the read helper seen per tester state, capturing into `tmp` |
| RegisterTester.ElaborateOps | examples/sim.py:206 | the unused `ops` call still adds the wait actions and the release prefix |
| RegisterTester.ElaborateStart | examples/sim.py:213-217 | adds `START`'s actions |
| RegisterTester.ElaborateWrite | examples/sim.py:218-223 | adds `WRITE`'s actions and the write helper's states |
| RegisterTester.ElaborateRead | examples/sim.py:224-229 | adds `READ`'s actions and the read helper's states |
| RegisterTester.ElaborateWritePlusOne | examples/sim.py:230-235 | adds `WRITE_PLUS_ONE`'s actions (announced as `READ_PLUS_ONE`) and the write helper's states, writing `tmp + 1` |
| RegisterTester.ElaborateReadPlusOne | examples/sim.py:236-241 | adds `READ_PLUS_ONE`'s actions and the read helper's states |
| RegisterTester.ElaborateEnd | examples/sim.py:242-246 | adds `END`'s actions |
| RegisterTester.ProgramMeansTable | examples/sim.py:107-246 | in every state and for all register values and bus inputs, the action list drives the table's outputs, names the table's next state, latches only `tmp` as the table says, and finishes exactly when the table says |
| RegisterTester.StartCycle | examples/sim.py:213-217 | `START` leaves the bus idle and moves to `WRITE` |
| RegisterTester.WriteCycle | examples/sim.py:218-223 | `WRITE` requests a write of 0xDEADBEEF and moves to its wait state |
| RegisterTester.ReadWaitCycle | examples/sim.py:206 | `READ`'s wait state, with its doubled actions, idles the bus and moves on `ack` |
| RegisterTester.ReadCycle | examples/sim.py:224-229 | `READ` requests a read and moves to its wait state |
| RegisterTester.WritePlusOneWaitCycle | examples/sim.py:169-177 | the first read's wait state latches `dat_r` into `tmp` on `ack` |
| RegisterTester.WritePlusOneCycle | examples/sim.py:230-235 | `WRITE_PLUS_ONE` meets the table |
| RegisterTester.WritePlusOneIssues | examples/sim.py:234 | `WRITE_PLUS_ONE` requests a write of `tmp + 1` in 32 bits |
| RegisterTester.ReadPlusOneWaitCycle | examples/sim.py:126-133 | the second write's wait state moves on `ack` |
| RegisterTester.ReadPlusOneCycle | examples/sim.py:236-241 | `READ_PLUS_ONE` meets the table |
| RegisterTester.ReadPlusOneIssues | examples/sim.py:240 | `READ_PLUS_ONE` requests a read and moves to `END`'s wait state |
| RegisterTester.EndWaitCycle | examples/sim.py:169-177 | the second read's wait state latches `dat_r` and moves to `END` |
| RegisterTester.EndCycle | examples/sim.py:242-246 | `END` idles the bus and always finishes |
| RegisterTester.IssuingAgrees | examples/sim.py:142-152 | an issuing list after release prefixes makes the table's request, moves to the wait state and finishes exactly on timeout |
| RegisterTester.AnnounceEffect | examples/sim.py:214-215 | the timeout check and the announcement only set the finish flag |
| RegisterTester.IssuedBus | examples/sim.py:142-151 | the issuing drives put a single transfer to the test address on every byte lane on the bus |
| RegisterTester.IssuingCycle | examples/sim.py:218-241 | an issuing state's full cycle: the request, the move to the wait state, no latch, finish on timeout |
| TesterRun.StateNamedName | examples/sim.py:202 | every state's name leads back to that state |
| TesterRun.ElaboratedBehaves | examples/sim.py:199-246 | the elaborated action lists behave as the table says in every state |
| TesterRun.Tester.constructor | examples/sim.py:199-204 | a fresh tester is in `START` with `tries` and `tmp` at 0, and its lists behave as the table says |
| TesterRun.Tester.Step | examples/sim.py:204-246 | running the current state's list drives the table's outputs; at the edge the registers become the table's next registers, with `tries` incremented in 8 bits |
| TesterRun.TableCycle | examples/sim.py:210 | a cycle of lists that meet the table gives the table's outputs and next registers |
| TesterRun.SuccessorOrder | examples/sim.py:213-246 | a cycle keeps the state or moves one place forward; it keeps the state exactly in a wait state without `ack`, and in `END`; an issuing state moves to its wait state |
| TesterRun.StatesInOrder | examples/sim.py:213-246 | over any inputs the tester visits START, WRITE, READ, WRITE_PLUS_ONE, READ_PLUS_ONE, END in order, at most one step per cycle |
| TesterRun.TriesCountsCycles | examples/sim.py:210 | until the finish, `tries` equals the number of cycles run |
| TesterRun.HaltsWithinTimeout | examples/sim.py:107-108 | whatever the bus does, the simulation finishes within 33 cycles of reset |
| TesterRun.HaltsWithin | examples/sim.py:210 | from `tries <= 32`, a run of `33 - tries` cycles finishes |
| TesterRun.SystemRunStep | examples/sim.py:104 | one more cycle of the connected system is one more step |
| TesterRun.HaltedStays | examples/sim.py:245 | nothing moves once the simulation has finished |
| TesterRun.SystemRunSplit | examples/sim.py:104 | runs of the connected system compose |
| TesterRun.OutputsFit | examples/sim.py:203 | the data the tester writes fits the 32-bit register |
| TesterRun.Cycle | examples/sim.py:304-310 | one cycle of a tester wired to a 32-bit `WBRegister` with the default 1-bit address is one step of the connected system |
| TesterRun.Simulate | examples/sim.py:304-310 | simulating from reset gives the connected system's run, stopping at the finish |
| TesterRun.RunConnected | examples/sim.py:304-310 | the loop gives the connected system's run from any start state |
| TesterRun.RunPastHalt | examples/sim.py:245 | a finished run stays the same for any number of further cycles |
| TesterRun.RequestDroppedTimesOut | examples/sim.py:126-133 | as written, the tester writes 0xDEADBEEF, then waits in `READ_BEFORE_ENTER_BUS_WAIT` for an `ack` that never comes, and times out in cycle 33 |
| TesterRun.ReadWaitIdle | examples/sim.py:126-133 | without a request in flight, the wait state idles cycle after cycle |
| TesterRun.HeldIssueCycle | examples/sim.py:142-152 | with the request held, an issuing state's transfer is acknowledged at once; a write stores its data |
| TesterRun.HeldWriteWaitCycle | examples/sim.py:126-133 | with the request held, a write's wait state moves on |
| TesterRun.HeldReadWaitCycle | examples/sim.py:169-177 | with the request held, a read's wait state latches the register's value into `tmp` and moves on |
| TesterRun.EndCycleFinishes | examples/sim.py:242-246 | `END` finishes and changes nothing but `tries` |
| TesterRun.HeldRequestCompletes | examples/sim.py:212-246 | with the request held, the test completes in 10 cycles; `tmp` and the register both hold 0xDEADBEEF + 1 |
| TesterRun.HeldWrite | examples/sim.py:213-223 | the first two cycles with the request held |
| TesterRun.HeldRead | examples/sim.py:224-229 | the next two cycles |
| TesterRun.HeldWritePlusOne | examples/sim.py:230-235 | the next two cycles: the latched read and the write of `tmp + 1` |
| TesterRun.HeldReadPlusOne | examples/sim.py:236-241 | the next two cycles |
| TesterRun.HeldEnd | examples/sim.py:242-246 | the last two cycles, ending in `END` finished |
| TesterRun.TwoCycles | examples/sim.py:104 | two steps of the connected system are a two-cycle run |
| FooBar.Example.constructor | examples/fsm.py:9-17 | the FSM starts in `FOO`, the first state given actions, with `counter` and every entry of `x` at 0 |
| FooBar.Example.Step | examples/fsm.py:19-33 | `s` is 1 in `FOO` and 0 in `BAR`; the registers and the array after the edge are the transition function's |
| FooBar.NextFacts | examples/barefsm.py:19-27 | FOO and BAR alternate; `counter` moves only in BAR, by one modulo 256; in BAR with `counter < 7`, `x[counter]` becomes the stored bit, and no other entry changes |
| FooBar.RunFromReset | examples/barefsmsim.py:33-41 | `n` cycles after reset the state is FOO iff `n` is even; `counterz` is the number of BAR cycles modulo 256; exactly the entries below that number are set |
| FooBar.BarCycle | examples/fsm.py:31-32 | the BAR cycle after `k` BAR cycles sets the next entry and counts modulo 256 |
| FooBar.CounterWraps | examples/fsm.py:13 | the 8-bit counter wraps modulo 256 |
| FooBar.AllEntriesSet | examples/fsm.py:14 | from the fourteenth cycle on, every entry of `x` is set |

## Left out

- The DDR3 controller and its model (`litelitedram/ddr3.py`, `litelitedram/ddr3_model.py`). They only run external build tools and attach generated Verilog, so there is no logic to model. `DDR3ModelInterface` is a pin list.
- `get_signals` and `get_signals_tree` (`litelitedram/utils.py:31-85`). They are reflection over framework objects.
- Output of `Display`, `DisplayOnEnter`, `print` and the per-cycle `Display("INCREMENT")`. The display statements are kept in the action lists but have no effect.
- The FSM's `before_entering`, `after_entering`, `before_leaving` and `after_leaving` signals (`examples/fsm.py:36-39`). Nothing in the core reads them.
- FooBar.Next: for `counter >= 7`, the `Array` write at an out-of-range index is modelled as leaving `x` unchanged. The framework's own out-of-range behaviour is not part of this model.
- The master-side drive of `dat_r` in `controller_read_hdl` (`examples/sim.py:187`). It is kept in the action list, but it is not one of the tester's modelled outputs; read data comes from the slave.
- The SoC around the tester and the register: the bus interconnect, address decoding, arbitration, the CRG, UART, Etherbone, the analyzer and the platform. The connected system wires the tester's request straight to the register and the register's answer straight back.
- `cti` and `bte`. The helpers accept them and their effect is modelled, but the tester never passes them, so the tester's outputs leave them out.
- The helpers are Python generators. They are modelled as running at once, because every caller iterates them immediately.
- Naming.NonBuiltinAttrs: takes the list that `dir(obj)` returns as its argument; the reflection itself is left out.
- Naming.MigenObjName: returns `None` for an empty backtrace where Python raises `IndexError`.
- TesterRun.Tester.Step: requires that the simulation has not finished. Once `Finish` has run, the simulator runs no further cycle.
- TesterRun.Tester: its state register, `tries`, `tmp` and finish flag are one record updated at each clock edge. In the source they are separate signals.
- The time the simulator takes to stop after `Finish` is left out. The model only says that the simulation is finished after the clock edge of the cycle in which `Finish` runs.

## Findings

| source | as written | input that shows it | evidently intended | confidence | as-written member | corrected member |
|---|---|---|---|---|---|---|
| examples/sim.py:126-133 | the wait state's action list drives neither `cyc` nor `stb`, so both fall back to 0 there; the zero-wait `WBRegister` acknowledges in the issuing cycle, which does not look at `ack`, and never in the wait state, which does | the tester connected to `WBRegister`, any test address and initial register value: after writing 0xDEADBEEF it waits in `READ_BEFORE_ENTER_BUS_WAIT` and times out in cycle 33 without reading | hold the request in the wait state until `ack`, as a Wishbone classic master does; the test then completes in 10 cycles with the register holding 0xDEADBEEF + 1 | not executed; relies on the framework's default of 0 for undriven combinational signals | TesterRun.RequestDroppedTimesOut | TesterRun.HeldRequestCompletes |
