/**
 * The tester running: its registers, the class `Tester` that steps it by
 * running the elaborated action lists, what it does under any bus inputs, and
 * `System`, the tester connected to a `WBRegister`, with what the two do
 * together.
 */
module TesterRun {
  import opened Opt
  import opened Hdl
  import opened Migen
  import opened WishboneMaster
  import opened RegisterTester
  import WR = WishboneRegister

  /** The width of `tries`. */
  const TriesWidth: nat := 8

  /** The tester's registers: the FSM state, `tries`, `tmp`, and whether the
      simulation has finished. */
  datatype Regs = Regs(state: TState, tries: nat, tmp: nat, halted: bool)

  const Reset := Regs(Start, 0, 0, false)

  /** One clock cycle of the tester, by the transition table; `tries` counts
      every cycle in its 8 bits. */
  function Next(r: Regs, inp: Inputs): Regs
  {
    Regs(Successor(r.state, inp.ack), Truncate(r.tries + 1, TriesWidth),
         Captured(r.state, inp, r.tmp), Finishes(r.state, r.tries))
  }

  /** The state whose name is `name`, if any: how the FSM turns the name a
      `NextState` gives into the state register's value. */
  function StateNamed(name: string): Option<TState>
  {
    if name == Name(Start) then Some(Start)
    else if name == Name(Write) then Some(Write)
    else if name == Name(ReadWait) then Some(ReadWait)
    else if name == Name(Read) then Some(Read)
    else if name == Name(WritePlusOneWait) then Some(WritePlusOneWait)
    else if name == Name(WritePlusOne) then Some(WritePlusOne)
    else if name == Name(ReadPlusOneWait) then Some(ReadPlusOneWait)
    else if name == Name(ReadPlusOne) then Some(ReadPlusOne)
    else if name == Name(EndWait) then Some(EndWait)
    else if name == Name(End) then Some(End)
    else None
  }

  lemma StateNamedName(st: TState)
    ensures StateNamed(Name(st)) == Some(st)
  {
  }

  /** Every action list in `actions` does what the transition table says,
      in every state, for all register values and bus inputs. */
  ghost predicate BehavesAsTable(actions: map<string, seq<Stmt>>, testAddr: nat)
  {
    forall st, tries: nat, tmp: nat, inp :: ListAgrees(ActionsOf(actions, Name(st)), testAddr, st, tries, tmp, inp)
  }

  /** The action lists the constructor elaborates do what the table says. */
  lemma ElaboratedBehaves(actions: map<string, seq<Stmt>>, testAddr: nat)
    requires forall st :: ActionsOf(actions, Name(st)) == Program(testAddr, st)
    ensures BehavesAsTable(actions, testAddr)
  {
    forall st, tries: nat, tmp: nat, inp
      ensures ListAgrees(ActionsOf(actions, Name(st)), testAddr, st, tries, tmp, inp)
    {
      ProgramMeansTable(testAddr, st, tries, tmp, inp);
    }
  }

  /** The tester as a circuit: the action lists of its FSM, fixed when the
      circuit is elaborated, and its registers (the state register, `tries`,
      `tmp` and the finish flag), updated together at each clock edge. */
  class Tester {
    const testAddr: nat
    const actions: map<string, seq<Stmt>>
    var regs: Regs

    ghost predicate Valid()
      reads this
    {
      BehavesAsTable(actions, testAddr) && regs.tries < Pow2(TriesWidth) && regs.tmp < Pow2(Bus.dataWidth)
    }

    /** The bus signals the tester drives in the current cycle. */
    function Drive(): MasterOut
      reads this
    {
      Outputs(testAddr, regs.state, regs.tmp)
    }

    constructor (testAddr: nat)
      ensures Valid() && this.testAddr == testAddr
      ensures regs == Reset
    {
      this.testAddr := testAddr;
      var fsm := BuildTester(testAddr);
      ElaboratedBehaves(fsm.actions, testAddr);
      actions := fsm.actions;
      regs := Reset;
    }

    /** One clock cycle before the simulation has finished: the current
        state's action list runs with the bus inputs and the registers; the
        outputs it drives are returned; at the clock edge the state, `tmp`,
        `tries` and the finish flag are updated. */
    method Step(inp: Inputs) returns (out: MasterOut)
      requires Valid() && !regs.halted
      modifies this
      ensures Valid()
      ensures out == Outputs(testAddr, old(regs).state, old(regs).tmp)
      ensures regs == Next(old(regs), inp)
    {
      var r := regs;
      var env := CycleEnv(r.tries, r.tmp, inp);
      var eff := Run(ActionsOf(actions, Name(r.state)), env, NoEffect);
      TableCycle(actions, testAddr, r.state, r.tries, r.tmp, inp);
      out := BusOut(eff, env);
      var next := StateNamed(NextStateName(eff, Name(r.state)));
      regs := Regs(if next.Some? then next.value else r.state, Truncate(r.tries + 1, TriesWidth),
                   NextRegValue(eff, env, Tmp, r.tmp, Bus.dataWidth), eff.finish);
    }
  }

  /** One cycle of action lists that behave as the table says, in state
      `st`: they drive the table's outputs, and the state they name, `tries`
      counted in its 8 bits, `tmp` after the clock edge and the finish flag
      are the registers the table gives after the cycle. */
  lemma TableCycle(actions: map<string, seq<Stmt>>, testAddr: nat, st: TState, tries: nat, tmp: nat, inp: Inputs)
    requires BehavesAsTable(actions, testAddr)
    requires tmp < Pow2(Bus.dataWidth)
    ensures var env := CycleEnv(tries, tmp, inp);
            var eff := Run(ActionsOf(actions, Name(st)), env, NoEffect);
            var next := StateNamed(NextStateName(eff, Name(st)));
            var r := Regs(if next.Some? then next.value else st, Truncate(tries + 1, TriesWidth),
                          NextRegValue(eff, env, Tmp, tmp, Bus.dataWidth), eff.finish);
            && BusOut(eff, env) == Outputs(testAddr, st, tmp)
            && r == Next(Regs(st, tries, tmp, false), inp)
            && r.tries < Pow2(TriesWidth) && r.tmp < Pow2(Bus.dataWidth)
  {
    assert ListAgrees(ActionsOf(actions, Name(st)), testAddr, st, tries, tmp, inp);
    StateNamedName(Successor(st, inp.ack));
    Pow2Values();
  }

  // ---------------------------------------------------------------------
  // The tester under any bus inputs

  /** The registers after the cycles of `inputs`, stopping at the cycle that
      finishes the simulation. */
  function RunFor(r: Regs, inputs: seq<Inputs>): Regs
    decreases |inputs|
  {
    if inputs == [] || r.halted then r else RunFor(Next(r, inputs[0]), inputs[1..])
  }

  /** The states are visited in order: a cycle either keeps the state or
      moves to the next one; it keeps it exactly in a wait state without
      `ack`, and in `END`; an issuing state always moves to its wait state. */
  lemma SuccessorOrder(st: TState, ack: bool)
    ensures Successor(st, ack) == st || Rank(Successor(st, ack)) == Rank(st) + 1
    ensures Successor(st, ack) == st <==> (IsWait(st) && !ack) || st == End
    ensures IsIssuing(st) ==> IsWait(Successor(st, ack))
    ensures IsWait(st) && ack ==> IsIssuing(Successor(st, ack)) || Successor(st, ack) == End
  {
  }

  /** Over any inputs the state never moves backwards, and moves at most one
      place per cycle. */
  lemma {:induction false} StatesInOrder(r: Regs, inputs: seq<Inputs>)
    ensures Rank(r.state) <= Rank(RunFor(r, inputs).state) <= Rank(r.state) + |inputs|
    decreases |inputs|
  {
    if inputs != [] && !r.halted {
      SuccessorOrder(r.state, inputs[0].ack);
      StatesInOrder(Next(r, inputs[0]), inputs[1..]);
    }
  }

  /** Until the simulation finishes, `tries` is the number of cycles run. */
  lemma {:induction false} TriesCountsCycles(r: Regs, inputs: seq<Inputs>)
    requires r.tries + |inputs| < Pow2(TriesWidth)
    ensures RunFor(r, inputs).halted || RunFor(r, inputs).tries == r.tries + |inputs|
    decreases |inputs|
  {
    if inputs != [] && !r.halted {
      TriesCountsCycles(Next(r, inputs[0]), inputs[1..]);
    }
  }

  /** Whatever the bus does, the simulation finishes within 33 cycles of
      reset: the timeout check fires in the cycle where `tries` is 32. */
  lemma HaltsWithinTimeout(inputs: seq<Inputs>)
    requires |inputs| >= TimeoutLimit + 1
    ensures RunFor(Reset, inputs).halted
  {
    HaltsWithin(Reset, inputs);
  }

  lemma {:induction false} HaltsWithin(r: Regs, inputs: seq<Inputs>)
    requires r.tries <= TimeoutLimit && |inputs| >= TimeoutLimit + 1 - r.tries
    ensures RunFor(r, inputs).halted
    decreases |inputs|
  {
    if !r.halted {
      Pow2Values();
      var r' := Next(r, inputs[0]);
      if r.tries == TimeoutLimit {
        assert r'.halted;
      } else {
        HaltsWithin(r', inputs[1..]);
      }
    }
  }

  // ---------------------------------------------------------------------
  // The tester connected to a `WBRegister`

  /** The tester's outputs as the register's bus request. */
  function AsRequest(o: MasterOut): WR.Request
  {
    WR.Request(o.cyc, o.stb, o.we, o.adr, o.datW)
  }

  /** The tester and the register it exercises. */
  datatype System = System(tester: Regs, q: nat)

  /** What a wait state drives: nothing, as the helpers are written, or the
      request of the state that issued the transfer, held until `ack` as a
      Wishbone classic master does. */
  datatype WaitDrive = DropsRequest | HoldsRequest

  /** The state that issues the transfer a wait state waits for. */
  function Issuer(st: TState): TState
    requires IsWait(st)
  {
    match st
    case ReadWait => Write
    case WritePlusOneWait => Read
    case ReadPlusOneWait => WritePlusOne
    case EndWait => ReadPlusOne
  }

  /** The tester's bus outputs under either way of driving the wait states. */
  function MasterOutputs(mode: WaitDrive, testAddr: nat, st: TState, tmp: nat): MasterOut
  {
    if mode == HoldsRequest && IsWait(st) then Outputs(testAddr, Issuer(st), tmp)
    else Outputs(testAddr, st, tmp)
  }

  /** One clock cycle of the tester and the register, the tester's request
      going straight to the register and the register's answer straight
      back; nothing moves once the simulation has finished. */
  function SystemStep(mode: WaitDrive, testAddr: nat, s: System): System
  {
    if s.tester.halted then s
    else
      var resp := WR.Comb(s.q, AsRequest(MasterOutputs(mode, testAddr, s.tester.state, s.tester.tmp)), WR.DefaultAddrWidth);
      System(Next(s.tester, Inputs(resp.ack, resp.datR)), resp.d)
  }

  function SystemRun(mode: WaitDrive, testAddr: nat, s: System, n: nat): System
    decreases n
  {
    if n == 0 then s else SystemRun(mode, testAddr, SystemStep(mode, testAddr, s), n - 1)
  }

  lemma {:induction false} SystemRunStep(mode: WaitDrive, testAddr: nat, s: System, n: nat)
    ensures SystemRun(mode, testAddr, s, n + 1) == SystemStep(mode, testAddr, SystemRun(mode, testAddr, s, n))
    decreases n
  {
    if n > 0 {
      SystemRunStep(mode, testAddr, SystemStep(mode, testAddr, s), n - 1);
    }
  }

  lemma {:induction false} HaltedStays(mode: WaitDrive, testAddr: nat, s: System, n: nat)
    requires n > 0 ==> s.tester.halted
    ensures SystemRun(mode, testAddr, s, n) == s
    decreases n
  {
    if n > 0 {
      HaltedStays(mode, testAddr, SystemStep(mode, testAddr, s), n - 1);
    }
  }

  lemma {:induction false} SystemRunSplit(mode: WaitDrive, testAddr: nat, s: System, a: nat, b: nat)
    ensures SystemRun(mode, testAddr, s, a + b) == SystemRun(mode, testAddr, SystemRun(mode, testAddr, s, a), b)
    decreases a
  {
    if a > 0 {
      SystemRunSplit(mode, testAddr, SystemStep(mode, testAddr, s), a - 1, b);
    }
  }

  /** The data the tester writes always fits the 32-bit register. */
  lemma OutputsFit(testAddr: nat, st: TState, tmp: nat)
    ensures Outputs(testAddr, st, tmp).datW < Pow2(Bus.dataWidth)
  {
    Pow2Values();
  }

  /** One clock cycle of a running tester and its register: the tester's
      request goes to the register, the register's answer back. */
  method Cycle(tester: Tester, reg: WR.WBRegister)
    requires tester.Valid() && !tester.regs.halted
    requires reg.Valid() && reg.width == Bus.dataWidth && reg.addrWidth == WR.DefaultAddrWidth
    modifies tester, reg
    ensures tester.Valid() && reg.Valid()
    ensures System(tester.regs, reg.q)
            == SystemStep(DropsRequest, tester.testAddr, old(System(tester.regs, reg.q)))
  {
    OutputsFit(tester.testAddr, tester.regs.state, tester.regs.tmp);
    var resp := reg.Step(AsRequest(tester.Drive()));
    var out := tester.Step(Inputs(resp.ack, resp.datR));
  }

  /** Simulates `cycles` clock cycles of a tester and a 32-bit `WBRegister`
      from reset, stopping early when the simulation finishes. */
  method Simulate(testAddr: nat, cycles: nat) returns (final: System)
    ensures final == SystemRun(DropsRequest, testAddr, System(Reset, 0), cycles)
  {
    var tester := new Tester(testAddr);
    var reg := new WR.WBRegister(Bus.dataWidth, WR.DefaultAddrWidth);
    final := RunConnected(tester, reg, cycles, System(Reset, 0));
  }

  /** Runs a tester and its register, connected, for `cycles` clock cycles
      or until the simulation finishes, from the system state `start`. */
  method RunConnected(tester: Tester, reg: WR.WBRegister, cycles: nat, ghost start: System)
    returns (final: System)
    requires tester.Valid() && reg.Valid() && reg.width == Bus.dataWidth && reg.addrWidth == WR.DefaultAddrWidth
    requires System(tester.regs, reg.q) == start
    modifies tester, reg
    ensures final == SystemRun(DropsRequest, tester.testAddr, start, cycles)
  {
    var i := 0;
    while i < cycles && !tester.regs.halted
      invariant 0 <= i <= cycles
      invariant tester.Valid() && reg.Valid() && reg.width == Bus.dataWidth && reg.addrWidth == WR.DefaultAddrWidth
      invariant System(tester.regs, reg.q) == SystemRun(DropsRequest, tester.testAddr, start, i)
      decreases cycles - i
    {
      Cycle(tester, reg);
      SystemRunStep(DropsRequest, tester.testAddr, start, i);
      i := i + 1;
    }
    final := System(tester.regs, reg.q);
    RunPastHalt(DropsRequest, tester.testAddr, start, i, cycles);
  }

  /** A run that has finished after `i` cycles is the same after any later
      number of cycles. */
  lemma RunPastHalt(mode: WaitDrive, testAddr: nat, s: System, i: nat, n: nat)
    requires i <= n && (i == n || SystemRun(mode, testAddr, s, i).tester.halted)
    ensures SystemRun(mode, testAddr, s, n) == SystemRun(mode, testAddr, s, i)
  {
    HaltedStays(mode, testAddr, SystemRun(mode, testAddr, s, i), n - i);
    SystemRunSplit(mode, testAddr, s, i, n - i);
  }

  // ---------------------------------------------------------------------
  // The wait states drop the request

  /** As written, the tester writes 0xDEADBEEF and then waits in
      `READ_BEFORE_ENTER_BUS_WAIT` for an `ack` that never comes: the wait
      state drives neither `cyc` nor `stb`, so both are 0 and the register
      does not answer. The timeout check ends the simulation in the 33rd
      cycle, with the tester still in that wait state. */
  lemma RequestDroppedTimesOut(testAddr: nat, q0: nat)
    ensures var s := SystemRun(DropsRequest, testAddr, System(Reset, q0), TimeoutLimit + 1);
            s.tester.halted && s.tester.state == ReadWait && s.q == FirstValue
  {
    Pow2Values();
    var s0 := System(Reset, q0);
    var s1 := System(Regs(Write, 1, 0, false), q0);
    var s2 := System(Regs(ReadWait, 2, 0, false), FirstValue);
    assert SystemStep(DropsRequest, testAddr, s0) == s1;
    assert SystemStep(DropsRequest, testAddr, s1) == s2;
    assert SystemRun(DropsRequest, testAddr, s0, 2) == s2;
    ReadWaitIdle(testAddr, 2, 0, FirstValue, 30);
    var s32 := System(Regs(ReadWait, 32, 0, false), FirstValue);
    SystemRunSplit(DropsRequest, testAddr, s0, 2, 30);
    SystemRunSplit(DropsRequest, testAddr, s0, 32, 1);
    assert SystemStep(DropsRequest, testAddr, s32) == System(Regs(ReadWait, 33, 0, true), FirstValue);
  }

  /** Without a request in flight the tester idles in the wait state, one
      cycle after another, until `tries` reaches the limit. */
  lemma {:induction false} ReadWaitIdle(testAddr: nat, tries: nat, tmp: nat, q: nat, k: nat)
    requires tries + k <= TimeoutLimit
    ensures SystemRun(DropsRequest, testAddr, System(Regs(ReadWait, tries, tmp, false), q), k)
            == System(Regs(ReadWait, tries + k, tmp, false), q)
    decreases k
  {
    if k > 0 {
      Pow2Values();
      var s := System(Regs(ReadWait, tries, tmp, false), q);
      assert SystemStep(DropsRequest, testAddr, s) == System(Regs(ReadWait, tries + 1, tmp, false), q);
      ReadWaitIdle(testAddr, tries + 1, tmp, q, k - 1);
    }
  }

  /** With the request held, an issuing state's transfer is acknowledged in
      the cycle it is issued: the tester moves to the wait state, and a
      write stores its data in the register. */
  lemma HeldIssueCycle(testAddr: nat, st: TState, tries: nat, tmp: nat, q: nat)
    requires IsIssuing(st) && tries < TimeoutLimit
    ensures var o := Outputs(testAddr, st, tmp);
            SystemStep(HoldsRequest, testAddr, System(Regs(st, tries, tmp, false), q))
            == System(Regs(Successor(st, true), tries + 1, tmp, false), if o.we then o.datW else q)
  {
    Pow2Values();
  }

  /** With the request held, the wait state after a write sees the `ack`
      and moves on; the write is repeated, to the same effect. */
  lemma HeldWriteWaitCycle(testAddr: nat, st: TState, tries: nat, tmp: nat, q: nat)
    requires (st == ReadWait || st == ReadPlusOneWait) && tries < TimeoutLimit
    ensures SystemStep(HoldsRequest, testAddr, System(Regs(st, tries, tmp, false), q))
            == System(Regs(Successor(st, true), tries + 1, tmp, false), Outputs(testAddr, Issuer(st), tmp).datW)
  {
    Pow2Values();
  }

  /** With the request held, the wait state after a read sees the `ack`,
      latches the register's value into `tmp` and moves on. */
  lemma HeldReadWaitCycle(testAddr: nat, st: TState, tries: nat, tmp: nat, q: nat)
    requires (st == WritePlusOneWait || st == EndWait) && tries < TimeoutLimit
    ensures SystemStep(HoldsRequest, testAddr, System(Regs(st, tries, tmp, false), q))
            == System(Regs(Successor(st, true), tries + 1, Truncate(q, Bus.dataWidth), false), q)
  {
    Pow2Values();
  }

  /** `END` finishes the simulation and changes nothing else but `tries`. */
  lemma EndCycleFinishes(mode: WaitDrive, testAddr: nat, tries: nat, tmp: nat, q: nat)
    requires tries + 1 < Pow2(TriesWidth)
    ensures SystemStep(mode, testAddr, System(Regs(End, tries, tmp, false), q))
            == System(Regs(End, tries + 1, tmp, true), q)
  {
  }

  /** With the request held in the wait states, the test runs to its end:
      it writes 0xDEADBEEF, reads it back into `tmp`, writes `tmp + 1`, reads
      that back, and finishes in `END` in the tenth cycle, with `tmp` and the
      register both holding 0xDEADBEEF + 1. */
  lemma HeldRequestCompletes(testAddr: nat, q0: nat)
    ensures SystemRun(HoldsRequest, testAddr, System(Reset, q0), 10)
            == System(Regs(End, 10, FirstValue + 1, true), FirstValue + 1)
  {
    var m := HoldsRequest;
    var s0 := System(Reset, q0);
    HeldWrite(testAddr, q0);
    HeldRead(testAddr);
    HeldWritePlusOne(testAddr);
    HeldReadPlusOne(testAddr);
    HeldEnd(testAddr);
    SystemRunSplit(m, testAddr, s0, 2, 2);
    SystemRunSplit(m, testAddr, s0, 4, 2);
    SystemRunSplit(m, testAddr, s0, 6, 2);
    SystemRunSplit(m, testAddr, s0, 8, 2);
  }

  lemma TwoCycles(mode: WaitDrive, testAddr: nat, a: System, b: System, c: System)
    requires SystemStep(mode, testAddr, a) == b && SystemStep(mode, testAddr, b) == c
    ensures SystemRun(mode, testAddr, a, 2) == c
  {
    assert SystemRun(mode, testAddr, b, 1) == c;
  }

  /** `START`, then the write of 0xDEADBEEF, acknowledged at once. */
  lemma HeldWrite(testAddr: nat, q0: nat)
    ensures SystemRun(HoldsRequest, testAddr, System(Reset, q0), 2)
            == System(Regs(ReadWait, 2, 0, false), FirstValue)
  {
    var s1 := System(Regs(Write, 1, 0, false), q0);
    assert SystemStep(HoldsRequest, testAddr, System(Reset, q0)) == s1;
    HeldIssueCycle(testAddr, Write, 1, 0, q0);
    TwoCycles(HoldsRequest, testAddr, System(Reset, q0), s1, System(Regs(ReadWait, 2, 0, false), FirstValue));
  }

  /** The write's wait state, then the read of the register. */
  lemma HeldRead(testAddr: nat)
    ensures SystemRun(HoldsRequest, testAddr, System(Regs(ReadWait, 2, 0, false), FirstValue), 2)
            == System(Regs(WritePlusOneWait, 4, 0, false), FirstValue)
  {
    var s2 := System(Regs(ReadWait, 2, 0, false), FirstValue);
    var s3 := System(Regs(Read, 3, 0, false), FirstValue);
    HeldWriteWaitCycle(testAddr, ReadWait, 2, 0, FirstValue);
    HeldIssueCycle(testAddr, Read, 3, 0, FirstValue);
    TwoCycles(HoldsRequest, testAddr, s2, s3, System(Regs(WritePlusOneWait, 4, 0, false), FirstValue));
  }

  /** The read's wait state latches the value read; then the write of that
      value plus one. */
  lemma HeldWritePlusOne(testAddr: nat)
    ensures SystemRun(HoldsRequest, testAddr, System(Regs(WritePlusOneWait, 4, 0, false), FirstValue), 2)
            == System(Regs(ReadPlusOneWait, 6, FirstValue, false), FirstValue + 1)
  {
    Pow2Values();
    var s4 := System(Regs(WritePlusOneWait, 4, 0, false), FirstValue);
    var s5 := System(Regs(WritePlusOne, 5, FirstValue, false), FirstValue);
    HeldReadWaitCycle(testAddr, WritePlusOneWait, 4, 0, FirstValue);
    HeldIssueCycle(testAddr, WritePlusOne, 5, FirstValue, FirstValue);
    TwoCycles(HoldsRequest, testAddr, s4, s5, System(Regs(ReadPlusOneWait, 6, FirstValue, false), FirstValue + 1));
  }

  /** The second write's wait state, then the second read. */
  lemma HeldReadPlusOne(testAddr: nat)
    ensures SystemRun(HoldsRequest, testAddr, System(Regs(ReadPlusOneWait, 6, FirstValue, false), FirstValue + 1), 2)
            == System(Regs(EndWait, 8, FirstValue, false), FirstValue + 1)
  {
    Pow2Values();
    var s6 := System(Regs(ReadPlusOneWait, 6, FirstValue, false), FirstValue + 1);
    var s7 := System(Regs(ReadPlusOne, 7, FirstValue, false), FirstValue + 1);
    HeldWriteWaitCycle(testAddr, ReadPlusOneWait, 6, FirstValue, FirstValue + 1);
    HeldIssueCycle(testAddr, ReadPlusOne, 7, FirstValue, FirstValue + 1);
    TwoCycles(HoldsRequest, testAddr, s6, s7, System(Regs(EndWait, 8, FirstValue, false), FirstValue + 1));
  }

  /** The second read's wait state latches the value read; then `END`
      finishes. */
  lemma HeldEnd(testAddr: nat)
    ensures SystemRun(HoldsRequest, testAddr, System(Regs(EndWait, 8, FirstValue, false), FirstValue + 1), 2)
            == System(Regs(End, 10, FirstValue + 1, true), FirstValue + 1)
  {
    Pow2Values();
    var s8 := System(Regs(EndWait, 8, FirstValue, false), FirstValue + 1);
    var s9 := System(Regs(End, 9, FirstValue + 1, false), FirstValue + 1);
    HeldReadWaitCycle(testAddr, EndWait, 8, FirstValue, FirstValue + 1);
    EndCycleFinishes(HoldsRequest, testAddr, 9, FirstValue + 1, FirstValue + 1);
    TwoCycles(HoldsRequest, testAddr, s8, s9, System(Regs(End, 10, FirstValue + 1, true), FirstValue + 1));
  }
}
