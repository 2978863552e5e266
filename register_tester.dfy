/**
 * `WBRegisterTester`: an FSM meant to exercise a Wishbone register through the
 * master helpers: write 0xDEADBEEF, read the register back into `tmp`, write
 * `tmp + 1`, read that back, and finish. Every bus step goes through the wait
 * state the helpers create. An 8-bit `tries` register counts clock cycles, and
 * every state finishes the simulation once `tries >= 32`.
 *
 * The module has two layers:
 *  - `BuildTester` builds the FSM's action lists the way the constructor
 *    does, through the helpers; `Program` gives the lists it leaves;
 *  - a transition table (`Successor`, `Outputs`, `Captured`, `Finishes`)
 *    states what each state does in a cycle, and `ProgramMeansTable` proves
 *    that running the built lists does exactly that.
 */
module RegisterTester {
  import opened Opt
  import opened Hdl
  import opened Migen
  import opened WishboneMaster

  /** The tester's states, in the order the FSM runs through them. */
  datatype TState =
    | Start | Write | ReadWait | Read | WritePlusOneWait | WritePlusOne
    | ReadPlusOneWait | ReadPlusOne | EndWait | End

  function Name(st: TState): string
  {
    match st
    case Start => "START"
    case Write => "WRITE"
    case ReadWait => WaitStateName("READ")
    case Read => "READ"
    case WritePlusOneWait => WaitStateName("WRITE_PLUS_ONE")
    case WritePlusOne => "WRITE_PLUS_ONE"
    case ReadPlusOneWait => WaitStateName("READ_PLUS_ONE")
    case ReadPlusOne => "READ_PLUS_ONE"
    case EndWait => WaitStateName("END")
    case End => "END"
  }

  function Rank(st: TState): nat
  {
    match st
    case Start => 0
    case Write => 1
    case ReadWait => 2
    case Read => 3
    case WritePlusOneWait => 4
    case WritePlusOne => 5
    case ReadPlusOneWait => 6
    case ReadPlusOne => 7
    case EndWait => 8
    case End => 9
  }

  predicate IsWait(st: TState)
  {
    st == ReadWait || st == WritePlusOneWait || st == ReadPlusOneWait || st == EndWait
  }

  /** The states whose actions issue a bus transfer. */
  predicate IsIssuing(st: TState)
  {
    st == Write || st == Read || st == WritePlusOne || st == ReadPlusOne
  }

  /** Every state has its own name, so a `NextState` names one state. */
  lemma NameInjective(a: TState, b: TState)
    ensures Name(a) == Name(b) <==> a == b
  {
  }

  const Tries := "tries"
  const Tmp := "tmp"
  /** The value written first. */
  const FirstValue: nat := 0xDEAD_BEEF
  /** The tester's bus, built with the framework's defaults. */
  const Bus := DefaultInterface

  function WriteIssue(testAddr: nat, dat: Expr, next: string): seq<Stmt>
  {
    Issue(Bus, DatW, Const(testAddr), dat, None, None, None, 1, WaitStateName(next))
  }

  function ReadIssue(testAddr: nat, next: string): seq<Stmt>
  {
    Issue(Bus, DatR, Const(testAddr), Reg(Tmp), None, None, None, 0, WaitStateName(next))
  }

  /** The action list of each state once the constructor has run. The first
      write helper is called twice for `READ` (once for the unused `ops`), so
      `READ` carries the `cyc = 0, stb = 0` prefix twice and its wait state
      the wait actions twice, the first time without the timeout check. */
  function Program(testAddr: nat, st: TState): seq<Stmt>
  {
    match st
    case Start => TimeoutCheck(Tries) + [DisplayOnEnter("START"), NextState("WRITE")]
    case Write => TimeoutCheck(Tries) + [DisplayOnEnter("WRITE")] + WriteIssue(testAddr, Const(FirstValue), "READ")
    case ReadWait => WaitActions("READ", None, None) + WaitActions("READ", Some(Tries), None)
    case Read =>
      (Release + Release) + (TimeoutCheck(Tries) + [DisplayOnEnter("READ")] + ReadIssue(testAddr, "WRITE_PLUS_ONE"))
    case WritePlusOneWait => WaitActions("WRITE_PLUS_ONE", Some(Tries), Some(Tmp))
    case WritePlusOne =>
      Release + (TimeoutCheck(Tries) + [DisplayOnEnter("READ_PLUS_ONE")]
                 + WriteIssue(testAddr, Add(Reg(Tmp), 1), "READ_PLUS_ONE"))
    case ReadPlusOneWait => WaitActions("READ_PLUS_ONE", Some(Tries), None)
    case ReadPlusOne =>
      Release + (TimeoutCheck(Tries) + [DisplayOnEnter("READ_PLUS_ONE")] + ReadIssue(testAddr, "END"))
    case EndWait => WaitActions("END", Some(Tries), Some(Tmp))
    case End => Release + (TimeoutCheck(Tries) + [DisplayOnEnter("END"), Finish])
  }

  /** The action lists of the ten states, one field per state. */
  datatype Table = Table(start: seq<Stmt>, write: seq<Stmt>, readWait: seq<Stmt>, read: seq<Stmt>,
                         wpoWait: seq<Stmt>, wpo: seq<Stmt>, rpoWait: seq<Stmt>, rpo: seq<Stmt>,
                         endWait: seq<Stmt>, end: seq<Stmt>)

  function Get(t: Table, st: TState): seq<Stmt>
  {
    match st
    case Start => t.start
    case Write => t.write
    case ReadWait => t.readWait
    case Read => t.read
    case WritePlusOneWait => t.wpoWait
    case WritePlusOne => t.wpo
    case ReadPlusOneWait => t.rpoWait
    case ReadPlusOne => t.rpo
    case EndWait => t.endWait
    case End => t.end
  }

  function Set(t: Table, st: TState, v: seq<Stmt>): Table
  {
    match st
    case Start => t.(start := v)
    case Write => t.(write := v)
    case ReadWait => t.(readWait := v)
    case Read => t.(read := v)
    case WritePlusOneWait => t.(wpoWait := v)
    case WritePlusOne => t.(wpo := v)
    case ReadPlusOneWait => t.(rpoWait := v)
    case ReadPlusOne => t.(rpo := v)
    case EndWait => t.(endWait := v)
    case End => t.(end := v)
  }

  /** The tester's states' action lists in an FSM's `actions`. */
  ghost function View(m: map<string, seq<Stmt>>): Table
  {
    Table(ActionsOf(m, Name(Start)), ActionsOf(m, Name(Write)), ActionsOf(m, Name(ReadWait)),
          ActionsOf(m, Name(Read)), ActionsOf(m, Name(WritePlusOneWait)), ActionsOf(m, Name(WritePlusOne)),
          ActionsOf(m, Name(ReadPlusOneWait)), ActionsOf(m, Name(ReadPlusOne)),
          ActionsOf(m, Name(EndWait)), ActionsOf(m, Name(End)))
  }

  lemma TableExt(t1: Table, t2: Table)
    requires forall s :: Get(t1, s) == Get(t2, s)
    ensures t1 == t2
  {
    assert Get(t1, Start) == Get(t2, Start) && Get(t1, Write) == Get(t2, Write);
    assert Get(t1, ReadWait) == Get(t2, ReadWait) && Get(t1, Read) == Get(t2, Read);
    assert Get(t1, WritePlusOneWait) == Get(t2, WritePlusOneWait);
    assert Get(t1, WritePlusOne) == Get(t2, WritePlusOne);
    assert Get(t1, ReadPlusOneWait) == Get(t2, ReadPlusOneWait);
    assert Get(t1, ReadPlusOne) == Get(t2, ReadPlusOne);
    assert Get(t1, EndWait) == Get(t2, EndWait) && Get(t1, End) == Get(t2, End);
  }

  lemma GetView(m: map<string, seq<Stmt>>, st: TState)
    ensures Get(View(m), st) == ActionsOf(m, Name(st))
  {
  }

  /** An `act` on the state `st` seen through the table. */
  lemma ViewAct(m1: map<string, seq<Stmt>>, m2: map<string, seq<Stmt>>, st: TState)
    requires forall k :: k != Name(st) ==> ActionsOf(m2, k) == ActionsOf(m1, k)
    ensures View(m2) == Set(View(m1), st, ActionsOf(m2, Name(st)))
  {
    forall s
      ensures Get(View(m2), s) == Get(Set(View(m1), st, ActionsOf(m2, Name(st))), s)
    {
      NameInjective(s, st);
      GetView(m1, s);
      GetView(m2, s);
    }
    TableExt(View(m2), Set(View(m1), st, ActionsOf(m2, Name(st))));
  }

  /** A helper call for the state `next` seen through the table. */
  lemma ViewHelper(m1: map<string, seq<Stmt>>, m2: map<string, seq<Stmt>>, next: TState, wait: TState)
    requires Name(wait) == WaitStateName(Name(next))
    requires forall k :: k != Name(next) && k != WaitStateName(Name(next)) ==> ActionsOf(m2, k) == ActionsOf(m1, k)
    ensures View(m2) == Set(Set(View(m1), next, ActionsOf(m2, Name(next))), wait, ActionsOf(m2, Name(wait)))
  {
    var t := Set(Set(View(m1), next, ActionsOf(m2, Name(next))), wait, ActionsOf(m2, Name(wait)));
    forall s
      ensures Get(View(m2), s) == Get(t, s)
    {
      NameInjective(s, next);
      NameInjective(s, wait);
      GetView(m1, s);
      GetView(m2, s);
    }
    TableExt(View(m2), t);
  }

  /** The constructor's elaboration of the FSM, one source statement at a
      time. */
  method BuildTester(testAddr: nat) returns (fsm: Fsm)
    ensures fresh(fsm) && fsm.Valid()
    ensures fsm.resetState == Some(Name(Start))
    ensures forall st :: ActionsOf(fsm.actions, Name(st)) == Program(testAddr, st)
  {
    fsm := new Fsm(Some(Name(Start)));
    ghost var t := Table([], [], [], [], [], [], [], [], [], []);
    assert View(fsm.actions) == t;
    ElaborateOps(fsm, testAddr);
    t := OpsStep(testAddr, t);
    ElaborateStart(fsm);
    t := StartStep(t);
    ElaborateWrite(fsm, testAddr);
    t := WriteStep(testAddr, t);
    ElaborateRead(fsm, testAddr);
    t := ReadStep(testAddr, t);
    ElaborateWritePlusOne(fsm, testAddr);
    t := WritePlusOneStep(testAddr, t);
    ElaborateReadPlusOne(fsm, testAddr);
    t := ReadPlusOneStep(testAddr, t);
    ElaborateEnd(fsm);
    t := EndStep(t);
    assert View(fsm.actions) == t == Elaborated(testAddr);
    ElaboratedIsProgram(testAddr);
    forall s | true
      ensures ActionsOf(fsm.actions, Name(s)) == Program(testAddr, s)
    {
      GetView(fsm.actions, s);
    }
  }

  /** The action lists once the constructor has run, built the way the
      constructor builds them. */
  function Elaborated(testAddr: nat): Table
  {
    var t := OpsStep(testAddr, Table([], [], [], [], [], [], [], [], [], []));
    EndStep(ReadPlusOneStep(testAddr, WritePlusOneStep(testAddr, ReadStep(testAddr,
      WriteStep(testAddr, StartStep(t))))))
  }

  /** Built that way, the action list of every state is its `Program`. */
  lemma ElaboratedIsProgram(testAddr: nat)
    ensures forall st :: Get(Elaborated(testAddr), st) == Program(testAddr, st)
  {
    var t := Elaborated(testAddr);
    assert t.read == (Release + (Release + [])) + (TimeoutCheck(Tries) + [DisplayOnEnter("READ")] + ReadIssue(testAddr, "WRITE_PLUS_ONE"));
    assert Release + (Release + []) == Release + Release;
    assert t.wpo == (Release + []) + (TimeoutCheck(Tries) + [DisplayOnEnter("READ_PLUS_ONE")]
                                      + WriteIssue(testAddr, Add(Reg(Tmp), 1), "READ_PLUS_ONE"));
    assert t.rpo == (Release + []) + (TimeoutCheck(Tries) + [DisplayOnEnter("READ_PLUS_ONE")] + ReadIssue(testAddr, "END"));
    assert t.end == (Release + []) + (TimeoutCheck(Tries) + [DisplayOnEnter("END"), Finish]);
    assert Release + [] == Release;
  }

  // The table after each step of the constructor, mirroring what the
  // methods below do to the FSM.

  function OpsStep(testAddr: nat, t: Table): Table
  {
    t.(readWait := t.readWait + WaitActions("READ", None, None), read := Release + t.read)
  }

  function StartStep(t: Table): Table
  {
    t.(start := t.start + (TimeoutCheck(Tries) + [DisplayOnEnter("START"), NextState("WRITE")]))
  }

  function WriteStep(testAddr: nat, t: Table): Table
  {
    t.(readWait := t.readWait + WaitActions("READ", Some(Tries), None),
       read := Release + t.read,
       write := t.write + (TimeoutCheck(Tries) + [DisplayOnEnter("WRITE")] + WriteIssue(testAddr, Const(FirstValue), "READ")))
  }

  function ReadStep(testAddr: nat, t: Table): Table
  {
    t.(wpoWait := t.wpoWait + WaitActions("WRITE_PLUS_ONE", Some(Tries), Some(Tmp)),
       wpo := Release + t.wpo,
       read := t.read + (TimeoutCheck(Tries) + [DisplayOnEnter("READ")] + ReadIssue(testAddr, "WRITE_PLUS_ONE")))
  }

  function WritePlusOneStep(testAddr: nat, t: Table): Table
  {
    t.(rpoWait := t.rpoWait + WaitActions("READ_PLUS_ONE", Some(Tries), None),
       rpo := Release + t.rpo,
       wpo := t.wpo + (TimeoutCheck(Tries) + [DisplayOnEnter("READ_PLUS_ONE")]
                       + WriteIssue(testAddr, Add(Reg(Tmp), 1), "READ_PLUS_ONE")))
  }

  function ReadPlusOneStep(testAddr: nat, t: Table): Table
  {
    t.(endWait := t.endWait + WaitActions("END", Some(Tries), Some(Tmp)),
       end := Release + t.end,
       rpo := t.rpo + (TimeoutCheck(Tries) + [DisplayOnEnter("READ_PLUS_ONE")] + ReadIssue(testAddr, "END")))
  }

  function EndStep(t: Table): Table
  {
    t.(end := t.end + (TimeoutCheck(Tries) + [DisplayOnEnter("END"), Finish]))
  }

  /** `act` on the state `st`, seen through the table. */
  method ActOn(fsm: Fsm, st: TState, stmts: seq<Stmt>)
    modifies fsm
    ensures fsm.resetState == if old(fsm.resetState).None? then Some(Name(st)) else old(fsm.resetState)
    ensures View(fsm.actions) == Set(View(old(fsm.actions)), st, Get(View(old(fsm.actions)), st) + stmts)
  {
    ghost var m := fsm.actions;
    GetView(m, st);
    fsm.Act(Name(st), stmts);
    ViewAct(m, fsm.actions, st);
  }

  /** The write helper for the transfer that leads to `next`, seen through
      the table. */
  method WriteHelperOn(fsm: Fsm, next: TState, wait: TState, adr: Expr, dat: Expr, tries: Option<string>)
    returns (issued: seq<Stmt>)
    requires Name(wait) == WaitStateName(Name(next))
    modifies fsm
    ensures issued == Issue(Bus, DatW, adr, dat, None, None, None, 1, Name(wait))
    ensures fsm.resetState == if old(fsm.resetState).None? then Some(Name(wait)) else old(fsm.resetState)
    ensures var t := View(old(fsm.actions));
            View(fsm.actions)
            == Set(Set(t, next, Release + Get(t, next)), wait, Get(t, wait) + WaitActions(Name(next), tries, None))
  {
    ghost var m := fsm.actions;
    GetView(m, next);
    GetView(m, wait);
    issued := ControllerWriteHdl(Bus, fsm, Name(next), adr, dat, None, None, None, tries);
    ViewHelper(m, fsm.actions, next, wait);
  }

  /** The read helper for the transfer that leads to `next`, reading into
      the register `dat`, seen through the table. */
  method ReadHelperOn(fsm: Fsm, next: TState, wait: TState, adr: Expr, dat: string, tries: Option<string>)
    returns (issued: seq<Stmt>)
    requires Name(wait) == WaitStateName(Name(next))
    modifies fsm
    ensures issued == Issue(Bus, DatR, adr, Reg(dat), None, None, None, 0, Name(wait))
    ensures fsm.resetState == if old(fsm.resetState).None? then Some(Name(wait)) else old(fsm.resetState)
    ensures var t := View(old(fsm.actions));
            View(fsm.actions)
            == Set(Set(t, next, Release + Get(t, next)), wait, Get(t, wait) + WaitActions(Name(next), tries, Some(dat)))
  {
    ghost var m := fsm.actions;
    GetView(m, next);
    GetView(m, wait);
    issued := ControllerReadHdl(Bus, fsm, Name(next), adr, dat, None, None, None, tries);
    ViewHelper(m, fsm.actions, next, wait);
  }

  /** The write helper's call whose statements go to the unused `ops`. */
  method ElaborateOps(fsm: Fsm, testAddr: nat)
    modifies fsm
    ensures fsm.resetState == if old(fsm.resetState).None? then Some(Name(ReadWait)) else old(fsm.resetState)
    ensures View(fsm.actions) == OpsStep(testAddr, View(old(fsm.actions)))
  {
    var ops := WriteHelperOn(fsm, Read, ReadWait, Const(testAddr), Const(FirstValue), None);
  }

  method ElaborateStart(fsm: Fsm)
    modifies fsm
    ensures fsm.resetState == if old(fsm.resetState).None? then Some(Name(Start)) else old(fsm.resetState)
    ensures View(fsm.actions) == StartStep(View(old(fsm.actions)))
  {
    ActOn(fsm, Start, TimeoutCheck(Tries) + [DisplayOnEnter("START"), NextState("WRITE")]);
  }

  method ElaborateWrite(fsm: Fsm, testAddr: nat)
    modifies fsm
    ensures fsm.resetState == if old(fsm.resetState).None? then Some(Name(ReadWait)) else old(fsm.resetState)
    ensures View(fsm.actions) == WriteStep(testAddr, View(old(fsm.actions)))
  {
    var w := WriteHelperOn(fsm, Read, ReadWait, Const(testAddr), Const(FirstValue), Some(Tries));
    ActOn(fsm, Write, TimeoutCheck(Tries) + [DisplayOnEnter("WRITE")] + w);
  }

  method ElaborateRead(fsm: Fsm, testAddr: nat)
    modifies fsm
    ensures fsm.resetState == if old(fsm.resetState).None? then Some(Name(WritePlusOneWait)) else old(fsm.resetState)
    ensures View(fsm.actions) == ReadStep(testAddr, View(old(fsm.actions)))
  {
    var r := ReadHelperOn(fsm, WritePlusOne, WritePlusOneWait, Const(testAddr), Tmp, Some(Tries));
    ActOn(fsm, Read, TimeoutCheck(Tries) + [DisplayOnEnter("READ")] + r);
  }

  /** The state `WRITE_PLUS_ONE` announces itself as `READ_PLUS_ONE`. */
  method ElaborateWritePlusOne(fsm: Fsm, testAddr: nat)
    modifies fsm
    ensures fsm.resetState == if old(fsm.resetState).None? then Some(Name(ReadPlusOneWait)) else old(fsm.resetState)
    ensures View(fsm.actions) == WritePlusOneStep(testAddr, View(old(fsm.actions)))
  {
    var w := WriteHelperOn(fsm, ReadPlusOne, ReadPlusOneWait, Const(testAddr), Add(Reg(Tmp), 1), Some(Tries));
    ActOn(fsm, WritePlusOne, TimeoutCheck(Tries) + [DisplayOnEnter("READ_PLUS_ONE")] + w);
  }

  method ElaborateReadPlusOne(fsm: Fsm, testAddr: nat)
    modifies fsm
    ensures fsm.resetState == if old(fsm.resetState).None? then Some(Name(EndWait)) else old(fsm.resetState)
    ensures View(fsm.actions) == ReadPlusOneStep(testAddr, View(old(fsm.actions)))
  {
    var r := ReadHelperOn(fsm, End, EndWait, Const(testAddr), Tmp, Some(Tries));
    ActOn(fsm, ReadPlusOne, TimeoutCheck(Tries) + [DisplayOnEnter("READ_PLUS_ONE")] + r);
  }

  method ElaborateEnd(fsm: Fsm)
    modifies fsm
    ensures fsm.resetState == if old(fsm.resetState).None? then Some(Name(End)) else old(fsm.resetState)
    ensures View(fsm.actions) == EndStep(View(old(fsm.actions)))
  {
    ActOn(fsm, End, TimeoutCheck(Tries) + [DisplayOnEnter("END"), Finish]);
  }

  // ---------------------------------------------------------------------
  // What each state does in one cycle

  /** The signals the tester drives on its bus in one cycle. */
  datatype MasterOut = MasterOut(adr: nat, datW: nat, sel: nat, we: bool, cyc: bool, stb: bool)

  /** No transfer requested: every bus signal at its default 0. */
  const Quiet := MasterOut(0, 0, 0, false, false, false)

  /** What the tester samples from its bus in one cycle. */
  datatype Inputs = Inputs(ack: bool, datR: nat)

  /** The values the tester's action lists read in a cycle. */
  function CycleEnv(tries: nat, tmp: nat, inp: Inputs): Env
  {
    Env(inp.ack, inp.datR, map[Tries := tries, Tmp := tmp])
  }

  /** The master outputs decided by the statements of one cycle; each signal
      keeps as many bits as the interface gives it, and the one-bit flags
      are high when they hold 1. */
  function BusOut(eff: Effect, env: Env): MasterOut
  {
    MasterOut(Driven(eff, Adr, Bus.adrWidth, env), Driven(eff, DatW, Bus.dataWidth, env),
              Driven(eff, Sel, Bus.SelWidth(), env), Driven(eff, We, 1, env) == 1,
              Driven(eff, Cyc, 1, env) == 1, Driven(eff, Stb, 1, env) == 1)
  }

  /** A single classic transfer to `testAddr` on every byte lane. */
  function Transfer(testAddr: nat, we: bool, datW: nat): MasterOut
  {
    MasterOut(Truncate(testAddr, Bus.adrWidth), datW, AllOnes(Bus.SelWidth()), we, true, true)
  }

  /** The transition table, outputs: the four issuing states request a
      transfer; every other state leaves the bus idle. */
  function Outputs(testAddr: nat, st: TState, tmp: nat): MasterOut
  {
    match st
    case Write => Transfer(testAddr, true, FirstValue)
    case Read => Transfer(testAddr, false, 0)
    case WritePlusOne => Transfer(testAddr, true, Truncate(tmp + 1, Bus.dataWidth))
    case ReadPlusOne => Transfer(testAddr, false, 0)
    case _ => Quiet
  }

  /** The transition table, next state: an issuing state moves to its wait
      state, a wait state moves on when `ack` is high, `END` stays. */
  function Successor(st: TState, ack: bool): TState
  {
    match st
    case Start => Write
    case Write => ReadWait
    case ReadWait => if ack then Read else ReadWait
    case Read => WritePlusOneWait
    case WritePlusOneWait => if ack then WritePlusOne else WritePlusOneWait
    case WritePlusOne => ReadPlusOneWait
    case ReadPlusOneWait => if ack then ReadPlusOne else ReadPlusOneWait
    case ReadPlusOne => EndWait
    case EndWait => if ack then End else EndWait
    case End => End
  }

  /** The transition table, `tmp`: the wait states of the two reads latch
      `dat_r` on `ack`. */
  function Captured(st: TState, inp: Inputs, tmp: nat): nat
  {
    if (st == WritePlusOneWait || st == EndWait) && inp.ack then Truncate(inp.datR, Bus.dataWidth) else tmp
  }

  /** The transition table, `Finish`: every state runs the timeout check and
      `END` finishes unconditionally. */
  predicate Finishes(st: TState, tries: nat)
  {
    tries >= TimeoutLimit || st == End
  }

  /** Running the action list of `st` does what the table says: it drives
      the table's outputs, picks the table's next state, latches `tmp` (and no
      other register) as the table says, and finishes exactly when the table
      does. */
  ghost predicate AgreesWithTable(testAddr: nat, st: TState, tries: nat, tmp: nat, inp: Inputs)
  {
    ListAgrees(Program(testAddr, st), testAddr, st, tries, tmp, inp)
  }

  /** Running `prog` as the action list of `st` does what the table says. */
  ghost predicate ListAgrees(prog: seq<Stmt>, testAddr: nat, st: TState, tries: nat, tmp: nat, inp: Inputs)
  {
    var env := CycleEnv(tries, tmp, inp);
    Agrees(Run(prog, env, NoEffect), env, tmp, Outputs(testAddr, st, tmp), Name(st),
           Name(Successor(st, inp.ack)), Captured(st, inp, tmp), Finishes(st, tries))
  }

  /** The statements of a cycle that decided `eff`, run in a state named
      `current` with `tmp` holding `tmp`, drive `out`, move to the state
      named `next`, latch only `tmp`, to `captured`, and finish exactly
      when `finish` says. */
  ghost predicate Agrees(eff: Effect, env: Env, tmp: nat, out: MasterOut, current: string, next: string,
                         captured: nat, finish: bool)
  {
    && BusOut(eff, env) == out
    && NextStateName(eff, current) == next
    && eff.latches.Keys <= {Tmp}
    && NextRegValue(eff, env, Tmp, tmp, Bus.dataWidth) == captured
    && eff.finish == finish
  }

  /** The elaborated action lists do what the table says, for every state,
      register values and bus inputs. */
  lemma ProgramMeansTable(testAddr: nat, st: TState, tries: nat, tmp: nat, inp: Inputs)
    ensures AgreesWithTable(testAddr, st, tries, tmp, inp)
  {
    match st
    case Start => StartCycle(testAddr, tries, tmp, inp);
    case Write => WriteCycle(testAddr, tries, tmp, inp);
    case ReadWait => ReadWaitCycle(testAddr, tries, tmp, inp);
    case Read => ReadCycle(testAddr, tries, tmp, inp);
    case WritePlusOneWait => WritePlusOneWaitCycle(testAddr, tries, tmp, inp);
    case WritePlusOne => WritePlusOneCycle(testAddr, tries, tmp, inp);
    case ReadPlusOneWait => ReadPlusOneWaitCycle(testAddr, tries, tmp, inp);
    case ReadPlusOne => ReadPlusOneCycle(testAddr, tries, tmp, inp);
    case EndWait => EndWaitCycle(testAddr, tries, tmp, inp);
    case End => EndCycle(testAddr, tries, tmp, inp);
  }

  lemma EnvRegs(tries: nat, tmp: nat, inp: Inputs)
    ensures RegValue(CycleEnv(tries, tmp, inp), Tries) == tries
    ensures RegValue(CycleEnv(tries, tmp, inp), Tmp) == tmp
  {
  }

  lemma StartCycle(testAddr: nat, tries: nat, tmp: nat, inp: Inputs)
    ensures AgreesWithTable(testAddr, Start, tries, tmp, inp)
  {
    EnvRegs(tries, tmp, inp);
    var env := CycleEnv(tries, tmp, inp);
    AnnounceEffect("START", [NextState("WRITE")], env, NoEffect);
  }

  lemma WriteCycle(testAddr: nat, tries: nat, tmp: nat, inp: Inputs)
    ensures AgreesWithTable(testAddr, Write, tries, tmp, inp)
  {
    Pow2Values();
    assert Program(testAddr, Write) == [] + Program(testAddr, Write);
    IssuingAgrees(testAddr, Program(testAddr, Write), tries, tmp, inp, [], "WRITE", DatW, Const(FirstValue), 1,
                  Outputs(testAddr, Write, tmp), Name(Write), Name(ReadWait));
  }

  lemma ReadWaitCycle(testAddr: nat, tries: nat, tmp: nat, inp: Inputs)
    ensures AgreesWithTable(testAddr, ReadWait, tries, tmp, inp)
  {
    EnvRegs(tries, tmp, inp);
    var env := CycleEnv(tries, tmp, inp);
    var w0 := WaitActions("READ", None, None);
    RunAppend(w0, WaitActions("READ", Some(Tries), None), env, NoEffect);
    WaitEffect("READ", None, None, env, NoEffect);
    WaitEffect("READ", Some(Tries), None, env, Run(w0, env, NoEffect));
  }

  lemma ReadCycle(testAddr: nat, tries: nat, tmp: nat, inp: Inputs)
    ensures AgreesWithTable(testAddr, Read, tries, tmp, inp)
  {
    var env := CycleEnv(tries, tmp, inp);
    ReleaseEffect(env, NoEffect);
    RunAppend(Release, Release, env, NoEffect);
    ReleaseEffect(env, Run(Release, env, NoEffect));
    IssuingAgrees(testAddr, Program(testAddr, Read), tries, tmp, inp, Release + Release, "READ", DatR, Reg(Tmp), 0,
                  Outputs(testAddr, Read, tmp), Name(Read), Name(WritePlusOneWait));
  }

  /** The wait states of the last three transfers, each with the timeout check. */
  lemma WritePlusOneWaitCycle(testAddr: nat, tries: nat, tmp: nat, inp: Inputs)
    ensures AgreesWithTable(testAddr, WritePlusOneWait, tries, tmp, inp)
  {
    EnvRegs(tries, tmp, inp);
    WaitEffect("WRITE_PLUS_ONE", Some(Tries), Some(Tmp), CycleEnv(tries, tmp, inp), NoEffect);
  }

  lemma ReadPlusOneWaitCycle(testAddr: nat, tries: nat, tmp: nat, inp: Inputs)
    ensures AgreesWithTable(testAddr, ReadPlusOneWait, tries, tmp, inp)
  {
    EnvRegs(tries, tmp, inp);
    WaitEffect("READ_PLUS_ONE", Some(Tries), None, CycleEnv(tries, tmp, inp), NoEffect);
  }

  lemma EndWaitCycle(testAddr: nat, tries: nat, tmp: nat, inp: Inputs)
    ensures AgreesWithTable(testAddr, EndWait, tries, tmp, inp)
  {
    EnvRegs(tries, tmp, inp);
    WaitEffect("END", Some(Tries), Some(Tmp), CycleEnv(tries, tmp, inp), NoEffect);
  }

  lemma WritePlusOneCycle(testAddr: nat, tries: nat, tmp: nat, inp: Inputs)
    ensures AgreesWithTable(testAddr, WritePlusOne, tries, tmp, inp)
  {
    WritePlusOneIssues(testAddr, tries, tmp, inp);
  }

  /** `WRITE_PLUS_ONE` writes `tmp + 1` and moves to its wait state. */
  lemma WritePlusOneIssues(testAddr: nat, tries: nat, tmp: nat, inp: Inputs)
    ensures var env := CycleEnv(tries, tmp, inp);
            Agrees(Run(Program(testAddr, WritePlusOne), env, NoEffect), env, tmp, Outputs(testAddr, WritePlusOne, tmp),
                   Name(WritePlusOne), Name(ReadPlusOneWait), tmp, tries >= TimeoutLimit)
  {
    EnvRegs(tries, tmp, inp);
    var env := CycleEnv(tries, tmp, inp);
    ReleaseEffect(env, NoEffect);
    assert Eval(Add(Reg(Tmp), 1), env) == tmp + 1;
    IssuingAgrees(testAddr, Program(testAddr, WritePlusOne), tries, tmp, inp, Release, "READ_PLUS_ONE", DatW,
                  Add(Reg(Tmp), 1), 1, Outputs(testAddr, WritePlusOne, tmp), Name(WritePlusOne), Name(ReadPlusOneWait));
  }

  lemma ReadPlusOneCycle(testAddr: nat, tries: nat, tmp: nat, inp: Inputs)
    ensures AgreesWithTable(testAddr, ReadPlusOne, tries, tmp, inp)
  {
    ReadPlusOneIssues(testAddr, tries, tmp, inp);
  }

  /** `READ_PLUS_ONE` reads and moves to its wait state. */
  lemma ReadPlusOneIssues(testAddr: nat, tries: nat, tmp: nat, inp: Inputs)
    ensures var env := CycleEnv(tries, tmp, inp);
            Agrees(Run(Program(testAddr, ReadPlusOne), env, NoEffect), env, tmp, Outputs(testAddr, ReadPlusOne, tmp),
                   Name(ReadPlusOne), Name(EndWait), tmp, tries >= TimeoutLimit)
  {
    ReleaseEffect(CycleEnv(tries, tmp, inp), NoEffect);
    IssuingAgrees(testAddr, Program(testAddr, ReadPlusOne), tries, tmp, inp, Release, "READ_PLUS_ONE", DatR, Reg(Tmp), 0,
                  Outputs(testAddr, ReadPlusOne, tmp), Name(ReadPlusOne), Name(EndWait));
  }

  lemma EndCycle(testAddr: nat, tries: nat, tmp: nat, inp: Inputs)
    ensures AgreesWithTable(testAddr, End, tries, tmp, inp)
  {
    EnvRegs(tries, tmp, inp);
    var env := CycleEnv(tries, tmp, inp);
    ReleaseEffect(env, NoEffect);
    RunAppend(Release, TimeoutCheck(Tries) + [DisplayOnEnter("END"), Finish], env, NoEffect);
    AnnounceEffect("END", [Finish], env, Run(Release, env, NoEffect));
    RunOne(Finish, env, Run(Release, env, NoEffect));
  }

  /** An issuing state agrees with the table when its list `prog` is
      `prefix` (copies of the `cyc = 0, stb = 0` pair), the timeout check,
      the announcement and the issuing statements for the wait state `wait`,
      and the table's outputs `out` are the request those statements make. */
  lemma IssuingAgrees(testAddr: nat, prog: seq<Stmt>, tries: nat, tmp: nat, inp: Inputs,
                      prefix: seq<Stmt>, msg: string, dataSig: BusSignal, dat: Expr, we: nat,
                      out: MasterOut, current: string, wait: string)
    requires (dataSig == DatW || dataSig == DatR) && we <= 1
    requires prog
             == prefix + (TimeoutCheck(Tries) + [DisplayOnEnter(msg)]
                          + Issue(Bus, dataSig, Const(testAddr), dat, None, None, None, we, wait))
    requires var e := Run(prefix, CycleEnv(tries, tmp, inp), NoEffect);
             e.drives.Keys <= {Cyc, Stb} && e.next.None? && e.latches == map[] && !e.finish
    requires out
             == Transfer(testAddr, we == 1,
                        if dataSig == DatW then Truncate(Eval(dat, CycleEnv(tries, tmp, inp)), Bus.dataWidth) else 0)
    ensures var env := CycleEnv(tries, tmp, inp);
            Agrees(Run(prog, env, NoEffect), env, tmp, out, current, wait, tmp, tries >= TimeoutLimit)
  {
    EnvRegs(tries, tmp, inp);
    IssuingCycle(testAddr, prefix, msg, dataSig, dat, we, wait, CycleEnv(tries, tmp, inp));
  }

  /** The timeout check and the announcement, followed by `rest`. */
  lemma AnnounceEffect(msg: string, rest: seq<Stmt>, env: Env, eff: Effect)
    ensures Run(TimeoutCheck(Tries) + ([DisplayOnEnter(msg)] + rest), env, eff)
            == Run(rest, env, eff.(finish := eff.finish || RegValue(env, Tries) >= TimeoutLimit))
  {
    RunAppend(TimeoutCheck(Tries), [DisplayOnEnter(msg)] + rest, env, eff);
    TimeoutEffect(Some(Tries), env, eff);
    RunCons(DisplayOnEnter(msg), rest, env, Run(TimeoutCheck(Tries), env, eff));
  }

  /** The master outputs after the issuing statements, whatever pair of
      `cyc = 0, stb = 0` drives came before them. */
  lemma IssuedBus(testAddr: nat, before: map<BusSignal, Expr>, dataSig: BusSignal, dat: Expr,
                  we: nat, env: Env, eff: Effect)
    requires dataSig == DatW || dataSig == DatR
    requires before.Keys <= {Cyc, Stb} && we <= 1
    requires eff.drives == DrivesAfterIssue(before, dataSig, Const(testAddr), dat,
                                            Const(AllOnes(Bus.SelWidth())), None, None, we)
    ensures BusOut(eff, env)
            == Transfer(testAddr, we == 1, if dataSig == DatW then Truncate(Eval(dat, env), Bus.dataWidth) else 0)
  {
    var d := eff.drives;
    var common := before[Adr := Const(testAddr)][dataSig := dat][Sel := Const(AllOnes(Bus.SelWidth()))];
    assert d == common[We := Const(we)][Cyc := Const(1)][Stb := Const(1)];
    assert d[Adr] == common[Adr] == Const(testAddr);
    assert d[Sel] == Const(AllOnes(Bus.SelWidth()));
    assert d[dataSig] == dat;
    assert DatW in d <==> dataSig == DatW;
    Pow2Values();
  }

  /** An issuing state whose list starts with `prefix` (copies of the
      `cyc = 0, stb = 0` pair). */
  lemma IssuingCycle(testAddr: nat, prefix: seq<Stmt>, msg: string, dataSig: BusSignal, dat: Expr,
                     we: nat, wait: string, env: Env)
    requires dataSig == DatW || dataSig == DatR
    requires we <= 1
    requires Run(prefix, env, NoEffect).drives.Keys <= {Cyc, Stb}
    requires Run(prefix, env, NoEffect).next.None? && Run(prefix, env, NoEffect).latches == map[]
    requires !Run(prefix, env, NoEffect).finish
    ensures var eff := Run(prefix + (TimeoutCheck(Tries) + [DisplayOnEnter(msg)]
                                      + Issue(Bus, dataSig, Const(testAddr), dat, None, None, None, we, wait)),
                           env, NoEffect);
            && BusOut(eff, env)
               == Transfer(testAddr, we == 1, if dataSig == DatW then Truncate(Eval(dat, env), Bus.dataWidth) else 0)
            && eff.next == Some(wait)
            && eff.latches == map[]
            && eff.finish == (RegValue(env, Tries) >= TimeoutLimit)
  {
    var issue := Issue(Bus, dataSig, Const(testAddr), dat, None, None, None, we, wait);
    var e0 := Run(prefix, env, NoEffect);
    RunAppend(prefix, TimeoutCheck(Tries) + [DisplayOnEnter(msg)] + issue, env, NoEffect);
    assert TimeoutCheck(Tries) + [DisplayOnEnter(msg)] + issue == TimeoutCheck(Tries) + ([DisplayOnEnter(msg)] + issue);
    AnnounceEffect(msg, issue, env, e0);
    var e1 := e0.(finish := e0.finish || RegValue(env, Tries) >= TimeoutLimit);
    IssueEffect(Bus, dataSig, Const(testAddr), dat, None, None, None, we, wait, env, e1);
    IssuedBus(testAddr, e0.drives, dataSig, dat, we, env, Run(issue, env, e1));
  }
}
