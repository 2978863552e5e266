/**
 * The parts of the hardware-description framework that the core reads and
 * writes, reduced to what the core relies on:
 *
 *  - the statements an FSM state's action list holds (`Stmt`);
 *  - an FSM under construction, whose `actions` map goes from a state name
 *    to that state's action list, and which `Act` appends to;
 *  - signals carrying a `backtrace`, the list of names the framework keeps
 *    for each object, the last one being its name in generated code;
 *  - what one state's action list does in one clock cycle (`Run`): bus
 *    signals take the value of the last statement that drives them, and 0 when
 *    none does; the last `NextState` picks the next state, and the state is
 *    kept when none runs; the last `NextValue` of a register picks its next
 *    value, and the register keeps its value when none runs; `Finish` ends
 *    the simulation.
 */
module Migen {
  import opened Opt
  import opened Hdl

  /** The signals of a Wishbone interface that an action can drive. */
  datatype BusSignal = Adr | DatW | DatR | Sel | Cti | Bte | We | Cyc | Stb

  /** The right-hand sides that actions use. */
  datatype Expr =
    | Const(n: nat)          // an integer literal
    | Reg(name: string)      // the current value of a register such as `tries` or `tmp`
    | ReadData               // the interface's `dat_r`, as returned by the slave
    | Add(e: Expr, k: nat)   // `e + k`

  datatype Cond =
    | AckHigh                          // `bus.ack`
    | AtLeast(reg: string, bound: nat) // `reg >= bound`

  datatype Stmt =
    | Drive(sig: BusSignal, e: Expr)   // `bus.sig.eq(e)`, combinational
    | NextState(target: string)
    | NextValue(reg: string, e: Expr)
    | If(cond: Cond, body: seq<Stmt>)
    | Display(msg: string)
    | DisplayOnEnter(msg: string)
    | Finish

  /** The action list of `state`, empty when nothing was added for it yet. */
  function ActionsOf(actions: map<string, seq<Stmt>>, state: string): seq<Stmt>
  {
    if state in actions then actions[state] else []
  }

  /** One entry of an object's backtrace. */
  datatype Frame = Frame(name: string, context: Option<string>)

  class Signal {
    var backtrace: seq<Frame>

    constructor (name: string)
      ensures backtrace == [Frame(name, None)]
    {
      backtrace := [Frame(name, None)];
    }
  }

  class Fsm {
    var actions: map<string, seq<Stmt>>
    var resetState: Option<string>
    const state: Signal
    const nextState: Signal

    ghost predicate Valid()
      reads this
    {
      state != nextState
    }

    constructor (reset: Option<string>)
      ensures Valid()
      ensures actions == map[] && resetState == reset
      ensures fresh(state) && fresh(nextState)
      ensures state.backtrace == [Frame("state", None)]
      ensures nextState.backtrace == [Frame("next_state", None)]
    {
      actions := map[];
      resetState := reset;
      state := new Signal("state");
      nextState := new Signal("next_state");
    }

    /** Appends `stmts` to the action list of state `name`; the first state
        given actions becomes the reset state when none was chosen. */
    method Act(name: string, stmts: seq<Stmt>)
      modifies this
      ensures actions == old(actions)[name := ActionsOf(old(actions), name) + stmts]
      ensures ActionsOf(actions, name) == ActionsOf(old(actions), name) + stmts
      ensures forall k :: k != name ==> ActionsOf(actions, k) == ActionsOf(old(actions), k)
      ensures resetState == if old(resetState).None? then Some(name) else old(resetState)
    {
      actions := actions[name := ActionsOf(actions, name) + stmts];
      if resetState.None? {
        resetState := Some(name);
      }
    }
  }

  /** The values an action list can read during one cycle. */
  datatype Env = Env(ack: bool, datR: nat, regs: map<string, nat>)

  function RegValue(env: Env, name: string): nat
  {
    if name in env.regs then env.regs[name] else 0
  }

  function Eval(e: Expr, env: Env): nat
  {
    match e
    case Const(n) => n
    case Reg(name) => RegValue(env, name)
    case ReadData => env.datR
    case Add(e', k) => Eval(e', env) + k
  }

  predicate Holds(c: Cond, env: Env)
  {
    match c
    case AckHigh => env.ack
    case AtLeast(reg, bound) => RegValue(env, reg) >= bound
  }

  /** What the statements run so far in a cycle decided. */
  datatype Effect = Effect(
    drives: map<BusSignal, Expr>,
    next: Option<string>,
    latches: map<string, Expr>,
    finish: bool)

  const NoEffect := Effect(map[], None, map[], false)

  /** The value a `width`-bit combinational signal takes in the cycle: what
      the last statement driving it assigned, or 0 when none did. */
  function Driven(eff: Effect, sig: BusSignal, width: nat, env: Env): nat
  {
    if sig in eff.drives then Truncate(Eval(eff.drives[sig], env), width) else 0
  }

  /** The state after the clock edge: the last `NextState`, or the current one. */
  function NextStateName(eff: Effect, current: string): string
  {
    if eff.next.Some? then eff.next.value else current
  }

  /** A `width`-bit register after the clock edge: its last `NextValue`, or
      its current value. */
  function NextRegValue(eff: Effect, env: Env, reg: string, current: nat, width: nat): nat
  {
    if reg in eff.latches then Truncate(Eval(eff.latches[reg], env), width) else current
  }

  function Apply(s: Stmt, env: Env, eff: Effect): Effect
    decreases s
  {
    match s
    case Drive(sig, e) => eff.(drives := eff.drives[sig := e])
    case NextState(target) => eff.(next := Some(target))
    case NextValue(reg, e) => eff.(latches := eff.latches[reg := e])
    case If(c, body) => if Holds(c, env) then Run(body, env, eff) else eff
    case Display(_) => eff
    case DisplayOnEnter(_) => eff
    case Finish => eff.(finish := true)
  }

  /** Runs `stmts` in order, starting from `eff`. */
  function Run(stmts: seq<Stmt>, env: Env, eff: Effect): Effect
    decreases stmts
  {
    if stmts == [] then eff else Run(stmts[1..], env, Apply(stmts[0], env, eff))
  }

  /** Running two action lists one after the other is running their
      concatenation; this is what lets a list built by appending and
      prepending pieces be understood piece by piece. */
  lemma {:induction false} RunAppend(a: seq<Stmt>, b: seq<Stmt>, env: Env, eff: Effect)
    ensures Run(a + b, env, eff) == Run(b, env, Run(a, env, eff))
    decreases |a|
  {
    if a != [] {
      assert (a + b)[0] == a[0];
      assert (a + b)[1..] == a[1..] + b;
      RunAppend(a[1..], b, env, Apply(a[0], env, eff));
    } else {
      assert a + b == b;
    }
  }

  lemma RunCons(s: Stmt, rest: seq<Stmt>, env: Env, eff: Effect)
    ensures Run([s] + rest, env, eff) == Run(rest, env, Apply(s, env, eff))
  {
    assert ([s] + rest)[1..] == rest;
  }

  lemma RunOne(s: Stmt, env: Env, eff: Effect)
    ensures Run([s], env, eff) == Apply(s, env, eff)
  {
    RunCons(s, [], env, eff);
  }
}
