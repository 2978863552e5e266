/**
 * The Wishbone master helpers of `WBInterface` and `TimeoutCheck`.
 *
 * A helper call adds one bus transfer to an FSM that is being built. Given the
 * state `next` that should follow the transfer, it
 *  - appends to the wait state `next + "_BEFORE_ENTER_BUS_WAIT"` an action
 *    list that stays until `ack` and then moves to `next` (a read also latches
 *    `dat_r` into its data register on that transition), preceded by the
 *    timeout check when a `tries` register is given;
 *  - prepends `cyc = 0, stb = 0` to the action list of `next`;
 *  - returns the statements of the issuing state: address, data, byte
 *    select (all ones by default), `we`, `cyc = 1`, `stb = 1`, and a move to
 *    the wait state.
 * In the source the helpers are generators, so these effects happen when
 * the caller iterates them; every caller does so at once, with `*` or `list`.
 */
module WishboneMaster {
  import opened Opt
  import opened Hdl
  import opened Migen

  /** The widths of a Wishbone interface; `sel` has one bit per data byte. */
  datatype WBInterface = WBInterface(dataWidth: nat, adrWidth: nat) {
    function SelWidth(): nat
    {
      dataWidth / 8
    }
  }

  /** The interface built with the framework's defaults. */
  const DefaultInterface := WBInterface(32, 30)

  /** The number of cycles after which `TimeoutCheck` ends the simulation. */
  const TimeoutLimit: nat := 32

  const WaitSuffix := "_BEFORE_ENTER_BUS_WAIT"

  function WaitStateName(next: string): string
  {
    next + WaitSuffix
  }

  /** `TimeoutCheck(tries)`: finish the simulation once `tries >= 32`. */
  function TimeoutCheck(tries: string): seq<Stmt>
  {
    [If(AtLeast(tries, TimeoutLimit), [Display("TIMEOUT!"), Finish])]
  }

  /** The timeout check when a `tries` register is given, nothing otherwise. */
  function TimeoutStmts(tries: Option<string>): seq<Stmt>
  {
    if tries.Some? then TimeoutCheck(tries.value) else []
  }

  /** The body of `If(self.ack, ...)` in the wait state. */
  function OnAck(next: string, capture: Option<string>): seq<Stmt>
  {
    [Display(next + "_BUS_ACKED")]
    + (if capture.Some? then [NextValue(capture.value, ReadData)] else [])
    + [NextState(next)]
  }

  /** What one helper call appends to the wait state. `capture` is the
      register a read latches `dat_r` into. */
  function WaitActions(next: string, tries: Option<string>, capture: Option<string>): seq<Stmt>
  {
    TimeoutStmts(tries) + [DisplayOnEnter(WaitStateName(next)), If(AckHigh, OnAck(next, capture))]
  }

  /** What one helper call prepends to the action list of `next`. */
  const Release: seq<Stmt> := [Drive(Cyc, Const(0)), Drive(Stb, Const(0))]

  /** The byte select that is driven: the given one, or `2 ** len(sel) - 1`. */
  function SelValue(bus: WBInterface, sel: Option<Expr>): Expr
  {
    if sel.Some? then sel.value else Const(AllOnes(bus.SelWidth()))
  }

  function Optional(sig: BusSignal, e: Option<Expr>): seq<Stmt>
  {
    if e.Some? then [Drive(sig, e.value)] else []
  }

  /** The statements the issuing state runs. A write drives `dat_w`, a read
      drives `dat_r`, as the source does. */
  function Issue(bus: WBInterface, dataSig: BusSignal, adr: Expr, dat: Expr, sel: Option<Expr>,
                 cti: Option<Expr>, bte: Option<Expr>, we: nat, wait: string): seq<Stmt>
  {
    [Drive(Adr, adr), Drive(dataSig, dat), Drive(Sel, SelValue(bus, sel))]
    + Optional(Cti, cti) + Optional(Bte, bte)
    + [Drive(We, Const(we)), Drive(Cyc, Const(1)), Drive(Stb, Const(1)), NextState(wait)]
  }

  /** `controller_write_hdl`. */
  method ControllerWriteHdl(bus: WBInterface, fsm: Fsm, next: string, adr: Expr, dat: Expr,
                            sel: Option<Expr>, cti: Option<Expr>, bte: Option<Expr>,
                            tries: Option<string>)
    returns (issued: seq<Stmt>)
    modifies fsm
    ensures issued == Issue(bus, DatW, adr, dat, sel, cti, bte, 1, WaitStateName(next))
    ensures ActionsOf(fsm.actions, WaitStateName(next))
            == ActionsOf(old(fsm.actions), WaitStateName(next)) + WaitActions(next, tries, None)
    ensures ActionsOf(fsm.actions, next) == Release + ActionsOf(old(fsm.actions), next)
    ensures fsm.actions.Keys == old(fsm.actions).Keys + {next, WaitStateName(next)}
    ensures forall k :: k != next && k != WaitStateName(next) ==>
              ActionsOf(fsm.actions, k) == ActionsOf(old(fsm.actions), k)
    ensures fsm.resetState == if old(fsm.resetState).None? then Some(WaitStateName(next)) else old(fsm.resetState)
  {
    var wait := WaitStateName(next);
    WaitStateNameInjective(next, next);
    fsm.Act(wait, WaitActions(next, tries, None));
    fsm.actions := fsm.actions[next := Release + ActionsOf(fsm.actions, next)];
    issued := Issue(bus, DatW, adr, dat, sel, cti, bte, 1, wait);
  }

  /** `controller_read_hdl`; `dat` is the register the read data goes to. */
  method ControllerReadHdl(bus: WBInterface, fsm: Fsm, next: string, adr: Expr, dat: string,
                           sel: Option<Expr>, cti: Option<Expr>, bte: Option<Expr>,
                           tries: Option<string>)
    returns (issued: seq<Stmt>)
    modifies fsm
    ensures issued == Issue(bus, DatR, adr, Reg(dat), sel, cti, bte, 0, WaitStateName(next))
    ensures ActionsOf(fsm.actions, WaitStateName(next))
            == ActionsOf(old(fsm.actions), WaitStateName(next)) + WaitActions(next, tries, Some(dat))
    ensures ActionsOf(fsm.actions, next) == Release + ActionsOf(old(fsm.actions), next)
    ensures fsm.actions.Keys == old(fsm.actions).Keys + {next, WaitStateName(next)}
    ensures forall k :: k != next && k != WaitStateName(next) ==>
              ActionsOf(fsm.actions, k) == ActionsOf(old(fsm.actions), k)
    ensures fsm.resetState == if old(fsm.resetState).None? then Some(WaitStateName(next)) else old(fsm.resetState)
  {
    var wait := WaitStateName(next);
    WaitStateNameInjective(next, next);
    fsm.Act(wait, WaitActions(next, tries, Some(dat)));
    fsm.actions := fsm.actions[next := Release + ActionsOf(fsm.actions, next)];
    issued := Issue(bus, DatR, adr, Reg(dat), sel, cti, bte, 0, wait);
  }

  /** Distinct targets get distinct wait states, and a wait state is never
      the state it leads to. */
  lemma WaitStateNameInjective(a: string, b: string)
    ensures WaitStateName(a) == WaitStateName(b) <==> a == b
    ensures WaitStateName(a) != a
  {
    assert |WaitStateName(a)| == |a| + |WaitSuffix|;
    if WaitStateName(a) == WaitStateName(b) {
      assert a == WaitStateName(a)[..|a|];
      assert b == WaitStateName(b)[..|b|];
    }
  }

  /** The default byte select enables every byte lane: all `len(sel)` bits
      of it are set, and none above. */
  lemma DefaultSelAllLanes(bus: WBInterface, i: nat)
    ensures SelValue(bus, None).Const?
    ensures Bit(SelValue(bus, None).n, i) == (if i < bus.SelWidth() then 1 else 0)
  {
    AllOnesBits(bus.SelWidth(), i);
  }

  /** The wait state drives no bus signal (so `cyc` and `stb` fall back to 0
      there), stays where it is until `ack`, moves to `next` on `ack`, latches
      `dat_r` on that same cycle for a read, and finishes the simulation once
      `tries` reaches the limit. */
  lemma WaitEffect(next: string, tries: Option<string>, capture: Option<string>, env: Env, eff: Effect)
    ensures Run(WaitActions(next, tries, capture), env, eff).drives == eff.drives
    ensures Run(WaitActions(next, tries, capture), env, eff).next
            == if env.ack then Some(next) else eff.next
    ensures Run(WaitActions(next, tries, capture), env, eff).latches
            == if env.ack && capture.Some? then eff.latches[capture.value := ReadData] else eff.latches
    ensures Run(WaitActions(next, tries, capture), env, eff).finish
            == (eff.finish || (tries.Some? && RegValue(env, tries.value) >= TimeoutLimit))
  {
    var t := TimeoutStmts(tries);
    var rest := [DisplayOnEnter(WaitStateName(next)), If(AckHigh, OnAck(next, capture))];
    RunAppend(t, rest, env, eff);
    var e1 := Run(t, env, eff);
    TimeoutEffect(tries, env, eff);
    RunCons(rest[0], rest[1..], env, e1);
    RunOne(rest[1], env, e1);
    if env.ack {
      OnAckEffect(next, capture, env, e1);
    }
  }

  lemma TimeoutEffect(tries: Option<string>, env: Env, eff: Effect)
    ensures Run(TimeoutStmts(tries), env, eff)
            == eff.(finish := eff.finish || (tries.Some? && RegValue(env, tries.value) >= TimeoutLimit))
  {
    if tries.Some? {
      var s := TimeoutCheck(tries.value)[0];
      RunOne(s, env, eff);
      if Holds(s.cond, env) {
        RunCons(Display("TIMEOUT!"), [Finish], env, eff);
        RunOne(Finish, env, eff);
      }
    }
  }

  lemma OnAckEffect(next: string, capture: Option<string>, env: Env, eff: Effect)
    ensures Run(OnAck(next, capture), env, eff)
            == eff.(next := Some(next),
                    latches := if capture.Some? then eff.latches[capture.value := ReadData] else eff.latches)
  {
    var head := [Display(next + "_BUS_ACKED")];
    var mid := if capture.Some? then [NextValue(capture.value, ReadData)] else [];
    RunAppend(head + mid, [NextState(next)], env, eff);
    RunAppend(head, mid, env, eff);
    RunOne(head[0], env, eff);
    if capture.Some? {
      RunOne(mid[0], env, eff);
    }
    var e2 := Run(head + mid, env, eff);
    RunOne(NextState(next), env, e2);
  }

  /** The issuing state drives the transfer: address, data, byte select (the
      default being all ones), the optional `cti`/`bte`, `we`, and `cyc = 1`,
      `stb = 1`; it moves to the wait state and latches nothing. Whatever an
      earlier statement of the same state drove, these values win. */
  lemma IssueEffect(bus: WBInterface, dataSig: BusSignal, adr: Expr, dat: Expr, sel: Option<Expr>,
                    cti: Option<Expr>, bte: Option<Expr>, we: nat, wait: string, env: Env, eff: Effect)
    requires dataSig == DatW || dataSig == DatR
    ensures var r := Run(Issue(bus, dataSig, adr, dat, sel, cti, bte, we, wait), env, eff);
      && r.drives == DrivesAfterIssue(eff.drives, dataSig, adr, dat, SelValue(bus, sel), cti, bte, we)
      && r.next == Some(wait)
      && r.latches == eff.latches
      && r.finish == eff.finish
  {
    var a := [Drive(Adr, adr), Drive(dataSig, dat), Drive(Sel, SelValue(bus, sel))];
    var o := Optional(Cti, cti) + Optional(Bte, bte);
    var h := [Drive(We, Const(we)), Drive(Cyc, Const(1)), Drive(Stb, Const(1)), NextState(wait)];
    assert Issue(bus, dataSig, adr, dat, sel, cti, bte, we, wait) == a + o + h;
    RunAppend(a + o, h, env, eff);
    RunAppend(a, o, env, eff);
    AddressEffect(adr, dataSig, dat, SelValue(bus, sel), env, eff);
    OptionalEffect(cti, bte, env, Run(a, env, eff));
    HandshakeEffect(we, wait, env, Run(o, env, Run(a, env, eff)));
  }

  lemma AddressEffect(adr: Expr, dataSig: BusSignal, dat: Expr, sel: Expr, env: Env, eff: Effect)
    ensures Run([Drive(Adr, adr), Drive(dataSig, dat), Drive(Sel, sel)], env, eff)
            == eff.(drives := eff.drives[Adr := adr][dataSig := dat][Sel := sel])
  {
    var a := [Drive(Adr, adr), Drive(dataSig, dat), Drive(Sel, sel)];
    RunCons(a[0], a[1..], env, eff);
    RunCons(a[1], a[2..], env, Apply(a[0], env, eff));
    RunOne(a[2], env, Apply(a[1], env, Apply(a[0], env, eff)));
  }

  lemma OptionalEffect(cti: Option<Expr>, bte: Option<Expr>, env: Env, eff: Effect)
    ensures var m := if cti.Some? then eff.drives[Cti := cti.value] else eff.drives;
            Run(Optional(Cti, cti) + Optional(Bte, bte), env, eff)
            == eff.(drives := if bte.Some? then m[Bte := bte.value] else m)
  {
    RunAppend(Optional(Cti, cti), Optional(Bte, bte), env, eff);
    if cti.Some? {
      RunOne(Drive(Cti, cti.value), env, eff);
    }
    if bte.Some? {
      RunOne(Drive(Bte, bte.value), env, Run(Optional(Cti, cti), env, eff));
    }
  }

  lemma HandshakeEffect(we: nat, wait: string, env: Env, eff: Effect)
    ensures Run([Drive(We, Const(we)), Drive(Cyc, Const(1)), Drive(Stb, Const(1)), NextState(wait)], env, eff)
            == eff.(drives := eff.drives[We := Const(we)][Cyc := Const(1)][Stb := Const(1)], next := Some(wait))
  {
    var h := [Drive(We, Const(we)), Drive(Cyc, Const(1)), Drive(Stb, Const(1)), NextState(wait)];
    RunCons(h[0], h[1..], env, eff);
    var f1 := Apply(h[0], env, eff);
    RunCons(h[1], h[2..], env, f1);
    var f2 := Apply(h[1], env, f1);
    RunCons(h[2], h[3..], env, f2);
    RunOne(h[3], env, Apply(h[2], env, f2));
  }

  /** The drives after the issuing statements, in the order they run. */
  function DrivesAfterIssue(before: map<BusSignal, Expr>, dataSig: BusSignal, adr: Expr, dat: Expr,
                            sel: Expr, cti: Option<Expr>, bte: Option<Expr>, we: nat): map<BusSignal, Expr>
  {
    var m := before[Adr := adr][dataSig := dat][Sel := sel];
    var m' := if cti.Some? then m[Cti := cti.value] else m;
    var m'' := if bte.Some? then m'[Bte := bte.value] else m';
    m''[We := Const(we)][Cyc := Const(1)][Stb := Const(1)]
  }

  /** The prefix `cyc = 0, stb = 0` drives just those two signals to 0. */
  lemma ReleaseEffect(env: Env, eff: Effect)
    ensures Run(Release, env, eff)
            == eff.(drives := eff.drives[Cyc := Const(0)][Stb := Const(0)])
  {
    RunCons(Release[0], Release[1..], env, eff);
    RunOne(Release[1], env, Apply(Release[0], env, eff));
  }
}
