/**
 * The two-state example FSM. `FOO` drives the output `s` to 1 and moves to
 * `BAR`; `BAR` drives `s` to 0, increments the 8-bit `counter`, stores 89 in
 * entry `counter` of a seven-entry array `x`, and moves back to `FOO`. The
 * FSM is built without a reset state, so the first state given actions,
 * `FOO`, is the one it starts in. The array's entries are one-bit signals,
 * so the 89 stored keeps only its low bit, 1.
 */
module FooBar {
  import opened Hdl

  datatype State = Foo | Bar

  const CounterWidth: nat := 8
  const EntryWidth: nat := 1
  const ArraySize: nat := 7
  /** The value `BAR` stores in `x[counter]`. */
  const Stored: nat := 89

  /** The registers: the FSM state, `counter`, and the entries of `x`. */
  datatype Regs = Regs(state: State, counter: nat, x: seq<nat>)

  const Reset := Regs(Foo, 0, seq(ArraySize, _ => 0))

  /** The output `s` in state `st`. */
  function Output(st: State): nat
  {
    if st == Foo then 1 else 0
  }

  /** One clock cycle. In `BAR` both `NextValue`s read the current `counter`. */
  function Next(r: Regs): Regs
  {
    match r.state
    case Foo => r.(state := Bar)
    case Bar =>
      var x := if r.counter < |r.x| then r.x[r.counter := Truncate(Stored, EntryWidth)] else r.x;
      Regs(Foo, Truncate(r.counter + 1, CounterWidth), x)
  }

  /** The registers after `n` cycles from `r`. */
  function Iterate(r: Regs, n: nat): Regs
  {
    if n == 0 then r else Next(Iterate(r, n - 1))
  }

  class Example {
    var state: State
    var counter: nat
    const x: array<nat>

    ghost predicate Valid()
      reads this, x
    {
      x.Length == ArraySize && counter < Pow2(CounterWidth)
    }

    function Current(): Regs
      reads this, x
    {
      Regs(state, counter, x[..])
    }

    constructor ()
      ensures Valid() && fresh(x)
      ensures Current() == Reset
    {
      state := Foo;
      counter := 0;
      x := new nat[ArraySize](_ => 0);
    }

    /** One clock cycle; returns the value of `s` during the cycle. */
    method Step() returns (s: nat)
      requires Valid()
      modifies this, x
      ensures Valid()
      ensures s == Output(old(state))
      ensures Current() == Next(old(Current()))
    {
      s := if state == Foo then 1 else 0;
      if state == Foo {
        state := Bar;
      } else {
        if counter < x.Length {
          x[counter] := Truncate(Stored, EntryWidth);
        }
        counter := Truncate(counter + 1, CounterWidth);
        state := Foo;
      }
    }
  }

  /** A cycle flips the state; `counter` moves only in `BAR`, by one modulo
      256; in `BAR` with `counter < 7` entry `counter` becomes the stored
      bit and every other entry keeps its value. */
  lemma NextFacts(r: Regs)
    ensures Next(r).state != r.state
    ensures r.state == Foo ==> Next(r).counter == r.counter && Next(r).x == r.x
    ensures r.state == Bar ==> Next(r).counter == (r.counter + 1) % 256
    ensures |Next(r).x| == |r.x|
    ensures forall i :: 0 <= i < |r.x| ==>
              Next(r).x[i] == if r.state == Bar && i == r.counter then 1 else r.x[i]
  {
    Pow2Values();
  }

  /** The array with its first `k` entries set. */
  function Filled(k: nat): (x: seq<nat>)
    ensures |x| == ArraySize
  {
    seq(ArraySize, i => if i < k then 1 else 0)
  }

  /** The registers `n` cycles after reset: the state is `FOO` after an even
      number of cycles, `counter` counts the `BAR` cycles modulo 256, and the
      entries below the number of `BAR` cycles hold 1, the others 0. */
  lemma {:induction false} RunFromReset(n: nat)
    ensures Iterate(Reset, n) == Regs(if n % 2 == 0 then Foo else Bar, (n / 2) % 256, Filled(n / 2))
  {
    if n > 0 {
      RunFromReset(n - 1);
      var m := n - 1;
      if m % 2 == 1 {
        BarCycle(m / 2);
        assert n / 2 == m / 2 + 1;
      } else {
        assert n / 2 == m / 2;
      }
    }
  }

  /** The `BAR` cycle after `k` earlier ones sets the next entry. */
  lemma BarCycle(k: nat)
    ensures Next(Regs(Bar, k % 256, Filled(k))) == Regs(Foo, (k + 1) % 256, Filled(k + 1))
  {
    CounterWraps(k);
    var c := k % 256;
    if c < ArraySize {
      FilledSet(k, c);
    } else {
      FilledFull(k);
    }
  }

  /** The 8-bit `counter` after `k % 256` counts one more cycle modulo 256. */
  lemma CounterWraps(k: nat)
    ensures Truncate(k % 256 + 1, CounterWidth) == (k + 1) % 256
  {
    Pow2Values();
  }

  lemma FilledSet(k: nat, c: nat)
    requires c < ArraySize && c == k % 256
    ensures Filled(k)[c := 1] == Filled(k + 1)
  {
    assert k < ArraySize ==> c == k;
  }

  lemma FilledFull(k: nat)
    requires k % 256 >= ArraySize
    ensures Filled(k) == Filled(k + 1)
  {
  }

  /** From the fourteenth cycle on, every entry of `x` holds 1. */
  lemma AllEntriesSet(n: nat)
    requires n >= 2 * ArraySize
    ensures Iterate(Reset, n).x == seq(ArraySize, _ => 1)
  {
    RunFromReset(n);
    assert Filled(n / 2) == seq(ArraySize, _ => 1);
  }
}
