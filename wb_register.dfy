/**
 * `WBRegister`: a one-word register on a Wishbone bus, answering every
 * classic single read or write in the cycle it is requested (no wait
 * states). Combinationally, `ack` follows `cyc & stb`, a write routes `dat_w`
 * into the register's next value `d`, and a read presents the register `q`
 * on `dat_r`; at the clock edge `q` takes `d`, which otherwise defaults to
 * `q` itself.
 */
module WishboneRegister {
  import opened Hdl

  /** The bus signals the register samples in one cycle. */
  datatype Request = Request(cyc: bool, stb: bool, we: bool, adr: nat, datW: nat)

  /** The register's combinational signals in one cycle: its next value `d`,
      its address output `a`, and the bus outputs `ack` and `dat_r`. */
  datatype Response = Response(d: nat, a: nat, ack: bool, datR: nat)

  /** `wb_valid`: a transfer is requested this cycle. */
  predicate Active(req: Request)
  {
    req.cyc && req.stb
  }

  predicate IsWrite(req: Request)
  {
    Active(req) && req.we
  }

  predicate IsRead(req: Request)
  {
    Active(req) && !req.we
  }

  /** The address width a register gets when none is given. */
  const DefaultAddrWidth: nat := 1

  /** The combinational block of a register whose bus and address output `a`
      are `addrWidth` bits wide. Signals that no branch assigns keep their
      default: `d` defaults to `q`, the others to 0. */
  function Comb(q: nat, req: Request, addrWidth: nat): (out: Response)
    ensures out.ack <==> Active(req)
    ensures IsWrite(req) ==> out.d == req.datW
    ensures !IsWrite(req) ==> out.d == q
    ensures IsRead(req) ==> out.datR == q
    ensures !IsRead(req) ==> out.datR == 0
    ensures Active(req) ==> out.a == req.adr % Pow2(addrWidth)
    ensures !Active(req) ==> out.a == 0
  {
    var a := Truncate(req.adr, addrWidth);
    if Active(req) then
      if req.we then Response(req.datW, a, true, 0)
      else Response(q, a, true, q)
    else Response(q, 0, false, 0)
  }

  class WBRegister {
    const width: nat
    const addrWidth: nat
    var q: nat

    ghost predicate Valid()
      reads this
    {
      q < Pow2(width)
    }

    constructor (width: nat, addrWidth: nat)
      ensures Valid() && this.width == width && this.addrWidth == addrWidth && q == 0
    {
      this.width := width;
      this.addrWidth := addrWidth;
      q := 0;
    }

    /** One clock cycle: the combinational outputs are computed from the
        current `q`, then `q <= d`. The bus's `dat_w` is `width` bits wide. */
    method Step(req: Request) returns (out: Response)
      requires Valid() && req.datW < Pow2(width)
      modifies this
      ensures Valid()
      ensures out == Comb(old(q), req, addrWidth)
      ensures q == out.d
    {
      out := Comb(q, req, addrWidth);
      q := out.d;
    }
  }

  /** The register's value after the cycles of `trace`, one request each, on a
      bus with `aw` address bits. */
  function Final(q: nat, trace: seq<Request>, aw: nat): nat
    decreases trace
  {
    if trace == [] then q else Final(Comb(q, trace[0], aw).d, trace[1..], aw)
  }

  /** Reference definition: the data of the last write in `trace`, or `q`
      when `trace` holds no write. */
  function LastWritten(q: nat, trace: seq<Request>): nat
  {
    if trace == [] then q
    else
      var last := trace[|trace| - 1];
      if IsWrite(last) then last.datW else LastWritten(q, trace[..|trace| - 1])
  }

  lemma {:induction false} LastWrittenAfterFirst(q: nat, first: Request, rest: seq<Request>, aw: nat)
    ensures LastWritten(q, [first] + rest) == LastWritten(Comb(q, first, aw).d, rest)
    decreases |rest|
  {
    if rest == [] {
      assert [first] + rest == [first];
      assert [first][..0] == [];
    } else {
      var all := [first] + rest;
      assert all[|all| - 1] == rest[|rest| - 1];
      assert all[..|all| - 1] == [first] + rest[..|rest| - 1];
      LastWrittenAfterFirst(q, first, rest[..|rest| - 1], aw);
    }
  }

  /** After any sequence of cycles the register holds the data of the last
      write, or its old value when there was none. */
  lemma {:induction false} FinalIsLastWritten(q: nat, trace: seq<Request>, aw: nat)
    ensures Final(q, trace, aw) == LastWritten(q, trace)
    decreases |trace|
  {
    if trace != [] {
      FinalIsLastWritten(Comb(q, trace[0], aw).d, trace[1..], aw);
      assert trace == [trace[0]] + trace[1..];
      LastWrittenAfterFirst(q, trace[0], trace[1..], aw);
    }
  }

  /** A read after any sequence of cycles is acknowledged in its own cycle and
      returns the data of the last write of that sequence. */
  lemma ReadReturnsLastWrite(q: nat, trace: seq<Request>, read: Request, aw: nat)
    requires IsRead(read)
    ensures Comb(Final(q, trace, aw), read, aw).ack
    ensures Comb(Final(q, trace, aw), read, aw).datR == LastWritten(q, trace)
  {
    FinalIsLastWritten(q, trace, aw);
  }

  /** Write-then-read round trip: a write of `v`, then any cycles that write
      nothing, then a read, and the read returns `v`. */
  lemma WriteThenRead(q: nat, write: Request, quiet: seq<Request>, read: Request, aw: nat)
    requires IsWrite(write)
    requires forall i :: 0 <= i < |quiet| ==> !IsWrite(quiet[i])
    requires IsRead(read)
    ensures Comb(Final(q, [write] + quiet, aw), read, aw).datR == write.datW
  {
    ReadReturnsLastWrite(q, [write] + quiet, read, aw);
    QuietKeepsLastWrite(q, write, quiet);
  }

  lemma {:induction false} QuietKeepsLastWrite(q: nat, write: Request, quiet: seq<Request>)
    requires IsWrite(write)
    requires forall i :: 0 <= i < |quiet| ==> !IsWrite(quiet[i])
    ensures LastWritten(q, [write] + quiet) == write.datW
    decreases |quiet|
  {
    var all := [write] + quiet;
    if quiet == [] {
      assert all == [write];
    } else {
      assert all[|all| - 1] == quiet[|quiet| - 1];
      assert all[..|all| - 1] == [write] + quiet[..|quiet| - 1];
      QuietKeepsLastWrite(q, write, quiet[..|quiet| - 1]);
    }
  }
}
