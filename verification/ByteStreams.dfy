/** SocketInterComm's send and recv over one direction of a stream socket (intercomm.cpp), with the
    two ends running concurrently. The kernel moves any positive number of bytes at a time and holds
    at most `capacity` of them. */
module ByteStreams {
  import opened SimStates

  /** One end sends `msgs` one after the other; the other receives pieces of the given sizes. */
  datatype Config = Config(msgs: seq<seq<byte>>, sizes: seq<nat>, capacity: nat)

  /** The sender has nsent bytes of message i behind it; the receiver has `buf` of the piece after
      those in `out`. */
  datatype State = State(i: nat, nsent: nat, wire: seq<byte>, buf: seq<byte>, out: seq<seq<byte>>)

  const INIT := State(0, 0, [], [], [])

  function Flat(msgs: seq<seq<byte>>): seq<byte> {
    if msgs == [] then [] else msgs[0] + Flat(msgs[1..])
  }

  /** A call of ::send that took k bytes, or of ::recv that gave k, and the returns of the two loops. */
  datatype Step = SendSome(k: nat) | SendReturns | RecvSome(k: nat) | RecvReturns

  predicate Enabled(cfg: Config, g: State, a: Step) {
    match a
    case SendSome(k) => && g.i < |cfg.msgs| && g.nsent <= |cfg.msgs[g.i]|
                        && 1 <= k <= |cfg.msgs[g.i]| - g.nsent && |g.wire| + k <= cfg.capacity
    case SendReturns => g.i < |cfg.msgs| && g.nsent == |cfg.msgs[g.i]|
    case RecvSome(k) => |g.out| < |cfg.sizes| && 1 <= k <= cfg.sizes[|g.out|] - |g.buf| && k <= |g.wire|
    case RecvReturns => |g.out| < |cfg.sizes| && |g.buf| == cfg.sizes[|g.out|]
  }

  function Apply(cfg: Config, g: State, a: Step): State requires Enabled(cfg, g, a) {
    match a
    case SendSome(k) => g.(nsent := g.nsent + k, wire := g.wire + cfg.msgs[g.i][g.nsent..g.nsent + k])
    case SendReturns => g.(i := g.i + 1, nsent := 0)
    case RecvSome(k) => g.(buf := g.buf + g.wire[..k], wire := g.wire[k..])
    case RecvReturns => g.(out := g.out + [g.buf], buf := [])
  }

  ghost predicate IsRun(cfg: Config, gs: seq<State>, steps: seq<Step>) {
    && |gs| == |steps| + 1 && gs[0] == INIT
    && forall n :: 0 <= n < |steps| ==> Enabled(cfg, gs[n], steps[n]) && gs[n+1] == Apply(cfg, gs[n], steps[n])
  }

  // ----- Nothing is lost, added or reordered --------------------------------------------------------

  lemma {:induction false} FlatSnoc(msgs: seq<seq<byte>>, m: seq<byte>)
    ensures Flat(msgs + [m]) == Flat(msgs) + m
  {
    if msgs == [] {
      assert [m][1..] == [];
    } else {
      assert (msgs + [m])[1..] == msgs[1..] + [m];
      FlatSnoc(msgs[1..], m);
    }
  }

  lemma {:induction false} FlatSplit(msgs: seq<seq<byte>>, i: nat)
    requires i <= |msgs|
    ensures Flat(msgs) == Flat(msgs[..i]) + Flat(msgs[i..])
  {
    if i > 0 {
      FlatSplit(msgs[1..], i - 1);
      assert msgs[1..][..i-1] == msgs[..i][1..] && msgs[1..][i-1..] == msgs[i..];
    }
  }

  function Sent(cfg: Config, g: State): seq<byte>
    requires g.i <= |cfg.msgs| && (g.i < |cfg.msgs| ==> g.nsent <= |cfg.msgs[g.i]|)
  {
    Flat(cfg.msgs[..g.i]) + if g.i < |cfg.msgs| then cfg.msgs[g.i][..g.nsent] else []
  }

  function Got(g: State): seq<byte> { Flat(g.out) + g.buf }

  /** What was sent is what was received, and then what is on the wire; no loop overruns its buffer. */
  ghost predicate Inv(cfg: Config, g: State) {
    && g.i <= |cfg.msgs| && (if g.i < |cfg.msgs| then g.nsent <= |cfg.msgs[g.i]| else g.nsent == 0)
    && Sent(cfg, g) == Got(g) + g.wire
    && |g.out| <= |cfg.sizes| && (forall j :: 0 <= j < |g.out| ==> |g.out[j]| == cfg.sizes[j])
    && |g.buf| <= (if |g.out| < |cfg.sizes| then cfg.sizes[|g.out|] else 0)
    && |g.wire| <= cfg.capacity
  }

  lemma SenderSteps(cfg: Config, g: State, a: Step)
    requires g.i <= |cfg.msgs| && (if g.i < |cfg.msgs| then g.nsent <= |cfg.msgs[g.i]| else g.nsent == 0) && Enabled(cfg, g, a)
    requires a.SendSome? || a.SendReturns?
    ensures var g' := Apply(cfg, g, a);
            && g'.i <= |cfg.msgs| && (if g'.i < |cfg.msgs| then g'.nsent <= |cfg.msgs[g'.i]| else g'.nsent == 0)
            && g'.wire[|g.wire|..] == (if a.SendSome? then cfg.msgs[g.i][g.nsent..g.nsent + a.k] else [])
            && Sent(cfg, g') == Sent(cfg, g) + (if a.SendSome? then cfg.msgs[g.i][g.nsent..g.nsent + a.k] else [])
  {
    var g' := Apply(cfg, g, a);
    var m := cfg.msgs[g.i];
    if a.SendSome? {
      assert m[..g.nsent] + m[g.nsent..g.nsent + a.k] == m[..g.nsent + a.k];
    } else {
      FlatSnoc(cfg.msgs[..g.i], m);
      assert cfg.msgs[..g.i] + [m] == cfg.msgs[..g.i + 1] && m[..g.nsent] == m;
    }
  }

  lemma Regroup(a: seq<byte>, b: seq<byte>, c: seq<byte>)
    ensures (a + b) + c == a + (b + c)
  {
  }

  lemma KeepStep(cfg: Config, g: State, a: Step)
    requires Inv(cfg, g) && Enabled(cfg, g, a)
    ensures Inv(cfg, Apply(cfg, g, a))
  {
    hide Flat;
    var g' := Apply(cfg, g, a);
    match a {
      case SendSome(k) =>
        SenderSteps(cfg, g, a);
        hide Sent;
        Regroup(Got(g), g.wire, cfg.msgs[g.i][g.nsent..g.nsent + k]);
      case SendReturns =>
        SenderSteps(cfg, g, a);
        hide Sent;
      case RecvSome(k) =>
        hide Sent;
        assert g.wire == g.wire[..k] + g.wire[k..];
        Regroup(Flat(g.out), g.buf, g.wire[..k]);
        Regroup(Got(g), g.wire[..k], g.wire[k..]);
        assert Sent(cfg, g') == Sent(cfg, g) by { SameSender(cfg, g, g'); }
      case RecvReturns =>
        FlatSnoc(g.out, g.buf);
        hide Sent;
        assert Sent(cfg, g') == Sent(cfg, g) by { SameSender(cfg, g, g'); }
    }
  }

  lemma SameSender(cfg: Config, g: State, g': State)
    requires g.i <= |cfg.msgs| && (g.i < |cfg.msgs| ==> g.nsent <= |cfg.msgs[g.i]|) && g'.i == g.i && g'.nsent == g.nsent
    ensures Sent(cfg, g') == Sent(cfg, g)
  {
  }

  lemma {:induction false} RunInv(cfg: Config, gs: seq<State>, steps: seq<Step>, n: nat)
    requires IsRun(cfg, gs, steps) && n <= |steps|
    ensures Inv(cfg, gs[n])
  {
    if n > 0 {
      hide Inv, Enabled, Apply;
      RunInv(cfg, gs, steps, n - 1);
      KeepStep(cfg, gs[n-1], steps[n-1]);
    }
  }

  /** Bytes in the first j pieces. */
  function Offset(sizes: seq<nat>, j: nat): nat requires j <= |sizes| {
    if j == 0 then 0 else Offset(sizes, j - 1) + sizes[j-1]
  }

  lemma {:induction false} PieceAt(out: seq<seq<byte>>, sizes: seq<nat>, j: nat)
    requires |out| <= |sizes| && (forall k :: 0 <= k < |out| ==> |out[k]| == sizes[k]) && j < |out|
    ensures Offset(sizes, j) + sizes[j] <= |Flat(out)| == Offset(sizes, |out|)
    ensures Flat(out)[Offset(sizes, j)..Offset(sizes, j) + sizes[j]] == out[j]
    decreases |out|
  {
    var front := out[..|out|-1];
    assert front + [out[|out|-1]] == out;
    FlatSnoc(front, out[|out|-1]);
    if |front| > 0 { PieceAt(front, sizes, if j < |front| then j else 0); }
  }

  /** Each completed recv holds the next bytes sent, wherever the sender's messages begin and end and
      however the transfers were cut up. */
  lemma RecvGivesNextBytes(cfg: Config, gs: seq<State>, steps: seq<Step>, j: nat)
    requires IsRun(cfg, gs, steps) && j < |gs[|steps|].out|
    ensures j < |cfg.sizes| && Offset(cfg.sizes, j) + cfg.sizes[j] <= |Flat(cfg.msgs)|
    ensures gs[|steps|].out[j] == Flat(cfg.msgs)[Offset(cfg.sizes, j)..Offset(cfg.sizes, j) + cfg.sizes[j]]
  {
    var g := gs[|steps|];
    RunInv(cfg, gs, steps, |steps|);
    PieceAt(g.out, cfg.sizes, j);
    SentIsPrefix(cfg, g);
    assert Flat(g.out) <= Sent(cfg, g);
  }

  lemma SentIsPrefix(cfg: Config, g: State)
    requires g.i <= |cfg.msgs| && (g.i < |cfg.msgs| ==> g.nsent <= |cfg.msgs[g.i]|)
    ensures Sent(cfg, g) <= Flat(cfg.msgs)
  {
    FlatSplit(cfg.msgs, g.i);
    if g.i < |cfg.msgs| {
      var m := cfg.msgs[g.i];
      assert Flat(cfg.msgs[g.i..]) == m + Flat(cfg.msgs[g.i..][1..]);
      assert m[..g.nsent] <= m;
    }
  }

  // ----- Both loops end ----------------------------------------------------------------------------------

  predicate Done(cfg: Config, g: State) { g.i == |cfg.msgs| && |g.out| == |cfg.sizes| }

  /** When the receiver asks for exactly what is sent, one of the two can always go on. */
  lemma NeverStuck(cfg: Config, gs: seq<State>, steps: seq<Step>) returns (a: Step)
    requires IsRun(cfg, gs, steps) && cfg.capacity >= 1
    requires Offset(cfg.sizes, |cfg.sizes|) == |Flat(cfg.msgs)|
    requires !Done(cfg, gs[|steps|])
    ensures Enabled(cfg, gs[|steps|], a)
  {
    var g := gs[|steps|];
    RunInv(cfg, gs, steps, |steps|);
    if |g.out| < |cfg.sizes| && |g.buf| == cfg.sizes[|g.out|] {
      a := RecvReturns;
    } else if g.i < |cfg.msgs| && g.nsent == |cfg.msgs[g.i]| {
      a := SendReturns;
    } else if |g.out| < |cfg.sizes| && g.wire != [] {
      a := RecvSome(1);
    } else {
      Balance(cfg, g);
      a := SendSome(1);
    }
  }

  lemma Balance(cfg: Config, g: State)
    requires Inv(cfg, g) && Offset(cfg.sizes, |cfg.sizes|) == |Flat(cfg.msgs)|
    ensures |g.out| < |cfg.sizes| && |g.buf| < cfg.sizes[|g.out|] && g.wire == [] ==> g.i < |cfg.msgs|
    ensures |g.out| == |cfg.sizes| && g.i < |cfg.msgs| ==> g.nsent == |cfg.msgs[g.i]|
  {
    FlatLength(g.out, cfg.sizes);
    OffsetGrows(cfg.sizes, |g.out|, |cfg.sizes|);
    if g.i == |cfg.msgs| { assert cfg.msgs[..g.i] == cfg.msgs; }
    FlatSplit(cfg.msgs, g.i);
  }

  lemma FlatLength(out: seq<seq<byte>>, sizes: seq<nat>)
    requires |out| <= |sizes| && forall k :: 0 <= k < |out| ==> |out[k]| == sizes[k]
    ensures |Flat(out)| == Offset(sizes, |out|)
  {
    if out != [] { PieceAt(out, sizes, 0); }
  }

  lemma {:induction false} OffsetGrows(sizes: seq<nat>, i: nat, j: nat)
    requires i <= j <= |sizes|
    ensures Offset(sizes, i) <= Offset(sizes, j)
    ensures i < j ==> Offset(sizes, i) + sizes[i] <= Offset(sizes, j)
    decreases j
  {
    if i < j { OffsetGrows(sizes, i, j - 1); }
  }

  /** Bytes and calls still to come, on both sides. */
  function Left(cfg: Config, g: State): int {
    (|Flat(cfg.msgs)| - |Flat(cfg.msgs[..if g.i <= |cfg.msgs| then g.i else 0])| - g.nsent) + (|cfg.msgs| - g.i)
    + (Offset(cfg.sizes, |cfg.sizes|) - |Got(g)|) + (|cfg.sizes| - |g.out|)
  }

  /** No run is longer than the bytes and calls there are: both loops terminate. */
  lemma {:induction false} RunsEnd(cfg: Config, gs: seq<State>, steps: seq<Step>, n: nat)
    requires IsRun(cfg, gs, steps) && n <= |steps|
    ensures n <= |Flat(cfg.msgs)| + |cfg.msgs| + Offset(cfg.sizes, |cfg.sizes|) + |cfg.sizes|
    ensures 0 <= Left(cfg, gs[n]) <= Left(cfg, INIT) - n
  {
    hide Inv;
    RunInv(cfg, gs, steps, n);
    LeftIsNat(cfg, gs[n]);
    if n > 0 {
      RunsEnd(cfg, gs, steps, n - 1);
      RunInv(cfg, gs, steps, n - 1);
      LeftFalls(cfg, gs[n-1], steps[n-1]);
    }
    assert cfg.msgs[..0] == [];
  }

  lemma LeftIsNat(cfg: Config, g: State)
    requires Inv(cfg, g)
    ensures Left(cfg, g) >= 0
  {
    SentIsPrefix(cfg, g);
    FlatLength(g.out, cfg.sizes);
    OffsetGrows(cfg.sizes, |g.out|, |cfg.sizes|);
  }

  lemma LeftFalls(cfg: Config, g: State, a: Step)
    requires Inv(cfg, g) && Enabled(cfg, g, a)
    ensures Left(cfg, Apply(cfg, g, a)) < Left(cfg, g)
  {
    if a.SendReturns? {
      FlatSnoc(cfg.msgs[..g.i], cfg.msgs[g.i]);
      assert cfg.msgs[..g.i] + [cfg.msgs[g.i]] == cfg.msgs[..g.i + 1];
    }
    if a.RecvReturns? { FlatSnoc(g.out, g.buf); }
  }
}
