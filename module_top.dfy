/**
  Model of the generator of the emulator's top-level module `top.sv`
  (anasymod/structures/module_top.py).

  The generator reads a structure configuration and produces a set of text
  fragments that a template stitches together.  Here every fragment is an
  abstract record: a derived-clock assignment is a `Line`, a control or probe
  binding through an absolute path is a `Binding`, an instantiated module's
  ports are lists of signals, and the template's optional blocks are `Section`s.
*/
module ModuleTop {
  import opened Wrappers

  /** An absolute hierarchical path into the design under test. */
  type Path = string

  /** A signal of the structure configuration: its name, bit width and optional absolute path. */
  datatype Signal = Signal(name: string, width: nat, absPath: Option<Path>)

  /** A clock derived from the emulator clock, with its optional attachment points. */
  datatype ClkDerived = ClkDerived(
    name: string,
    emuDt: Option<Path>,
    emuClk: Option<Path>,
    emuRst: Option<Path>,
    dtReq: Option<Path>,
    gatedClk: Option<Path>,
    gatedClkReq: Option<Path>)

  /** The structure configuration of one target, read-only for the generator. */
  datatype StructureConfig = StructureConfig(
    clkI: seq<Signal>,
    dbgClk: Signal,
    emuClk2x: Signal,
    emuClk: Signal,
    clkIndependent: seq<Signal>,
    clkDerived: seq<ClkDerived>,
    analogCtrlInputs: seq<Signal>,
    analogCtrlOutputs: seq<Signal>,
    digitalCtrlInputs: seq<Signal>,
    digitalCtrlOutputs: seq<Signal>,
    decThrCtrl: Signal,
    resetCtrl: Signal,
    digitalProbes: seq<Signal>,
    analogProbes: seq<Signal>,
    timeProbe: Signal)

  /** One line of the derived-clock assignment block. */
  datatype Line =
    | Comment(clkName: string)               // `// derived clock: <name>`
    | ForwardEmuDt(dst: Path)                // `assign <path> = emu_dt;`
    | ForwardEmuClk(dst: Path)               // `assign <path> = emu_clk;`
    | ForwardEmuRst(dst: Path)               // `assign <path> = emu_rst;`
    | DtReq(index: nat, src: Path)           // `assign dt_req[<k>] = <path>;`
    | ClkVal(index: nat, req: Option<Path>)  // `assign clk_vals[<k>] = <gated clock request>;`
    | GatedClk(dst: Path, index: nat)        // `assign <path> = clks[<k>];`

  /*** Derived clocks ***/

  function Present(o: Option<Path>): nat {
    if o.Some? then 1 else 0
  }

  /** The position of a kind of line within one derived clock's block. */
  function Rank(l: Line): nat {
    match l
    case Comment(_) => 0
    case ForwardEmuDt(_) => 1
    case ForwardEmuClk(_) => 2
    case ForwardEmuRst(_) => 3
    case DtReq(_, _) => 4
    case ClkVal(_, _) => 5
    case GatedClk(_, _) => 6
  }

  /** Line `l` is justified by clock `c` when the clock's k-th dt request and gated clock get indices dtIdx and gIdx. */
  predicate Belongs(l: Line, c: ClkDerived, dtIdx: nat, gIdx: nat) {
    match l
    case Comment(n) => n == c.name
    case ForwardEmuDt(p) => c.emuDt == Some(p)
    case ForwardEmuClk(p) => c.emuClk == Some(p)
    case ForwardEmuRst(p) => c.emuRst == Some(p)
    case DtReq(k, p) => k == dtIdx && c.dtReq == Some(p)
    case ClkVal(k, q) => k == gIdx && c.gatedClk.Some? && q == c.gatedClkReq
    case GatedClk(p, k) => k == gIdx && c.gatedClk == Some(p)
  }

  function EmuDtLines(c: ClkDerived): seq<Line> {
    if c.emuDt.Some? then [ForwardEmuDt(c.emuDt.value)] else []
  }

  function EmuClkLines(c: ClkDerived): seq<Line> {
    if c.emuClk.Some? then [ForwardEmuClk(c.emuClk.value)] else []
  }

  function EmuRstLines(c: ClkDerived): seq<Line> {
    if c.emuRst.Some? then [ForwardEmuRst(c.emuRst.value)] else []
  }

  function DtReqLines(c: ClkDerived, dtIdx: nat): seq<Line> {
    if c.dtReq.Some? then [DtReq(dtIdx, c.dtReq.value)] else []
  }

  /** Only the gated clock output is tested; its request path is used whether present or not. */
  function GatedLines(c: ClkDerived, gIdx: nat): seq<Line> {
    if c.gatedClk.Some? then [ClkVal(gIdx, c.gatedClkReq), GatedClk(c.gatedClk.value, gIdx)] else []
  }

  /**
    The lines written for one derived clock: the comment first, then one line per
    present attachment in a fixed order, and nothing for an absent one.
  */
  function ClkBlock(c: ClkDerived, dtIdx: nat, gIdx: nat): (r: seq<Line>)
    ensures 1 <= |r| <= 7 && r[0] == Comment(c.name)
  {
    [Comment(c.name)] + EmuDtLines(c) + EmuClkLines(c) + EmuRstLines(c)
      + DtReqLines(c, dtIdx) + GatedLines(c, gIdx)
  }

  /** Lines whose ranks strictly increase along the sequence. */
  ghost predicate Increasing(s: seq<Line>) {
    forall i, j :: 0 <= i < j < |s| ==> Rank(s[i]) < Rank(s[j])
  }

  /** Two increasing runs, the first wholly below `bound` and the second wholly above it, make an increasing run. */
  lemma IncreasingAppend(a: seq<Line>, b: seq<Line>, bound: nat)
    requires Increasing(a) && Increasing(b)
    requires forall x :: x in a ==> Rank(x) < bound
    requires forall y :: y in b ==> bound <= Rank(y)
    ensures Increasing(a + b)
  {
    forall i, j | 0 <= i < j < |a + b|
      ensures Rank((a + b)[i]) < Rank((a + b)[j])
    {
      if j < |a| {
        assert (a + b)[i] == a[i] && (a + b)[j] == a[j];
      } else if |a| <= i {
        assert (a + b)[i] == b[i - |a|] && (a + b)[j] == b[j - |a|];
      } else {
        assert (a + b)[i] == a[i] && a[i] in a;
        assert (a + b)[j] == b[j - |a|] && b[j - |a|] in b;
      }
    }
  }

  /**
    A clock's block starts with its comment, holds one line per present
    attachment (two for a gated clock), each justified by the clock, in the fixed
    order comment, emu_dt, emu_clk, emu_rst, dt_req, clk_vals, clks.
  */
  lemma ClkBlockShape(c: ClkDerived, dtIdx: nat, gIdx: nat)
    ensures var r := ClkBlock(c, dtIdx, gIdx);
      && |r| == 1 + Present(c.emuDt) + Present(c.emuClk) + Present(c.emuRst)
                  + Present(c.dtReq) + 2 * Present(c.gatedClk)
      && r[0] == Comment(c.name)
      && Increasing(r)
      && (forall l :: l in r ==> Belongs(l, c, dtIdx, gIdx))
  {
    ClkBlockIncreasing(c, dtIdx, gIdx);
    ClkBlockBelongs(c, dtIdx, gIdx);
  }

  lemma ClkBlockIncreasing(c: ClkDerived, dtIdx: nat, gIdx: nat)
    ensures Increasing(ClkBlock(c, dtIdx, gIdx))
  {
    var p0 := [Comment(c.name)];
    var p1 := p0 + EmuDtLines(c);
    var p2 := p1 + EmuClkLines(c);
    var p3 := p2 + EmuRstLines(c);
    var p4 := p3 + DtReqLines(c, dtIdx);
    IncreasingAppend(p0, EmuDtLines(c), 1);
    IncreasingAppend(p1, EmuClkLines(c), 2);
    IncreasingAppend(p2, EmuRstLines(c), 3);
    IncreasingAppend(p3, DtReqLines(c, dtIdx), 4);
    IncreasingAppend(p4, GatedLines(c, gIdx), 5);
  }

  lemma ClkBlockBelongs(c: ClkDerived, dtIdx: nat, gIdx: nat)
    ensures forall l :: l in ClkBlock(c, dtIdx, gIdx) ==> Belongs(l, c, dtIdx, gIdx)
  {
    var p1 := [Comment(c.name)] + EmuDtLines(c);
    var p3 := p1 + EmuClkLines(c) + EmuRstLines(c);
    assert forall l :: l in p1 ==> Belongs(l, c, dtIdx, gIdx);
    assert forall l :: l in p3 ==> Belongs(l, c, dtIdx, gIdx);
  }

  /** The number of derived clocks that request a time step. */
  function NumDtReqs(clks: seq<ClkDerived>): (r: nat)
    ensures r <= |clks|
  {
    if |clks| == 0 then 0 else NumDtReqs(clks[..|clks| - 1]) + Present(clks[|clks| - 1].dtReq)
  }

  /** The number of derived clocks that have a gated clock output. */
  function NumGatedClks(clks: seq<ClkDerived>): (r: nat)
    ensures r <= |clks|
  {
    if |clks| == 0 then 0 else NumGatedClks(clks[..|clks| - 1]) + Present(clks[|clks| - 1].gatedClk)
  }

  /** The derived-clock assignment block: each clock's lines, in declaration order, numbered by the clocks before it. */
  function DerivedAssigns(clks: seq<ClkDerived>): (r: seq<Line>)
    ensures |clks| <= |r| <= 7 * |clks|
  {
    if |clks| == 0 then []
    else
      var init := clks[..|clks| - 1];
      DerivedAssigns(init) + ClkBlock(clks[|clks| - 1], NumDtReqs(init), NumGatedClks(init))
  }

  /** The dt-request paths of the clocks that have one, in declaration order. */
  function DtReqSources(clks: seq<ClkDerived>): seq<Path> {
    if |clks| == 0 then []
    else
      var c := clks[|clks| - 1];
      DtReqSources(clks[..|clks| - 1]) + (if c.dtReq.Some? then [c.dtReq.value] else [])
  }

  /** The gated clock outputs of the clocks that have one, in declaration order. */
  function GatedOutputs(clks: seq<ClkDerived>): seq<Path> {
    if |clks| == 0 then []
    else
      var c := clks[|clks| - 1];
      GatedOutputs(clks[..|clks| - 1]) + (if c.gatedClk.Some? then [c.gatedClk.value] else [])
  }

  /** The gating requests of the clocks that have a gated clock output, in declaration order. */
  function GatedRequests(clks: seq<ClkDerived>): seq<Option<Path>> {
    if |clks| == 0 then []
    else
      var c := clks[|clks| - 1];
      GatedRequests(clks[..|clks| - 1]) + (if c.gatedClk.Some? then [c.gatedClkReq] else [])
  }

  function Names(clks: seq<ClkDerived>): seq<string> {
    seq(|clks|, i requires 0 <= i < |clks| => clks[i].name)
  }

  /** Pairs each element with its position: the k-th pair is (k, s[k]). */
  function Numbered<T>(s: seq<T>): seq<(nat, T)> {
    seq(|s|, i requires 0 <= i < |s| => (i, s[i]))
  }

  function Pick<T, U>(f: T -> Option<U>, x: T): seq<U> {
    if f(x).Some? then [f(x).value] else []
  }

  /** The values `f` picks from `s`, in order. */
  function Collect<T, U>(s: seq<T>, f: T -> Option<U>): seq<U> {
    if |s| == 0 then [] else Pick(f, s[0]) + Collect(s[1..], f)
  }

  function CommentOf(l: Line): Option<string> {
    if l.Comment? then Some(l.clkName) else None
  }

  function DtReqOf(l: Line): Option<(nat, Path)> {
    if l.DtReq? then Some((l.index, l.src)) else None
  }

  function ClkValOf(l: Line): Option<(nat, Option<Path>)> {
    if l.ClkVal? then Some((l.index, l.req)) else None
  }

  function GatedClkOf(l: Line): Option<(nat, Path)> {
    if l.GatedClk? then Some((l.index, l.dst)) else None
  }

  /** Every `clk_vals[k]` line is followed at once by the `clks[k]` line with the same k. */
  ghost predicate Paired(s: seq<Line>) {
    forall i :: 0 <= i < |s| && s[i].ClkVal? ==>
      i + 1 < |s| && s[i + 1].GatedClk? && s[i + 1].index == s[i].index
  }

  lemma {:induction false} CollectAppend<T, U>(a: seq<T>, b: seq<T>, f: T -> Option<U>)
    ensures Collect(a + b, f) == Collect(a, f) + Collect(b, f)
  {
    if |a| == 0 {
      assert a + b == b;
    } else {
      assert (a + b)[1..] == a[1..] + b;
      CollectAppend(a[1..], b, f);
      assert Collect(a + b, f) == Pick(f, a[0]) + Collect(a[1..] + b, f);
    }
  }

  lemma CollectSmall<T, U>(s: seq<T>, f: T -> Option<U>)
    requires |s| <= 2
    ensures Collect(s, f) == (if |s| == 0 then [] else Pick(f, s[0])) + (if |s| == 2 then Pick(f, s[1]) else [])
  {
    if |s| > 0 {
      assert Collect(s, f) == Pick(f, s[0]) + Collect(s[1..], f);
      if |s| == 2 {
        assert Collect(s[1..], f) == Pick(f, s[1]) + Collect(s[2..], f);
      } else {
        assert s[1..] == [];
      }
    }
  }

  lemma NumberedSnoc<T>(s: seq<T>, x: T)
    ensures Numbered(s + [x]) == Numbered(s) + [(|s|, x)]
  {
    assert forall i :: 0 <= i < |s| ==> Numbered(s + [x])[i] == Numbered(s)[i];
  }

  /** Collecting over one clock's block is collecting over each of its parts. */
  lemma BlockCollect<U>(c: ClkDerived, dtIdx: nat, gIdx: nat, f: Line -> Option<U>)
    ensures Collect(ClkBlock(c, dtIdx, gIdx), f)
         == Collect([Comment(c.name)], f) + Collect(EmuDtLines(c), f) + Collect(EmuClkLines(c), f)
          + Collect(EmuRstLines(c), f) + Collect(DtReqLines(c, dtIdx), f) + Collect(GatedLines(c, gIdx), f)
  {
    var p0 := [Comment(c.name)];
    var p1 := p0 + EmuDtLines(c);
    var p2 := p1 + EmuClkLines(c);
    var p3 := p2 + EmuRstLines(c);
    var p4 := p3 + DtReqLines(c, dtIdx);
    CollectAppend(p0, EmuDtLines(c), f);
    CollectAppend(p1, EmuClkLines(c), f);
    CollectAppend(p2, EmuRstLines(c), f);
    CollectAppend(p3, DtReqLines(c, dtIdx), f);
    CollectAppend(p4, GatedLines(c, gIdx), f);
  }

  lemma BlockDtReqs(c: ClkDerived, dtIdx: nat, gIdx: nat)
    ensures Collect(ClkBlock(c, dtIdx, gIdx), DtReqOf) == if c.dtReq.Some? then [(dtIdx, c.dtReq.value)] else []
  {
    BlockCollect(c, dtIdx, gIdx, DtReqOf);
    CollectSmall(GatedLines(c, gIdx), DtReqOf);
  }

  lemma BlockClkVals(c: ClkDerived, dtIdx: nat, gIdx: nat)
    ensures Collect(ClkBlock(c, dtIdx, gIdx), ClkValOf) == if c.gatedClk.Some? then [(gIdx, c.gatedClkReq)] else []
  {
    BlockCollect(c, dtIdx, gIdx, ClkValOf);
    CollectSmall(GatedLines(c, gIdx), ClkValOf);
  }

  lemma BlockGatedClks(c: ClkDerived, dtIdx: nat, gIdx: nat)
    ensures Collect(ClkBlock(c, dtIdx, gIdx), GatedClkOf) == if c.gatedClk.Some? then [(gIdx, c.gatedClk.value)] else []
  {
    BlockCollect(c, dtIdx, gIdx, GatedClkOf);
    CollectSmall(GatedLines(c, gIdx), GatedClkOf);
  }

  lemma BlockComments(c: ClkDerived, dtIdx: nat, gIdx: nat)
    ensures Collect(ClkBlock(c, dtIdx, gIdx), CommentOf) == [c.name]
  {
    BlockCollect(c, dtIdx, gIdx, CommentOf);
    CollectSmall(GatedLines(c, gIdx), CommentOf);
  }

  /** Collecting over the derived-clock block is collecting over the earlier clocks' lines, then the last clock's block. */
  lemma AssignsSnoc<U>(clks: seq<ClkDerived>, f: Line -> Option<U>)
    requires |clks| > 0
    ensures var init := clks[..|clks| - 1];
      Collect(DerivedAssigns(clks), f)
      == Collect(DerivedAssigns(init), f) + Collect(ClkBlock(clks[|clks| - 1], NumDtReqs(init), NumGatedClks(init)), f)
  {
    var init := clks[..|clks| - 1];
    CollectAppend(DerivedAssigns(init), ClkBlock(clks[|clks| - 1], NumDtReqs(init), NumGatedClks(init)), f);
  }

  /**
    The dt_req lines are numbered 0, 1, ... in declaration order of the clocks,
    the k-th reading the k-th requesting clock's path, and there are NumDtReqs of them.
  */
  lemma {:induction false} DtReqNumbering(clks: seq<ClkDerived>)
    ensures Collect(DerivedAssigns(clks), DtReqOf) == Numbered(DtReqSources(clks))
    ensures |DtReqSources(clks)| == NumDtReqs(clks)
  {
    if |clks| > 0 {
      var init, c := clks[..|clks| - 1], clks[|clks| - 1];
      DtReqNumbering(init);
      AssignsSnoc(clks, DtReqOf);
      BlockDtReqs(c, NumDtReqs(init), NumGatedClks(init));
      if c.dtReq.Some? {
        NumberedSnoc(DtReqSources(init), c.dtReq.value);
      }
    }
  }

  /**
    The clk_vals and clks lines are each numbered 0, 1, ... in declaration order
    of the clocks with a gated output, and there are NumGatedClks of each.
  */
  lemma GatedNumbering(clks: seq<ClkDerived>)
    ensures Collect(DerivedAssigns(clks), ClkValOf) == Numbered(GatedRequests(clks))
    ensures Collect(DerivedAssigns(clks), GatedClkOf) == Numbered(GatedOutputs(clks))
    ensures |GatedRequests(clks)| == |GatedOutputs(clks)| == NumGatedClks(clks)
  {
    ClkValNumbering(clks);
    GatedClkNumbering(clks);
  }

  lemma {:induction false} ClkValNumbering(clks: seq<ClkDerived>)
    ensures Collect(DerivedAssigns(clks), ClkValOf) == Numbered(GatedRequests(clks))
    ensures |GatedRequests(clks)| == NumGatedClks(clks)
  {
    if |clks| > 0 {
      var init, c := clks[..|clks| - 1], clks[|clks| - 1];
      ClkValNumbering(init);
      AssignsSnoc(clks, ClkValOf);
      BlockClkVals(c, NumDtReqs(init), NumGatedClks(init));
      if c.gatedClk.Some? {
        NumberedSnoc(GatedRequests(init), c.gatedClkReq);
      }
    }
  }

  lemma {:induction false} GatedClkNumbering(clks: seq<ClkDerived>)
    ensures Collect(DerivedAssigns(clks), GatedClkOf) == Numbered(GatedOutputs(clks))
    ensures |GatedOutputs(clks)| == NumGatedClks(clks)
  {
    if |clks| > 0 {
      var init, c := clks[..|clks| - 1], clks[|clks| - 1];
      GatedClkNumbering(init);
      AssignsSnoc(clks, GatedClkOf);
      BlockGatedClks(c, NumDtReqs(init), NumGatedClks(init));
      if c.gatedClk.Some? {
        NumberedSnoc(GatedOutputs(init), c.gatedClk.value);
      }
    }
  }

  /** Each derived clock gets exactly one comment line, in declaration order. */
  lemma {:induction false} OneCommentPerClock(clks: seq<ClkDerived>)
    ensures Collect(DerivedAssigns(clks), CommentOf) == Names(clks)
  {
    if |clks| > 0 {
      var init, c := clks[..|clks| - 1], clks[|clks| - 1];
      OneCommentPerClock(init);
      AssignsSnoc(clks, CommentOf);
      BlockComments(c, NumDtReqs(init), NumGatedClks(init));
      assert Names(clks) == Names(init) + [c.name];
    }
  }

  lemma PairedAppend(a: seq<Line>, b: seq<Line>)
    requires Paired(a) && Paired(b)
    ensures Paired(a + b)
  {
    forall i | 0 <= i < |a + b| && (a + b)[i].ClkVal?
      ensures i + 1 < |a + b| && (a + b)[i + 1].GatedClk? && (a + b)[i + 1].index == (a + b)[i].index
    {
      if i < |a| {
        assert a[i].ClkVal?;
      } else {
        assert b[i - |a|].ClkVal?;
      }
    }
  }

  lemma BlockPaired(c: ClkDerived, dtIdx: nat, gIdx: nat)
    ensures Paired(ClkBlock(c, dtIdx, gIdx))
  {
    var prefix := [Comment(c.name)] + EmuDtLines(c) + EmuClkLines(c) + EmuRstLines(c) + DtReqLines(c, dtIdx);
    assert forall l :: l in prefix ==> !l.ClkVal?;
    assert Paired(prefix) by {
      forall i | 0 <= i < |prefix| ensures !prefix[i].ClkVal? {
        assert prefix[i] in prefix;
      }
    }
    PairedAppend(prefix, GatedLines(c, gIdx));
    assert ClkBlock(c, dtIdx, gIdx) == prefix + GatedLines(c, gIdx);
  }

  /** The k-th `clk_vals` line and the k-th `clks` line stand side by side. */
  lemma {:induction false} GatedPairsAdjacent(clks: seq<ClkDerived>)
    ensures Paired(DerivedAssigns(clks))
  {
    if |clks| > 0 {
      var init, c := clks[..|clks| - 1], clks[|clks| - 1];
      var block := ClkBlock(c, NumDtReqs(init), NumGatedClks(init));
      assert DerivedAssigns(clks) == DerivedAssigns(init) + block;
      GatedPairsAdjacent(init);
      BlockPaired(c, NumDtReqs(init), NumGatedClks(init));
      PairedAppend(DerivedAssigns(init), block);
    }
  }

  /*** Control and probe fabric ***/

  /** One end of an `assign`: a generated signal or an absolute path into the design. */
  datatype End = SignalEnd(signal: Signal) | PathEnd(path: Option<Path>)

  /** `assign dst = src;` */
  datatype Binding = Assign(dst: End, src: End)

  /** A binding that drives the design at the signal's absolute path from the signal. */
  predicate DrivesDesign(b: Binding) {
    b.src.SignalEnd? && b.dst == PathEnd(b.src.signal.absPath)
  }

  /** A binding that reads the design at the signal's absolute path into the signal. */
  predicate ReadsDesign(b: Binding) {
    b.dst.SignalEnd? && b.src == PathEnd(b.dst.signal.absPath)
  }

  /** One binding per signal, each driving the design from that signal. */
  function DriveAll(sigs: seq<Signal>): (r: seq<Binding>)
    ensures |r| == |sigs|
    ensures forall i :: 0 <= i < |r| ==> DrivesDesign(r[i]) && r[i].src.signal == sigs[i]
  {
    seq(|sigs|, i requires 0 <= i < |sigs| => Assign(PathEnd(sigs[i].absPath), SignalEnd(sigs[i])))
  }

  /** One binding per signal, each reading the design into that signal. */
  function ReadAll(sigs: seq<Signal>): (r: seq<Binding>)
    ensures |r| == |sigs|
    ensures forall i :: 0 <= i < |r| ==> ReadsDesign(r[i]) && r[i].dst.signal == sigs[i]
  {
    seq(|sigs|, i requires 0 <= i < |sigs| => Assign(SignalEnd(sigs[i]), PathEnd(sigs[i].absPath)))
  }

  /** The master clock input that is added to the control module. */
  const EmuClkInput := Signal("emu_clk", 1, None)

  /** The control fabric: declared signals, the control module's ports and the absolute-path bindings. */
  datatype CtrlFabric = CtrlFabric(
    decls: seq<Signal>,
    instInputs: seq<Signal>,
    instOutputs: seq<Signal>,
    bindings: seq<Binding>)

  /**
    `decls` declares the analog inputs, analog outputs, digital inputs and digital
    outputs of the configuration, in that order, then dec_thr and reset.
  */
  ghost predicate DeclaredInOrder(decls: seq<Signal>, s: StructureConfig) {
    var aIn, aOut, dIn, dOut := |s.analogCtrlInputs|, |s.analogCtrlOutputs|, |s.digitalCtrlInputs|, |s.digitalCtrlOutputs|;
    && |decls| == aIn + aOut + dIn + dOut + 2
    && decls[..aIn] == s.analogCtrlInputs
    && decls[aIn..aIn + aOut] == s.analogCtrlOutputs
    && decls[aIn + aOut..aIn + aOut + dIn] == s.digitalCtrlInputs
    && decls[aIn + aOut + dIn..aIn + aOut + dIn + dOut] == s.digitalCtrlOutputs
    && decls[|decls| - 2] == s.decThrCtrl && decls[|decls| - 1] == s.resetCtrl
  }

  /**
    One binding per signal, position by position: first each of `drives` drives the
    design at its absolute path, then each of `readBacks` reads it.
  */
  ghost predicate BoundInOrder(b: seq<Binding>, drives: seq<Signal>, readBacks: seq<Signal>) {
    && |b| == |drives| + |readBacks|
    && (forall i :: 0 <= i < |drives| ==> DrivesDesign(b[i]) && b[i].src.signal == drives[i])
    && (forall i :: |drives| <= i < |b| ==> ReadsDesign(b[i]) && b[i].dst.signal == readBacks[i - |drives|])
  }

  /** The declared control signals: the four configured groups, then dec_thr and reset. */
  function CtrlDeclarations(s: StructureConfig): (r: seq<Signal>)
    ensures DeclaredInOrder(r, s)
  {
    var a, b, c, d := s.analogCtrlInputs, s.analogCtrlOutputs, s.digitalCtrlInputs, s.digitalCtrlOutputs;
    var r := a + (b + (c + (d + [s.decThrCtrl, s.resetCtrl])));
    assert r[..|a|] == a;
    assert r[|a|..] == b + (c + (d + [s.decThrCtrl, s.resetCtrl]));
    assert r[|a| + |b|..] == c + (d + [s.decThrCtrl, s.resetCtrl]);
    assert r[|a| + |b| + |c|..] == d + [s.decThrCtrl, s.resetCtrl];
    r
  }

  /** The absolute-path bindings: the inputs drive the design, then the outputs read it, digital before analog. */
  function CtrlBindings(s: StructureConfig): (r: seq<Binding>)
    ensures BoundInOrder(r, s.digitalCtrlInputs + s.analogCtrlInputs, s.digitalCtrlOutputs + s.analogCtrlOutputs)
  {
    var drives := DriveAll(s.digitalCtrlInputs + s.analogCtrlInputs);
    var readBacks := ReadAll(s.digitalCtrlOutputs + s.analogCtrlOutputs);
    assert forall i :: |drives| <= i < |drives + readBacks| ==> (drives + readBacks)[i] == readBacks[i - |drives|];
    drives + readBacks
  }

  /**
    The control fabric.  The control module reads the outputs (analog first) and the
    master clock, and drives the inputs (analog first), dec_thr and reset.  Inputs
    drive the design through their absolute path and outputs read it, digital
    before analog, one binding per signal.
  */
  function CtrlFabricOf(s: StructureConfig): (r: CtrlFabric)
    ensures DeclaredInOrder(r.decls, s)
    ensures |r.instInputs| >= 1 && r.instInputs[|r.instInputs| - 1] == EmuClkInput
    ensures r.instInputs[..|r.instInputs| - 1] == s.analogCtrlOutputs + s.digitalCtrlOutputs
    ensures r.instOutputs == s.analogCtrlInputs + s.digitalCtrlInputs + [s.decThrCtrl, s.resetCtrl]
    ensures BoundInOrder(r.bindings, s.digitalCtrlInputs + s.analogCtrlInputs, s.digitalCtrlOutputs + s.analogCtrlOutputs)
  {
    var ins := s.analogCtrlOutputs + s.digitalCtrlOutputs;
    var outs := s.analogCtrlInputs + s.digitalCtrlInputs + [s.decThrCtrl] + [s.resetCtrl];
    assert (ins + [EmuClkInput])[..|ins|] == ins;
    CtrlFabric(CtrlDeclarations(s), ins + [EmuClkInput], outs, CtrlBindings(s))
  }

  lemma CtrlSignalsConnectedOnce(s: StructureConfig)
    ensures var r := CtrlFabricOf(s);
      multiset(r.instInputs[..|r.instInputs| - 1]) + multiset(r.instOutputs) == multiset(r.decls)
  {
    var r := CtrlFabricOf(s);
    var a, b, c, d := s.analogCtrlInputs, s.analogCtrlOutputs, s.digitalCtrlInputs, s.digitalCtrlOutputs;
    var e := [s.decThrCtrl, s.resetCtrl];
    assert r.decls == a + (b + (c + (d + e)));
    assert multiset(r.decls) == multiset(a) + multiset(b) + multiset(c) + multiset(d) + multiset(e);
    assert multiset(r.instOutputs) == multiset(a) + multiset(c) + multiset(e);
    assert multiset(r.instInputs[..|r.instInputs| - 1]) == multiset(b) + multiset(d);
  }

  /** The probe fabric: probe signals, the trace port's inputs and the absolute-path bindings. */
  datatype ProbeFabric = ProbeFabric(probes: seq<Signal>, instInputs: seq<Signal>, bindings: seq<Binding>)

  /**
    Digital probes, analog probes, then the time probe, so there is always at
    least one; every probe reads the design at its absolute path.
  */
  function ProbeFabricOf(s: StructureConfig): (r: ProbeFabric)
    ensures |r.probes| == |s.digitalProbes| + |s.analogProbes| + 1
    ensures r.probes[..|s.digitalProbes|] == s.digitalProbes
    ensures r.probes[|s.digitalProbes|..|r.probes| - 1] == s.analogProbes
    ensures r.probes[|r.probes| - 1] == s.timeProbe
    ensures r.instInputs == r.probes + [s.emuClk]
    ensures |r.bindings| == |r.probes|
    ensures forall i :: 0 <= i < |r.bindings| ==> ReadsDesign(r.bindings[i]) && r.bindings[i].dst.signal == r.probes[i]
  {
    var probes := s.digitalProbes + s.analogProbes + [s.timeProbe];
    ProbeFabric(probes, probes + [s.emuClk], ReadAll(probes))
  }

  /*** Template ***/

  /** The blocks of the `top.sv` template. */
  datatype Section =
    | PluginIncludes | ModuleInterface | CtrlDecls | ProbeDecls | SimClkDecls | DbgClkDecl | EmuClkDecls
    | TimeManagerDecls | EmuClkGenDecls | TestbenchInst | CtrlInst | TracePortInst | ClkGenInst
    | GenEmuClks | EmuClkDivider | TimeManager | FixedStepTime | ResetDecProbes
    | DerivedClkAssigns | CtrlAssigns | ProbeAssigns | SimulationControl

  /** Every block of the template, in output order. */
  const Template: seq<Section> := [
    PluginIncludes, ModuleInterface, CtrlDecls, ProbeDecls, SimClkDecls, DbgClkDecl, EmuClkDecls,
    TimeManagerDecls, EmuClkGenDecls, TestbenchInst, CtrlInst, TracePortInst, ClkGenInst,
    GenEmuClks, EmuClkDivider, TimeManager, FixedStepTime, ResetDecProbes,
    DerivedClkAssigns, CtrlAssigns, ProbeAssigns, SimulationControl]

  /** The template's guards: whether a block is emitted for the given counts. */
  predicate Shown(x: Section, numDtReqs: nat, numGatedClks: nat, numProbes: nat) {
    match x
    case TimeManagerDecls => numDtReqs != 0
    case TimeManager => numDtReqs != 0
    case FixedStepTime => numDtReqs == 0
    case EmuClkGenDecls => numGatedClks != 0
    case GenEmuClks => numGatedClks != 0
    case EmuClkDivider => numGatedClks == 0
    case TracePortInst => numProbes != 0
    case ProbeAssigns => numProbes != 0
    case _ => true
  }

  function ShownOf(s: seq<Section>, numDtReqs: nat, numGatedClks: nat, numProbes: nat): seq<Section> {
    if |s| == 0 then []
    else (if Shown(s[0], numDtReqs, numGatedClks, numProbes) then [s[0]] else [])
           + ShownOf(s[1..], numDtReqs, numGatedClks, numProbes)
  }

  lemma {:induction false} ShownOfMembers(s: seq<Section>, numDtReqs: nat, numGatedClks: nat, numProbes: nat)
    ensures forall x :: x in ShownOf(s, numDtReqs, numGatedClks, numProbes)
                    <==> x in s && Shown(x, numDtReqs, numGatedClks, numProbes)
  {
    if |s| > 0 {
      ShownOfMembers(s[1..], numDtReqs, numGatedClks, numProbes);
      assert forall x :: x in s <==> x == s[0] || x in s[1..];
    }
  }

  lemma TemplateHasAll(x: Section)
    ensures x in Template
  {
  }

  /**
    The template's blocks in output order.  The time manager appears exactly when
    some clock requests a time step, and the fixed-step emu_time otherwise; the
    gated clock generator appears exactly when some clock is gated, and the
    emu_clk_2x divider otherwise.
  */
  function Sections(numDtReqs: nat, numGatedClks: nat, numProbes: nat): (r: seq<Section>)
    ensures forall x :: x in r <==> Shown(x, numDtReqs, numGatedClks, numProbes)
    ensures TimeManager in r <==> numDtReqs != 0
    ensures FixedStepTime in r <==> numDtReqs == 0
    ensures GenEmuClks in r <==> numGatedClks != 0
    ensures EmuClkDivider in r <==> numGatedClks == 0
  {
    SectionsMembers(numDtReqs, numGatedClks, numProbes);
    ShownOf(Template, numDtReqs, numGatedClks, numProbes)
  }

  lemma SectionsMembers(numDtReqs: nat, numGatedClks: nat, numProbes: nat)
    ensures forall x :: x in ShownOf(Template, numDtReqs, numGatedClks, numProbes)
                    <==> Shown(x, numDtReqs, numGatedClks, numProbes)
  {
    ShownOfMembers(Template, numDtReqs, numGatedClks, numProbes);
    forall x ensures x in Template {
      TemplateHasAll(x);
    }
  }

  function Flatten(ss: seq<seq<string>>): (r: seq<string>)
    ensures forall s, x :: s in ss && x in s ==> x in r
    ensures forall x :: x in r ==> exists s :: s in ss && x in s
  {
    if |ss| == 0 then [] else Flatten(ss[..|ss| - 1]) + ss[|ss| - 1]
  }

  /** The includes of consecutive plugin groups follow each other, in order. */
  lemma {:induction false} FlattenAppend(a: seq<seq<string>>, b: seq<seq<string>>)
    ensures Flatten(a + b) == Flatten(a) + Flatten(b)
    decreases |b|
  {
    if |b| == 0 {
      assert a + b == a;
    } else {
      assert (a + b)[..|a + b| - 1] == a + b[..|b| - 1];
      FlattenAppend(a, b[..|b| - 1]);
    }
  }

  /** One plugin contributes exactly its own includes. */
  lemma FlattenSingle(s: seq<string>)
    ensures Flatten([s]) == s
  {
    assert [s][..0] == [];
  }

  /** Everything the generator computes for the template. */
  datatype TopModule = TopModule(
    pluginIncludes: seq<string>,
    interfaceInputs: seq<Signal>,
    clkInSimSigs: seq<Signal>,
    dbgClkSig: Signal,
    clkGenInputs: seq<Signal>,
    clkGenOutputs: seq<Signal>,
    derivedClkAssigns: seq<Line>,
    numDtReqs: nat,
    numGatedClks: nat,
    ctrl: CtrlFabric,
    probe: ProbeFabric,
    numProbes: nat,
    tbInputs: seq<Signal>,
    sections: seq<Section>)

  /**
    One iteration of the derived-clock loop: the lines written for `clk`, given
    the dt-request and gated-clock counters so far, and the advanced counters.
  */
  method WriteClkLines(clk: ClkDerived, dtReqCnt: nat, gatedClksCnt: nat)
    returns (lines: seq<Line>, nextDtReqCnt: nat, nextGatedClksCnt: nat)
    ensures lines == ClkBlock(clk, dtReqCnt, gatedClksCnt)
    ensures nextDtReqCnt == dtReqCnt + Present(clk.dtReq)
    ensures nextGatedClksCnt == gatedClksCnt + Present(clk.gatedClk)
  {
    nextDtReqCnt, nextGatedClksCnt := dtReqCnt, gatedClksCnt;
    lines := [Comment(clk.name)];
    if clk.emuDt.Some? {
      lines := lines + [ForwardEmuDt(clk.emuDt.value)];
    }
    if clk.emuClk.Some? {
      lines := lines + [ForwardEmuClk(clk.emuClk.value)];
    }
    if clk.emuRst.Some? {
      lines := lines + [ForwardEmuRst(clk.emuRst.value)];
    }
    assert lines == [Comment(clk.name)] + EmuDtLines(clk) + EmuClkLines(clk) + EmuRstLines(clk);
    if clk.dtReq.Some? {
      lines := lines + [DtReq(nextDtReqCnt, clk.dtReq.value)];
      nextDtReqCnt := nextDtReqCnt + 1;
    }
    if clk.gatedClk.Some? {
      lines := lines + [ClkVal(nextGatedClksCnt, clk.gatedClkReq), GatedClk(clk.gatedClk.value, nextGatedClksCnt)];
      nextGatedClksCnt := nextGatedClksCnt + 1;
    }
  }

  /**
    The derived-clock loop of the generator's constructor: it numbers the dt
    requests and the gated clocks with two counters, whose final values size the
    time manager and the gated clock generator.
  */
  method DerivedClkAssignments(clks: seq<ClkDerived>) returns (assigns: seq<Line>, dtReqCnt: nat, gatedClksCnt: nat)
    ensures assigns == DerivedAssigns(clks)
    ensures dtReqCnt == NumDtReqs(clks) && gatedClksCnt == NumGatedClks(clks)
  {
    dtReqCnt, gatedClksCnt := 0, 0;
    assigns := [];
    var k := 0;
    while k < |clks|
      invariant 0 <= k <= |clks|
      invariant assigns == DerivedAssigns(clks[..k])
      invariant dtReqCnt == NumDtReqs(clks[..k])
      invariant gatedClksCnt == NumGatedClks(clks[..k])
    {
      var lines;
      assert clks[..k + 1][..k] == clks[..k];
      lines, dtReqCnt, gatedClksCnt := WriteClkLines(clks[k], dtReqCnt, gatedClksCnt);
      assigns := assigns + lines;
      k := k + 1;
    }
    assert clks[..k] == clks;
  }

  /**
    The generator's constructor: the module's ports, the derived-clock block and
    its counts, the control and probe fabrics, and the template blocks the counts select.
  */
  method Build(scfg: StructureConfig, pluginIncludes: seq<seq<string>>) returns (top: TopModule)
    ensures top.pluginIncludes == Flatten(pluginIncludes)
    ensures top.interfaceInputs == scfg.clkI && top.clkInSimSigs == scfg.clkI && top.dbgClkSig == scfg.dbgClk
    ensures top.clkGenInputs == scfg.clkI
    ensures top.clkGenOutputs == [scfg.emuClk2x, scfg.dbgClk] + scfg.clkIndependent
    ensures top.derivedClkAssigns == DerivedAssigns(scfg.clkDerived)
    ensures top.numDtReqs == NumDtReqs(scfg.clkDerived)
    ensures top.numGatedClks == NumGatedClks(scfg.clkDerived)
    ensures top.ctrl == CtrlFabricOf(scfg)
    ensures top.probe == ProbeFabricOf(scfg)
    ensures top.numProbes == |top.probe.probes| >= 1
    ensures top.tbInputs == scfg.clkIndependent
    ensures top.sections == Sections(top.numDtReqs, top.numGatedClks, top.numProbes)
  {
    var assigns, dtReqCnt, gatedClksCnt := DerivedClkAssignments(scfg.clkDerived);
    var ctrl := CtrlFabricOf(scfg);
    var probe := ProbeFabricOf(scfg);
    var numProbes := |probe.probes|;
    top := TopModule(
      Flatten(pluginIncludes),
      scfg.clkI,
      scfg.clkI,
      scfg.dbgClk,
      scfg.clkI,
      [scfg.emuClk2x, scfg.dbgClk] + scfg.clkIndependent,
      assigns,
      dtReqCnt,
      gatedClksCnt,
      ctrl,
      probe,
      numProbes,
      scfg.clkIndependent,
      Sections(dtReqCnt, gatedClksCnt, numProbes));
  }
}
