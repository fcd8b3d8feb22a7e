/**
  Model of the bookkeeping of anasymod's `Analysis` object (anasymod/analysis.py):
  the de-duplicated target lists and the setup-finished table built by the
  constructor, active-target selection, type-dispatched addition of sources,
  the populate-once guard of target setup, and the step-preserving waveform
  transform.  Tool launching, configuration files and target objects are not
  part of the model.
*/
module Analysis {
  import opened Wrappers
  import opened Filesets

  /*** Target lists ***/

  /** The list with every repeated name dropped, first occurrences kept in order. */
  function Dedup(s: seq<string>): (r: seq<string>)
    ensures forall x :: x in r <==> x in s
  {
    if |s| == 0 then []
    else
      var prev := Dedup(s[..|s| - 1]);
      if s[|s| - 1] in prev then prev else prev + [s[|s| - 1]]
  }

  predicate Distinct(s: seq<string>) {
    forall i, j :: 0 <= i < j < |s| ==> s[i] != s[j]
  }

  /** A de-duplicated list has no name twice. */
  lemma {:induction false} DedupDistinct(s: seq<string>)
    ensures Distinct(Dedup(s))
  {
    if |s| > 0 {
      DedupDistinct(s[..|s| - 1]);
    }
  }

  /** Names only ever join at the end: de-duplicating a longer list extends the shorter one's result. */
  lemma {:induction false} DedupExtends(s: seq<string>, t: seq<string>)
    ensures Dedup(s) <= Dedup(s + t)
  {
    if |t| > 0 {
      var t' := t[..|t| - 1];
      DedupExtends(s, t');
      assert (s + t)[..|s + t| - 1] == s + t';
    } else {
      assert s + t == s;
    }
  }

  /** The first name of the list stays first, so `fpga` and `sim` head their lists. */
  lemma DedupKeepsFirst(s: seq<string>)
    requires |s| > 0
    ensures |Dedup(s)| > 0 && Dedup(s)[0] == s[0]
  {
    DedupExtends([s[0]], s[1..]);
    assert [s[0]] + s[1..] == s;
  }

  /** A list without repetitions is left as it is. */
  lemma {:induction false} DedupOfDistinct(s: seq<string>)
    requires Distinct(s)
    ensures Dedup(s) == s
  {
    if |s| > 0 {
      DedupOfDistinct(s[..|s| - 1]);
    }
  }

  /** The constructor's loop: `first`, then each custom target not yet in the list. */
  method TargetList(first: string, custom: seq<string>) returns (targets: seq<string>)
    ensures targets == Dedup([first] + custom)
  {
    var all := [first] + custom;
    targets := [first];
    assert all[..1] == [first];
    for i := 0 to |custom|
      invariant targets == Dedup(all[..i + 1])
    {
      assert all[..i + 2][..i + 1] == all[..i + 1];
      if custom[i] !in targets {
        targets := targets + [custom[i]];
      }
    }
    assert all[..|custom| + 1] == all;
  }

  /** The setup-finished table the constructor starts from: every target not yet set up. */
  function Unfinished(targets: seq<string>): (r: map<string, bool>)
    ensures r.Keys == set t | t in targets
    ensures forall t :: t in r ==> !r[t]
  {
    map t | t in targets :: false
  }

  /*** Active target ***/

  /** The two kinds of target. */
  datatype Domain = Fpga | Cpu

  /** The kind of target `set_target` takes a name for; an FPGA target wins over a CPU one. */
  function DomainOf(fpgaTargets: seq<string>, cpuTargets: seq<string>, name: string): (r: Option<Domain>)
    ensures r == Some(Fpga) <==> name in fpgaTargets
    ensures r == Some(Cpu) <==> name !in fpgaTargets && name in cpuTargets
    ensures r == None <==> name !in fpgaTargets && name !in cpuTargets
  {
    if name in fpgaTargets then Some(Fpga)
    else if name in cpuTargets then Some(Cpu)
    else None
  }

  /*** Source dispatch ***/

  /** The argument of `add_sources`: one object, or a list of them. */
  datatype SourceArg = One(item: Item) | Many(items: seq<Item>)

  /** A single object is treated as a one-element list. */
  function SourceList(arg: SourceArg): (r: seq<Item>)
    ensures arg.One? ==> r == [arg.item]
    ensures arg.Many? ==> r == arg.items
  {
    match arg
    case One(x) => [x]
    case Many(xs) => xs
  }

  /** The position of each class in the `elif` chain of `add_sources`. */
  function Rank(c: SourceClass): nat {
    match c
    case VerilogSource => 0
    case VerilogHeader => 1
    case VhdlSource => 2
    case Define => 3
    case XciFile => 4
    case XdcFile => 5
    case MemFile => 6
    case BdFile => 7
  }

  /** The list `add_sources` files an object in: the first class of the chain it is an instance of. */
  function FirstMatch(item: Item): (r: Option<SourceClass>)
    ensures r.None? <==> item.classes == {}
    ensures r.Some? ==> r.value in item.classes
    ensures r.Some? ==> forall c :: c in item.classes ==> Rank(r.value) <= Rank(c)
  {
    var cs := item.classes;
    if VerilogSource in cs then Some(VerilogSource)
    else if VerilogHeader in cs then Some(VerilogHeader)
    else if VhdlSource in cs then Some(VhdlSource)
    else if Define in cs then Some(Define)
    else if XciFile in cs then Some(XciFile)
    else if XdcFile in cs then Some(XdcFile)
    else if MemFile in cs then Some(MemFile)
    else if BdFile in cs then Some(BdFile)
    else
      assert forall c :: c in cs ==>
               c == VerilogSource || c == VerilogHeader || c == VhdlSource || c == Define
               || c == XciFile || c == XdcFile || c == MemFile || c == BdFile;
      None
  }

  /** The objects of `items` that go to the list of class `c`, in order. */
  function Routed(items: seq<Item>, c: SourceClass): (r: seq<Item>)
    ensures forall x :: x in r ==> x in items && FirstMatch(x) == Some(c)
  {
    if |items| == 0 then []
    else Routed(items[..|items| - 1], c) + (if FirstMatch(items[|items| - 1]) == Some(c) then [items[|items| - 1]] else [])
  }

  lemma RoutedSnoc(items: seq<Item>, i: nat, c: SourceClass)
    requires i < |items|
    ensures Routed(items[..i + 1], c) == Routed(items[..i], c) + (if FirstMatch(items[i]) == Some(c) then [items[i]] else [])
  {
    assert items[..i + 1][..i] == items[..i];
  }

  /** The objects of `items` that `add_sources` skips with a warning. */
  function Skipped(items: seq<Item>): (r: seq<Item>)
    ensures forall x :: x in r ==> x in items && FirstMatch(x).None?
  {
    if |items| == 0 then []
    else Skipped(items[..|items| - 1]) + (if FirstMatch(items[|items| - 1]).None? then [items[|items| - 1]] else [])
  }

  /**
    Every object is filed exactly once: all its occurrences go to the list of its
    first matching class and none to any other.
  */
  lemma {:induction false} RoutedCount(items: seq<Item>, c: SourceClass, x: Item)
    ensures multiset(Routed(items, c))[x] == if FirstMatch(x) == Some(c) then multiset(items)[x] else 0
  {
    if |items| > 0 {
      var init := items[..|items| - 1];
      RoutedCount(init, c, x);
      assert items == init + [items[|items| - 1]];
    }
  }

  /** All occurrences of an object of no known class are skipped. */
  lemma {:induction false} SkippedCount(items: seq<Item>, x: Item)
    ensures multiset(Skipped(items))[x] == if FirstMatch(x).None? then multiset(items)[x] else 0
  {
    if |items| > 0 {
      var init := items[..|items| - 1];
      SkippedCount(init, x);
      assert items == init + [items[|items| - 1]];
    }
  }

  /**
    The attribute of a `Filesets` object, as the class is written, that `add_sources`
    appends an object of class `c` to; the four file-list attributes do not exist there.
  */
  function AttributeAsWritten(c: SourceClass): (r: Option<string>)
    ensures r.None? <==> c in {XciFile, XdcFile, MemFile, BdFile}
  {
    match c
    case VerilogSource => Some("_verilog_sources")
    case VerilogHeader => Some("_verilog_headers")
    case VhdlSource => Some("_vhdl_sources")
    case Define => Some("_defines")
    case _ => None
  }

  /** An object `add_sources` would append to an attribute that does not exist. */
  predicate HitsMissingList(item: Item) {
    FirstMatch(item).Some? && AttributeAsWritten(FirstMatch(item).value).None?
  }

  /**
    `add_sources` against the `Filesets` class as written: the object at which it
    stops with an AttributeError, if any.
  */
  function AddSourcesAsWritten(items: seq<Item>): (r: Option<Item>)
    ensures r.Some? ==> r.value in items && HitsMissingList(r.value)
  {
    if |items| == 0 then None
    else if HitsMissingList(items[0]) then Some(items[0])
    else AddSourcesAsWritten(items[1..])
  }

  /** As written, `add_sources` fails exactly when some object is an XCI, XDC, MEM or BD file. */
  lemma {:induction false} AddSourcesAsWrittenFails(items: seq<Item>)
    ensures AddSourcesAsWritten(items).Some? <==> exists i :: 0 <= i < |items| && HitsMissingList(items[i])
    ensures AddSourcesAsWritten(items).Some? ==> HitsMissingList(AddSourcesAsWritten(items).value)
  {
    if |items| > 0 && !HitsMissingList(items[0]) {
      AddSourcesAsWrittenFails(items[1..]);
      if exists i :: 0 <= i < |items| && HitsMissingList(items[i]) {
        var i :| 0 <= i < |items| && HitsMissingList(items[i]);
        assert items[1..][i - 1] == items[i];
      }
    }
  }

  /** A single constraints file cannot be added as written, though the corrected dispatch files it. */
  lemma AddSourcesAsWrittenExample()
    ensures var xdc := Item({XdcFile}, "pins.xdc", "fpga");
      && AddSourcesAsWritten([xdc]) == Some(xdc)
      && Routed([xdc], XdcFile) == [xdc]
  {
    var xdc := Item({XdcFile}, "pins.xdc", "fpga");
    assert [xdc][..0] == [];
  }

  /*** Waveform stepping ***/

  /** One column of a waveform: a time and the value from that time on. */
  datatype Sample<T, V> = Sample(time: T, value: V)

  /** The number of samples whose value differs from the previous sample's. */
  function Changes<T, V(==)>(w: seq<Sample<T, V>>): (r: nat)
    ensures |w| > 0 ==> r < |w|
  {
    if |w| <= 1 then 0
    else Changes(w[..|w| - 1]) + (if w[|w| - 1].value != w[|w| - 2].value then 1 else 0)
  }

  /** `preserve`: before each change of value, the old value is repeated at the new time. */
  function PreserveSpec<T, V(==)>(w: seq<Sample<T, V>>): (r: seq<Sample<T, V>>)
    ensures |w| > 0 ==> |r| > 0 && r[|r| - 1] == w[|w| - 1]
  {
    if |w| == 0 then []
    else
      var last := w[|w| - 1];
      PreserveSpec(w[..|w| - 1])
      + (if |w| >= 2 && last.value != w[|w| - 2].value then [Sample(last.time, w[|w| - 2].value)] else [])
      + [last]
  }

  /** The output has one extra sample per change of value. */
  lemma {:induction false} PreserveLength<T, V>(w: seq<Sample<T, V>>)
    ensures |PreserveSpec(w)| == |w| + Changes(w)
  {
    if |w| > 0 {
      PreserveLength(w[..|w| - 1]);
    }
  }

  /** Where input sample `i` lands in the output: after itself and every change up to it. */
  function Pos<T, V(==)>(w: seq<Sample<T, V>>, i: nat): nat
    requires i < |w|
  {
    i + Changes(w[..i + 1])
  }

  /**
    Every input sample is kept, in order, at `Pos(w, i)`; the first sample comes
    first; and where the value changes, the sample just before it repeats the
    previous value at the new time.
  */
  lemma {:induction false} PreserveKeepsSamples<T, V>(w: seq<Sample<T, V>>, i: nat)
    requires i < |w|
    ensures Pos(w, i) < |PreserveSpec(w)|
    ensures PreserveSpec(w)[Pos(w, i)] == w[i]
    ensures i == 0 ==> Pos(w, i) == 0
    ensures 0 < i && w[i].value != w[i - 1].value ==>
              PreserveSpec(w)[Pos(w, i) - 1] == Sample(w[i].time, w[i - 1].value)
  {
    var init := w[..|w| - 1];
    PreserveLength(w);
    PreserveLength(init);
    if i < |w| - 1 {
      PreserveKeepsSamples(init, i);
      assert init[..i + 1] == w[..i + 1];
    } else {
      assert w[..i + 1] == w;
    }
  }

  /** A waveform that never changes value comes back unchanged. */
  lemma {:induction false} PreserveConstant<T, V>(w: seq<Sample<T, V>>)
    requires forall i :: 0 < i < |w| ==> w[i].value == w[i - 1].value
    ensures PreserveSpec(w) == w
  {
    if |w| > 0 {
      PreserveConstant(w[..|w| - 1]);
      assert w[..|w| - 1] + [w[|w| - 1]] == w;
    }
  }

  /** The loop of `preserve`, carrying the previous value in `tempData`. */
  method Preserve<T, V(==)>(wave: seq<Sample<T, V>>) returns (waveStep: seq<Sample<T, V>>)
    ensures waveStep == PreserveSpec(wave)
  {
    var tempData: Option<V> := None;
    waveStep := [];
    for i := 0 to |wave|
      invariant waveStep == PreserveSpec(wave[..i])
      invariant tempData == if i == 0 then None else Some(wave[i - 1].value)
    {
      var d := wave[i];
      assert wave[..i + 1][..i] == wave[..i];
      if tempData.Some? {
        if d.value != tempData.value {
          waveStep := waveStep + [Sample(d.time, tempData.value)];
        }
      }
      waveStep := waveStep + [d];
      tempData := Some(d.value);
    }
    assert wave[..|wave|] == wave;
  }

  /*** The Analysis object ***/

  /** The dictionary always knows the "default" fileset that target setup reads. */
  lemma PopulateKeepsDefault(d: FilesetDict, vs: seq<Item>, vh: seq<Item>, vhdl: seq<Item>, defs: seq<Item>)
    requires "default" in d
    ensures "default" in Populate(d, vs, vh, vhdl, defs)
  {
    PopulateEntries(d, vs, vh, vhdl, defs, "default");
  }

  /**
    As written, the dictionary of a fresh `Filesets` lacks "default" after population
    unless some object belongs to that fileset, so target setup then raises a KeyError.
  */
  lemma PopulateAsWrittenLacksDefault()
    ensures var tb := Item({VerilogSource}, "tb.sv", "sim");
      "default" !in Populate(InitialFilesetDictAsWritten(DefaultFilesets), [tb], [], [], [])
  {
    var tb := Item({VerilogSource}, "tb.sv", "sim");
    InitialFilesetDictAsWrittenIsEmpty(DefaultFilesets);
    PopulateEntries(InitialFilesetDictAsWritten(DefaultFilesets), [tb], [], [], [], "default");
    assert FilesetsOf([tb]) == {"sim"};
  }

  class Analysis {
    var activeTarget: string
    var actFpgaTarget: string
    var fpgaTargets: seq<string>
    var actCpuTarget: string
    var cpuTargets: seq<string>
    var setupFinished: map<string, bool>
    var filesetPopulated: bool
    var filesets: Filesets?

    /** Once the filesets exist, their dictionary has the "default" fileset. */
    predicate DefaultFilesetKnown()
      reads this, filesets
    {
      filesets != null ==> "default" in filesets.filesetDict
    }

    /**
      The target and bookkeeping part of the constructor: `fpga` and `sim` followed
      by the custom targets of the project configuration (none when the section is
      missing), without repetitions, and every target not yet set up.
    */
    constructor (fpgaCustom: seq<string>, cpuCustom: seq<string>, activeTarget: string)
      ensures this.activeTarget == activeTarget
      ensures actFpgaTarget == "fpga" && fpgaTargets == Dedup(["fpga"] + fpgaCustom)
      ensures actCpuTarget == "sim" && cpuTargets == Dedup(["sim"] + cpuCustom)
      ensures setupFinished == Unfinished(cpuTargets + fpgaTargets)
      ensures !filesetPopulated && filesets == null
      ensures DefaultFilesetKnown()
    {
      this.activeTarget := activeTarget;
      actFpgaTarget := "fpga";
      var fpga := TargetList("fpga", fpgaCustom);
      fpgaTargets := fpga;
      actCpuTarget := "sim";
      var cpu := TargetList("sim", cpuCustom);
      cpuTargets := cpu;
      var all := cpu + fpga;
      var finished: map<string, bool> := map[];
      for i := 0 to |all|
        invariant finished.Keys == set t | t in all[..i]
        invariant forall t :: t in finished ==> !finished[t]
      {
        assert all[..i + 1] == all[..i] + [all[i]];
        finished := finished[all[i] := false];
      }
      assert all[..|all|] == all;
      setupFinished := finished;
      filesetPopulated := false;
      filesets := null;
    }

    /**
      The whole of `__init__` as far as targets go: construction followed by
      `set_target` on the configured active target.  `ok` is false exactly when
      that call raises, so no object would come into being.
    */
    static method Create(fpgaCustom: seq<string>, cpuCustom: seq<string>, activeTarget: string)
      returns (a: Analysis, ok: bool)
      ensures fresh(a)
      ensures a.fpgaTargets == Dedup(["fpga"] + fpgaCustom) && a.cpuTargets == Dedup(["sim"] + cpuCustom)
      ensures a.activeTarget == activeTarget
      ensures ok <==> DomainOf(a.fpgaTargets, a.cpuTargets, activeTarget).Some?
      ensures a.actFpgaTarget == if DomainOf(a.fpgaTargets, a.cpuTargets, activeTarget) == Some(Fpga) then activeTarget else "fpga"
      ensures a.actCpuTarget == if DomainOf(a.fpgaTargets, a.cpuTargets, activeTarget) == Some(Cpu) then activeTarget else "sim"
      ensures a.setupFinished == Unfinished(a.cpuTargets + a.fpgaTargets)
      ensures !a.filesetPopulated && a.filesets == null
    {
      a := new Analysis(fpgaCustom, cpuCustom, activeTarget);
      ok := a.SetTarget(activeTarget);
    }

    /**
      `setup_filesets`, as far as the bookkeeping goes: a fresh `Filesets` object over
      "default" and every target.
    */
    method SetupFilesets()
      modifies this
      ensures fresh(filesets)
      ensures filesets.filesetDict == InitialFilesetDict(["default"] + cpuTargets + fpgaTargets)
      ensures forall c :: filesets.ListOf(c) == []
      ensures DefaultFilesetKnown()
      ensures activeTarget == old(activeTarget) && actFpgaTarget == old(actFpgaTarget) && actCpuTarget == old(actCpuTarget)
      ensures fpgaTargets == old(fpgaTargets) && cpuTargets == old(cpuTargets)
      ensures setupFinished == old(setupFinished) && filesetPopulated == old(filesetPopulated)
    {
      filesets := new Filesets(["default"] + cpuTargets + fpgaTargets);
    }

    /**
      `set_target`: the name becomes the active target even when it is unknown; the
      FPGA or else the CPU active target follows it, and an unknown name raises.
    */
    method SetTarget(name: string) returns (ok: bool)
      modifies this
      ensures activeTarget == name
      ensures ok <==> DomainOf(fpgaTargets, cpuTargets, name).Some?
      ensures actFpgaTarget == if DomainOf(fpgaTargets, cpuTargets, name) == Some(Fpga) then name else old(actFpgaTarget)
      ensures actCpuTarget == if DomainOf(fpgaTargets, cpuTargets, name) == Some(Cpu) then name else old(actCpuTarget)
      ensures fpgaTargets == old(fpgaTargets) && cpuTargets == old(cpuTargets)
      ensures setupFinished == old(setupFinished) && filesetPopulated == old(filesetPopulated)
      ensures filesets == old(filesets)
    {
      activeTarget := name;
      if activeTarget in fpgaTargets {
        actFpgaTarget := activeTarget;
      } else if activeTarget in cpuTargets {
        actCpuTarget := activeTarget;
      } else {
        return false;
      }
      return true;
    }

    /**
      `add_sources`: each object goes to the list of the first class of the chain it
      is an instance of, objects of no known class are skipped, and the dictionary
      is marked for population again.  Without a `Filesets` object the first object
      to be filed raises.
    */
    method AddSources(sources: SourceArg) returns (ok: bool)
      modifies this, filesets
      ensures ok <==> old(filesets) != null || forall x :: x in SourceList(sources) ==> FirstMatch(x).None?
      ensures filesets == old(filesets)
      ensures filesetPopulated == if ok then false else old(filesetPopulated)
      ensures filesets != null ==>
                && (forall c :: filesets.ListOf(c) == old(filesets.ListOf(c)) + Routed(SourceList(sources), c))
                && filesets.filesetDict == old(filesets.filesetDict)
      ensures activeTarget == old(activeTarget) && actFpgaTarget == old(actFpgaTarget) && actCpuTarget == old(actCpuTarget)
      ensures fpgaTargets == old(fpgaTargets) && cpuTargets == old(cpuTargets)
      ensures setupFinished == old(setupFinished)
      ensures old(DefaultFilesetKnown()) ==> DefaultFilesetKnown()
    {
      var items := SourceList(sources);
      for i := 0 to |items|
        modifies filesets
        invariant filesets != null ==>
                    && (forall c :: filesets.ListOf(c) == old(filesets.ListOf(c)) + Routed(items[..i], c))
                    && filesets.filesetDict == old(filesets.filesetDict)
        invariant filesets == null ==> forall j :: 0 <= j < i ==> FirstMatch(items[j]).None?
      {
        var source := items[i];
        label Before:
        match FirstMatch(source) {
          case None =>
          case Some(c) =>
            if filesets == null {
              return false;
            }
            filesets.Append(c, source);
        }
        if filesets != null {
          forall c
            ensures filesets.ListOf(c) == old(filesets.ListOf(c)) + Routed(items[..i + 1], c)
          {
            RoutedSnoc(items, i, c);
            assert old@Before(filesets.ListOf(c)) == old(filesets.ListOf(c)) + Routed(items[..i], c);
          }
        }
      }
      assert items[..|items|] == items;
      filesetPopulated := false;
      return true;
    }

    /**
      `_setup_targets`, as far as the bookkeeping goes: populate the dictionary
      unless it already is, read its "default" fileset for a known active target
      (a KeyError when absent), and mark the active target as set up.
    */
    method SetupTargets() returns (ok: bool)
      modifies this, filesets
      ensures filesets == old(filesets)
      ensures old(filesets) == null ==> !ok && filesetPopulated == old(filesetPopulated) && setupFinished == old(setupFinished)
      ensures old(filesets) != null ==>
                && filesetPopulated
                && filesets.filesetDict ==
                     (if old(filesetPopulated) then old(filesets.filesetDict)
                      else Populate(old(filesets.filesetDict), old(filesets.verilogSources), old(filesets.verilogHeaders),
                                    old(filesets.vhdlSources), old(filesets.defines)))
                && filesets.Lists() == old(filesets.Lists())
                && (ok <==> activeTarget !in cpuTargets + fpgaTargets || "default" in filesets.filesetDict)
      ensures setupFinished == if ok then old(setupFinished)[activeTarget := true] else old(setupFinished)
      ensures activeTarget == old(activeTarget) && actFpgaTarget == old(actFpgaTarget) && actCpuTarget == old(actCpuTarget)
      ensures fpgaTargets == old(fpgaTargets) && cpuTargets == old(cpuTargets)
      ensures old(DefaultFilesetKnown()) ==> DefaultFilesetKnown() && ok == (filesets != null)
    {
      if filesets == null {
        return false;
      }
      if !filesetPopulated {
        filesets.PopulateFilesetDict();
        filesetPopulated := true;
        if old(DefaultFilesetKnown()) {
          PopulateKeepsDefault(old(filesets.filesetDict), old(filesets.verilogSources), old(filesets.verilogHeaders),
                               old(filesets.vhdlSources), old(filesets.defines));
        }
      }
      if activeTarget in cpuTargets || activeTarget in fpgaTargets {
        if "default" !in filesets.filesetDict {
          return false;
        }
      }
      setupFinished := setupFinished[activeTarget := true];
      return true;
    }
  }
}
