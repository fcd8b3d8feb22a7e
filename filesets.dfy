/**
  Model of the fileset bookkeeping of anasymod (anasymod/filesets.py).

  A `Filesets` object owns one list per kind of source object and a two-level
  dictionary fileset -> category -> items that `populate_fileset_dict` fills
  from those lists.  Source and define objects are abstract `Item`s: the set of
  source classes the object is an instance of, an identity, and its fileset.
*/
module Filesets {

  /** The source and define classes that the bookkeeping tells apart. */
  datatype SourceClass =
    | VerilogSource | VerilogHeader | VhdlSource | Define
    | XciFile | XdcFile | MemFile | BdFile

  /** A source or define object. */
  datatype Item = Item(classes: set<SourceClass>, id: string, fileset: string)

  /** `fileset_dict`: fileset name -> category name -> items in insertion order. */
  type FilesetDict = map<string, map<string, seq<Item>>>

  /** The filesets a `Filesets` object is created with when none are given. */
  const DefaultFilesets: seq<string> := ["default", "sim", "fpga"]

  /** The items filed under `name` in fileset `fs`; an absent key reads as no items. */
  function Entry(d: FilesetDict, fs: string, name: string): seq<Item> {
    if fs in d && name in d[fs] then d[fs][name] else []
  }

  /** The items of `items` that belong to fileset `fs`, in order. */
  function InFileset(items: seq<Item>, fs: string): (r: seq<Item>)
    ensures |r| <= |items|
    ensures forall x :: x in r ==> x in items && x.fileset == fs
  {
    if |items| == 0 then []
    else InFileset(items[..|items| - 1], fs) + (if items[|items| - 1].fileset == fs then [items[|items| - 1]] else [])
  }

  /** The filesets that the items of `items` belong to. */
  function FilesetsOf(items: seq<Item>): (r: set<string>)
    ensures forall x :: x in items ==> x.fileset in r
  {
    if |items| == 0 then {} else FilesetsOf(items[..|items| - 1]) + {items[|items| - 1].fileset}
  }

  /*** Building the dictionary ***/

  /**
    One step of `_add_to_fileset_dict`: append `item` to its fileset's `name` list,
    creating the fileset (with that single entry) or the list when absent.
  */
  function AddItem(d: FilesetDict, name: string, item: Item): (r: FilesetDict)
    ensures r.Keys == d.Keys + {item.fileset}
    ensures item.fileset !in d ==> r[item.fileset] == map[name := [item]]
    ensures item.fileset in d ==> r[item.fileset].Keys == d[item.fileset].Keys + {name}
    ensures Entry(r, item.fileset, name) == Entry(d, item.fileset, name) + [item]
    ensures forall fs, n :: fs != item.fileset || n != name ==> Entry(r, fs, n) == Entry(d, fs, n)
  {
    if item.fileset in d then
      var inner := d[item.fileset];
      if name in inner then d[item.fileset := inner[name := inner[name] + [item]]]
      else d[item.fileset := inner[name := [item]]]
    else
      d[item.fileset := map[name := [item]]]
  }

  /** `_add_to_fileset_dict(name, container)`: every item of the container in turn. */
  function AddAll(d: FilesetDict, name: string, container: seq<Item>): (r: FilesetDict)
    ensures d.Keys <= r.Keys
  {
    if |container| == 0 then d
    else AddItem(AddAll(d, name, container[..|container| - 1]), name, container[|container| - 1])
  }

  /** `_add_to_fileset_dict` adds exactly the filesets of the container's items. */
  lemma {:induction false} AddAllKeys(d: FilesetDict, name: string, container: seq<Item>)
    ensures AddAll(d, name, container).Keys == d.Keys + FilesetsOf(container)
  {
    if |container| > 0 {
      var init := container[..|container| - 1];
      AddAllKeys(d, name, init);
      AddAllKeysStep(d, name, container);
    }
  }

  lemma AddAllKeysStep(d: FilesetDict, name: string, container: seq<Item>)
    requires |container| > 0
    ensures AddAll(d, name, container).Keys
         == AddAll(d, name, container[..|container| - 1]).Keys + {container[|container| - 1].fileset}
  {
  }

  /**
    After `_add_to_fileset_dict(name, container)` the `name` list of fileset `fs`
    has gained that fileset's items of the container, in container order.
  */
  lemma {:induction false} AddAllEntry(d: FilesetDict, name: string, container: seq<Item>, fs: string)
    ensures Entry(AddAll(d, name, container), fs, name) == Entry(d, fs, name) + InFileset(container, fs)
  {
    if |container| > 0 {
      var init := container[..|container| - 1];
      AddAllEntry(d, name, init, fs);
    }
  }

  /** `_add_to_fileset_dict(name, container)` leaves every other category as it was. */
  lemma {:induction false} AddAllOtherEntry(d: FilesetDict, name: string, container: seq<Item>, fs: string, n: string)
    requires n != name
    ensures Entry(AddAll(d, name, container), fs, n) == Entry(d, fs, n)
  {
    if |container| > 0 {
      AddAllOtherEntry(d, name, container[..|container| - 1], fs, n);
    }
  }

  /** A category that some fileset already has keeps existing. */
  lemma {:induction false} AddAllKeepsCategories(d: FilesetDict, name: string, container: seq<Item>, fs: string, n: string)
    requires fs in d && n in d[fs]
    ensures fs in AddAll(d, name, container) && n in AddAll(d, name, container)[fs]
  {
    if |container| > 0 {
      AddAllKeepsCategories(d, name, container[..|container| - 1], fs, n);
    }
  }

  /** `populate_fileset_dict`: verilog sources, verilog headers, VHDL sources, then defines. */
  function Populate(d: FilesetDict, verilogSources: seq<Item>, verilogHeaders: seq<Item>,
                    vhdlSources: seq<Item>, defines: seq<Item>): (r: FilesetDict)
    ensures d.Keys <= r.Keys
  {
    var d1 := AddAll(d, "verilog_sources", verilogSources);
    var d2 := AddAll(d1, "verilog_headers", verilogHeaders);
    var d3 := AddAll(d2, "vhdl_sources", vhdlSources);
    AddAll(d3, "defines", defines)
  }

  /**
    What population does: each of the four lists is appended, fileset by
    fileset, to its category, and the filesets are the old ones plus those
    named by the items.
  */
  lemma PopulateEntries(d: FilesetDict, vs: seq<Item>, vh: seq<Item>, vhdl: seq<Item>, defs: seq<Item>, fs: string)
    ensures Populate(d, vs, vh, vhdl, defs).Keys == d.Keys + FilesetsOf(vs) + FilesetsOf(vh) + FilesetsOf(vhdl) + FilesetsOf(defs)
    ensures Entry(Populate(d, vs, vh, vhdl, defs), fs, "verilog_sources") == Entry(d, fs, "verilog_sources") + InFileset(vs, fs)
    ensures Entry(Populate(d, vs, vh, vhdl, defs), fs, "verilog_headers") == Entry(d, fs, "verilog_headers") + InFileset(vh, fs)
    ensures Entry(Populate(d, vs, vh, vhdl, defs), fs, "vhdl_sources") == Entry(d, fs, "vhdl_sources") + InFileset(vhdl, fs)
    ensures Entry(Populate(d, vs, vh, vhdl, defs), fs, "defines") == Entry(d, fs, "defines") + InFileset(defs, fs)
  {
    var d1 := AddAll(d, "verilog_sources", vs);
    var d2 := AddAll(d1, "verilog_headers", vh);
    var d3 := AddAll(d2, "vhdl_sources", vhdl);
    AddAllKeys(d, "verilog_sources", vs);
    AddAllKeys(d1, "verilog_headers", vh);
    AddAllKeys(d2, "vhdl_sources", vhdl);
    AddAllKeys(d3, "defines", defs);
    AddAllEntry(d, "verilog_sources", vs, fs);
    AddAllOtherEntry(d1, "verilog_headers", vh, fs, "verilog_sources");
    AddAllOtherEntry(d2, "vhdl_sources", vhdl, fs, "verilog_sources");
    AddAllOtherEntry(d3, "defines", defs, fs, "verilog_sources");
    AddAllOtherEntry(d, "verilog_sources", vs, fs, "verilog_headers");
    AddAllEntry(d1, "verilog_headers", vh, fs);
    AddAllOtherEntry(d2, "vhdl_sources", vhdl, fs, "verilog_headers");
    AddAllOtherEntry(d3, "defines", defs, fs, "verilog_headers");
    AddAllOtherEntry(d, "verilog_sources", vs, fs, "vhdl_sources");
    AddAllOtherEntry(d1, "verilog_headers", vh, fs, "vhdl_sources");
    AddAllEntry(d2, "vhdl_sources", vhdl, fs);
    AddAllOtherEntry(d3, "defines", defs, fs, "vhdl_sources");
    AddAllOtherEntry(d, "verilog_sources", vs, fs, "defines");
    AddAllOtherEntry(d1, "verilog_headers", vh, fs, "defines");
    AddAllOtherEntry(d2, "vhdl_sources", vhdl, fs, "defines");
    AddAllEntry(d3, "defines", defs, fs);
  }

  /** Population touches no category but the four it fills. */
  lemma PopulateOtherEntry(d: FilesetDict, vs: seq<Item>, vh: seq<Item>, vhdl: seq<Item>, defs: seq<Item>, fs: string, n: string)
    requires n !in {"verilog_sources", "verilog_headers", "vhdl_sources", "defines"}
    ensures Entry(Populate(d, vs, vh, vhdl, defs), fs, n) == Entry(d, fs, n)
  {
    var d1 := AddAll(d, "verilog_sources", vs);
    var d2 := AddAll(d1, "verilog_headers", vh);
    var d3 := AddAll(d2, "vhdl_sources", vhdl);
    AddAllOtherEntry(d, "verilog_sources", vs, fs, n);
    AddAllOtherEntry(d1, "verilog_headers", vh, fs, n);
    AddAllOtherEntry(d2, "vhdl_sources", vhdl, fs, n);
    AddAllOtherEntry(d3, "defines", defs, fs, n);
  }

  /**
    Population appends rather than replaces: populating a second time from the
    same lists files every item of a fileset twice.
  */
  lemma PopulateTwiceDuplicates(d: FilesetDict, vs: seq<Item>, vh: seq<Item>, vhdl: seq<Item>, defs: seq<Item>, fs: string)
    ensures var twice := Populate(Populate(d, vs, vh, vhdl, defs), vs, vh, vhdl, defs);
      && Entry(twice, fs, "verilog_sources") == Entry(d, fs, "verilog_sources") + InFileset(vs, fs) + InFileset(vs, fs)
      && Entry(twice, fs, "verilog_headers") == Entry(d, fs, "verilog_headers") + InFileset(vh, fs) + InFileset(vh, fs)
      && Entry(twice, fs, "vhdl_sources") == Entry(d, fs, "vhdl_sources") + InFileset(vhdl, fs) + InFileset(vhdl, fs)
      && Entry(twice, fs, "defines") == Entry(d, fs, "defines") + InFileset(defs, fs) + InFileset(defs, fs)
  {
    PopulateEntries(d, vs, vh, vhdl, defs, fs);
    PopulateEntries(Populate(d, vs, vh, vhdl, defs), vs, vh, vhdl, defs, fs);
  }

  /*** The initial dictionary ***/

  /** The dictionary the constructor evidently means to build: one empty entry per default fileset. */
  function InitialFilesetDict(defaultFilesets: seq<string>): (r: FilesetDict)
    ensures r.Keys == set fs | fs in defaultFilesets
    ensures forall fs :: fs in r ==> r[fs] == map[]
  {
    map fs | fs in defaultFilesets :: map[]
  }

  /**
    The constructor's initialisation as written: the loop over the default
    filesets sits under `if not default_filesets`, so it only ever runs over an
    empty list.
  */
  function InitialFilesetDictAsWritten(defaultFilesets: seq<string>): (r: FilesetDict)
    ensures "default" !in r
  {
    if |defaultFilesets| == 0 then InitialFilesetDict(defaultFilesets) else map[]
  }

  /** As written, the dictionary starts empty whatever the default filesets are. */
  lemma InitialFilesetDictAsWrittenIsEmpty(defaultFilesets: seq<string>)
    ensures InitialFilesetDictAsWritten(defaultFilesets) == map[]
    ensures defaultFilesets != [] ==> InitialFilesetDictAsWritten(defaultFilesets) != InitialFilesetDict(defaultFilesets)
  {
    if |defaultFilesets| == 0 {
      assert InitialFilesetDict(defaultFilesets).Keys == {};
    } else {
      assert defaultFilesets[0] in InitialFilesetDict(defaultFilesets);
    }
  }

  /** With the default filesets, the "default" fileset is missing as written and present when corrected. */
  lemma InitialFilesetDictExample()
    ensures "default" !in InitialFilesetDictAsWritten(DefaultFilesets)
    ensures "default" in InitialFilesetDict(DefaultFilesets)
  {
    assert "default" in DefaultFilesets;
  }

  /*** The object ***/

  class Filesets {
    var verilogSources: seq<Item>
    var verilogHeaders: seq<Item>
    var vhdlSources: seq<Item>
    var defines: seq<Item>
    var xciFiles: seq<Item>
    var xdcFiles: seq<Item>
    var memFiles: seq<Item>
    var bdFiles: seq<Item>
    var filesetDict: FilesetDict

    /** The list that holds items of class `c`. */
    function ListOf(c: SourceClass): seq<Item>
      reads this
    {
      match c
      case VerilogSource => verilogSources
      case VerilogHeader => verilogHeaders
      case VhdlSource => vhdlSources
      case Define => defines
      case XciFile => xciFiles
      case XdcFile => xdcFiles
      case MemFile => memFiles
      case BdFile => bdFiles
    }

    /** The eight lists, in the order of the class's attributes. */
    function Lists(): seq<seq<Item>>
      reads this
    {
      [verilogSources, verilogHeaders, vhdlSources, defines, xciFiles, xdcFiles, memFiles, bdFiles]
    }

    /** Empty lists and one empty entry per default fileset (the corrected initialisation). */
    constructor (defaultFilesets: seq<string>)
      ensures forall c :: ListOf(c) == []
      ensures filesetDict == InitialFilesetDict(defaultFilesets)
    {
      verilogSources, verilogHeaders, vhdlSources, defines := [], [], [], [];
      xciFiles, xdcFiles, memFiles, bdFiles := [], [], [], [];
      var d: FilesetDict := map[];
      for i := 0 to |defaultFilesets|
        invariant d.Keys == set fs | fs in defaultFilesets[..i]
        invariant forall fs :: fs in d ==> d[fs] == map[]
      {
        assert defaultFilesets[..i + 1] == defaultFilesets[..i] + [defaultFilesets[i]];
        d := d[defaultFilesets[i] := map[]];
      }
      assert defaultFilesets[..|defaultFilesets|] == defaultFilesets;
      filesetDict := d;
    }

    /** `_add_to_fileset_dict`: file every item of `container` under `name`. */
    method AddToFilesetDict(name: string, container: seq<Item>)
      modifies this
      ensures filesetDict == AddAll(old(filesetDict), name, container)
      ensures Lists() == old(Lists())
    {
      for i := 0 to |container|
        invariant filesetDict == AddAll(old(filesetDict), name, container[..i])
        invariant Lists() == old(Lists())
      {
        assert container[..i + 1][..i] == container[..i];
        AddOne(name, container[i]);
      }
      assert container[..|container|] == container;
    }

    /** One pass of the loop in `_add_to_fileset_dict`: create the fileset and the list when absent, then append. */
    method AddOne(name: string, item: Item)
      modifies this
      ensures filesetDict == AddItem(old(filesetDict), name, item)
      ensures Lists() == old(Lists())
    {
      if item.fileset in filesetDict {
        if name in filesetDict[item.fileset] {
          var inner := filesetDict[item.fileset];
          filesetDict := filesetDict[item.fileset := inner[name := inner[name] + [item]]];
        } else {
          filesetDict := filesetDict[item.fileset := filesetDict[item.fileset][name := [item]]];
        }
      } else {
        filesetDict := filesetDict[item.fileset := map[]];
        filesetDict := filesetDict[item.fileset := filesetDict[item.fileset][name := [item]]];
      }
    }

    /** `populate_fileset_dict`: the four categories in order, appended to what is there. */
    method PopulateFilesetDict()
      modifies this
      ensures filesetDict == Populate(old(filesetDict), verilogSources, verilogHeaders, vhdlSources, defines)
      ensures Lists() == old(Lists())
    {
      AddToFilesetDict("verilog_sources", verilogSources);
      AddToFilesetDict("verilog_headers", verilogHeaders);
      AddToFilesetDict("vhdl_sources", vhdlSources);
      AddToFilesetDict("defines", defines);
    }

    /** Append `item` to the list of class `c`, as each branch of `add_sources` in anasymod/analysis.py does. */
    method Append(c: SourceClass, item: Item)
      modifies this
      ensures forall c' :: ListOf(c') == old(ListOf(c')) + (if c' == c then [item] else [])
      ensures filesetDict == old(filesetDict)
    {
      match c
      case VerilogSource => verilogSources := verilogSources + [item];
      case VerilogHeader => verilogHeaders := verilogHeaders + [item];
      case VhdlSource => vhdlSources := vhdlSources + [item];
      case Define => defines := defines + [item];
      case XciFile => xciFiles := xciFiles + [item];
      case XdcFile => xdcFiles := xdcFiles + [item];
      case MemFile => memFiles := memFiles + [item];
      case BdFile => bdFiles := bdFiles + [item];
    }

    /** `add_source`: the source joins every list whose class it is an instance of. */
    method AddSource(source: Item)
      modifies this
      ensures verilogSources == old(verilogSources) + (if VerilogSource in source.classes then [source] else [])
      ensures verilogHeaders == old(verilogHeaders) + (if VerilogHeader in source.classes then [source] else [])
      ensures vhdlSources == old(vhdlSources) + (if VhdlSource in source.classes then [source] else [])
      ensures forall c :: c !in {VerilogSource, VerilogHeader, VhdlSource} ==> ListOf(c) == old(ListOf(c))
      ensures filesetDict == old(filesetDict)
    {
      if VerilogSource in source.classes {
        verilogSources := verilogSources + [source];
      }
      if VerilogHeader in source.classes {
        verilogHeaders := verilogHeaders + [source];
      }
      if VhdlSource in source.classes {
        vhdlSources := vhdlSources + [source];
      }
    }

    /** `add_define`: the define joins the list of defines, whatever its class. */
    method AddDefine(define: Item)
      modifies this
      ensures defines == old(defines) + [define]
      ensures forall c :: c != Define ==> ListOf(c) == old(ListOf(c))
      ensures filesetDict == old(filesetDict)
    {
      defines := defines + [define];
    }
  }
}
