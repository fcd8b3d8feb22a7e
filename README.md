# anasymod bookkeeping core, modelled in Dafny

anasymod generates the SystemVerilog top level and the hardware scripts for
running an analog/mixed-signal design on an FPGA emulator. This project models
four pieces of anasymod that hold sequential logic, and proves properties of
each:

- **Top-level structure generator** (`ModuleTop.__init__`), in `module_top.dfy`.
  - It walks the derived clocks in declaration order. For each clock it writes assignment lines: a comment, forwarded `emu_dt`/`emu_clk`/`emu_rst`, `dt_req[k]`, and the `clk_vals[k]`/`clks[k]` pair.
  - Two counters number the time-step requests and the gated clocks.
  - Lines are abstract `Line` records, and the loop is a method proved against the function `DerivedAssigns`.
  - The control and probe signals, and their bindings to absolute paths, are `CtrlFabric` and `ProbeFabric` records.
  - The template's conditional blocks are chosen from the two counts and the probe count.
- **Capture-window calculator** (`TemplEXECUTE_FPGA_SIM.__init__`), in `execute_fpga_sim.dfy`.
  - It computes the window count, the decimation ratio, and the start time as a fixed-point trigger value with its `"{width}'u{n}"` literal.
  - Times are exact reals, and Python's `round` is written out as round-half-to-even.
  - The exceptions the code can raise form the error path of a `Result`.
- **Fileset bookkeeping** (`Filesets`), in `filesets.dfy`.
  - A class with the source lists and the two-level dictionary fileset → category → items.
  - The dictionary operations are proved against the functions `AddItem`, `AddAll` and `Populate`.
- **Analysis bookkeeping** (`Analysis`), in `analysis.dfy`. The `Analysis` class covers:
  - the de-duplicated target lists and the setup-finished table;
  - `set_target`;
  - the type dispatch of `add_sources`;
  - the populate-once flag of `_setup_targets`.

  The step-preserving waveform transform `preserve` is a method proved against `PreserveSpec`.

`wrappers.dfy` holds the `Option` and `Result` types the modules share.

Source and define objects are abstract `Item`s. Each carries:
- the set of source classes the object is an instance of;
- an identity;
- its fileset.

The class hierarchy in `anasymod/sources.py` is not part of this model, so an object's classes are an input.

The model follows the code in these places:
- The gated clock count `n_clks` counts clocks with a gated output only. A gated clock without a request path is not rejected: its `clk_vals` line reads `None`.
- The decimation divisor is the real `ila_depth / 2`, not the integer window count.
- There is no check that `stop_time > start_time` or that `dt > 0`, and the start-time value is not clamped to the width.
- Control and probe bindings are not checked for duplicate names.
- `populate_fileset_dict` appends to the lists already in the dictionary. Its docstring (anasymod/filesets.py:90-93) says they are overwritten. `Filesets.PopulateTwiceDuplicates` shows what the code does.
- `_setup_targets` tests the CPU targets before the FPGA targets, while `set_target` tests the FPGA targets first.

## Model

| member | source | states |
|---|---|---|
| ModuleTop.ClkBlock | anasymod/structures/module_top.py:62-75 | one clock's lines: between one and seven of them, the first being the comment with the clock's name |
| ModuleTop.ClkBlockShape | anasymod/structures/module_top.py:62-75 | a clock's lines start with its comment; there is one line per present path (two for a gated clock) and none for an absent one; every line belongs to the clock; the order is comment, emu_dt, emu_clk, emu_rst, dt_req, clk_vals, clks |
| ModuleTop.WriteClkLines | anasymod/structures/module_top.py:62-75 | one loop iteration writes exactly that clock's block; each counter advances by one exactly when its path is present |
| ModuleTop.DerivedClkAssignments | anasymod/structures/module_top.py:57-78 | the loop's lines are the clocks' blocks in declaration order; the final counters are the number of clocks with a dt request and the number with a gated output |
| ModuleTop.NumDtReqs | anasymod/structures/module_top.py:57-77 | the final dt_req_cnt is at most the number of derived clocks |
| ModuleTop.NumGatedClks | anasymod/structures/module_top.py:58-78 | the final gated_clks_cnt is at most the number of derived clocks |
| ModuleTop.DerivedAssigns | anasymod/structures/module_top.py:57-78 | the derived-clock block has at least one line (the comment) and at most seven lines per clock |
| ModuleTop.DtReqNumbering | anasymod/structures/module_top.py:57-77 | the dt_req lines are numbered 0..num_dt_reqs-1 in declaration order, and line k reads the k-th requesting clock's path |
| ModuleTop.GatedNumbering | anasymod/structures/module_top.py:58-78 | the clk_vals and clks lines are each numbered 0..num_gated_clks-1 in declaration order; clk_vals[k] reads the k-th gated clock's request (possibly None), and clks[k] drives its gated output |
| ModuleTop.GatedPairsAdjacent | anasymod/structures/module_top.py:72-75 | every clk_vals[k] line is immediately followed by the clks[k] line with the same k |
| ModuleTop.OneCommentPerClock | anasymod/structures/module_top.py:61-62 | each derived clock gets exactly one comment line, in declaration order |
| ModuleTop.CtrlDeclarations | anasymod/structures/module_top.py:84-87 | the declared control signals are, in this order, the analog inputs, analog outputs, digital inputs and digital outputs of the configuration, then dec_thr and reset |
| ModuleTop.CtrlBindings | anasymod/structures/module_top.py:107-112 | one binding per control signal: the k-th of digital inputs then analog inputs drives the design at its absolute path, then the k-th of digital outputs then analog outputs reads it |
| ModuleTop.CtrlFabricOf | anasymod/structures/module_top.py:84-112 | the declarations in the order analog inputs, analog outputs, digital inputs, digital outputs, dec_thr, reset; the control module's inputs are the analog then digital outputs followed by emu_clk, and its outputs the analog then digital inputs followed by dec_thr and reset; the bindings position by position as in CtrlBindings |
| ModuleTop.CtrlSignalsConnectedOnce | anasymod/structures/module_top.py:84-101 | every declared control signal is a port of the control module (emu_clk aside) exactly as often as it is declared |
| ModuleTop.ProbeFabricOf | anasymod/structures/module_top.py:118-136 | the probes are the digital probes, then the analog probes, then the time probe, in that order, so there is at least one; the trace port reads them all plus emu_clk; each probe reads the design at its absolute path |
| ModuleTop.Flatten | anasymod/structures/module_top.py:19-22 | every include statement of every plugin is written to the plugin includes, and nothing else is |
| ModuleTop.FlattenAppend | anasymod/structures/module_top.py:19-22 | the includes are written plugin by plugin, in plugin order: those of a list of plugins followed by another are the first list's includes followed by the second's |
| ModuleTop.FlattenSingle | anasymod/structures/module_top.py:19-22 | a single plugin contributes exactly its own include statements, in their order and without duplicates added |
| ModuleTop.Sections | anasymod/structures/module_top.py:180-266 | a block is emitted exactly when its guard holds; the time manager appears iff num_dt_reqs != 0 and fixed-step emu_time otherwise; gen_emu_clks appears iff num_gated_clks != 0 and the emu_clk_2x divider otherwise |
| ModuleTop.Build | anasymod/structures/module_top.py:10-144 | the generator's outputs: ports, clock generator connections, the derived-clock block with its two counts, the control and probe fabrics, num_probes >= 1, and the template blocks selected by the counts |
| ExecuteFpgaSim.WindowCount | anasymod/blocks/execute_FPGA_sim.py:25 | the window count is ila_depth // 2, that is 2r <= ila_depth < 2r + 2 |
| ExecuteFpgaSim.RoundHalfEven | anasymod/blocks/execute_FPGA_sim.py:32 | Python's round: within one half of the argument, and even on a tie |
| ExecuteFpgaSim.RoundIsNearest | anasymod/blocks/execute_FPGA_sim.py:32 | no integer is nearer to the argument than its rounding, and an integer rounds to itself |
| ExecuteFpgaSim.RawDecimationRatio | anasymod/blocks/execute_FPGA_sim.py:31-32 | the ratio before clamping, plus one, is an integer within one half of ((stop-start)/dt)/(ila_depth/2) |
| ExecuteFpgaSim.DecimationRatio | anasymod/blocks/execute_FPGA_sim.py:31-33 | the ratio is at least 2; it equals round(((stop-start)/dt)/(ila_depth/2)) - 1 when that is at least 2, and is 2 otherwise |
| ExecuteFpgaSim.HalfDepthAndWindowCount | anasymod/blocks/execute_FPGA_sim.py:25-31 | the divisor ila_depth/2 equals the window count for even depths and exceeds it by one half for odd depths |
| ExecuteFpgaSim.DecimationExampleLongRun | anasymod/blocks/execute_FPGA_sim.py:31-33 | start 0, stop 10000, dt 1, depth 1024 gives 512 windows and ratio 19 |
| ExecuteFpgaSim.DecimationExampleShortRun | anasymod/blocks/execute_FPGA_sim.py:31-33 | start 0, stop 100, dt 0.5, depth 1024 gives raw ratio -1, clamped to 2 |
| ExecuteFpgaSim.Pow2Inverse | anasymod/blocks/execute_FPGA_sim.py:42 | 2**e * 2**(-e) == 1 for every integer e |
| ExecuteFpgaSim.EncodeTime | anasymod/blocks/execute_FPGA_sim.py:42 | the trigger value is within one half of start_time * 2**(-exponent) |
| ExecuteFpgaSim.DecodeEncode | anasymod/blocks/execute_FPGA_sim.py:42 | the trigger value, read back in units of 2**exponent, is within half a unit of the start time |
| ExecuteFpgaSim.EncodeDecode | anasymod/blocks/execute_FPGA_sim.py:42 | a start time that is a whole number of units encodes to exactly that number |
| ExecuteFpgaSim.ParseInt | anasymod/blocks/execute_FPGA_sim.py:39 | int() succeeds exactly on an optionally signed decimal literal, and otherwise raises ValueError |
| ExecuteFpgaSim.IntToString | anasymod/blocks/execute_FPGA_sim.py:43 | `str` of an integer is its canonical decimal text: '-' first exactly when it is negative, then digits only, with no leading zero unless the text is "0" |
| ExecuteFpgaSim.ParseIntToString | anasymod/blocks/execute_FPGA_sim.py:39-43 | parsing the decimal text of an integer gives the integer back |
| ExecuteFpgaSim.Calculate | anasymod/blocks/execute_FPGA_sim.py:25-43 | ZeroDivisionError exactly when dt or ila_depth is 0; otherwise IndexError exactly when there is no time signal; otherwise ValueError exactly when the exponent is not an integer literal; on success the window count, the ratio (at least 2), the time name from the first time signal, the start value encoded with the parsed exponent, and its literal width'u<decimal> |
| ExecuteFpgaSim.CalculateStartTimeAccuracy | anasymod/blocks/execute_FPGA_sim.py:42-43 | a successful calculation's trigger value stands for the start time to within half a time unit |
| Filesets.AddItem | anasymod/filesets.py:112-120 | one item is appended to its fileset's list for the category; a missing fileset is created with that single entry and a missing list with that single item; every other fileset and category is unchanged |
| Filesets.AddAll | anasymod/filesets.py:107-120 | `_add_to_fileset_dict` never removes a fileset |
| Filesets.AddAllKeys | anasymod/filesets.py:107-120 | `_add_to_fileset_dict` adds exactly the filesets of the container's items to the keys |
| Filesets.AddAllEntry | anasymod/filesets.py:111-116 | afterwards each fileset's list for the category has gained that fileset's items of the container, in container order |
| Filesets.AddAllOtherEntry | anasymod/filesets.py:107-120 | every other category of every fileset is unchanged |
| Filesets.AddAllKeepsCategories | anasymod/filesets.py:111-120 | an existing category of an existing fileset is never removed |
| Filesets.Populate | anasymod/filesets.py:89-105 | `populate_fileset_dict` never removes a fileset |
| Filesets.PopulateEntries | anasymod/filesets.py:89-105 | population appends verilog sources, verilog headers, VHDL sources and defines to their categories, fileset by fileset, and adds the filesets they name |
| Filesets.PopulateOtherEntry | anasymod/filesets.py:89-105 | population touches no category besides the four it fills |
| Filesets.PopulateTwiceDuplicates | anasymod/filesets.py:89-105 | populating twice from the same lists files every verilog source, verilog header, VHDL source and define twice |
| Filesets.InitialFilesetDict | anasymod/filesets.py:21-25 | corrected initialisation: the keys are exactly the default filesets, each with an empty entry |
| Filesets.InitialFilesetDictAsWritten | anasymod/filesets.py:22-25 | as written, the initial dictionary never has the "default" fileset |
| Filesets.InitialFilesetDictAsWrittenIsEmpty | anasymod/filesets.py:22-25 | as written, the initial dictionary is empty for every argument, and so differs from the intended one whenever default filesets are given |
| Filesets.InitialFilesetDictExample | anasymod/filesets.py:6-25 | with the default argument, "default" is missing as written and present when corrected |
| Filesets.Filesets.constructor | anasymod/filesets.py:6-28 | every list starts empty, and the dictionary is the corrected initial one |
| Filesets.Filesets.AddToFilesetDict | anasymod/filesets.py:107-120 | the loop leaves the dictionary equal to AddAll of the old dictionary over the container, and the lists unchanged |
| Filesets.Filesets.AddOne | anasymod/filesets.py:112-120 | one pass of the `_add_to_fileset_dict` loop: the dictionary becomes AddItem of the old one, creating the fileset and the list when absent, and the lists are unchanged |
| Filesets.Filesets.PopulateFilesetDict | anasymod/filesets.py:89-105 | the dictionary becomes Populate of the old one over the four lists, which are unchanged |
| Filesets.Filesets.Append | anasymod/analysis.py:223-238 | one branch of the add_sources chain appends to the list of its class only, and leaves the dictionary unchanged |
| Filesets.Filesets.AddSource | anasymod/filesets.py:123-129 | the source is appended to each of the verilog source, verilog header and VHDL lists whose class it is an instance of; every other list and the dictionary are unchanged |
| Filesets.Filesets.AddDefine | anasymod/filesets.py:131-132 | the define is appended to the defines and nothing else changes |
| Analysis.Dedup | anasymod/analysis.py:63-79 | the target list holds exactly the names of the input |
| Analysis.DedupDistinct | anasymod/analysis.py:63-79 | the target lists have no duplicates |
| Analysis.DedupExtends | anasymod/analysis.py:63-79 | names are only appended, so a longer configuration extends the list of a shorter one |
| Analysis.DedupKeepsFirst | anasymod/analysis.py:63-74 | 'fpga' and 'sim' stay first in their lists |
| Analysis.DedupOfDistinct | anasymod/analysis.py:63-79 | custom targets that are distinct and differ from the first name are kept as they are, in configuration order |
| Analysis.TargetList | anasymod/analysis.py:63-79 | the loop that appends each custom target not yet present computes Dedup([first] + custom) |
| Analysis.Unfinished | anasymod/analysis.py:81-84 | the table's keys are exactly the CPU and FPGA targets, all False |
| Analysis.DomainOf | anasymod/analysis.py:251-257 | a name selects the FPGA domain iff it is an FPGA target, the CPU domain iff it is a CPU target and not an FPGA target, and nothing otherwise |
| Analysis.SourceList | anasymod/analysis.py:220-221 | a single object becomes a one-element list, and a list is kept |
| Analysis.FirstMatch | anasymod/analysis.py:222-240 | an object is filed under the earliest class of the chain it is an instance of, and skipped exactly when it is an instance of none |
| Analysis.Routed | anasymod/analysis.py:222-240 | each list receives only objects whose first matching class is its own |
| Analysis.RoutedCount | anasymod/analysis.py:222-240 | every occurrence of an object goes to the list of its first matching class and to no other list |
| Analysis.Skipped | anasymod/analysis.py:239-240 | the skipped objects are among the given ones and are instances of no known class |
| Analysis.SkippedCount | anasymod/analysis.py:239-240 | exactly the occurrences of objects of no known class are skipped |
| Analysis.AttributeAsWritten | anasymod/analysis.py:223-238 | as the Filesets class is written, only the XCI, XDC, MEM and BD branches target missing attributes |
| Analysis.AddSourcesAsWritten | anasymod/analysis.py:222-238 | as written, the object add_sources stops at is one of the given objects and is an XCI, XDC, MEM or BD file |
| Analysis.AddSourcesAsWrittenFails | anasymod/analysis.py:222-238 | as written, add_sources raises iff some object's first matching class is XCI, XDC, MEM or BD, and it stops at such an object |
| Analysis.AddSourcesAsWrittenExample | anasymod/analysis.py:233-234 | a single XDC file makes add_sources fail as written, while the corrected dispatch files it |
| Analysis.PreserveSpec | anasymod/analysis.py:392-400 | the output of preserve ends with the input's last sample |
| Analysis.PreserveLength | anasymod/analysis.py:392-400 | the output length is the input length plus the number of value changes |
| Analysis.PreserveKeepsSamples | anasymod/analysis.py:392-400 | every input sample appears in order at its position; the first sample comes first; before each changed sample comes one sample with its time and the previous value |
| Analysis.PreserveConstant | anasymod/analysis.py:395-400 | a waveform that never changes value comes back unchanged |
| Analysis.Preserve | anasymod/analysis.py:386-400 | the loop over samples that tracks the previous value computes PreserveSpec |
| Analysis.PopulateKeepsDefault | anasymod/analysis.py:536-547 | once "default" is a fileset, population keeps it, so target setup can read it |
| Analysis.PopulateAsWrittenLacksDefault | anasymod/analysis.py:536-547 | as written, a Filesets object whose only item belongs to "sim" has no "default" fileset after population, so reading it raises KeyError |
| Analysis.Analysis.constructor | anasymod/analysis.py:62-86 | the FPGA and CPU lists are Dedup of 'fpga' and 'sim' followed by the custom targets; every target is unfinished; the fileset dictionary is not populated |
| Analysis.Analysis.Create | anasymod/analysis.py:62-103 | construction followed by set_target on the configured active target: the target lists and table as for the constructor, the active target moved to the name when it is an FPGA or else a CPU target, and failure exactly for an unknown name |
| Analysis.Analysis.SetupFilesets | anasymod/analysis.py:154-165 | a fresh Filesets over "default" and every target, with the "default" fileset present (the corrected Filesets constructor, see ## Findings) |
| Analysis.Analysis.SetTarget | anasymod/analysis.py:244-257 | the active target becomes the name even when it is unknown; the FPGA active target follows the name when it is an FPGA target, otherwise the CPU active target follows it when it is a CPU target, otherwise the call raises |
| Analysis.Analysis.AddSources | anasymod/analysis.py:212-242 | each list gains exactly its routed objects in order, the dictionary is unchanged, and population is requested again; without a Filesets object the call raises iff some object would be filed |
| Analysis.Analysis.SetupTargets | anasymod/analysis.py:527-592 | populates only when not yet populated and then sets the flag; raises KeyError iff the active target is known and "default" is missing, which the corrected Filesets rules out; on success marks the active target as set up |

## Left out

- Analysis.Analysis.constructor ends before the `set_target` call of `__init__` (anasymod/analysis.py:103); `Analysis.Analysis.Create` models construction together with that call, including its failure for an unknown target.
- The two `print` warnings are left out: "Custom fileset was added" (anasymod/filesets.py:118) and the skipped-source warning (anasymod/analysis.py:240). They are console output only; the skip itself is modelled.
- Text output is left out: the SVAPI/ModuleInst rendering (`gen_signal`, `generate_instantiation`, `assign_to`), Jinja rendering and whitespace, and the `TEMPLATE_TEXT` bodies. Those libraries are outside the model, so lines, ports and bindings are records.
- The SystemVerilog module header of `ModuleTop` (line 31) is represented only by its input list.
- Floating point is left out. Times and `dt` are exact reals, so IEEE-754 rounding, infinities and NaN are not modelled. This includes `int(round(...))` raising on an infinite or NaN ratio, and NaN values in `preserve`.
- ExecuteFpgaSim.Calculate returns the window count and the decimation ratio as integers; the source converts them to text with `str`.
- ExecuteFpgaSim.ParseInt accepts only ASCII digits with an optional sign. It does not accept the surrounding whitespace, digit-group underscores or non-ASCII digits that Python's `int` also accepts.
- A time-signal entry is always a name, a width and an exponent. Unpacking an entry of another length, which would raise ValueError, is not modelled.
- The I/O and configuration parts of `TemplEXECUTE_FPGA_SIM` are left out: reading the probe configuration, file paths, JTAG and device settings.
- `Filesets.read_filesets` and `_parseconfig` are left out. They read files and `eval` configuration lines as Python code.
- The rest of `setup_filesets` is left out: reading source files, plugin sources and defines, and the default `tb.sv`/`gen_ctrlwrap.sv` sources and defines. It depends on plugins, configuration files and paths.
- Dictionary key order is not modelled: Dafny maps are unordered. List order inside a category is modelled.
- The active target is always a name; `None` as the active target is not modelled.
- Target objects, their configuration, structure generation, `_update_build_root` and everything `build`, `emulate`, `simulate`, `launch` and `view` do are left out. These are tool invocations and file-system work.
- The rest of the `Analysis` class is left out: YAML loading, argument parsing, plugin import, and VCD probe reading.
- The numpy conversion in `preserve` (`dtype='float'` with an object fallback, and the transposes) is left out. Waveforms are sequences of time/value samples compared by value equality.
- A sample whose value is `None` is not modelled. In the source it would disable the change test for the next sample.
- `anasymod/sim/vivado.py` is not part of this model. It builds TCL and launches Vivado.
- `anasymod/sources.py` and `anasymod/defines.py` are not part of this model. An object's classes are given as a set.

## Findings

| source | as written | input that shows it | evidently intended | confidence | as-written member | corrected member |
|---|---|---|---|---|---|---|
| anasymod/filesets.py:23 | the loop that creates one empty entry per default fileset runs only under `if not default_filesets`, that is over an empty list, so `fileset_dict` always starts empty; `_setup_targets` then reads `filesets['default']` (anasymod/analysis.py:547) and raises KeyError unless some object belongs to "default" | `Filesets(root, default_filesets=['default', 'sim', 'fpga'])`, then one Verilog source in fileset "sim". Through `setup_filesets` the KeyError also needs the define DEC_BITS_MSDSL (anasymod/analysis.py:197), added without a fileset, to miss "default"; its default fileset is set in anasymod/defines.py, which is not part of this model | `if default_filesets:`, giving one empty entry per default fileset, with "default" always present | high, not executed | Filesets.InitialFilesetDictAsWrittenIsEmpty | Filesets.InitialFilesetDict |
| anasymod/analysis.py:231-238 | the XCI, XDC, MEM and BD branches of `add_sources` append to `_xci_files`, `_xdc_files`, `_mem_files` and `_bd_files`, which the `Filesets` class never creates, so filing such an object raises AttributeError | `add_sources(XDCFile(...))` on a project after `setup_filesets` | `Filesets` owns those four lists, empty at construction, and each branch appends to its own list | medium (anasymod modules not modelled here, such as the plugins or sources.py, could set the attributes), not executed | Analysis.AddSourcesAsWrittenFails | Analysis.Analysis.AddSources |
