/** The Verilator driver (siliconcompiler/tools/verilator/verilator.py):
    the settings `setup` writes for a node, the command line
    `runtime_options` builds, and the version parser. The node's step, index
    and task, the number of processors and the results of `find_files` and
    of the test for a pickled input are parameters. */
module Verilator {
  import opened Wrappers
  import opened Text
  import opened Store

  const TOOL := "verilator"

  /** The task's own settings: `tool, verilator, task, <task>, <name>`. */
  function TaskPath(task: string, name: string): seq<string>
  {
    ["tool", TOOL, "task", task, name]
  }

  function ExeKey(): Key { Global(["tool", TOOL, "exe"]) }
  function VswitchKey(): Key { Global(["tool", TOOL, "vswitch"]) }
  function VersionKey(): Key { Global(["tool", TOOL, "version"]) }
  function RelaxKey(): Key { Global(["option", "relax"]) }

  function ThreadsKey(step: string, index: string, task: string): Key
  {
    Key(TaskPath(task, "threads"), step, index)
  }

  function RegexKey(step: string, index: string, task: string, kind: string): Key
  {
    Key(TaskPath(task, "regex") + [kind], step, index)
  }

  function OptionKey(step: string, index: string, task: string): Key
  {
    Key(TaskPath(task, "option"), step, index)
  }

  function WarningOffKey(step: string, index: string, task: string): Key
  {
    Key(TaskPath(task, "warningoff"), step, index)
  }

  function TraceKey(step: string, index: string): Key
  {
    Key(["option", "trace"], step, index)
  }

  /** The key-path the trace branch writes as the file stands, with
      `task, <task>` written twice. */
  function DoubledTaskOptionKey(step: string, index: string, task: string): Key
  {
    Key(["tool", TOOL, "task", task, "task", task, "option"], step, index)
  }

  /** The length of a key-path and its last name; the keys this driver
      reads and writes all differ in one or the other. */
  function Tag(k: Key): (nat, string)
  {
    (|k.path|, if |k.path| > 0 then k.path[|k.path| - 1] else "")
  }

  lemma KeyTags(step: string, index: string, task: string)
    ensures Tag(ExeKey()) == (3, "exe")
    ensures Tag(VswitchKey()) == (3, "vswitch")
    ensures Tag(VersionKey()) == (3, "version")
    ensures Tag(RelaxKey()) == (2, "relax")
    ensures Tag(TraceKey(step, index)) == (2, "trace")
    ensures Tag(ThreadsKey(step, index, task)) == (5, "threads")
    ensures Tag(OptionKey(step, index, task)) == (5, "option")
    ensures Tag(WarningOffKey(step, index, task)) == (5, "warningoff")
    ensures Tag(RegexKey(step, index, task, "warnings")) == (6, "warnings")
    ensures Tag(RegexKey(step, index, task, "errors")) == (6, "errors")
    ensures Tag(DoubledTaskOptionKey(step, index, task)) == (7, "option")
  {
  }

  /** The keys `setup` reads are none of those it writes, and the doubled
      key-path is not the option list. */
  lemma KeysApart(step: string, index: string, task: string)
    ensures RelaxKey() !in SetupKeys(step, index, task)
    ensures TraceKey(step, index) !in SetupKeys(step, index, task)
    ensures WarningOffKey(step, index, task) !in SetupKeys(step, index, task)
    ensures DoubledTaskOptionKey(step, index, task) !in SetupKeys(step, index, task)
    ensures VersionKey() !in {ExeKey(), VswitchKey(), ThreadsKey(step, index, task),
      RegexKey(step, index, task, "warnings"), RegexKey(step, index, task, "errors"), OptionKey(step, index, task)}
    ensures ThreadsKey(step, index, task) !in {ExeKey(), VswitchKey(), VersionKey(),
      RegexKey(step, index, task, "warnings"), RegexKey(step, index, task, "errors"), OptionKey(step, index, task)}
    ensures RegexKey(step, index, task, "warnings") !in {ExeKey(), VswitchKey(), VersionKey(),
      ThreadsKey(step, index, task), RegexKey(step, index, task, "errors"), OptionKey(step, index, task)}
    ensures RegexKey(step, index, task, "errors") !in {ExeKey(), VswitchKey(), VersionKey(),
      ThreadsKey(step, index, task), RegexKey(step, index, task, "warnings"), OptionKey(step, index, task)}
  {
    KeyTags(step, index, task);
  }

  /** The options relaxed mode appends. */
  const RELAX_FLAGS: seq<string> := ["-Wno-fatal", "-Wno-UNOPTFLAT"]

  /** The tool's fixed settings and the defaults `setup` does not clobber:
      the first six calls of `setup`. */
  function Defaults(cfg: Config, step: string, index: string, task: string, cpuCount: nat): Config
  {
    var c1 := Assign(cfg, ExeKey(), Str("verilator"));
    var c2 := Assign(c1, VswitchKey(), Strs(["--version"]));
    var c3 := AssignDefault(c2, VersionKey(), Strs([">=4.028"]));
    var c4 := AssignDefault(c3, ThreadsKey(step, index, task), Num(cpuCount));
    var c5 := AssignDefault(c4, RegexKey(step, index, task, "warnings"), Strs(["^\\%Warning"]));
    AssignDefault(c5, RegexKey(step, index, task, "errors"), Strs(["^\\%Error"]))
  }

  /** The option calls of `setup` applied to `c`: the list is replaced by
      `-sv`, then grown; the relax flag, the warning list and the trace flag
      are those of `cfg`, and `--trace` goes under `traceKey`. */
  function OptionCalls(c: Config, cfg: Config, step: string, index: string, task: string, design: string,
                       traceKey: Key): Config
  {
    var opt := OptionKey(step, index, task);
    var c7 := Assign(c, opt, Strs(["-sv"]));
    var c8 := Append(c7, opt, ["--top-module " + design]);
    var c9 := if Flag(cfg, RelaxKey()) then Append(c8, opt, RELAX_FLAGS) else c8;
    var c10 := Append(c9, opt, Prefixed("-Wno-", Items(cfg, WarningOffKey(step, index, task))));
    if Flag(cfg, TraceKey(step, index)) then Append(c10, traceKey, ["--trace"]) else c10
  }

  /** The settings after `setup`, with the `--trace` flag added under
      `traceKey`. `setup` never writes the keys it reads, so reading them
      from the configuration before the call is the same. */
  function Configure(cfg: Config, step: string, index: string, task: string, design: string,
                     cpuCount: nat, traceKey: Key): Config
  {
    OptionCalls(Defaults(cfg, step, index, task, cpuCount), cfg, step, index, task, design, traceKey)
  }

  /** The option calls leave every key but the option list and `traceKey`
      alone. */
  lemma OptionCallsFrame(c: Config, cfg: Config, step: string, index: string, task: string, design: string,
                         traceKey: Key, k: Key)
    requires k in c && k != OptionKey(step, index, task) && k != traceKey
    ensures var r := OptionCalls(c, cfg, step, index, task, design, traceKey);
      k in r && r[k] == c[k]
  {
  }

  /** The defaults leave every other key alone. */
  lemma DefaultsFrame(cfg: Config, step: string, index: string, task: string, cpuCount: nat, k: Key)
    requires k !in SetupKeys(step, index, task)
    ensures var r := Defaults(cfg, step, index, task, cpuCount);
      (k in r <==> k in cfg) && (k in cfg ==> r[k] == cfg[k])
  {
  }

  /** `setup` as written: the trace flag lands under the doubled key-path. */
  function SetupAsWritten(cfg: Config, step: string, index: string, task: string, design: string,
                          cpuCount: nat): Config
  {
    Configure(cfg, step, index, task, design, cpuCount, DoubledTaskOptionKey(step, index, task))
  }

  /** `setup` with the trace flag added to the option list of the node's task. */
  function SetupConfig(cfg: Config, step: string, index: string, task: string, design: string,
                       cpuCount: nat): Config
  {
    Configure(cfg, step, index, task, design, cpuCount, OptionKey(step, index, task))
  }

  /** The option list `setup` leaves, whatever the list held before. */
  function SetupOptions(cfg: Config, step: string, index: string, task: string, design: string): seq<string>
  {
    ["-sv", "--top-module " + design]
      + (if Flag(cfg, RelaxKey()) then RELAX_FLAGS else [])
      + Prefixed("-Wno-", Items(cfg, WarningOffKey(step, index, task)))
      + (if Flag(cfg, TraceKey(step, index)) then ["--trace"] else [])
  }

  /** The keys `setup` writes. */
  function SetupKeys(step: string, index: string, task: string): set<Key>
  {
    {ExeKey(), VswitchKey(), VersionKey(), ThreadsKey(step, index, task),
     RegexKey(step, index, task, "warnings"), RegexKey(step, index, task, "errors"),
     OptionKey(step, index, task)}
  }

  /** The option list the option calls leave, whatever it held before:
      `-sv`, the top module, the relax flags, one `-Wno-` per suppressed
      warning, and `--trace` when tracing is on and lands on this list. */
  lemma OptionCallsList(c: Config, cfg: Config, step: string, index: string, task: string, design: string,
                        traceKey: Key)
    ensures Items(OptionCalls(c, cfg, step, index, task, design, traceKey), OptionKey(step, index, task))
      == ["-sv", "--top-module " + design]
         + (if Flag(cfg, RelaxKey()) then RELAX_FLAGS else [])
         + Prefixed("-Wno-", Items(cfg, WarningOffKey(step, index, task)))
         + (if Flag(cfg, TraceKey(step, index)) && traceKey == OptionKey(step, index, task) then ["--trace"] else [])
  {
    var opt := OptionKey(step, index, task);
    var head := ["-sv", "--top-module " + design];
    var relax := if Flag(cfg, RelaxKey()) then RELAX_FLAGS else [];
    var warnings := Prefixed("-Wno-", Items(cfg, WarningOffKey(step, index, task)));
    var c7 := Assign(c, opt, Strs(["-sv"]));
    var c8 := Append(c7, opt, ["--top-module " + design]);
    assert Items(c8, opt) == head;
    var c9 := if Flag(cfg, RelaxKey()) then Append(c8, opt, RELAX_FLAGS) else c8;
    assert Items(c9, opt) == head + relax;
    var c10 := Append(c9, opt, warnings);
    assert Items(c10, opt) == head + relax + warnings;
    if Flag(cfg, TraceKey(step, index)) && traceKey != opt {
      AppendElsewhere(c10, traceKey, ["--trace"], opt);
    }
  }

  /** The option list after `setup` is `SetupOptions`. */
  lemma SetupOptionList(cfg: Config, step: string, index: string, task: string, design: string, cpuCount: nat)
    ensures Items(SetupConfig(cfg, step, index, task, design, cpuCount), OptionKey(step, index, task))
      == SetupOptions(cfg, step, index, task, design)
  {
    OptionCallsList(Defaults(cfg, step, index, task, cpuCount), cfg, step, index, task, design,
                    OptionKey(step, index, task));
  }

  /** Whatever the option list held, it begins `-sv, --top-module <design>`. */
  lemma OptionsBeginWithTop(cfg: Config, step: string, index: string, task: string, design: string, cpuCount: nat)
    ensures var opts := Items(SetupConfig(cfg, step, index, task, design, cpuCount), OptionKey(step, index, task));
      |opts| >= 2 && opts[..2] == ["-sv", "--top-module " + design]
  {
    SetupOptionList(cfg, step, index, task, design, cpuCount);
  }

  /** In relaxed mode the two relax flags come third and fourth, and the
      suppressed warnings follow them in order. */
  lemma RelaxedLayout(design: string, ws: seq<string>, trace: seq<string>, k: nat)
    requires k < |ws|
    ensures var opts := ["-sv", "--top-module " + design] + RELAX_FLAGS + Prefixed("-Wno-", ws) + trace;
      |opts| > 4 + k && opts[2..4] == RELAX_FLAGS && opts[4 + k] == "-Wno-" + ws[k]
  {
    var p := Prefixed("-Wno-", ws);
    Sections5(["-sv", "--top-module " + design], RELAX_FLAGS, p, trace, [], []);
    assert p[k] == "-Wno-" + ws[k];
  }

  /** The suppressed warnings follow the relax flags, one `-Wno-<w>` each,
      in the order of the warning list. */
  lemma WarningsFollowRelax(cfg: Config, step: string, index: string, task: string, design: string,
                            cpuCount: nat, k: nat)
    requires Flag(cfg, RelaxKey())
    requires k < |Items(cfg, WarningOffKey(step, index, task))|
    ensures var opts := Items(SetupConfig(cfg, step, index, task, design, cpuCount), OptionKey(step, index, task));
      |opts| > 4 + k && opts[2..4] == RELAX_FLAGS
      && opts[4 + k] == "-Wno-" + Items(cfg, WarningOffKey(step, index, task))[k]
  {
    SetupOptionList(cfg, step, index, task, design, cpuCount);
    RelaxedLayout(design, Items(cfg, WarningOffKey(step, index, task)),
                  if Flag(cfg, TraceKey(step, index)) then ["--trace"] else [], k);
  }

  lemma DefaultValues(cfg: Config, step: string, index: string, task: string, cpuCount: nat)
    ensures var d := Defaults(cfg, step, index, task, cpuCount);
      && VersionKey() in d
      && d[VersionKey()] == (if VersionKey() in cfg then cfg[VersionKey()] else Strs([">=4.028"]))
      && ThreadsKey(step, index, task) in d
      && d[ThreadsKey(step, index, task)]
         == (if ThreadsKey(step, index, task) in cfg then cfg[ThreadsKey(step, index, task)] else Num(cpuCount))
      && RegexKey(step, index, task, "warnings") in d
      && d[RegexKey(step, index, task, "warnings")]
         == (if RegexKey(step, index, task, "warnings") in cfg then cfg[RegexKey(step, index, task, "warnings")]
             else Strs(["^\\%Warning"]))
      && RegexKey(step, index, task, "errors") in d
      && d[RegexKey(step, index, task, "errors")]
         == (if RegexKey(step, index, task, "errors") in cfg then cfg[RegexKey(step, index, task, "errors")]
             else Strs(["^\\%Error"]))
  {
    var exe, vswitch, version := ExeKey(), VswitchKey(), VersionKey();
    var threads := ThreadsKey(step, index, task);
    var warnings, errors := RegexKey(step, index, task, "warnings"), RegexKey(step, index, task, "errors");
    KeyTags(step, index, task);
    assert version != exe && version != vswitch && version != threads && version != warnings && version != errors;
    assert threads != exe && threads != vswitch && threads != warnings && threads != errors;
    assert warnings != exe && warnings != vswitch && warnings != errors;
    assert errors != exe && errors != vswitch;
    var c1 := Assign(cfg, exe, Str("verilator"));
    var c2 := Assign(c1, vswitch, Strs(["--version"]));
    var c3 := AssignDefault(c2, version, Strs([">=4.028"]));
    var c4 := AssignDefault(c3, threads, Num(cpuCount));
    var c5 := AssignDefault(c4, warnings, Strs(["^\\%Warning"]));
    forall j | j in {version, threads, warnings, errors}
      ensures (j in c2) == (j in cfg) && (j in cfg ==> c2[j] == cfg[j])
    {
      AssignElsewhere(cfg, exe, Str("verilator"), j);
      AssignElsewhere(c1, vswitch, Strs(["--version"]), j);
    }
    AssignDefaultElsewhere(c3, threads, Num(cpuCount), version);
    AssignDefaultElsewhere(c4, warnings, Strs(["^\\%Warning"]), version);
    AssignDefaultElsewhere(c5, errors, Strs(["^\\%Error"]), version);
    AssignDefaultElsewhere(c2, version, Strs([">=4.028"]), threads);
    AssignDefaultElsewhere(c4, warnings, Strs(["^\\%Warning"]), threads);
    AssignDefaultElsewhere(c5, errors, Strs(["^\\%Error"]), threads);
    AssignDefaultElsewhere(c2, version, Strs([">=4.028"]), warnings);
    AssignDefaultElsewhere(c3, threads, Num(cpuCount), warnings);
    AssignDefaultElsewhere(c5, errors, Strs(["^\\%Error"]), warnings);
    AssignDefaultElsewhere(c2, version, Strs([">=4.028"]), errors);
    AssignDefaultElsewhere(c3, threads, Num(cpuCount), errors);
    AssignDefaultElsewhere(c4, warnings, Strs(["^\\%Warning"]), errors);
  }

  /** Version, threads and the two regexes keep a value already set and
      otherwise take the driver's default. */
  lemma DefaultsDoNotClobber(cfg: Config, step: string, index: string, task: string, design: string,
                             cpuCount: nat)
    ensures var r := SetupConfig(cfg, step, index, task, design, cpuCount);
      && VersionKey() in r
      && r[VersionKey()] == (if VersionKey() in cfg then cfg[VersionKey()] else Strs([">=4.028"]))
      && ThreadsKey(step, index, task) in r
      && r[ThreadsKey(step, index, task)]
         == (if ThreadsKey(step, index, task) in cfg then cfg[ThreadsKey(step, index, task)] else Num(cpuCount))
      && RegexKey(step, index, task, "warnings") in r
      && r[RegexKey(step, index, task, "warnings")]
         == (if RegexKey(step, index, task, "warnings") in cfg then cfg[RegexKey(step, index, task, "warnings")]
             else Strs(["^\\%Warning"]))
      && RegexKey(step, index, task, "errors") in r
      && r[RegexKey(step, index, task, "errors")]
         == (if RegexKey(step, index, task, "errors") in cfg then cfg[RegexKey(step, index, task, "errors")]
             else Strs(["^\\%Error"]))
  {
    KeysApart(step, index, task);
    var d := Defaults(cfg, step, index, task, cpuCount);
    DefaultValues(cfg, step, index, task, cpuCount);
    var opt := OptionKey(step, index, task);
    OptionCallsFrame(d, cfg, step, index, task, design, opt, VersionKey());
    OptionCallsFrame(d, cfg, step, index, task, design, opt, ThreadsKey(step, index, task));
    OptionCallsFrame(d, cfg, step, index, task, design, opt, RegexKey(step, index, task, "warnings"));
    OptionCallsFrame(d, cfg, step, index, task, design, opt, RegexKey(step, index, task, "errors"));
  }

  /** `setup` writes only its own keys; every other setting is untouched. */
  lemma SetupTouchesOnlyItsKeys(cfg: Config, step: string, index: string, task: string, design: string,
                                cpuCount: nat, k: Key)
    requires k in cfg && k !in SetupKeys(step, index, task)
    ensures var r := SetupConfig(cfg, step, index, task, design, cpuCount);
      k in r && r[k] == cfg[k]
  {
    KeysApart(step, index, task);
    DefaultsFrame(cfg, step, index, task, cpuCount, k);
    OptionCallsFrame(Defaults(cfg, step, index, task, cpuCount), cfg, step, index, task, design,
                     OptionKey(step, index, task), k);
  }

  /** `--trace` is none of the options the calls before it add. */
  lemma TraceNotAmong(design: string, relax: seq<string>, ws: seq<string>)
    requires relax == [] || relax == RELAX_FLAGS
    ensures "--trace" !in ["-sv", "--top-module " + design] + relax + Prefixed("-Wno-", ws)
  {
    var suppressed := Prefixed("-Wno-", ws);
    forall k | 0 <= k < |suppressed|
      ensures suppressed[k] != "--trace"
    {
      assert suppressed[k][1] == 'W';
    }
    assert |"--top-module " + design| > |"--trace"|;
  }

  /** As written, the flag lands under the doubled key-path. */
  lemma TraceUnderDoubledKey(cfg: Config, step: string, index: string, task: string, design: string, cpuCount: nat)
    requires Flag(cfg, TraceKey(step, index))
    ensures Items(SetupAsWritten(cfg, step, index, task, design, cpuCount), DoubledTaskOptionKey(step, index, task))
      == Items(cfg, DoubledTaskOptionKey(step, index, task)) + ["--trace"]
  {
    KeysApart(step, index, task);
    var doubled := DoubledTaskOptionKey(step, index, task);
    DefaultsFrame(cfg, step, index, task, cpuCount, doubled);
    assert Items(Defaults(cfg, step, index, task, cpuCount), doubled) == Items(cfg, doubled);
  }

  /** As written, `--trace` never reaches the option list the tool is run
      with, even when tracing is on, and lands under the doubled key-path;
      with the key-path corrected it does reach the option list. */
  lemma TraceAsWrittenIsLost(cfg: Config, step: string, index: string, task: string, design: string, cpuCount: nat)
    requires Flag(cfg, TraceKey(step, index))
    ensures "--trace" !in Items(SetupAsWritten(cfg, step, index, task, design, cpuCount), OptionKey(step, index, task))
    ensures "--trace" in Items(SetupConfig(cfg, step, index, task, design, cpuCount), OptionKey(step, index, task))
    ensures Items(SetupAsWritten(cfg, step, index, task, design, cpuCount),
                  DoubledTaskOptionKey(step, index, task))
      == Items(cfg, DoubledTaskOptionKey(step, index, task)) + ["--trace"]
  {
    KeyTags(step, index, task);
    var relax := if Flag(cfg, RelaxKey()) then RELAX_FLAGS else [];
    var ws := Items(cfg, WarningOffKey(step, index, task));
    OptionCallsList(Defaults(cfg, step, index, task, cpuCount), cfg, step, index, task, design,
                    DoubledTaskOptionKey(step, index, task));
    TraceNotAmong(design, relax, ws);
    assert ["-sv", "--top-module " + design] + relax + Prefixed("-Wno-", ws) + []
      == ["-sv", "--top-module " + design] + relax + Prefixed("-Wno-", ws);
    SetupOptionList(cfg, step, index, task, design, cpuCount);
    TraceUnderDoubledKey(cfg, step, index, task, design, cpuCount);
  }

  /** The first six calls of `setup`. */
  method SetDefaults(chip: Chip, step: string, index: string, task: string, cpuCount: nat)
    modifies chip
    ensures chip.cfg == Defaults(old(chip.cfg), step, index, task, cpuCount)
  {
    chip.Set(ExeKey(), Str("verilator"));
    chip.Set(VswitchKey(), Strs(["--version"]));
    chip.SetDefault(VersionKey(), Strs([">=4.028"]));
    chip.SetDefault(ThreadsKey(step, index, task), Num(cpuCount));
    chip.SetDefault(RegexKey(step, index, task, "warnings"), Strs(["^\\%Warning"]));
    chip.SetDefault(RegexKey(step, index, task, "errors"), Strs(["^\\%Error"]));
  }

  /** The warning loop: one `-Wno-<w>` added per suppressed warning. */
  method AddSuppressed(chip: Chip, opt: Key, warnings: seq<string>)
    requires opt in chip.cfg && chip.cfg[opt].Strs?
    modifies chip
    ensures chip.cfg == Append(old(chip.cfg), opt, Prefixed("-Wno-", warnings))
  {
    ghost var base := chip.cfg;
    AppendNothing(base, opt);
    var i := 0;
    while i < |warnings|
      invariant 0 <= i <= |warnings|
      invariant chip.cfg == Append(base, opt, Prefixed("-Wno-", warnings[..i]))
    {
      AppendTwice(base, opt, Prefixed("-Wno-", warnings[..i]), ["-Wno-" + warnings[i]]);
      PrefixedSnoc("-Wno-", warnings, i);
      chip.Add(opt, ["-Wno-" + warnings[i]]);
      i := i + 1;
    }
    assert warnings[..i] == warnings;
  }

  /** The option calls of `setup`, with the corrected trace key-path. */
  method SetOptions(chip: Chip, step: string, index: string, task: string, design: string)
    modifies chip
    ensures chip.cfg == OptionCalls(old(chip.cfg), old(chip.cfg), step, index, task, design,
                                    OptionKey(step, index, task))
  {
    ghost var cfg := chip.cfg;
    KeyTags(step, index, task);
    var opt := OptionKey(step, index, task);
    chip.Set(opt, Strs(["-sv"]));
    chip.Add(opt, ["--top-module " + design]);
    ghost var c8 := chip.cfg;
    assert Flag(c8, RelaxKey()) == Flag(cfg, RelaxKey());
    if Flag(chip.cfg, RelaxKey()) {
      chip.Add(opt, RELAX_FLAGS);
    }
    ghost var c9 := chip.cfg;
    assert c9 == if Flag(cfg, RelaxKey()) then Append(c8, opt, RELAX_FLAGS) else c8;
    assert Items(c9, WarningOffKey(step, index, task)) == Items(cfg, WarningOffKey(step, index, task));
    AddSuppressed(chip, opt, Items(chip.cfg, WarningOffKey(step, index, task)));
    ghost var c10 := chip.cfg;
    assert Flag(c10, TraceKey(step, index)) == Flag(cfg, TraceKey(step, index));
    if Flag(chip.cfg, TraceKey(step, index)) {
      chip.Add(opt, ["--trace"]);
    }
    assert chip.cfg == if Flag(cfg, TraceKey(step, index)) then Append(c10, opt, ["--trace"]) else c10;
  }

  /** `setup`: the chip's settings become those of `SetupConfig`. */
  method Setup(chip: Chip, step: string, index: string, task: string, design: string, cpuCount: nat)
    modifies chip
    ensures chip.cfg == SetupConfig(old(chip.cfg), step, index, task, design, cpuCount)
  {
    ghost var cfg := chip.cfg;
    SetDefaults(chip, step, index, task, cpuCount);
    KeysApart(step, index, task);
    DefaultsFrame(cfg, step, index, task, cpuCount, RelaxKey());
    DefaultsFrame(cfg, step, index, task, cpuCount, WarningOffKey(step, index, task));
    DefaultsFrame(cfg, step, index, task, cpuCount, TraceKey(step, index));
    ghost var d := chip.cfg;
    OptionCallsReadOnly(d, d, cfg, step, index, task, design, OptionKey(step, index, task));
    SetOptions(chip, step, index, task, design);
  }

  /** The option calls depend on the configuration they read only through
      the relax flag, the warning list and the trace flag. */
  lemma OptionCallsReadOnly(c: Config, cfg: Config, cfg': Config, step: string, index: string, task: string,
                            design: string, traceKey: Key)
    requires Flag(cfg, RelaxKey()) == Flag(cfg', RelaxKey())
    requires Items(cfg, WarningOffKey(step, index, task)) == Items(cfg', WarningOffKey(step, index, task))
    requires Flag(cfg, TraceKey(step, index)) == Flag(cfg', TraceKey(step, index))
    ensures OptionCalls(c, cfg, step, index, task, design, traceKey) == OptionCalls(c, cfg', step, index, task, design, traceKey)
  {
  }

  /** What the Verilator sources are taken from when no pickled input exists:
      the library directories and files, include directories, command files,
      macro definitions and Verilog files, each in its configured order. */
  datatype Sources = Sources(
    ydir: seq<string>,
    vlib: seq<string>,
    idir: seq<string>,
    cmdfile: seq<string>,
    define: seq<string>,
    verilog: seq<string>)

  /** One `-G<name>=<value>` per design parameter. */
  function ParamArgs(params: seq<(string, string)>): (r: seq<string>)
    ensures |r| == |params|
    ensures forall k :: 0 <= k < |params| ==> r[k] == "-G" + params[k].0 + "=" + params[k].1
  {
    seq(|params|, k requires 0 <= k < |params| => "-G" + params[k].0 + "=" + params[k].1)
  }

  /** The source arguments without a pickled input. `-I` and `-D` are glued
      to their value; `-y`, `-v` and `-f` are followed by a space. */
  function SourceArgs(src: Sources): seq<string>
  {
    Prefixed("-y ", src.ydir) + Prefixed("-v ", src.vlib) + Prefixed("-I", src.idir)
      + Prefixed("-f ", src.cmdfile) + Prefixed("-D", src.define) + src.verilog
  }

  /** The pickled input of the design. */
  function PickledInput(design: string): string
  {
    "inputs/" + design + ".v"
  }

  /** The command line `runtime_options` returns. */
  function RuntimeArgs(configFiles: seq<string>, params: seq<(string, string)>, design: string,
                       pickled: bool, src: Sources): seq<string>
  {
    configFiles + ParamArgs(params) + (if pickled then [PickledInput(design)] else SourceArgs(src))
  }

  /** The configuration files come first, then the parameters, each in
      order, then the sources. */
  lemma ConfigFilesThenParams(configFiles: seq<string>, params: seq<(string, string)>, design: string,
                              pickled: bool, src: Sources)
    ensures var r := RuntimeArgs(configFiles, params, design, pickled, src);
      && |r| >= |configFiles| + |params|
      && r[..|configFiles|] == configFiles
      && (forall k :: 0 <= k < |params| ==>
           r[|configFiles| + k] == "-G" + params[k].0 + "=" + params[k].1)
      && r[|configFiles| + |params|..] == if pickled then [PickledInput(design)] else SourceArgs(src)
  {
    var r := RuntimeArgs(configFiles, params, design, pickled, src);
    var tail := if pickled then [PickledInput(design)] else SourceArgs(src);
    assert r == configFiles + (ParamArgs(params) + tail);
    forall k | 0 <= k < |params|
      ensures r[|configFiles| + k] == "-G" + params[k].0 + "=" + params[k].1
    {
      assert r[|configFiles| + k] == (ParamArgs(params) + tail)[k];
    }
  }

  /** With a pickled input, it is the only source argument. */
  lemma PickledInputAlone(configFiles: seq<string>, params: seq<(string, string)>, design: string, src: Sources)
    ensures var r := RuntimeArgs(configFiles, params, design, true, src);
      |r| == |configFiles| + |params| + 1 && r[|r| - 1] == "inputs/" + design + ".v"
  {
  }

  /** Without one, the sources that follow the parameters are the `-y`,
      `-v`, `-I`, `-f` and `-D` groups and then the Verilog files, each in its
      own order. */
  lemma SourceGroupsInOrder(src: Sources)
    ensures var r := SourceArgs(src);
      var v := |src.ydir|;
      var i := v + |src.vlib|;
      var f := i + |src.idir|;
      var d := f + |src.cmdfile|;
      var s := d + |src.define|;
      && |r| == s + |src.verilog|
      && r[..v] == Prefixed("-y ", src.ydir)
      && r[v..i] == Prefixed("-v ", src.vlib)
      && r[i..f] == Prefixed("-I", src.idir)
      && r[f..d] == Prefixed("-f ", src.cmdfile)
      && r[d..s] == Prefixed("-D", src.define)
      && r[s..] == src.verilog
  {
    var ys := Prefixed("-y ", src.ydir);
    Sections5(ys, Prefixed("-v ", src.vlib), Prefixed("-I", src.idir), Prefixed("-f ", src.cmdfile),
              Prefixed("-D", src.define), src.verilog);
    assert SourceArgs(src)[..|ys|] == ys;
  }

  /** `cmdlist.append(prefix + value)` for each value, in order. */
  method AppendPrefixed(cmdlist: seq<string>, prefix: string, values: seq<string>) returns (r: seq<string>)
    ensures r == cmdlist + Prefixed(prefix, values)
  {
    r := cmdlist;
    var i := 0;
    while i < |values|
      invariant 0 <= i <= |values|
      invariant r == cmdlist + Prefixed(prefix, values[..i])
    {
      PrefixedSnoc(prefix, values, i);
      r := r + [prefix + values[i]];
      i := i + 1;
    }
    assert values[..i] == values;
  }

  /** `runtime_options`: the command line, built group by group. */
  method RuntimeOptions(configFiles: seq<string>, params: seq<(string, string)>, design: string,
                        pickled: bool, src: Sources) returns (cmdlist: seq<string>)
    ensures cmdlist == RuntimeArgs(configFiles, params, design, pickled, src)
  {
    cmdlist := AppendPrefixed([], "", configFiles);
    PrefixedNothing(configFiles);
    cmdlist := AppendParams(cmdlist, params);
    if pickled {
      cmdlist := cmdlist + [PickledInput(design)];
    } else {
      cmdlist := AppendSources(cmdlist, src);
    }
  }

  /** The `-G<name>=<value>` loop over the design parameters. */
  method AppendParams(cmdlist: seq<string>, params: seq<(string, string)>) returns (r: seq<string>)
    ensures r == cmdlist + ParamArgs(params)
  {
    r := cmdlist;
    var i := 0;
    while i < |params|
      invariant 0 <= i <= |params|
      invariant r == cmdlist + ParamArgs(params[..i])
    {
      assert ParamArgs(params[..i + 1]) == ParamArgs(params[..i]) + ["-G" + params[i].0 + "=" + params[i].1];
      r := r + ["-G" + params[i].0 + "=" + params[i].1];
      i := i + 1;
    }
    assert params[..i] == params;
  }

  /** The source groups of a run without a pickled input, in order. */
  method AppendSources(cmdlist: seq<string>, src: Sources) returns (r: seq<string>)
    ensures r == cmdlist + SourceArgs(src)
  {
    r := AppendPrefixed(cmdlist, "-y ", src.ydir);
    r := AppendPrefixed(r, "-v ", src.vlib);
    r := AppendPrefixed(r, "-I", src.idir);
    r := AppendPrefixed(r, "-f ", src.cmdfile);
    r := AppendPrefixed(r, "-D", src.define);
    r := AppendPrefixed(r, "", src.verilog);
    PrefixedNothing(src.verilog);
  }

  /** `parse_version`: the second whitespace-separated word of the version
      output; `None` is the IndexError of an output with fewer words. */
  function ParseVersion(stdout: string): (r: Option<string>)
    ensures r.Some? <==> |Words(stdout)| >= 2
  {
    var words := Words(stdout);
    if |words| >= 2 then Some(words[1]) else None
  }

  /** `Verilator 4.104 2020-11-14 rev v4.104` yields `4.104`: for a name, a
      space and a version word, followed by nothing or by whitespace, the
      version word is returned. */
  lemma ParseVersionOfBanner(name: string, version: string, rest: string)
    requires |name| > 0 && forall k :: 0 <= k < |name| ==> !IsSpace(name[k])
    requires |version| > 0 && forall k :: 0 <= k < |version| ==> !IsSpace(version[k])
    requires rest == [] || IsSpace(rest[0])
    ensures ParseVersion(name + " " + version + rest) == Some(version)
  {
    var tail := [' '] + (version + rest);
    assert name + " " + version + rest == name + tail;
    WordsOfWordThen(name, tail);
    WordsAfterSpace(' ', version + rest);
    WordsOfWordThen(version, rest);
    SecondWord(Words(name + tail), name, Words(tail), version, Words(rest));
  }

  /** The second of `[a] + ([b] + zs)` is `b`. */
  lemma SecondWord(xs: seq<string>, a: string, ys: seq<string>, b: string, zs: seq<string>)
    requires xs == [a] + ys && ys == [b] + zs
    ensures |xs| >= 2 && xs[1] == b
  {
  }

  /** A one-word output has no version and fails. */
  lemma ParseVersionOfOneWord(w: string)
    requires |w| > 0 && forall k :: 0 <= k < |w| ==> !IsSpace(w[k])
    ensures ParseVersion(w) == None
  {
    WordsOfWordThen(w, []);
    assert w + [] == w;
  }
}
