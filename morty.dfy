/** The Morty driver's setup (`setup_tool` in
    siliconcompiler/tools/morty/morty_setup.py): five fixed settings and an
    option list that names the output, the manifest, the include
    directories, the library directories and files, the macro definitions and
    the Verilog and SystemVerilog sources. This file uses the older
    `eda, <tool>, <step>, <name>` key-paths, which are not bound to a node.
    `schema_path` (how a configured path is resolved) is a parameter. */
module Morty {
  import opened Text
  import opened Store

  const TOOL := "morty"

  /** `eda, morty, <step>, <name>`. */
  function EdaKey(step: string, name: string): Key
  {
    Global(["eda", TOOL, step, name])
  }

  function OptionKey(step: string): Key { EdaKey(step, "option") }

  /** The design-wide lists the setup reads. */
  function YdirKey(): Key { Global(["ydir"]) }
  function VlibKey(): Key { Global(["vlib"]) }
  function IdirKey(): Key { Global(["idir"]) }
  function DefineKey(): Key { Global(["define"]) }
  function SourceKey(): Key { Global(["source"]) }

  /** The first three options: the output file, the manifest file and the
      include directory of the run's root. */
  const LEADING: seq<string> := ["-o morty.v", "--manifest manifest.json", "-I ../../../"]

  /** Only Verilog and SystemVerilog files (and their headers) are passed on. */
  predicate IsVerilogSource(f: string)
  {
    EndsWith(f, ".v") || EndsWith(f, ".vh") || EndsWith(f, ".sv") || EndsWith(f, ".svh")
  }

  /** The sources with a Verilog extension, in their order. */
  function VerilogSources(sources: seq<string>): (r: seq<string>)
    ensures |r| <= |sources|
    ensures forall k :: 0 <= k < |r| ==> IsVerilogSource(r[k])
  {
    if sources == [] then []
    else if IsVerilogSource(sources[0]) then [sources[0]] + VerilogSources(sources[1..])
    else VerilogSources(sources[1..])
  }

  /** Each value passed through `schema_path`, in order. */
  function Resolved(schemaPath: string -> string, values: seq<string>): (r: seq<string>)
    ensures |r| == |values|
    ensures forall k :: 0 <= k < |values| ==> r[k] == schemaPath(values[k])
  {
    seq(|values|, k requires 0 <= k < |values| => schemaPath(values[k]))
  }

  /** The options `setup_tool` adds, in order. */
  function MortyOptions(cfg: Config, schemaPath: string -> string): seq<string>
  {
    LEADING
      + Prefixed("--library-dir ", Resolved(schemaPath, Items(cfg, YdirKey())))
      + Prefixed("--library-file ", Resolved(schemaPath, Items(cfg, VlibKey())))
      + Prefixed("-I ", Resolved(schemaPath, Items(cfg, IdirKey())))
      + Prefixed("-D ", Resolved(schemaPath, Items(cfg, DefineKey())))
      + Resolved(schemaPath, VerilogSources(Items(cfg, SourceKey())))
  }

  /** The names of the five fixed settings. */
  function FixedNames(): set<string>
  {
    {"threads", "format", "copy", "exe", "vendor"}
  }

  /** The five fixed settings, added one after the other. */
  function FixedSettings(cfg: Config, step: string): Config
  {
    var c1 := Append(cfg, EdaKey(step, "threads"), ["4"]);
    var c2 := Append(c1, EdaKey(step, "format"), ["cmdline"]);
    var c3 := Append(c2, EdaKey(step, "copy"), ["false"]);
    var c4 := Append(c3, EdaKey(step, "exe"), ["morty"]);
    Append(c4, EdaKey(step, "vendor"), ["morty"])
  }

  /** The settings after `setup_tool`. */
  function SetupConfig(cfg: Config, step: string, schemaPath: string -> string): Config
  {
    Append(FixedSettings(cfg, step), OptionKey(step), MortyOptions(cfg, schemaPath))
  }

  /** A source is kept exactly when it has a Verilog extension. */
  lemma {:induction false} VerilogSourcesMembers(sources: seq<string>, f: string)
    ensures f in VerilogSources(sources) <==> f in sources && IsVerilogSource(f)
  {
    if sources != [] {
      VerilogSourcesMembers(sources[1..], f);
      assert sources == [sources[0]] + sources[1..];
    }
  }

  /** The filter keeps the order: filtering a concatenation filters each part. */
  lemma {:induction false} VerilogSourcesAppend(a: seq<string>, b: seq<string>)
    ensures VerilogSources(a + b) == VerilogSources(a) + VerilogSources(b)
  {
    if a == [] {
      assert a + b == b;
    } else {
      assert (a + b)[1..] == a[1..] + b;
      VerilogSourcesAppend(a[1..], b);
    }
  }

  /** A source list made only of Verilog files is kept whole; one with none
      yields nothing. */
  lemma {:induction false} VerilogSourcesExtremes(sources: seq<string>)
    ensures (forall k :: 0 <= k < |sources| ==> IsVerilogSource(sources[k])) ==> VerilogSources(sources) == sources
    ensures (forall k :: 0 <= k < |sources| ==> !IsVerilogSource(sources[k])) ==> VerilogSources(sources) == []
  {
    if sources != [] {
      VerilogSourcesExtremes(sources[1..]);
      assert forall k :: 0 <= k < |sources[1..]| ==> sources[1..][k] == sources[k + 1];
    }
  }

  /** The options start with the output, manifest and root include, and
      their number is three plus one per library directory, library file,
      include directory, definition and kept source. */
  lemma OptionsLeadAndCount(cfg: Config, schemaPath: string -> string)
    ensures var opts := MortyOptions(cfg, schemaPath);
      && opts[..3] == ["-o morty.v", "--manifest manifest.json", "-I ../../../"]
      && |opts| == 3 + |Items(cfg, YdirKey())| + |Items(cfg, VlibKey())| + |Items(cfg, IdirKey())|
                     + |Items(cfg, DefineKey())| + |VerilogSources(Items(cfg, SourceKey()))|
  {
    var opts := MortyOptions(cfg, schemaPath);
    assert opts == LEADING + (opts[3..]);
  }

  /** After the three leading options come the library directories, library
      files, include directories and definitions, each with its flag and
      resolved through `schema_path`, then the kept sources. */
  lemma OptionGroupsInOrder(cfg: Config, schemaPath: string -> string)
    ensures var opts := MortyOptions(cfg, schemaPath);
      var ydir := Items(cfg, YdirKey());
      var vlib := Items(cfg, VlibKey());
      var idir := Items(cfg, IdirKey());
      var define := Items(cfg, DefineKey());
      var v := 3 + |ydir|;
      var i := v + |vlib|;
      var d := i + |idir|;
      var s := d + |define|;
      && s <= |opts|
      && opts[3..v] == Prefixed("--library-dir ", Resolved(schemaPath, ydir))
      && opts[v..i] == Prefixed("--library-file ", Resolved(schemaPath, vlib))
      && opts[i..d] == Prefixed("-I ", Resolved(schemaPath, idir))
      && opts[d..s] == Prefixed("-D ", Resolved(schemaPath, define))
      && opts[s..] == Resolved(schemaPath, VerilogSources(Items(cfg, SourceKey())))
  {
    var opts := MortyOptions(cfg, schemaPath);
    var ys := Prefixed("--library-dir ", Resolved(schemaPath, Items(cfg, YdirKey())));
    var vs := Prefixed("--library-file ", Resolved(schemaPath, Items(cfg, VlibKey())));
    var incs := Prefixed("-I ", Resolved(schemaPath, Items(cfg, IdirKey())));
    var ds := Prefixed("-D ", Resolved(schemaPath, Items(cfg, DefineKey())));
    var srcs := Resolved(schemaPath, VerilogSources(Items(cfg, SourceKey())));
    Sections5(LEADING, ys, vs, incs, ds, srcs);
  }

  /** Two settings of this tool with different names have different keys. */
  lemma EdaKeysApart(step: string, a: string, b: string)
    requires a != b
    ensures EdaKey(step, a) != EdaKey(step, b)
  {
    assert EdaKey(step, a).path[3] == a;
  }

  /** `threads 4`, `format cmdline`, `copy false`, `exe morty` and
      `vendor morty` are each added once to their setting. */
  lemma FixedSettingsAdded(cfg: Config, step: string)
    ensures var r := FixedSettings(cfg, step);
      && Items(r, EdaKey(step, "threads")) == Items(cfg, EdaKey(step, "threads")) + ["4"]
      && Items(r, EdaKey(step, "format")) == Items(cfg, EdaKey(step, "format")) + ["cmdline"]
      && Items(r, EdaKey(step, "copy")) == Items(cfg, EdaKey(step, "copy")) + ["false"]
      && Items(r, EdaKey(step, "exe")) == Items(cfg, EdaKey(step, "exe")) + ["morty"]
      && Items(r, EdaKey(step, "vendor")) == Items(cfg, EdaKey(step, "vendor")) + ["morty"]
  {
    EdaKeysApart(step, "threads", "format");
    EdaKeysApart(step, "threads", "copy");
    EdaKeysApart(step, "threads", "exe");
    EdaKeysApart(step, "threads", "vendor");
    EdaKeysApart(step, "format", "copy");
    EdaKeysApart(step, "format", "exe");
    EdaKeysApart(step, "format", "vendor");
    EdaKeysApart(step, "copy", "exe");
    EdaKeysApart(step, "copy", "vendor");
    EdaKeysApart(step, "exe", "vendor");
    AppendChainAdded(cfg, EdaKey(step, "threads"), EdaKey(step, "format"), EdaKey(step, "copy"),
                     EdaKey(step, "exe"), EdaKey(step, "vendor"), ["4"], ["cmdline"], ["false"], ["morty"], ["morty"]);
  }

  /** Five appends to five different keys each add their own items. */
  lemma AppendChainAdded(cfg: Config, k1: Key, k2: Key, k3: Key, k4: Key, k5: Key,
                         x1: seq<string>, x2: seq<string>, x3: seq<string>, x4: seq<string>, x5: seq<string>)
    requires k1 != k2 && k1 != k3 && k1 != k4 && k1 != k5
    requires k2 != k3 && k2 != k4 && k2 != k5
    requires k3 != k4 && k3 != k5 && k4 != k5
    ensures var r := Append(Append(Append(Append(Append(cfg, k1, x1), k2, x2), k3, x3), k4, x4), k5, x5);
      && Items(r, k1) == Items(cfg, k1) + x1
      && Items(r, k2) == Items(cfg, k2) + x2
      && Items(r, k3) == Items(cfg, k3) + x3
      && Items(r, k4) == Items(cfg, k4) + x4
      && Items(r, k5) == Items(cfg, k5) + x5
  {
    var c1 := Append(cfg, k1, x1);
    var c2 := Append(c1, k2, x2);
    var c3 := Append(c2, k3, x3);
    var c4 := Append(c3, k4, x4);
    var r := Append(c4, k5, x5);
    AppendElsewhere(cfg, k1, x1, k2);
    AppendElsewhere(cfg, k1, x1, k3);
    AppendElsewhere(cfg, k1, x1, k4);
    AppendElsewhere(cfg, k1, x1, k5);
    AppendElsewhere(c1, k2, x2, k1);
    AppendElsewhere(c1, k2, x2, k3);
    AppendElsewhere(c1, k2, x2, k4);
    AppendElsewhere(c1, k2, x2, k5);
    AppendElsewhere(c2, k3, x3, k1);
    AppendElsewhere(c2, k3, x3, k2);
    AppendElsewhere(c2, k3, x3, k4);
    AppendElsewhere(c2, k3, x3, k5);
    AppendElsewhere(c3, k4, x4, k1);
    AppendElsewhere(c3, k4, x4, k2);
    AppendElsewhere(c3, k4, x4, k3);
    AppendElsewhere(c3, k4, x4, k5);
    AppendElsewhere(c4, k5, x5, k1);
    AppendElsewhere(c4, k5, x5, k2);
    AppendElsewhere(c4, k5, x5, k3);
    AppendElsewhere(c4, k5, x5, k4);
  }

  /** Every other key is untouched by the fixed settings. */
  lemma FixedSettingsFrame(cfg: Config, step: string, k: Key)
    requires forall n :: n in FixedNames() ==> k != EdaKey(step, n)
    ensures var r := FixedSettings(cfg, step);
      (k in r <==> k in cfg) && (k in cfg ==> r[k] == cfg[k])
  {
    assert k != EdaKey(step, "threads") && k != EdaKey(step, "format") && k != EdaKey(step, "copy");
    assert k != EdaKey(step, "exe") && k != EdaKey(step, "vendor");
    var c1 := Append(cfg, EdaKey(step, "threads"), ["4"]);
    assert (k in c1 <==> k in cfg) && (k in cfg ==> c1[k] == cfg[k]);
    var c2 := Append(c1, EdaKey(step, "format"), ["cmdline"]);
    assert (k in c2 <==> k in cfg) && (k in cfg ==> c2[k] == cfg[k]);
    var c3 := Append(c2, EdaKey(step, "copy"), ["false"]);
    assert (k in c3 <==> k in cfg) && (k in cfg ==> c3[k] == cfg[k]);
    var c4 := Append(c3, EdaKey(step, "exe"), ["morty"]);
    assert (k in c4 <==> k in cfg) && (k in cfg ==> c4[k] == cfg[k]);
  }

  /** The options are appended to the option list already there. */
  lemma SetupAddsOptions(cfg: Config, step: string, schemaPath: string -> string)
    ensures Items(SetupConfig(cfg, step, schemaPath), OptionKey(step))
      == Items(cfg, OptionKey(step)) + MortyOptions(cfg, schemaPath)
  {
    OptionKeyApart(step);
    FixedSettingsFrame(cfg, step, OptionKey(step));
  }

  /** Besides the option list and the fixed settings, nothing changes. */
  lemma SetupLeavesOthers(cfg: Config, step: string, schemaPath: string -> string, k: Key)
    requires k in cfg && k != OptionKey(step)
    requires forall n :: n in FixedNames() ==> k != EdaKey(step, n)
    ensures k in SetupConfig(cfg, step, schemaPath) && SetupConfig(cfg, step, schemaPath)[k] == cfg[k]
  {
    FixedSettingsFrame(cfg, step, k);
  }

  /** `chip.add(key, prefix + schema_path(value))` for each value, in order. */
  method AddResolved(chip: Chip, k: Key, prefix: string, values: seq<string>, schemaPath: string -> string)
    requires k in chip.cfg && chip.cfg[k].Strs?
    modifies chip
    ensures chip.cfg == Append(old(chip.cfg), k, Prefixed(prefix, Resolved(schemaPath, values)))
  {
    ghost var base := chip.cfg;
    AppendNothing(base, k);
    var i := 0;
    while i < |values|
      invariant 0 <= i <= |values|
      invariant chip.cfg == Append(base, k, Prefixed(prefix, Resolved(schemaPath, values[..i])))
    {
      ghost var done := Prefixed(prefix, Resolved(schemaPath, values[..i]));
      assert Prefixed(prefix, Resolved(schemaPath, values[..i + 1])) == done + [prefix + schemaPath(values[i])];
      AppendTwice(base, k, done, [prefix + schemaPath(values[i])]);
      chip.Add(k, [prefix + schemaPath(values[i])]);
      i := i + 1;
    }
    assert values[..i] == values;
  }

  /** One more source visited adds its resolved path when it is a Verilog
      file, and nothing otherwise. */
  lemma ResolvedSourcesStep(schemaPath: string -> string, sources: seq<string>, i: nat)
    requires i < |sources|
    ensures IsVerilogSource(sources[i]) ==>
      Resolved(schemaPath, VerilogSources(sources[..i + 1]))
        == Resolved(schemaPath, VerilogSources(sources[..i])) + [schemaPath(sources[i])]
    ensures !IsVerilogSource(sources[i]) ==>
      Resolved(schemaPath, VerilogSources(sources[..i + 1])) == Resolved(schemaPath, VerilogSources(sources[..i]))
  {
    TakeOneMore(sources, i);
    VerilogSourcesAppend(sources[..i], [sources[i]]);
    if !IsVerilogSource(sources[i]) {
      assert VerilogSources(sources[..i + 1]) == VerilogSources(sources[..i]);
    }
  }

  /** The source loop: only Verilog files are resolved and added. */
  method AddSources(chip: Chip, k: Key, sources: seq<string>, schemaPath: string -> string)
    requires k in chip.cfg && chip.cfg[k].Strs?
    modifies chip
    ensures chip.cfg == Append(old(chip.cfg), k, Resolved(schemaPath, VerilogSources(sources)))
  {
    ghost var base := chip.cfg;
    AppendNothing(base, k);
    var i := 0;
    while i < |sources|
      invariant 0 <= i <= |sources|
      invariant chip.cfg == Append(base, k, Resolved(schemaPath, VerilogSources(sources[..i])))
    {
      ghost var done := Resolved(schemaPath, VerilogSources(sources[..i]));
      ResolvedSourcesStep(schemaPath, sources, i);
      var value := sources[i];
      if EndsWith(value, ".v") || EndsWith(value, ".vh") || EndsWith(value, ".sv") || EndsWith(value, ".svh") {
        AppendTwice(base, k, done, [schemaPath(value)]);
        chip.Add(k, [schemaPath(value)]);
      }
      i := i + 1;
    }
    assert sources[..i] == sources;
  }

  /** The five fixed settings. */
  method AddFixedSettings(chip: Chip, step: string)
    modifies chip
    ensures chip.cfg == FixedSettings(old(chip.cfg), step)
  {
    chip.Add(EdaKey(step, "threads"), ["4"]);
    chip.Add(EdaKey(step, "format"), ["cmdline"]);
    chip.Add(EdaKey(step, "copy"), ["false"]);
    chip.Add(EdaKey(step, "exe"), ["morty"]);
    chip.Add(EdaKey(step, "vendor"), ["morty"]);
  }

  /** The option calls of `setup_tool`: the leading options, then each
      group in turn, with the lists read from the chip. */
  method AddOptions(chip: Chip, step: string, schemaPath: string -> string)
    modifies chip
    ensures chip.cfg == Append(old(chip.cfg), OptionKey(step), MortyOptions(old(chip.cfg), schemaPath))
  {
    ghost var cfg := chip.cfg;
    var opt := OptionKey(step);
    ListKeyApart(step, YdirKey());
    ListKeyApart(step, VlibKey());
    ListKeyApart(step, IdirKey());
    ListKeyApart(step, DefineKey());
    ListKeyApart(step, SourceKey());
    AddLeading(chip, opt);
    ghost var done := LEADING;
    AddGroup(chip, opt, "--library-dir ", YdirKey(), schemaPath, cfg, done);
    done := done + Prefixed("--library-dir ", Resolved(schemaPath, Items(cfg, YdirKey())));
    AddGroup(chip, opt, "--library-file ", VlibKey(), schemaPath, cfg, done);
    done := done + Prefixed("--library-file ", Resolved(schemaPath, Items(cfg, VlibKey())));
    AddGroup(chip, opt, "-I ", IdirKey(), schemaPath, cfg, done);
    done := done + Prefixed("-I ", Resolved(schemaPath, Items(cfg, IdirKey())));
    AddGroup(chip, opt, "-D ", DefineKey(), schemaPath, cfg, done);
    done := done + Prefixed("-D ", Resolved(schemaPath, Items(cfg, DefineKey())));
    AppendElsewhere(cfg, opt, done, SourceKey());
    AddSources(chip, opt, Items(chip.cfg, SourceKey()), schemaPath);
    ghost var srcs := Resolved(schemaPath, VerilogSources(Items(cfg, SourceKey())));
    AppendTwice(cfg, opt, done, srcs);
    done := done + srcs;
    assert done == MortyOptions(cfg, schemaPath);
  }

  /** The three leading options, added one at a time. */
  method AddLeading(chip: Chip, opt: Key)
    modifies chip
    ensures chip.cfg == Append(old(chip.cfg), opt, LEADING)
  {
    ghost var cfg := chip.cfg;
    chip.Add(opt, ["-o morty.v"]);
    chip.Add(opt, ["--manifest manifest.json"]);
    AppendTwice(cfg, opt, ["-o morty.v"], ["--manifest manifest.json"]);
    chip.Add(opt, ["-I ../../../"]);
    AppendTwice(cfg, opt, ["-o morty.v"] + ["--manifest manifest.json"], ["-I ../../../"]);
    assert ["-o morty.v"] + ["--manifest manifest.json"] + ["-I ../../../"] == LEADING;
  }

  /** One prefixed group of options, resolved from a design-wide list that
      the option list is not; the list is read after the options before it
      have been added, which leaves it as it was. */
  method AddGroup(chip: Chip, opt: Key, prefix: string, listKey: Key, schemaPath: string -> string,
                  ghost cfg: Config, ghost done: seq<string>)
    requires listKey != opt
    requires chip.cfg == Append(cfg, opt, done)
    modifies chip
    ensures chip.cfg == Append(cfg, opt, done + Prefixed(prefix, Resolved(schemaPath, Items(cfg, listKey))))
  {
    AppendElsewhere(cfg, opt, done, listKey);
    ghost var group := Prefixed(prefix, Resolved(schemaPath, Items(cfg, listKey)));
    AddResolved(chip, opt, prefix, Items(chip.cfg, listKey), schemaPath);
    AppendTwice(cfg, opt, done, group);
  }

  /** `setup_tool`: the chip's settings become those of `SetupConfig`. */
  method SetupTool(chip: Chip, step: string, schemaPath: string -> string)
    modifies chip
    ensures chip.cfg == SetupConfig(old(chip.cfg), step, schemaPath)
  {
    ghost var cfg := chip.cfg;
    AddFixedSettings(chip, step);
    ListKeyUntouched(cfg, step, YdirKey());
    ListKeyUntouched(cfg, step, VlibKey());
    ListKeyUntouched(cfg, step, IdirKey());
    ListKeyUntouched(cfg, step, DefineKey());
    ListKeyUntouched(cfg, step, SourceKey());
    assert MortyOptions(chip.cfg, schemaPath) == MortyOptions(cfg, schemaPath);
    AddOptions(chip, step, schemaPath);
  }

  /** The option list is not one of the fixed settings. */
  lemma OptionKeyApart(step: string)
    ensures forall n :: n in FixedNames() ==> OptionKey(step) != EdaKey(step, n)
  {
    forall n | n in FixedNames() ensures OptionKey(step) != EdaKey(step, n) {
      EdaKeysApart(step, "option", n);
    }
  }

  /** A design-wide list is not one of this tool's settings. */
  lemma ListKeyApart(step: string, k: Key)
    requires |k.path| == 1
    ensures k != OptionKey(step)
    ensures forall n :: n in FixedNames() ==> k != EdaKey(step, n)
  {
    forall n | n in FixedNames() ensures k != EdaKey(step, n) {
      assert |EdaKey(step, n).path| == 4;
    }
  }

  /** So the fixed settings leave each design-wide list as it was. */
  lemma ListKeyUntouched(cfg: Config, step: string, k: Key)
    requires |k.path| == 1
    ensures Items(FixedSettings(cfg, step), k) == Items(cfg, k)
  {
    ListKeyApart(step, k);
    FixedSettingsFrame(cfg, step, k);
  }
}
