/** The VPR placement step (siliconcompiler/tools/vpr/place.py): the
    outputs and thread count `setup` records, the command line
    `runtime_options` extends with the graphics commands, and the pin
    placement map `pre_process` builds. The shared VPR driver
    (`vpr.setup_tool`, `vpr.runtime_options`, `vpr.get_common_graphics`) is
    not part of this model: its option list and graphics commands are
    parameters, as are the processor count and whether a pin constraint file
    is given. */
module VprPlace {
  import opened Wrappers
  import opened Text
  import opened Store

  function ThreadsKey(step: string, index: string, task: string): Key
  {
    Key(["tool", "vpr", "task", task, "threads"], step, index)
  }

  function OutputKey(step: string, index: string, task: string): Key
  {
    Key(["tool", "vpr", "task", task, "output"], step, index)
  }

  /** The settings after the placement-specific part of `setup`: the thread
      count unless one is set, then the output list replaced by the netlist
      and grown by the placement file. */
  function PlaceConfig(cfg: Config, step: string, index: string, task: string, design: string,
                       cpuCount: nat): Config
  {
    var c1 := AssignDefault(cfg, ThreadsKey(step, index, task), Num(cpuCount));
    var c2 := Assign(c1, OutputKey(step, index, task), Strs([design + ".net"]));
    Append(c2, OutputKey(step, index, task), [design + ".place"])
  }

  /** The outputs are exactly the netlist and the placement, in that order,
      whatever was listed before; a thread count already set is kept; no
      other key changes. */
  lemma PlaceOutputs(cfg: Config, step: string, index: string, task: string, design: string,
                     cpuCount: nat, k: Key)
    ensures var r := PlaceConfig(cfg, step, index, task, design, cpuCount);
      && Items(r, OutputKey(step, index, task)) == [design + ".net", design + ".place"]
      && r[ThreadsKey(step, index, task)]
         == (if ThreadsKey(step, index, task) in cfg then cfg[ThreadsKey(step, index, task)] else Num(cpuCount))
      && (k in cfg && k != OutputKey(step, index, task) && k != ThreadsKey(step, index, task) ==>
            k in r && r[k] == cfg[k])
  {
    assert OutputKey(step, index, task).path[4] != ThreadsKey(step, index, task).path[4];
    assert [design + ".net"] + [design + ".place"] == [design + ".net", design + ".place"];
  }

  /** The placement-specific part of `setup`. */
  method Setup(chip: Chip, step: string, index: string, task: string, design: string, cpuCount: nat)
    modifies chip
    ensures chip.cfg == PlaceConfig(old(chip.cfg), step, index, task, design, cpuCount)
  {
    chip.SetDefault(ThreadsKey(step, index, task), Num(cpuCount));
    chip.Set(OutputKey(step, index, task), Strs([design + ".net"]));
    chip.Add(OutputKey(step, index, task), [design + ".place"]);
  }

  /** The graphics command string: `" " + command` for each command, in
      order. */
  function GraphicsString(commands: seq<string>): string
  {
    if commands == [] then ""
    else GraphicsString(commands[..|commands| - 1]) + " " + commands[|commands| - 1]
  }

  /** The string is empty without commands, and otherwise is a space
      followed by the commands joined with spaces. */
  lemma {:induction false} GraphicsStringIsJoin(commands: seq<string>)
    ensures commands == [] ==> GraphicsString(commands) == ""
    ensures commands != [] ==> GraphicsString(commands) == " " + Join(" ", commands)
    decreases |commands|
  {
    if |commands| == 1 {
      assert commands[..0] == [];
    } else if |commands| > 1 {
      var init := commands[..|commands| - 1];
      GraphicsStringIsJoin(init);
      JoinSnoc(" ", init, commands[|commands| - 1]);
      assert init + [commands[|commands| - 1]] == commands;
    }
  }

  /** The string's length: one space and the text of each command. */
  lemma {:induction false} GraphicsStringLength(commands: seq<string>)
    ensures |GraphicsString(commands)| == |commands| + TotalLength(commands)
    decreases |commands|
  {
    if commands != [] {
      var init := commands[..|commands| - 1];
      GraphicsStringLength(init);
      TotalLengthSnoc(init, commands[|commands| - 1]);
      assert init + [commands[|commands| - 1]] == commands;
    }
  }

  function TotalLength(xs: seq<string>): nat
  {
    if xs == [] then 0 else |xs[0]| + TotalLength(xs[1..])
  }

  lemma {:induction false} TotalLengthSnoc(xs: seq<string>, x: string)
    ensures TotalLength(xs + [x]) == TotalLength(xs) + |x|
    decreases |xs|
  {
    if xs == [] {
      assert [] + [x] == [x];
      assert [x][1..] == [];
    } else {
      assert (xs + [x])[1..] == xs[1..] + [x];
      TotalLengthSnoc(xs[1..], x);
    }
  }

  /** The loop that builds the graphics command string. */
  method BuildGraphicsString(commands: seq<string>) returns (s: string)
    ensures s == GraphicsString(commands)
  {
    s := "";
    var i := 0;
    while i < |commands|
      invariant 0 <= i <= |commands|
      invariant s == GraphicsString(commands[..i])
    {
      assert commands[..i + 1][..i] == commands[..i];
      s := s + " " + commands[i];
      i := i + 1;
    }
    assert commands[..i] == commands;
  }

  /** The options `runtime_options` returns. */
  function PlaceOptions(base: seq<string>, commands: seq<string>): seq<string>
  {
    base + ["--save_graphics on", "--graphics_commands", "\"" + GraphicsString(commands) + "\""]
  }

  /** The base options come back unchanged, followed by exactly three:
      `--save_graphics on`, `--graphics_commands` and the quoted graphics
      string. */
  lemma PlaceOptionsShape(base: seq<string>, commands: seq<string>)
    ensures var r := PlaceOptions(base, commands);
      && |r| == |base| + 3
      && r[..|base|] == base
      && r[|base|] == "--save_graphics on"
      && r[|base| + 1] == "--graphics_commands"
      && r[|base| + 2] == "\"" + GraphicsString(commands) + "\""
  {
  }

  /** `runtime_options`: the graphics string is built, then the three
      options are appended. */
  method RuntimeOptions(base: seq<string>, commands: seq<string>) returns (options: seq<string>)
    ensures options == PlaceOptions(base, commands)
  {
    var graphics := BuildGraphicsString(commands);
    options := base;
    options := options + ["--save_graphics on"];
    options := options + ["--graphics_commands"];
    options := options + ["\"" + graphics + "\""];
  }

  /** Every constraint component mapped to its placement. */
  function PlacementMap<P>(components: seq<string>, placementOf: string -> P): (m: map<string, P>)
    ensures m.Keys == set c | c in components
    ensures forall c :: c in m ==> m[c] == placementOf(c)
  {
    map c | c in components :: placementOf(c)
  }

  /** `pre_process`: without a valid pin constraint file the placement of
      every component is collected (for the constraint file VPR reads);
      with one nothing is collected. The result code is always 0. */
  method PreProcess<P>(pinsValid: bool, components: seq<string>, placementOf: string -> P)
    returns (code: int, placements: Option<map<string, P>>)
    ensures code == 0
    ensures placements.Some? <==> !pinsValid
    ensures placements.Some? ==> placements.value == PlacementMap(components, placementOf)
  {
    placements := None;
    if !pinsValid {
      var all: map<string, P> := map[];
      var i := 0;
      while i < |components|
        invariant 0 <= i <= |components|
        invariant all.Keys == set c | c in components[..i]
        invariant forall c :: c in all ==> all[c] == placementOf(c)
      {
        TakeOneMore(components, i);
        all := all[components[i] := placementOf(components[i])];
        i := i + 1;
      }
      assert components[..i] == components;
      placements := Some(all);
    }
    code := 0;
  }
}
