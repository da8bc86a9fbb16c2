/** The operation-string layer of the KLayout operations script
    (`parse_operations` in siliconcompiler/tools/klayout/klayout_operations.py).
    Each operation string `name:args` is split, validated against the
    manifest, and dispatched to a layout edit. The edits themselves are
    geometry done by the KLayout library; here each dispatched edit is
    recorded as a `LayoutOp` in a log, in the order the script performs it,
    and the exception that stops the script, if any, is reported beside the
    log of the edits made before it. */
module KlayoutOperations {
  import opened Wrappers
  import opened Text
  import opened Store

  /** The manifest as the script reads it: parameter values by key, and the
      declared type of each key-path. */
  datatype Manifest = Manifest(values: Config, types: map<seq<string>, string>)

  /** A GDS layer and datatype pair. */
  datatype Layer = Layer(layer: int, purpose: int)

  /** The property to read: a numeric property id or a property name. */
  datatype PropName = PropNumber(id: nat) | PropText(text: string)

  /** One edit made to the base layout. */
  datatype LayoutOp =
    | Merge(mergeFile: string)
    | AddLayout(addFile: string)
    | Rotate
    | Outline(outlineLayer: Layer)
    | ConvertProperty(source: Layer, prop: PropName, destination: Layer)
    | Rename(newName: string)
    | SwapCells(oldCell: string, newCell: string)
    | AddTop(topName: string)
    | Write(outFile: string)

  /** `name`: the text before the first `:`; `args`: the rest after it,
      rejoined with `:`, or empty when there is no `:`. */
  function SplitOp(op: string): (string, string)
  {
    var parts := Split(op, ':');
    (parts[0], Join(":", parts[1..]))
  }

  /** The name never holds a `:`, and name and args put back together with
      the first `:` give the operation string. */
  lemma SplitOpRejoins(op: string)
    ensures var (name, args) := SplitOp(op);
      && ':' !in name
      && (if ':' in op then op == name + ":" + args else name == op && args == "")
  {
    var parts := Split(op, ':');
    SplitPiecesLackSeparator(op, ':');
    JoinSplit(op, ':');
    if ':' in op {
      assert |parts| >= 2;
      assert Join(":", parts) == parts[0] + ":" + Join(":", parts[1..]);
    }
  }

  /** Conversely, any name without `:` and any args are split back apart. */
  lemma SplitOpOfJoined(name: string, args: string)
    requires ':' !in name
    ensures SplitOp(name + ":" + args) == (name, args)
  {
    SplitAfterFirst(name, ':', args);
    assert name + ":" + args == name + [':'] + args;
    var parts := Split(name + ":" + args, ':');
    assert parts[1..] == Split(args, ':');
    JoinSplit(args, ':');
  }

  predicate IsDigit(ch: char)
  {
    '0' <= ch <= '9'
  }

  predicate AllDigits(s: string)
  {
    forall k :: 0 <= k < |s| ==> IsDigit(s[k])
  }

  /** The value of a string of decimal digits. */
  function DigitsValue(s: string): nat
    requires AllDigits(s)
  {
    if s == [] then 0 else 10 * DigitsValue(s[..|s| - 1]) + (s[|s| - 1] as int - '0' as int)
  }

  /** `int(s)` on a string: an optional sign and at least one decimal digit,
      or a ValueError (`None`). */
  function ParseInt(s: string): Option<int>
  {
    if |s| > 0 && (s[0] == '-' || s[0] == '+') then
      if |s| > 1 && AllDigits(s[1..]) then
        var magnitude: int := DigitsValue(s[1..]);
        Some(if s[0] == '-' then -magnitude else magnitude)
      else None
    else if |s| > 0 && AllDigits(s) then Some(DigitsValue(s))
    else None
  }

  /** The decimal digits of a natural number, without leading zeros. */
  function ShowNat(n: nat): (r: string)
    ensures |r| > 0 && AllDigits(r)
  {
    if n < 10 then [DigitChar(n)] else ShowNat(n / 10) + [DigitChar(n % 10)]
  }

  function ShowInt(n: int): string
  {
    if n < 0 then "-" + ShowNat(-n) else ShowNat(n)
  }

  lemma {:induction false} DigitsOfShowNat(n: nat)
    ensures DigitsValue(ShowNat(n)) == n
  {
    if n >= 10 {
      DigitsOfShowNat(n / 10);
      var s := ShowNat(n);
      assert s[..|s| - 1] == ShowNat(n / 10);
    }
  }

  /** Every integer written out in decimal is read back as itself. */
  lemma ParseShowInt(n: int)
    ensures ParseInt(ShowInt(n)) == Some(n)
  {
    if n < 0 {
      var m := ShowNat(-n);
      DigitsOfShowNat(-n);
      var s := "-" + m;
      assert ShowInt(n) == s;
      assert s[0] == '-' && s[1..] == m;
    } else {
      var s := ShowNat(n);
      DigitsOfShowNat(n);
      assert IsDigit(s[0]);
    }
  }

  /** `[int(v) for v in vals]`: all the values, or the first ValueError. */
  function ParseInts(vals: seq<string>): (r: Option<seq<int>>)
    ensures r.Some? <==> forall k :: 0 <= k < |vals| ==> ParseInt(vals[k]).Some?
    ensures r.Some? ==> |r.value| == |vals| && forall k :: 0 <= k < |vals| ==> r.value[k] == ParseInt(vals[k]).value
  {
    if vals == [] then Some([])
    else
      var head := ParseInt(vals[0]);
      var tail := ParseInts(vals[1..]);
      if head.None? || tail.None? then None else Some([head.value] + tail.value)
  }

  /** `str.isnumeric()` on ASCII text: non-empty and all digits. */
  predicate IsNumeric(s: string)
  {
    |s| > 0 && AllDigits(s)
  }

  /** A numeric property name becomes a property id. */
  function PropNameOf(s: string): PropName
  {
    if IsNumeric(s) then PropNumber(DigitsValue(s)) else PropText(s)
  }

  /** The declared type of a key-path; an undeclared one is taken as empty. */
  function TypeOf(m: Manifest, path: seq<string>): string
  {
    if path in m.types then m.types[path] else ""
  }

  /** One merge or add edit per file, in order. */
  function FileOps(name: string, files: seq<string>): (r: seq<LayoutOp>)
    ensures |r| == |files|
    ensures forall k :: 0 <= k < |files| ==> r[k] == if name == "add" then AddLayout(files[k]) else Merge(files[k])
  {
    seq(|files|, k requires 0 <= k < |files| => if name == "add" then AddLayout(files[k]) else Merge(files[k]))
  }

  /** The swap edits of `old=new` entries, in order; an entry that does not
      split into exactly two names at `=` raises ValueError after the swaps
      before it. */
  function SwapOps(sets: seq<string>): (seq<LayoutOp>, Option<string>)
  {
    if sets == [] then ([], None)
    else
      var parts := Split(sets[0], '=');
      if |parts| != 2 then ([], Some("ValueError: cannot unpack " + sets[0]))
      else
        var (rest, err) := SwapOps(sets[1..]);
        ([SwapCells(parts[0], parts[1])] + rest, err)
  }

  /** The edits of one operation string run at node (`step`, `index`), and
      the exception it raises, if any. */
  function StepOps(m: Manifest, step: string, index: string, op: string): (seq<LayoutOp>, Option<string>)
  {
    var (name, args) := SplitOp(op);
    Dispatch(m, step, index, name, args)
  }

  /** The edits of operation `name` with arguments `args`. */
  function Dispatch(m: Manifest, step: string, index: string, name: string, args: string): (seq<LayoutOp>, Option<string>)
  {
    var key := Split(args, ',');
    var atNode := Items(m.values, Key(key, step, index));
    var global := Items(m.values, Global(key));
    if name == "merge" || name == "add" then
      if |key| > 1 then
        if !Contains(TypeOf(m, key), "file") then ([], Some("ValueError: " + name + " requires a file type"))
        else (FileOps(name, atNode), None)
      else (FileOps(name, ["inputs/" + args]), None)
    else if name == "rotate" then ([Rotate], None)
    else if name == "outline" then
      var layers := ParseInts(atNode);
      if layers.None? then ([], Some("ValueError: invalid literal for int()"))
      else if |layers.value| != 2 then ([], Some("ValueError: outline layer requires two entries"))
      else ([Outline(Layer(layers.value[0], layers.value[1]))], None)
    else if name == "convert_property" then
      if |atNode| != 3 && |atNode| != 5 then ([], Some("ValueError: convert_property requires 3 or 5 arguments"))
      else
        var source := ParseInts(atNode[..2]);
        var destination := if |atNode| == 5 then ParseInts(atNode[3..]) else source;
        if source.None? || destination.None? then ([], Some("ValueError: invalid literal for int()"))
        else
          ([ConvertProperty(Layer(source.value[0], source.value[1]), PropNameOf(atNode[2]),
                            Layer(destination.value[0], destination.value[1]))], None)
    else if name == "rename" then
      if |global| == 0 then ([], Some("IndexError: list index out of range"))
      else ([Rename(global[0])], None)
    else if name == "swap" then SwapOps(global)
    else if name == "add_top" then
      if |global| == 0 then ([], Some("IndexError: list index out of range"))
      else ([AddTop(global[0])], None)
    else if name == "write" then ([Write("output/" + args)], None)
    else ([], Some("ValueError: Unknown step: " + name))
  }

  /** The operation names the script knows. */
  predicate KnownOperation(name: string)
  {
    name in ["merge", "add", "rotate", "outline", "convert_property", "rename", "swap", "add_top", "write"]
  }

  /** The edits of a run of operation strings, stopping at the first that
      raises. */
  function Interpret(m: Manifest, step: string, index: string, ops: seq<string>): (seq<LayoutOp>, Option<string>)
  {
    if ops == [] then ([], None)
    else Then(StepOps(m, step, index, ops[0]), Interpret(m, step, index, ops[1..]))
  }

  /** `parse_operations`: walks the operation strings in order, performing
      each one's edits, until one raises. */
  method ParseOperations(m: Manifest, step: string, index: string, ops: seq<string>)
    returns (log: seq<LayoutOp>, err: Option<string>)
    ensures (log, err) == Interpret(m, step, index, ops)
  {
    log := [];
    var i := 0;
    assert ops[i..] == ops;
    ThenFromNothing(Interpret(m, step, index, ops));
    while i < |ops|
      invariant 0 <= i <= |ops|
      invariant Interpret(m, step, index, ops) == Then((log, None), Interpret(m, step, index, ops[i..]))
    {
      InterpretCons(m, step, index, ops[i..]);
      assert ops[i..][0] == ops[i] && ops[i..][1..] == ops[i + 1..];
      var (edits, stepErr) := StepOps(m, step, index, ops[i]);
      ThenRegroup(log, (edits, stepErr), Interpret(m, step, index, ops[i + 1..]));
      log := log + edits;
      if stepErr.Some? {
        return log, stepErr;
      }
      i := i + 1;
    }
    assert ops[i..] == [];
    assert log + [] == log;
    return log, None;
  }

  /** Running two runs of operations one after the other is running the
      first, then (if it raised nothing) the second. */
  lemma {:induction false} InterpretAppend(m: Manifest, step: string, index: string, a: seq<string>, b: seq<string>)
    ensures var (ea, xa) := Interpret(m, step, index, a);
      Interpret(m, step, index, a + b) ==
        if xa.Some? then (ea, xa)
        else (ea + Interpret(m, step, index, b).0, Interpret(m, step, index, b).1)
  {
    if a != [] {
      var ab := a + b;
      assert ab[0] == a[0] && ab[1..] == a[1..] + b;
      InterpretAppend(m, step, index, a[1..], b);
      InterpretCons(m, step, index, ab);
      InterpretCons(m, step, index, a);
      Chain(Interpret(m, step, index, ab), Interpret(m, step, index, a), StepOps(m, step, index, a[0]),
            Interpret(m, step, index, a[1..] + b), Interpret(m, step, index, a[1..]), Interpret(m, step, index, b));
    } else {
      assert a + b == b;
      assert [] + Interpret(m, step, index, b).0 == Interpret(m, step, index, b).0;
    }
  }

  /** A non-empty run is its first operation, then, if that raised
      nothing, the rest. */
  lemma InterpretCons(m: Manifest, step: string, index: string, ops: seq<string>)
    requires ops != []
    ensures Interpret(m, step, index, ops) == Then(StepOps(m, step, index, ops[0]), Interpret(m, step, index, ops[1..]))
  {
  }

  /** The edits and outcome of running `first`, then `rest` if `first`
      raised nothing. */
  function Then(first: (seq<LayoutOp>, Option<string>), rest: (seq<LayoutOp>, Option<string>)): (seq<LayoutOp>, Option<string>)
  {
    if first.1.Some? then first else (first.0 + rest.0, rest.1)
  }

  /** Nothing done and nothing raised, then a run, is that run. */
  lemma ThenFromNothing(run: (seq<LayoutOp>, Option<string>))
    ensures Then(([], None), run) == run
  {
    assert [] + run.0 == run.0;
  }

  /** The edits logged so far, then one operation and the rest. */
  lemma ThenRegroup(log: seq<LayoutOp>, first: (seq<LayoutOp>, Option<string>), rest: (seq<LayoutOp>, Option<string>))
    ensures Then((log, None), Then(first, rest))
      == if first.1.Some? then (log + first.0, first.1) else Then((log + first.0, None), rest)
  {
    assert log + (first.0 + rest.0) == (log + first.0) + rest.0;
  }

  /** `Then` is associative. */
  lemma Chain(whole: (seq<LayoutOp>, Option<string>), aRun: (seq<LayoutOp>, Option<string>),
              first: (seq<LayoutOp>, Option<string>), restAB: (seq<LayoutOp>, Option<string>),
              restA: (seq<LayoutOp>, Option<string>), bRun: (seq<LayoutOp>, Option<string>))
    requires whole == Then(first, restAB) && aRun == Then(first, restA) && restAB == Then(restA, bRun)
    ensures whole == Then(aRun, bRun)
  {
    if first.1.None? && restA.1.None? {
      assert first.0 + (restA.0 + bRun.0) == (first.0 + restA.0) + bRun.0;
    }
  }

  /** An unknown operation name raises ValueError and edits nothing. */
  lemma UnknownOperationRejected(m: Manifest, step: string, index: string, op: string)
    requires !KnownOperation(SplitOp(op).0)
    ensures StepOps(m, step, index, op).0 == []
    ensures StepOps(m, step, index, op).1 == Some("ValueError: Unknown step: " + SplitOp(op).0)
  {
  }

  /** `outline` succeeds exactly when its values are two integers, and then
      adds an outline on that layer and datatype. */
  lemma OutlineNeedsTwoLayers(m: Manifest, step: string, index: string, op: string)
    requires SplitOp(op).0 == "outline"
    ensures var vals := Items(m.values, Key(Split(SplitOp(op).1, ','), step, index));
      var (edits, err) := StepOps(m, step, index, op);
      && (err.None? <==> |vals| == 2 && ParseInt(vals[0]).Some? && ParseInt(vals[1]).Some?)
      && (err.None? ==> edits == [Outline(Layer(ParseInt(vals[0]).value, ParseInt(vals[1]).value))])
      && (err.Some? ==> edits == [])
  {
  }

  /** `convert_property` takes 3 or 5 values: the source layer and
      datatype, the property (an id when numeric), and the destination layer
      and datatype when there are 5, the source one otherwise. */
  lemma ConvertPropertyShape(m: Manifest, step: string, index: string, op: string)
    requires SplitOp(op).0 == "convert_property"
    ensures var vals := Items(m.values, Key(Split(SplitOp(op).1, ','), step, index));
      var (edits, err) := StepOps(m, step, index, op);
      && (|vals| != 3 && |vals| != 5 ==> edits == [] && err.Some?)
      && (err.None? ==>
           && (|vals| == 3 || |vals| == 5)
           && |edits| == 1 && edits[0].ConvertProperty?
           && edits[0].source == Layer(ParseInt(vals[0]).value, ParseInt(vals[1]).value)
           && edits[0].prop == (if IsNumeric(vals[2]) then PropNumber(DigitsValue(vals[2])) else PropText(vals[2]))
           && edits[0].destination ==
                (if |vals| == 5 then Layer(ParseInt(vals[3]).value, ParseInt(vals[4]).value)
                 else edits[0].source))
  {
    var vals := Items(m.values, Key(Split(SplitOp(op).1, ','), step, index));
    if |vals| == 3 || |vals| == 5 {
      assert vals[..2][0] == vals[0] && vals[..2][1] == vals[1];
    }
    if |vals| == 5 {
      assert vals[3..][0] == vals[3] && vals[3..][1] == vals[4];
    }
  }

  /** `rename` and `add_top` take the first value of the named key-path
      (read without the node), and raise IndexError when it has none. */
  lemma FirstValueOperations(m: Manifest, step: string, index: string, op: string)
    requires SplitOp(op).0 == "rename" || SplitOp(op).0 == "add_top"
    ensures var vals := Items(m.values, Global(Split(SplitOp(op).1, ',')));
      var (edits, err) := StepOps(m, step, index, op);
      && (err.Some? <==> vals == [])
      && (err.Some? ==> edits == [])
      && (err.None? ==> edits == [if SplitOp(op).0 == "rename" then Rename(vals[0]) else AddTop(vals[0])])
  {
  }

  /** `swap` swaps the pairs listed under the named key-path (read without
      the node); `rotate` rotates and never raises. */
  lemma SwapAndRotate(m: Manifest, step: string, index: string, op: string)
    ensures SplitOp(op).0 == "swap" ==>
      StepOps(m, step, index, op) == SwapOps(Items(m.values, Global(Split(SplitOp(op).1, ','))))
    ensures SplitOp(op).0 == "rotate" ==> StepOps(m, step, index, op) == ([Rotate], None)
  {
  }

  /** `merge` and `add` with one plain argument read `inputs/<args>`. */
  lemma MergeReadsInputs(m: Manifest, step: string, index: string, name: string, args: string)
    requires name == "merge" || name == "add"
    requires ',' !in args
    ensures StepOps(m, step, index, name + ":" + args) ==
      ([if name == "add" then AddLayout("inputs/" + args) else Merge("inputs/" + args)], None)
  {
    SplitOpOfJoined(name, args);
    var op := name + ":" + args;
    assert SplitOp(op).0 == name && SplitOp(op).1 == args;
    assert Split(args, ',') == [args];
    assert |Split(args, ',')| == 1;
    if name == "merge" {
      assert FileOps(name, ["inputs/" + args]) == [Merge("inputs/" + args)];
    } else {
      assert FileOps(name, ["inputs/" + args]) == [AddLayout("inputs/" + args)];
    }
  }

  /** `merge` and `add` naming a key-path must name a file-typed parameter,
      whose files at this node are then read in order. */
  lemma MergeKeyNeedsFileType(m: Manifest, step: string, index: string, name: string, args: string)
    requires name == "merge" || name == "add"
    requires ',' in args
    ensures var key := Split(args, ',');
      StepOps(m, step, index, name + ":" + args) ==
        if !Contains(TypeOf(m, key), "file") then ([], Some("ValueError: " + name + " requires a file type"))
        else (FileOps(name, Items(m.values, Key(key, step, index))), None)
  {
    SplitOpOfJoined(name, args);
    SplitAtSeparator(args, ',');
  }

  /** `write` writes to `output/<args>`. */
  lemma WriteTarget(m: Manifest, step: string, index: string, args: string)
    ensures StepOps(m, step, index, "write:" + args) == ([Write("output/" + args)], None)
  {
    SplitOpOfJoined("write", args);
    assert "write:" + args == "write" + ":" + args;
    DispatchWrite(m, step, index, args);
  }

  lemma DispatchWrite(m: Manifest, step: string, index: string, args: string)
    ensures Dispatch(m, step, index, "write", args) == ([Write("output/" + args)], None)
  {
    assert "write" != "merge" && "write" != "add" && "write" != "rotate" && "write" != "outline";
    assert "write" != "convert_property" && "write" != "rename" && "write" != "swap" && "write" != "add_top";
  }

  /** Each `old=new` entry of `swap` swaps the two cells, in order, until an
      entry that is not a pair. */
  lemma {:induction false} SwapOpsMeaning(sets: seq<string>)
    ensures var (edits, err) := SwapOps(sets);
      && (err.None? <==> forall k :: 0 <= k < |sets| ==> |Split(sets[k], '=')| == 2)
      && |edits| <= |sets|
      && forall k :: 0 <= k < |edits| ==>
           |Split(sets[k], '=')| == 2 && edits[k] == SwapCells(Split(sets[k], '=')[0], Split(sets[k], '=')[1])
  {
    if sets != [] {
      SwapOpsMeaning(sets[1..]);
    }
  }
}
