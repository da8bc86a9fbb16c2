/** The inclusion policy of the reproduction bundle (`determine_copy` in
    siliconcompiler/issue.py): whether a file- or directory-typed parameter,
    named by its key-path, is copied into the testcase archive. */
module IssuePolicy {
  import opened Wrappers

  /** The packaging options that select PDK and library parameters. An
      absent specific list (`None`) and an empty one behave alike, since the
      code only tests them for truth before looking inside. */
  datatype Selection = Selection(
    includePdks: bool,
    specificPdks: seq<string>,
    includeLibraries: bool,
    specificLibraries: seq<string>)

  /** The tool and task bound to the node the bundle reproduces. */
  datatype Binding = Binding(tool: string, task: string)

  /** `option` entries that are never copied: the build directory, the cache,
      the manifest itself and credentials. */
  predicate ExcludedOption(name: string)
  {
    name == "builddir" || name == "cache" || name == "cfg" || name == "credentials"
  }

  /** Declared files of a task that are produced or consumed by the run
      rather than being sources. */
  predicate RunFile(name: string)
  {
    name == "output" || name == "input" || name == "report"
  }

  /** The key-path starts with `tool, <tool>, task, <task>` of the node. */
  predicate OwnTask(kp: seq<string>, b: Binding)
  {
    |kp| >= 4 && kp[..4] == ["tool", b.tool, "task", b.task]
  }

  /** A library or PDK id chosen by the specific list or by the blanket flag. */
  predicate Chosen(id: string, specific: seq<string>, blanket: bool)
  {
    id in specific || blanket
  }

  /** `determine_copy(*kp, in_require=inRequire)`. `None` is the IndexError
      the code raises when it reads an element past the end of the key-path:
      `keypath[0]` of an empty path (reached by the library recursion on
      `keypath[2:]`), or `keypath[1]` of a one-element `option` path, or of a
      one-element `pdk`/`library` path when the specific list is non-empty. */
  function DetermineCopy(kp: seq<string>, inRequire: bool, sel: Selection, b: Binding): Option<bool>
    decreases |kp|
  {
    if |kp| == 0 then None
    else if kp[0] == "library" then
      if |sel.specificLibraries| > 0 && |kp| < 2 then None
      else if !((|sel.specificLibraries| > 0 && kp[1] in sel.specificLibraries) || sel.includeLibraries) then
        Some(false)
      else
        DetermineCopy(if |kp| >= 2 then kp[2..] else [], inRequire, sel, b)
    else if kp[0] == "pdk" then
      if |sel.specificPdks| > 0 && |kp| < 2 then None
      else Some((|sel.specificPdks| > 0 && kp[1] in sel.specificPdks) || sel.includePdks)
    else if kp[0] == "history" then Some(false)
    else if kp[0] == "package" then Some(false)
    else if kp[0] == "tool" then
      Some(OwnTask(kp, b) && !(|kp| >= 5 && RunFile(kp[4])))
    else if kp[0] == "option" then
      if |kp| < 2 then None
      else if ExcludedOption(kp[1]) then Some(false)
      else Some(inRequire)
    else Some(inRequire)
  }

  /** History and package references are never copied, whatever the node's task
      requires and whatever is selected. */
  lemma HistoryAndPackageNeverCopied(kp: seq<string>, inRequire: bool, sel: Selection, b: Binding)
    requires |kp| > 0 && (kp[0] == "history" || kp[0] == "package")
    ensures DetermineCopy(kp, inRequire, sel, b) == Some(false)
  {
  }

  /** An `option` entry is copied exactly when it is required by the node's task and
      is not the build directory, cache, manifest or credentials entry. */
  lemma OptionRule(kp: seq<string>, inRequire: bool, sel: Selection, b: Binding)
    requires |kp| >= 2 && kp[0] == "option"
    ensures DetermineCopy(kp, inRequire, sel, b) == Some(inRequire && !ExcludedOption(kp[1]))
  {
  }

  /** A `tool` entry is copied exactly when it belongs to the node's own tool
      and task and is not one of its output, input or report entries; being
      required by the node's task makes no difference. */
  lemma ToolRule(kp: seq<string>, inRequire: bool, sel: Selection, b: Binding)
    requires |kp| > 0 && kp[0] == "tool"
    ensures DetermineCopy(kp, inRequire, sel, b).Some?
    ensures DetermineCopy(kp, inRequire, sel, b).value <==> OwnTask(kp, b) && !(|kp| >= 5 && RunFile(kp[4]))
    ensures DetermineCopy(kp, inRequire, sel, b) == DetermineCopy(kp, !inRequire, sel, b)
  {
  }

  /** A `pdk` entry is copied exactly when its PDK is selected, by name or by
      the blanket flag; being required by the node's task makes no difference. */
  lemma PdkRule(kp: seq<string>, inRequire: bool, sel: Selection, b: Binding)
    requires |kp| >= 2 && kp[0] == "pdk"
    ensures DetermineCopy(kp, inRequire, sel, b) == Some(Chosen(kp[1], sel.specificPdks, sel.includePdks))
  {
  }

  /** A PDK file that the failing task requires is still left out when its
      PDK is not selected. */
  lemma RequiredPdkFileNotForced(pdk: string, rest: seq<string>, b: Binding)
    ensures DetermineCopy(["pdk", pdk] + rest, true, Selection(false, [], true, []), b) == Some(false)
  {
  }

  /** A library entry is copied exactly when its library is selected and the
      rest of its key-path (after `library, <lib>`) would be copied on its own. */
  lemma LibraryRule(kp: seq<string>, inRequire: bool, sel: Selection, b: Binding)
    requires |kp| >= 2 && kp[0] == "library"
    ensures DetermineCopy(kp, inRequire, sel, b) ==
      if Chosen(kp[1], sel.specificLibraries, sel.includeLibraries)
      then DetermineCopy(kp[2..], inRequire, sel, b)
      else Some(false)
  {
  }

  /** Any other entry is copied exactly when the node's task requires it. */
  lemma DefaultRule(kp: seq<string>, inRequire: bool, sel: Selection, b: Binding)
    requires |kp| > 0
    requires kp[0] !in {"library", "pdk", "history", "package", "tool", "option"}
    ensures DetermineCopy(kp, inRequire, sel, b) == Some(inRequire)
  {
  }

  /** Being required can only add an entry, never drop one, and it never
      decides whether the key-path is read out of bounds. */
  lemma {:induction false} RequireOnlyWidens(kp: seq<string>, sel: Selection, b: Binding)
    ensures DetermineCopy(kp, false, sel, b).None? <==> DetermineCopy(kp, true, sel, b).None?
    ensures DetermineCopy(kp, false, sel, b) == Some(true) ==> DetermineCopy(kp, true, sel, b) == Some(true)
    decreases |kp|
  {
    if |kp| > 0 && kp[0] == "library" && !(|sel.specificLibraries| > 0 && |kp| < 2) {
      RequireOnlyWidens(if |kp| >= 2 then kp[2..] else [], sel, b);
    }
  }

  /** A copied entry under `library` always belongs to a selected library. */
  lemma CopiedLibraryIsSelected(kp: seq<string>, inRequire: bool, sel: Selection, b: Binding)
    requires |kp| > 0 && kp[0] == "library"
    requires DetermineCopy(kp, inRequire, sel, b) == Some(true)
    ensures |kp| >= 2 && Chosen(kp[1], sel.specificLibraries, sel.includeLibraries)
  {
  }
}
