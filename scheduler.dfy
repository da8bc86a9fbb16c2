/** Remote dispatch of one node to a Slurm cluster (`_deferstep` in
    siliconcompiler/scheduler.py): the upstream error bits copied into the
    node's configuration, the `sbatch` command line, the per-node manifest and
    launcher paths, the job id read back from `sbatch`, the polling of
    `scontrol show job` as a state machine over the responses it prints, and
    the final update of the shared `error` and `active` tables. The external
    processes are replaced by their output: `submitOutput` is what `sbatch`
    printed and `responses` the successive outputs of `scontrol`. */
module Scheduler {
  import opened Wrappers
  import opened Text
  import opened Store

  /** `chip.get('jobscheduler')`: Slurm, LSF, or anything else. */
  datatype SchedulerType = Slurm | Lsf | Other(name: string)

  /** The entries of `chip.status` that dispatch reads; `None` where the
      entry is absent. */
  datatype Status = Status(account: Option<string>, partition: Option<string>, constraint: Option<string>, hasWatchdog: bool)

  /** The node's name in the `error` and `active` tables and in file names. */
  function NodeName(step: string, index: string): string
  {
    step + index
  }

  /** The Slurm feature constraint: the one in the status, else `SHARED`. */
  function Constraint(status: Status): string
  {
    if status.constraint.Some? then status.constraint.value else "SHARED"
  }

  /** The `sbatch` invocation, before the launcher script is appended, for
      the account and partition read from the status. */
  function SlurmCommand(status: Status, account: string, partition: string,
                        dir: string, jobHash: string, step: string, index: string): seq<string>
  {
    ["sbatch", "--exclusive",
     "--constraint", Constraint(status),
     "--account", account,
     "--partition", partition,
     "--chdir", dir,
     "--job-name", jobHash + "_" + NodeName(step, index)]
  }

  /** What an `sbatch` command line asks for. */
  datatype SbatchRequest = SbatchRequest(
    exclusive: bool, constraint: string, account: string, partition: string,
    chdir: string, jobName: string, script: string)

  /** Reads the options of an `sbatch` command line after the program name:
      `--exclusive` alone, the other options each followed by their value,
      the script last. `None` when something else is found. */
  function ParseSbatchArgs(args: seq<string>, req: SbatchRequest): Option<SbatchRequest>
    decreases |args|
  {
    if |args| == 0 then None
    else if |args| == 1 then Some(req.(script := args[0]))
    else if args[0] == "--exclusive" then ParseSbatchArgs(args[1..], req.(exclusive := true))
    else if args[0] == "--constraint" then ParseSbatchArgs(args[2..], req.(constraint := args[1]))
    else if args[0] == "--account" then ParseSbatchArgs(args[2..], req.(account := args[1]))
    else if args[0] == "--partition" then ParseSbatchArgs(args[2..], req.(partition := args[1]))
    else if args[0] == "--chdir" then ParseSbatchArgs(args[2..], req.(chdir := args[1]))
    else if args[0] == "--job-name" then ParseSbatchArgs(args[2..], req.(jobName := args[1]))
    else None
  }

  function ParseSbatch(cmd: seq<string>): Option<SbatchRequest>
  {
    if |cmd| > 0 && cmd[0] == "sbatch" then ParseSbatchArgs(cmd[1..], SbatchRequest(false, "", "", "", "", "", ""))
    else None
  }

  /** Read back as `sbatch` reads it, the submitted command asks for an
      exclusive node with the status's constraint (`SHARED` by default),
      account and partition, runs in the build directory, is named
      `{jobhash}_{step}{index}` and runs the launcher script. */
  lemma SubmitCommandMeaning(status: Status, account: string, partition: string,
                             dir: string, jobHash: string, step: string, index: string, script: string)
    ensures ParseSbatch(SlurmCommand(status, account, partition, dir, jobHash, step, index) + [script])
         == Some(SbatchRequest(true, Constraint(status), account, partition, dir,
                               jobHash + "_" + step + index, script))
  {
    var c, jn := Constraint(status), jobHash + "_" + NodeName(step, index);
    assert jn == jobHash + "_" + step + index;
    var t6 := [script];
    var t5 := ["--job-name", jn] + t6;
    var t4 := ["--chdir", dir] + t5;
    var t3 := ["--partition", partition] + t4;
    var t2 := ["--account", account] + t3;
    var t1 := ["--constraint", c] + t2;
    var t0 := ["--exclusive"] + t1;
    assert SlurmCommand(status, account, partition, dir, jobHash, step, index) + [script] == ["sbatch"] + t0;
    var r0 := SbatchRequest(false, "", "", "", "", "", "");
    var r1 := r0.(exclusive := true);
    var r2 := r1.(constraint := c);
    var r3 := r2.(account := account);
    var r4 := r3.(partition := partition);
    var r5 := r4.(chdir := dir);
    var r6 := r5.(jobName := jn);
    assert ParseSbatchArgs(t5, r5) == ParseSbatchArgs(t6, r6) by { assert t5[2..] == t6; }
    assert ParseSbatchArgs(t4, r4) == ParseSbatchArgs(t5, r5) by { assert t4[2..] == t5; }
    assert ParseSbatchArgs(t3, r3) == ParseSbatchArgs(t4, r4) by { assert t3[2..] == t4; }
    assert ParseSbatchArgs(t2, r2) == ParseSbatchArgs(t3, r3) by { assert t2[2..] == t3; }
    assert ParseSbatchArgs(t1, r1) == ParseSbatchArgs(t2, r2) by { assert t1[2..] == t2; }
    assert ParseSbatchArgs(t0, r0) == ParseSbatchArgs(t1, r1) by { assert t0[1..] == t1; }
    assert (["sbatch"] + t0)[1..] == t0;
  }

  /** `{dir}/{design}/{jobname}/configs/{step}{index}`: the shared stem of
      the node's manifest (`.json`) and launcher (`.sh`). */
  function ConfigStem(dir: string, design: string, jobName: string, step: string, index: string): string
  {
    Join("/", [dir, design, jobName]) + "/configs/" + NodeName(step, index)
  }

  function ConfigFile(dir: string, design: string, jobName: string, step: string, index: string): string
  {
    ConfigStem(dir, design, jobName, step, index) + ".json"
  }

  function ScriptPath(dir: string, design: string, jobName: string, step: string, index: string): string
  {
    ConfigStem(dir, design, jobName, step, index) + ".sh"
  }

  /** Characters `shlex.quote` leaves unquoted. */
  predicate ShellSafe(ch: char)
  {
    ('a' <= ch <= 'z') || ('A' <= ch <= 'Z') || ('0' <= ch <= '9')
    || ch == '_' || ch == '@' || ch == '%' || ch == '+' || ch == '=' || ch == ':'
    || ch == ',' || ch == '.' || ch == '/' || ch == '-'
  }

  /** Each `'` becomes `'"'"'`. */
  function EscapeQuotes(s: string): string
  {
    if s == [] then []
    else (if s[0] == '\'' then "'\"'\"'" else [s[0]]) + EscapeQuotes(s[1..])
  }

  /** `shlex.quote`. */
  function Quote(s: string): string
  {
    if s == "" then "''"
    else if forall k :: 0 <= k < |s| ==> ShellSafe(s[k]) then s
    else "'" + EscapeQuotes(s) + "'"
  }

  /** A shell's reading of one word, outside any quotes: `Some(s)` when the
      word reads as the single literal string `s`, `None` when an unquoted
      character would split the word or be interpreted, or a quote is left
      open. Inside double quotes only characters the shell takes literally
      are accepted. */
  function ShellWord(w: string): Option<string>
    decreases |w|, 0
  {
    if w == [] then Some([])
    else if w[0] == '\'' then InSingleQuotes(w[1..])
    else if w[0] == '"' then InDoubleQuotes(w[1..])
    else if ShellSafe(w[0]) then Prepend(w[0], ShellWord(w[1..]))
    else None
  }

  /** The rest of a word after an opening `'`: everything up to the closing
      `'` is literal. */
  function InSingleQuotes(w: string): Option<string>
    decreases |w|, 1
  {
    if w == [] then None
    else if w[0] == '\'' then ShellWord(w[1..])
    else Prepend(w[0], InSingleQuotes(w[1..]))
  }

  /** The rest of a word after an opening `"`: up to the closing `"`, with
      `\\`, `$` and `` ` `` (which the shell would interpret) refused. */
  function InDoubleQuotes(w: string): Option<string>
    decreases |w|, 1
  {
    if w == [] then None
    else if w[0] == '"' then ShellWord(w[1..])
    else if w[0] == '\\' || w[0] == '$' || w[0] == '`' then None
    else Prepend(w[0], InDoubleQuotes(w[1..]))
  }

  function Prepend(c: char, r: Option<string>): Option<string>
  {
    if r.Some? then Some([c] + r.value) else None
  }

  /** Inside single quotes, `'"'"'` closes the quotes, reads a `'` in
      double quotes, and opens single quotes again. */
  lemma EscapedQuoteReads(rest: string)
    ensures InSingleQuotes("'\"'\"'" + rest) == Prepend('\'', InSingleQuotes(rest))
  {
    var w1, w2, w3, w4 := "\"'\"'" + rest, "'\"'" + rest, "\"'" + rest, "'" + rest;
    assert "'\"'\"'" + rest == "'" + w1;
    assert w1[1..] == w2 && w2[1..] == w3 && w3[1..] == w4 && w4[1..] == rest;
    assert InSingleQuotes("'" + w1) == ShellWord(w1) by { assert ("'" + w1)[1..] == w1; }
    assert ShellWord(w1) == InDoubleQuotes(w2);
    assert InDoubleQuotes(w2) == Prepend('\'', InDoubleQuotes(w3));
    assert InDoubleQuotes(w3) == ShellWord(w4);
    assert ShellWord(w4) == InSingleQuotes(rest);
  }

  /** Inside single quotes, the escaped text followed by the closing quote
      reads back as the text. */
  lemma {:induction false} EscapedReadsBack(s: string)
    ensures InSingleQuotes(EscapeQuotes(s) + "'") == Some(s)
  {
    if s == [] {
      assert EscapeQuotes(s) + "'" == "'";
    } else {
      var rest := EscapeQuotes(s[1..]) + "'";
      EscapedReadsBack(s[1..]);
      if s[0] == '\'' {
        assert EscapeQuotes(s) + "'" == "'\"'\"'" + rest;
        EscapedQuoteReads(rest);
      } else {
        assert EscapeQuotes(s) + "'" == [s[0]] + rest;
        assert ([s[0]] + rest)[1..] == rest;
      }
      assert [s[0]] + s[1..] == s;
    }
  }

  /** A word of shell-safe characters reads as itself. */
  lemma {:induction false} SafeReadsBack(s: string)
    requires forall k :: 0 <= k < |s| ==> ShellSafe(s[k])
    ensures ShellWord(s) == Some(s)
  {
    if s != [] {
      SafeReadsBack(s[1..]);
      assert [s[0]] + s[1..] == s;
    }
  }

  /** `shlex.quote` round-trips through the shell: every quoted string is
      read back by the shell as one word equal to the original, so the
      launcher passes the manifest path, directory, step and index intact. */
  lemma QuoteReadsBack(s: string)
    ensures ShellWord(Quote(s)) == Some(s)
  {
    if s == "" {
      assert Quote(s) == "''";
      assert ShellWord("''") == InSingleQuotes("'") by { assert "''"[1..] == "'"; }
      assert InSingleQuotes("'") == ShellWord([]) by { assert "'"[1..] == []; }
    } else if forall k :: 0 <= k < |s| ==> ShellSafe(s[k]) {
      SafeReadsBack(s);
    } else {
      EscapedReadsBack(s);
      assert ("'" + EscapeQuotes(s) + "'")[1..] == EscapeQuotes(s) + "'";
    }
  }

  /** The launcher: re-runs this node from its manifest with the job
      scheduler switched off, so the compute node runs it instead of
      submitting it again. */
  function LauncherScript(cfgFile: string, dir: string, step: string, index: string): string
  {
    "#!/bin/bash\n"
      + "sc -cfg " + Quote(cfgFile) + " -dir " + Quote(dir) + " "
      + "-arg_step " + Quote(step) + " -arg_index " + Quote(index) + " "
      + "-jobscheduler ''"
  }

  /** The manifest and the launcher share their path up to the extension,
      and the launcher always ends by clearing the job scheduler. */
  lemma LauncherPaths(dir: string, design: string, jobName: string, step: string, index: string)
    ensures var cfg, sh := ConfigFile(dir, design, jobName, step, index), ScriptPath(dir, design, jobName, step, index);
      EndsWith(cfg, ".json") && EndsWith(sh, ".sh") && cfg[..|cfg| - 5] == sh[..|sh| - 3]
    ensures EndsWith(LauncherScript(ConfigFile(dir, design, jobName, step, index), dir, step, index), "-jobscheduler ''")
  {
  }

  /** The job id: the last piece of `sbatch`'s output split at single spaces. */
  function JobId(submitOutput: string): (id: string)
    ensures ' ' !in id
  {
    LastPiece(submitOutput, ' ')
  }

  /** The id is everything after the last space of the output. */
  lemma JobIdAfterLastSpace(before: string, id: string)
    requires ' ' !in id
    ensures JobId(before + " " + id) == id
  {
    SplitConcat(before, ' ', id);
  }

  /** Output without a space is taken whole as the id. */
  lemma JobIdWithoutSpace(out: string)
    requires ' ' !in out
    ensures JobId(out) == out
  {
  }

  /** What one `scontrol show job` response tells the poll loop. */
  datatype PollStep = KeepPolling | Finished(code: int)

  /** RUNNING or PENDING anywhere keeps polling, even next to COMPLETED;
      otherwise COMPLETED, or the job being unknown to the scheduler, ends
      with 0; anything else ends with 1. */
  function Classify(response: string): PollStep
  {
    if Contains(response, "RUNNING") || Contains(response, "PENDING") then KeepPolling
    else if Contains(response, "COMPLETED") then Finished(0)
    else if Contains(response, "Invalid job id specified") then Finished(0)
    else Finished(1)
  }

  /** The return code of the poll loop over a run of responses: that of the
      first response that stops it, or `None` when every response keeps it
      polling (the loop has no bound and would go on). */
  function PollOutcome(responses: seq<string>): Option<int>
  {
    if responses == [] then None
    else match Classify(responses[0])
      case KeepPolling => PollOutcome(responses[1..])
      case Finished(c) => Some(c)
  }

  /** How many responses kept the loop polling before it stopped. */
  function PollsBeforeStop(responses: seq<string>): (n: nat)
    ensures n <= |responses|
  {
    if responses == [] then 0
    else match Classify(responses[0])
      case KeepPolling => 1 + PollsBeforeStop(responses[1..])
      case Finished(_) => 0
  }

  /** The precedence of the checks on one response. */
  lemma ClassifyPrecedence(response: string)
    ensures Contains(response, "RUNNING") || Contains(response, "PENDING") <==> Classify(response) == KeepPolling
    ensures Classify(response) == Finished(1) <==>
      !Contains(response, "RUNNING") && !Contains(response, "PENDING")
      && !Contains(response, "COMPLETED") && !Contains(response, "Invalid job id specified")
    ensures Classify(response) == KeepPolling || Classify(response) == Finished(0) || Classify(response) == Finished(1)
  {
  }

  /** The loop's result is decided by the first response that lacks RUNNING
      and PENDING; the responses after it are never read. */
  lemma {:induction false} FirstStopDecides(responses: seq<string>, k: nat)
    requires k < |responses|
    requires forall j :: 0 <= j < k ==> Classify(responses[j]) == KeepPolling
    requires Classify(responses[k]).Finished?
    ensures PollOutcome(responses) == Some(Classify(responses[k]).code)
    ensures PollsBeforeStop(responses) == k
  {
    if k > 0 {
      FirstStopDecides(responses[1..], k - 1);
    }
  }

  /** What follows the stopping response is never read. */
  lemma {:induction false} LaterResponsesIgnored(responses: seq<string>, k: nat, later: seq<string>)
    requires k < |responses|
    requires forall j :: 0 <= j < k ==> Classify(responses[j]) == KeepPolling
    requires Classify(responses[k]).Finished?
    ensures PollOutcome(responses[..k + 1] + later) == PollOutcome(responses)
  {
    var cut := responses[..k + 1] + later;
    assert cut[..k + 1] == responses[..k + 1];
    FirstStopDecides(responses, k);
    FirstStopDecides(cut, k);
  }

  /** Responses that all keep it polling never end the loop. */
  lemma {:induction false} StillPolling(responses: seq<string>)
    requires forall j :: 0 <= j < |responses| ==> Classify(responses[j]) == KeepPolling
    ensures PollOutcome(responses) == None && PollsBeforeStop(responses) == |responses|
  {
    if responses != [] {
      StillPolling(responses[1..]);
    }
  }

  /** A job seen pending, then running, then completed succeeds; a job the
      scheduler no longer knows is taken as completed; a failed one fails;
      a response naming both RUNNING and COMPLETED keeps polling. */
  lemma PollExamples()
    ensures PollOutcome(["JobState=PENDING", "JobState=RUNNING", "JobState=COMPLETED"]) == Some(0)
    ensures PollOutcome(["Invalid job id specified"]) == Some(0)
    ensures PollOutcome(["JobState=FAILED"]) == Some(1)
    ensures PollOutcome(["RUNNING COMPLETED"]) == None
  {
    PendingAndRunningPoll();
    CompletedStops();
    var three := ["JobState=PENDING", "JobState=RUNNING", "JobState=COMPLETED"];
    FirstStopDecides(three, 2);
    UnknownJobStops();
    FailedJobFails();
    MixedKeepsPolling();
  }

  lemma PendingAndRunningPoll()
    ensures Classify("JobState=PENDING") == KeepPolling
    ensures Classify("JobState=RUNNING") == KeepPolling
  {
    ContainsMiddle("JobState=", "PENDING", "");
    assert "JobState=" + "PENDING" + "" == "JobState=PENDING";
    ContainsMiddle("JobState=", "RUNNING", "");
    assert "JobState=" + "RUNNING" + "" == "JobState=RUNNING";
  }

  lemma UnknownJobStops()
    ensures Classify("Invalid job id specified") == Finished(0)
  {
    LacksStates("Invalid job id specified");
    ContainsMiddle("", "Invalid job id specified", "");
    assert "" + "Invalid job id specified" + "" == "Invalid job id specified";
  }

  lemma FailedJobFails()
    ensures Classify("JobState=FAILED") == Finished(1)
  {
    LacksStates("JobState=FAILED");
    MissingCharRulesOut("JobState=FAILED", "Invalid job id specified", 'v');
  }

  /** A response without `R`, `P` and `C` names none of the three states. */
  lemma LacksStates(response: string)
    requires 'R' !in response && 'P' !in response && 'C' !in response
    ensures !Contains(response, "RUNNING") && !Contains(response, "PENDING") && !Contains(response, "COMPLETED")
  {
    MissingCharRulesOut(response, "RUNNING", 'R');
    MissingCharRulesOut(response, "PENDING", 'P');
    MissingCharRulesOut(response, "COMPLETED", 'C');
  }

  lemma MixedKeepsPolling()
    ensures Classify("RUNNING COMPLETED") == KeepPolling
  {
    ContainsMiddle("", "RUNNING", " COMPLETED");
    assert "" + "RUNNING" + " COMPLETED" == "RUNNING COMPLETED";
  }

  /** A completed job's response stops the loop with 0. */
  lemma CompletedStops()
    ensures Classify("JobState=COMPLETED") == Finished(0)
  {
    CompletedNamesNoOtherState();
    ContainsMiddle("JobState=", "COMPLETED", "");
    assert "JobState=" + "COMPLETED" + "" == "JobState=COMPLETED";
  }

  lemma CompletedNamesNoOtherState()
    ensures !Contains("JobState=COMPLETED", "RUNNING")
    ensures !Contains("JobState=COMPLETED", "PENDING")
  {
    MissingCharRulesOut("JobState=COMPLETED", "RUNNING", 'R');
    MissingCharRulesOut("JobState=COMPLETED", "PENDING", 'G');
  }

  /** The poll loop (scheduler.py lines 76-94) with the three-second sleep
      abstracted away: reads responses until one stops it. `pings` counts
      the watchdog being set, once per response that keeps it polling when
      the status holds a watchdog. */
  method PollJob(responses: seq<string>, hasWatchdog: bool) returns (retcode: Option<int>, pings: nat)
    ensures retcode == PollOutcome(responses)
    ensures pings == if hasWatchdog then PollsBeforeStop(responses) else 0
  {
    var code := 0;
    pings := 0;
    var i := 0;
    while i < |responses|
      invariant 0 <= i <= |responses|
      invariant PollOutcome(responses) == PollOutcome(responses[i..])
      invariant PollsBeforeStop(responses) == i + PollsBeforeStop(responses[i..])
      invariant pings == if hasWatchdog then i else 0
    {
      assert responses[i..][1..] == responses[i + 1..];
      var jobout := responses[i];
      if Contains(jobout, "RUNNING") || Contains(jobout, "PENDING") {
        if hasWatchdog {
          pings := pings + 1;
        }
      } else if Contains(jobout, "COMPLETED") {
        return Some(code), pings;
      } else if Contains(jobout, "Invalid job id specified") {
        return Some(code), pings;
      } else {
        code := 1;
        return Some(code), pings;
      }
      i := i + 1;
    }
    assert responses[i..] == [];
    return None, pings;
  }

  /** The poll loop as the file stands: `time` is never imported, so the
      `time.sleep(3.0)` that opens each iteration raises NameError before
      the first status query, whatever the responses would have been. */
  function PollAsWritten(responses: seq<string>): (r: Result<int, string>)
    ensures r.Failure?
  {
    Failure("NameError: name 'time' is not defined")
  }

  /** A job that has completed is reported with return code 0 by the poll
      loop meant, but as written the loop raises before reading anything. */
  lemma PollAsWrittenNeverReadsStatus()
    ensures PollAsWritten(["JobState=COMPLETED"]).Failure?
    ensures PollOutcome(["JobState=COMPLETED"]) == Some(0)
  {
    CompletedStops();
  }

  /** The flowstatus error bit of an upstream node. */
  function ErrorBitKey(inStep: string, inIndex: string): Key
  {
    Global(["flowstatus", inStep, inIndex, "error"])
  }

  /** The error-bit loop (scheduler.py lines 17-19) as a function of the
      configuration before it: each input's flowstatus error is set from the
      `error` table. The boolean is false when an input is missing from the
      table (KeyError); the inputs set before it stay set. */
  function ErrorBits(cfg: Config, inputs: seq<(string, string)>, error: map<string, int>): (Config, bool)
    decreases |inputs|
  {
    if inputs == [] then (cfg, true)
    else
      var (s, i) := inputs[0];
      if NodeName(s, i) !in error then (cfg, false)
      else ErrorBits(cfg[ErrorBitKey(s, i) := Num(error[NodeName(s, i)])], inputs[1..], error)
  }

  /** When every input is in the table, each input's error bit is the
      table's entry for it and no other parameter changes. */
  lemma {:induction false} ErrorBitsEffect(cfg: Config, inputs: seq<(string, string)>, error: map<string, int>)
    decreases |inputs|
    ensures var (out, ok) := ErrorBits(cfg, inputs, error);
      && (ok <==> forall p :: p in inputs ==> NodeName(p.0, p.1) in error)
      && (ok ==> forall p :: p in inputs ==> ErrorBitKey(p.0, p.1) in out && out[ErrorBitKey(p.0, p.1)] == Num(error[NodeName(p.0, p.1)]))
      && (forall k :: k in cfg && (forall p :: p in inputs ==> k != ErrorBitKey(p.0, p.1)) ==> k in out && out[k] == cfg[k])
  {
    if inputs != [] {
      var (s, i) := inputs[0];
      if NodeName(s, i) in error {
        var cfg' := cfg[ErrorBitKey(s, i) := Num(error[NodeName(s, i)])];
        ErrorBitsEffect(cfg', inputs[1..], error);
        assert forall p :: p in inputs ==> p == inputs[0] || p in inputs[1..];
      }
    }
  }

  /** The shared per-node tables the run coordinator watches. */
  class RunTables {
    var error: map<string, int>
    var active: map<string, int>

    constructor (error: map<string, int>, active: map<string, int>)
      ensures this.error == error && this.active == active
    {
      this.error := error;
      this.active := active;
    }
  }

  /** What one dispatch did. `retcode` is `None` when the responses ran out
      while the job was still pending or running. */
  datatype Dispatch = Dispatch(
    command: seq<string>, cfgFile: string, script: string, jobId: string,
    retcode: Option<int>, watchdogPings: nat)

  /** `_deferstep`, with the corrected poll loop `PollJob` (as written, the
      loop raises NameError once the job is submitted, and the tables are
      never updated; see `PollAsWritten`): copies the upstream error bits
      into the chip, builds the submission command, names the manifest and
      launcher, reads the job id, polls, and finally records the node's return code in `error` and
      clears its `active` entry, touching no other entry of either table.
      An input missing from `error` raises KeyError, and so does a status
      without a Slurm account or partition, whatever the scheduler type; a
      scheduler type other than Slurm or LSF leaves the command undefined
      (an UnboundLocalError). Each stops it after the error bits set so
      far. */
  method DeferStep(chip: Chip, tables: RunTables, step: string, index: string,
                   inputs: seq<(string, string)>, schedulerType: SchedulerType, status: Status,
                   jobHash: string, dir: string, design: string, jobName: string,
                   submitOutput: string, responses: seq<string>)
    returns (r: Result<Dispatch, string>)
    modifies chip, tables
    ensures chip.cfg == ErrorBits(old(chip.cfg), inputs, old(tables.error)).0
    ensures r.Success? <==>
      && ErrorBits(old(chip.cfg), inputs, old(tables.error)).1
      && status.account.Some? && status.partition.Some? && !schedulerType.Other?
    ensures ErrorBits(old(chip.cfg), inputs, old(tables.error)).1 && status.account.None? ==>
      r == Failure("KeyError: slurm_account")
    ensures ErrorBits(old(chip.cfg), inputs, old(tables.error)).1 && status.account.Some? && status.partition.None? ==>
      r == Failure("KeyError: slurm_partition")
    ensures r.Success? ==>
      && r.value.command ==
           (if schedulerType == Slurm
            then SlurmCommand(status, status.account.value, status.partition.value, dir, jobHash, step, index)
            else ["lsrun"])
                            + [ScriptPath(dir, design, jobName, step, index)]
      && r.value.cfgFile == ConfigFile(dir, design, jobName, step, index)
      && r.value.script == LauncherScript(r.value.cfgFile, dir, step, index)
      && r.value.jobId == JobId(submitOutput)
      && r.value.retcode == PollOutcome(responses)
    ensures r.Success? && r.value.retcode.Some? ==>
      && tables.error == old(tables.error)[NodeName(step, index) := r.value.retcode.value]
      && tables.active == old(tables.active)[NodeName(step, index) := 0]
    ensures r.Failure? || r.value.retcode.None? ==>
      tables.error == old(tables.error) && tables.active == old(tables.active)
  {
    var i := 0;
    while i < |inputs|
      invariant 0 <= i <= |inputs|
      invariant tables.error == old(tables.error) && tables.active == old(tables.active)
      invariant ErrorBits(chip.cfg, inputs[i..], tables.error) == ErrorBits(old(chip.cfg), inputs, old(tables.error))
    {
      assert inputs[i..][1..] == inputs[i + 1..];
      var (inStep, inIndex) := inputs[i];
      if NodeName(inStep, inIndex) !in tables.error {
        return Failure("KeyError: " + NodeName(inStep, inIndex));
      }
      chip.Set(ErrorBitKey(inStep, inIndex), Num(tables.error[NodeName(inStep, inIndex)]));
      i := i + 1;
    }
    assert inputs[i..] == [];

    if status.account.None? {
      return Failure("KeyError: slurm_account");
    }
    if status.partition.None? {
      return Failure("KeyError: slurm_partition");
    }
    var username, partition := status.account.value, status.partition.value;
    var scheduleCmd: seq<string>;
    if schedulerType == Slurm {
      scheduleCmd := SlurmCommand(status, username, partition, dir, jobHash, step, index);
    } else if schedulerType == Lsf {
      scheduleCmd := ["lsrun"];
    } else {
      return Failure("UnboundLocalError: schedule_cmd");
    }

    var cfgFile := ConfigFile(dir, design, jobName, step, index);
    var scriptPath := ScriptPath(dir, design, jobName, step, index);
    var script := LauncherScript(cfgFile, dir, step, index);
    scheduleCmd := scheduleCmd + [scriptPath];

    var sbatchId := JobId(submitOutput);
    var retcode, pings := PollJob(responses, status.hasWatchdog);
    if retcode.Some? {
      tables.error := tables.error[NodeName(step, index) := retcode.value];
      tables.active := tables.active[NodeName(step, index) := 0];
    }
    return Success(Dispatch(scheduleCmd, cfgFile, script, sbatchId, retcode, pings));
  }
}
