/** Testcase generation (`generate_testcase` in siliconcompiler/issue.py):
    the loops that mark which parameters are hashed and copied, the
    commits-ahead counter, the archive name and its top directory, and the
    order in which the live schema, working directory and relative-path
    setting are changed and put back. File system, archive, template and
    environment work is not modelled; its outcome is an input. */
module Issue {
  import opened Wrappers
  import opened Text
  import opened IssuePolicy

  /** The fields of a parameter that this model follows: its type, whether
      `_getvals` yields any step and index with a value set, its `copy` flag,
      and whether `hash_files` has written hash values for it. The values
      themselves are not modelled. */
  datatype Param = Param(typ: string, hasValues: bool, copy: bool, hashed: bool)

  type KeyPath = seq<string>

  /** The chip's schema: every parameter by key-path, plus the two `option`
      settings the generator changes (`option, continue` and
      `option, copyall`). */
  datatype Schema = Schema(params: map<KeyPath, Param>, continueOnError: bool, copyAll: bool)

  /** The type mentions a file or a directory (`'file' in t or 'dir' in t`). */
  predicate FileLike(typ: string)
  {
    Contains(typ, "file") || Contains(typ, "dir")
  }

  /** A parameter whose `copy` field the copy loop sets. */
  predicate CopyEligible(kp: KeyPath, typ: string)
  {
    "default" !in kp && FileLike(typ)
  }

  /** A parameter the hashing loop hashes. Unlike the copy loop it does not
      skip key-paths that contain `default`. */
  predicate HashEligible(kp: KeyPath, typ: string)
    requires |kp| > 0
  {
    kp[0] != "history"
    && !(|kp| > 1 && kp[|kp| - 2] == "option" && (kp[|kp| - 1] == "builddir" || kp[|kp| - 1] == "cache"))
    && FileLike(typ)
  }

  /** A key-path of the schema that the hashing loop hands to `hash_files`:
      an eligible one with at least one value set, since the inner loop runs
      once per entry `_getvals` yields. */
  predicate Hashed(params: map<KeyPath, Param>, k: KeyPath)
  {
    k in params && |k| > 0 && HashEligible(k, params[k].typ) && params[k].hasValues
  }

  /** The key-paths the hashing loop hands to `hash_files`, in order. */
  function HashTargets(params: map<KeyPath, Param>, keys: seq<KeyPath>): seq<KeyPath>
  {
    if keys == [] then []
    else (if Hashed(params, keys[0]) then [keys[0]] else []) + HashTargets(params, keys[1..])
  }

  /** Hashing one more key-path adds it when it is eligible and has a value. */
  lemma {:induction false} HashTargetsSnoc(params: map<KeyPath, Param>, keys: seq<KeyPath>, k: KeyPath)
    ensures HashTargets(params, keys + [k]) == HashTargets(params, keys) + (if Hashed(params, k) then [k] else [])
  {
    if keys == [] {
      assert keys + [k] == [k];
      assert [k][1..] == [];
    } else {
      assert (keys + [k])[1..] == keys[1..] + [k];
      assert (keys + [k])[0] == keys[0];
      HashTargetsSnoc(params, keys[1..], k);
      var here := if Hashed(params, keys[0]) then [keys[0]] else [];
      var tail := if Hashed(params, k) then [k] else [];
      assert here + (HashTargets(params, keys[1..]) + tail) == (here + HashTargets(params, keys[1..])) + tail;
    }
  }

  /** A key-path is hashed exactly when it is visited, eligible and set:
      never a history entry, never a build directory or cache entry, always
      of file or directory type, and with at least one value. */
  lemma {:induction false} HashTargetsExactly(params: map<KeyPath, Param>, keys: seq<KeyPath>, k: KeyPath)
    ensures k in HashTargets(params, keys) <==> k in keys && Hashed(params, k)
  {
    if keys != [] {
      HashTargetsExactly(params, keys[1..], k);
    }
  }

  /** The parameters once `hash_files` has run on every eligible visited
      key-path: those carry hash values, and nothing else changes. */
  function MarkHashed(params: map<KeyPath, Param>, keys: seq<KeyPath>): map<KeyPath, Param>
  {
    map k | k in params :: if k in keys && Hashed(params, k) then params[k].(hashed := true) else params[k]
  }

  /** Marking keeps every key-path, type, value presence and copy flag, and
      marks exactly the key-paths handed to `hash_files`, on top of those
      marked before. */
  lemma MarkHashedEffect(params: map<KeyPath, Param>, keys: seq<KeyPath>)
    ensures var r := MarkHashed(params, keys);
      && r.Keys == params.Keys
      && forall k :: k in params ==>
           && r[k].typ == params[k].typ && r[k].hasValues == params[k].hasValues && r[k].copy == params[k].copy
           && (r[k].hashed <==> params[k].hashed || k in HashTargets(params, keys))
  {
    forall k | k in params
      ensures MarkHashed(params, keys)[k].hashed <==> params[k].hashed || k in HashTargets(params, keys)
    {
      HashTargetsExactly(params, keys, k);
    }
  }

  /** A parameter with no value set is never handed to `hash_files`, whatever
      its type, and is left exactly as it was. */
  lemma UnsetNotHashed(params: map<KeyPath, Param>, keys: seq<KeyPath>, k: KeyPath)
    requires k in params && !params[k].hasValues
    ensures k !in HashTargets(params, keys) && MarkHashed(params, keys)[k] == params[k]
  {
    HashTargetsExactly(params, keys, k);
  }

  /** Hashing one more key-path marks it when it is eligible and has a value. */
  lemma MarkHashedSnoc(params: map<KeyPath, Param>, keys: seq<KeyPath>, key: KeyPath)
    requires key in params
    ensures var before := MarkHashed(params, keys);
      MarkHashed(params, keys + [key])
        == if Hashed(params, key) then before[key := before[key].(hashed := true)] else before
  {
    var before := MarkHashed(params, keys);
    var after := MarkHashed(params, keys + [key]);
    var expected := if Hashed(params, key) then before[key := before[key].(hashed := true)] else before;
    forall k | k in params
      ensures after[k] == expected[k]
    {
      assert k in keys + [key] <==> k in keys || k == key;
    }
    assert after == expected;
  }

  /** The checks of one iteration of the hashing loop, in the order the loop
      makes them: history entries, then build directory and cache entries
      are passed over, then anything not of file or directory type. */
  method ShouldHash(key: KeyPath, scType: string) returns (hashIt: bool)
    requires |key| > 0
    ensures hashIt == HashEligible(key, scType)
  {
    if key[0] == "history" {
      return false;
    }
    if |key| > 1 {
      if key[|key| - 2] == "option" && key[|key| - 1] == "builddir" {
        return false;
      }
      if key[|key| - 2] == "option" && key[|key| - 1] == "cache" {
        return false;
      }
    }
    if !Contains(scType, "file") && !Contains(scType, "dir") {
      return false;
    }
    return true;
  }

  /** The copy loop (issue.py lines 108-119) as a function of the schema
      before it: each eligible parameter in turn gets
      `copy := determine_copy(...)`, where the parameter counts as required
      when its comma-joined key-path is in the require list of the node's task. The
      boolean is false when `determine_copy` raised; the parameters updated
      before that stay updated. */
  function CopyFlags(params: map<KeyPath, Param>, keys: seq<KeyPath>, taskRequires: seq<string>,
                     sel: Selection, b: Binding): (map<KeyPath, Param>, bool)
    requires forall k :: k in keys ==> k in params
  {
    if keys == [] then (params, true)
    else
      var k := keys[0];
      if !CopyEligible(k, params[k].typ) then CopyFlags(params, keys[1..], taskRequires, sel, b)
      else
        match DetermineCopy(k, Join(",", k) in taskRequires, sel, b)
        case None => (params, false)
        case Some(c) => CopyFlags(params[k := params[k].(copy := c)], keys[1..], taskRequires, sel, b)
  }

  /** The copy loop finishes exactly when no eligible visited key-path makes
      `determine_copy` raise; then every eligible visited parameter holds its
      decision, and every other field and parameter is as it was. */
  lemma {:induction false} CopyFlagsEffect(params: map<KeyPath, Param>, keys: seq<KeyPath>, taskRequires: seq<string>,
                                           sel: Selection, b: Binding)
    requires forall k :: k in keys ==> k in params
    ensures var (out, ok) := CopyFlags(params, keys, taskRequires, sel, b);
      && out.Keys == params.Keys
      && (forall k :: k in params ==>
            out[k].typ == params[k].typ && out[k].hasValues == params[k].hasValues && out[k].hashed == params[k].hashed)
      && (ok <==> forall k :: k in keys && CopyEligible(k, params[k].typ) ==>
                    DetermineCopy(k, Join(",", k) in taskRequires, sel, b).Some?)
      && (ok ==> forall k :: k in params ==>
            out[k] == if k in keys && CopyEligible(k, params[k].typ)
                      then params[k].(copy := DetermineCopy(k, Join(",", k) in taskRequires, sel, b).value)
                      else params[k])
  {
    if keys != [] {
      var k := keys[0];
      if !CopyEligible(k, params[k].typ) {
        CopyFlagsEffect(params, keys[1..], taskRequires, sel, b);
      } else {
        match DetermineCopy(k, Join(",", k) in taskRequires, sel, b)
        case None =>
        case Some(c) =>
          var p' := params[k := params[k].(copy := c)];
          CopyFlagsEffect(p', keys[1..], taskRequires, sel, b);
      }
    }
  }

  /** A chip as testcase generation sees it: its schema, its current
      directory and the relative-path setting used while replay files are
      written. */
  class IssueChip {
    var schema: Schema
    var cwd: string
    var relativePath: Option<string>

    constructor (schema: Schema, cwd: string)
      ensures this.schema == schema && this.cwd == cwd && relativePath == None
    {
      this.schema := schema;
      this.cwd := cwd;
      relativePath := None;
    }

    function State(): ChipState
      reads this
    {
      ChipState(schema, cwd, relativePath)
    }

    /** The hashing loop (issue.py lines 31-46): hands each eligible
        key-path to `hash_files` once per step and index `_getvals` yields,
        in the order they are visited, which writes its hash values into the
        schema. Returns the key-paths hashed. */
    method HashFiles(keys: seq<KeyPath>) returns (hashed: seq<KeyPath>)
      requires forall k :: k in keys ==> k in schema.params && |k| > 0
      modifies this
      ensures hashed == HashTargets(old(schema.params), keys)
      ensures schema == old(schema).(params := MarkHashed(old(schema.params), keys))
      ensures cwd == old(cwd) && relativePath == old(relativePath)
    {
      var params := schema.params;
      hashed := [];
      var i := 0;
      assert keys[..0] == [];
      assert MarkHashed(params, []) == params;
      while i < |keys|
        invariant 0 <= i <= |keys|
        invariant hashed == HashTargets(schema.params, keys[..i])
        invariant params == MarkHashed(schema.params, keys[..i])
        modifies {}
      {
        var key := keys[i];
        assert key in keys;
        MarkHashedEffect(schema.params, keys[..i]);
        var hashIt := ShouldHash(key, params[key].typ);
        TakeOneMore(keys, i);
        HashTargetsSnoc(schema.params, keys[..i], key);
        MarkHashedSnoc(schema.params, keys[..i], key);
        if hashIt && params[key].hasValues {
          hashed := hashed + [key];
          params := params[key := params[key].(hashed := true)];
        }
        i := i + 1;
      }
      assert keys[..i] == keys;
      schema := schema.(params := params);
    }

    /** The copy loop, changing the chip's schema in place. */
    method SetCopyFlags(keys: seq<KeyPath>, taskRequires: seq<string>, sel: Selection, b: Binding) returns (ok: bool)
      requires forall k :: k in keys ==> k in schema.params
      modifies this
      ensures schema == old(schema).(params := CopyFlags(old(schema.params), keys, taskRequires, sel, b).0)
      ensures ok == CopyFlags(old(schema.params), keys, taskRequires, sel, b).1
      ensures cwd == old(cwd) && relativePath == old(relativePath)
    {
      var i := 0;
      while i < |keys|
        invariant 0 <= i <= |keys|
        invariant schema.params.Keys == old(schema.params.Keys)
        invariant schema.continueOnError == old(schema.continueOnError) && schema.copyAll == old(schema.copyAll)
        invariant cwd == old(cwd) && relativePath == old(relativePath)
        invariant CopyFlags(schema.params, keys[i..], taskRequires, sel, b)
               == CopyFlags(old(schema.params), keys, taskRequires, sel, b)
      {
        var keypath := keys[i];
        assert keys[i..][0] == keypath && keys[i..][1..] == keys[i + 1..];
        var eligible := ShouldCopy(keypath, schema.params[keypath].typ);
        if !eligible {
          i := i + 1;
          continue;
        }
        var decision := DetermineCopy(keypath, Join(",", keypath) in taskRequires, sel, b);
        if decision.None? {
          return false;
        }
        schema := schema.(params := schema.params[keypath := schema.params[keypath].(copy := decision.value)]);
        i := i + 1;
      }
      assert keys[|keys|..] == [];
      return true;
    }
  }

  /** The checks of one iteration of the copy loop, in the order the loop
      makes them: key-paths holding `default` are passed over, then anything
      not of file or directory type. */
  method ShouldCopy(keypath: KeyPath, scType: string) returns (eligible: bool)
    ensures eligible == CopyEligible(keypath, scType)
  {
    if "default" in keypath {
      return false;
    }
    if !Contains(scType, "file") && !Contains(scType, "dir") {
      return false;
    }
    return true;
  }

  /** Wall-clock time broken into the fields `strftime` prints. */
  datatype Timestamp = Timestamp(year: nat, month: nat, day: nat, hour: nat, minute: nat, second: nat)

  predicate ValidTimestamp(t: Timestamp)
  {
    1 <= t.year <= 9999 && 1 <= t.month <= 12 && 1 <= t.day <= 31
    && t.hour < 24 && t.minute < 60 && t.second < 60
  }

  /** `strftime('%Y%m%d-%H%M%S')`. */
  function FileTime(t: Timestamp): string
    requires ValidTimestamp(t)
  {
    Digits(t.year, 4) + Digits(t.month, 2) + Digits(t.day, 2) + "-"
      + Digits(t.hour, 2) + Digits(t.minute, 2) + Digits(t.second, 2)
  }

  /** The file time is fifteen characters: eight digits, a dash, six digits;
      in particular it holds no `.` and no `/`. */
  lemma FileTimeShape(t: Timestamp)
    requires ValidTimestamp(t)
    ensures |FileTime(t)| == 15 && FileTime(t)[8] == '-'
    ensures forall k :: 0 <= k < 15 && k != 8 ==> '0' <= FileTime(t)[k] <= '9'
    ensures '.' !in FileTime(t) && '/' !in FileTime(t)
  {
    var date := Digits(t.year, 4) + Digits(t.month, 2) + Digits(t.day, 2);
    var time := Digits(t.hour, 2) + Digits(t.minute, 2) + Digits(t.second, 2);
    DateDigits(t);
    TimeDigits(t);
    var s := FileTime(t);
    assert s == date + "-" + time;
    assert forall k :: 0 <= k < 8 ==> s[k] == date[k];
    assert forall k :: 9 <= k < 15 ==> s[k] == time[k - 9];
  }

  lemma DateDigits(t: Timestamp)
    requires ValidTimestamp(t)
    ensures var date := Digits(t.year, 4) + Digits(t.month, 2) + Digits(t.day, 2);
      |date| == 8 && forall k :: 0 <= k < 8 ==> '0' <= date[k] <= '9'
  {
    DigitsAreDigits(t.year, 4);
    DigitsAreDigits(t.month, 2);
    DigitsAreDigits(t.day, 2);
  }

  lemma TimeDigits(t: Timestamp)
    requires ValidTimestamp(t)
    ensures var time := Digits(t.hour, 2) + Digits(t.minute, 2) + Digits(t.second, 2);
      |time| == 6 && forall k :: 0 <= k < 6 ==> '0' <= time[k] <= '9'
  {
    DigitsAreDigits(t.hour, 2);
    DigitsAreDigits(t.minute, 2);
    DigitsAreDigits(t.second, 2);
  }

  /** The stem of the default archive name: everything before `.tar.gz`. */
  function DefaultStem(design: string, job: string, step: string, index: string, t: Timestamp): string
    requires ValidTimestamp(t)
  {
    "sc_issue_" + design + "_" + job + "_" + step + index + "_" + FileTime(t)
  }

  /** The archive name: the one given, unless none (or an empty one) was
      given, in which case
      `sc_issue_{design}_{job}_{step}{index}_{YYYYmmdd-HHMMSS}.tar.gz`. */
  function ArchiveName(given: Option<string>, design: string, job: string, step: string, index: string,
                       t: Timestamp): (name: string)
    requires ValidTimestamp(t)
    ensures given.Some? && given.value != "" ==> name == given.value
    ensures given.None? || given.value == "" ==> name == DefaultStem(design, job, step, index, t) + ".tar.gz"
  {
    if given.Some? && given.value != "" then given.value
    else DefaultStem(design, job, step, index, t) + ".tar.gz"
  }

  /** The archive's single top-level directory: the file name of the archive
      up to its first `.`. */
  function ArchiveBaseDir(archiveName: string): string
  {
    Split(Basename(archiveName), '.')[0]
  }

  /** The directory holds no `.` and no `/`: it is a single path component
      with no extension. */
  lemma ArchiveBaseDirPlain(archiveName: string)
    ensures '.' !in ArchiveBaseDir(archiveName) && '/' !in ArchiveBaseDir(archiveName)
  {
    SplitPiecesLackSeparator(Basename(archiveName), '.');
  }

  /** A file name without `/` has its top-level directory up to its first
      `.`. */
  lemma BaseDirUpToFirstDot(pre: string, post: string)
    requires '/' !in pre && '/' !in post && '.' !in pre
    ensures ArchiveBaseDir(pre + "." + post) == pre
  {
    var name := pre + "." + post;
    assert name == pre + ['.'] + post;
    assert '/' !in name;
    assert Basename(name) == name;
    SplitAfterFirst(pre, '.', post);
  }

  /** With no archive name given, and no `.` or `/` in the design, job, step
      or index, the top-level directory is the default stem: the archive
      name without `.tar.gz`. */
  lemma DefaultArchiveBaseDir(design: string, job: string, step: string, index: string, t: Timestamp)
    requires ValidTimestamp(t)
    requires '.' !in design && '.' !in job && '.' !in step && '.' !in index
    requires '/' !in design && '/' !in job && '/' !in step && '/' !in index
    ensures ArchiveBaseDir(ArchiveName(None, design, job, step, index, t)) == DefaultStem(design, job, step, index, t)
  {
    FileTimeShape(t);
    var stem := DefaultStem(design, job, step, index, t);
    assert '/' !in stem && '.' !in stem;
    assert stem + ".tar.gz" == stem + "." + "tar.gz";
    BaseDirUpToFirstDot(stem, "tar.gz");
  }

  /** A design name with a dot in it cuts the directory short: it ends
      before that dot. */
  lemma DottedDesignShortensBaseDir(pre: string, post: string, job: string, step: string, index: string,
                                    t: Timestamp)
    requires ValidTimestamp(t)
    requires '.' !in pre
    requires '/' !in pre && '/' !in post && '/' !in job && '/' !in step && '/' !in index
    ensures ArchiveBaseDir(ArchiveName(None, pre + "." + post, job, step, index, t)) == "sc_issue_" + pre
  {
    FileTimeShape(t);
    var head := "sc_issue_" + pre;
    var rest := post + "_" + job + "_" + step + index + "_" + FileTime(t) + ".tar.gz";
    assert ArchiveName(None, pre + "." + post, job, step, index, t) == head + "." + rest;
    BaseDirUpToFirstDot(head, rest);
  }

  /** How many commits of `parents` (the head commit's ancestors in the order
      they are walked) are counted before and including the version tag's
      commit; all of them when the tag's commit is not among them. */
  function AheadCount(parents: seq<string>, tagCommit: string): nat
  {
    if parents == [] then 0
    else if parents[0] == tagCommit then 1
    else 1 + AheadCount(parents[1..], tagCommit)
  }

  /** The count is one past the position of the first occurrence of the tag's
      commit, or the whole walk when it does not occur. */
  lemma {:induction false} AheadCountMeaning(parents: seq<string>, tagCommit: string)
    ensures AheadCount(parents, tagCommit) <= |parents|
    ensures tagCommit !in parents ==> AheadCount(parents, tagCommit) == |parents|
    ensures tagCommit in parents ==>
      var n := AheadCount(parents, tagCommit);
      n >= 1 && parents[n - 1] == tagCommit && tagCommit !in parents[..n - 1]
  {
    if parents != [] && parents[0] != tagCommit {
      AheadCountMeaning(parents[1..], tagCommit);
      var n := AheadCount(parents, tagCommit);
      if tagCommit in parents {
        assert parents[..n - 1] == [parents[0]] + parents[1..][..n - 2];
      }
    }
  }

  /** What the commits-ahead loop yields: the count when the version tag
      has a commit, nothing counted when there are no parents, and otherwise
      the error raised on the first comparison. */
  function AheadResult(parents: seq<string>, tagCommit: Option<string>): Result<nat, string>
  {
    if tagCommit.Some? then Success(AheadCount(parents, tagCommit.value))
    else if parents == [] then Success(0)
    else Failure("the version tag has no commit")
  }

  /** The commits-ahead loop (issue.py lines 188-194). `tagCommit` is `None`
      when the version tag does not exist: reading its commit then raises,
      which happens on the first comparison, so only when there are parents. */
  method CountAhead(parents: seq<string>, tagCommit: Option<string>) returns (r: Result<nat, string>)
    ensures r == AheadResult(parents, tagCommit)
  {
    var count := 0;
    var i := 0;
    while i < |parents|
      invariant 0 <= i <= |parents| && count == i
      invariant tagCommit.Some? ==> AheadCount(parents, tagCommit.value) == count + AheadCount(parents[i..], tagCommit.value)
      invariant i > 0 ==> tagCommit.Some?
    {
      assert parents[i..][1..] == parents[i + 1..];
      count := count + 1;
      if tagCommit.None? {
        return Failure("the version tag has no commit");
      }
      if parents[i] == tagCommit.value {
        break;
      }
      i := i + 1;
    }
    return Success(count);
  }

  /** Where generation stops when one of its unmodelled file-system steps
      fails: writing `orig_manifest.json`, copying the work directory and
      collecting sources, writing the replay script and task manifest, or
      writing the support files and the archive. */
  datatype Stage = WriteManifest | CopyInputs | WriteReplay | SealArchive

  /** What a finished generation produced: the archive's name (its files
      sit under `ArchiveBaseDir` of that name), the key-paths hashed, and the
      commits counted ahead of the version tag. */
  datatype Bundle = Bundle(
    archiveName: string,
    hashed: seq<KeyPath>,
    gitCount: Result<nat, string>)

  /** The arguments of `generate_testcase` that the model uses. */
  datatype Request = Request(
    step: string,
    index: string,
    archiveName: Option<string>,
    sel: Selection,
    hashFiles: bool)

  /** What generation reads from the chip and its surroundings: the schema's
      key-paths in the order `allkeys` lists them, the require list of the node's task,
      the node's tool and task, the staging and work directories, the design
      and job names, the time, the commits walked back from the head and the
      version tag's commit (none when the tag does not exist). */
  datatype Surroundings = Surroundings(
    keys: seq<KeyPath>,
    taskRequires: seq<string>,
    b: Binding,
    issueDir: string,
    newWorkDir: string,
    design: string,
    job: string,
    now: Timestamp,
    parents: seq<string>,
    tagCommit: Option<string>)

  /** The part of a chip that generation reads and changes. */
  datatype ChipState = ChipState(schema: Schema, cwd: string, relativePath: Option<string>)

  /** The state `generate_testcase` leaves the chip in, and its result, from
      the state before it. `option, continue` is set and the hash values
      written when asked for; `orig_manifest.json` is written; then
      `option, copyall` is cleared and the copy loop runs. The saved schema
      is put back only at the very end, so any exception (a failing
      manifest write, an IndexError in the copy loop, or a later failing
      file-system step, given by `failAt`) leaves the schema changed; a
      failure while writing the replay files also leaves the chip in the
      staging directory with its relative path set. */
  function Generation(s: ChipState, q: Request, env: Surroundings, failAt: Option<Stage>): (ChipState, Result<Bundle, string>)
    requires forall k :: k in env.keys ==> k in s.schema.params
    requires ValidTimestamp(env.now)
  {
    var marked := if q.hashFiles then MarkHashed(s.schema.params, env.keys) else s.schema.params;
    var hashedState := ChipState(Schema(marked, true, s.schema.copyAll), s.cwd, s.relativePath);
    if failAt == Some(WriteManifest) then (hashedState, Failure(ManifestFailed))
    else AfterManifest(s.schema, hashedState, q, env, failAt)
  }

  /** The rest of generation once `orig_manifest.json` is written, from the
      saved schema and the chip state `h` left by hashing. */
  function AfterManifest(saved: Schema, h: ChipState, q: Request, env: Surroundings, failAt: Option<Stage>)
    : (ChipState, Result<Bundle, string>)
    requires forall k :: k in env.keys ==> k in h.schema.params
    requires ValidTimestamp(env.now)
  {
    var (params, ok) := CopyFlags(h.schema.params, env.keys, env.taskRequires, q.sel, env.b);
    var prepared := Schema(params, h.schema.continueOnError, false);
    if !ok then (ChipState(prepared, h.cwd, h.relativePath), Failure(CopyLoopFailed))
    else if failAt == Some(CopyInputs) then (ChipState(prepared, h.cwd, h.relativePath), Failure(StagingFailed))
    else if failAt == Some(WriteReplay) then (ChipState(prepared, env.issueDir, Some(env.newWorkDir)), Failure(StagingFailed))
    else if failAt == Some(SealArchive) then (ChipState(prepared, h.cwd, None), Failure(SealFailed))
    else
      var hashed := if q.hashFiles then HashTargets(saved.params, env.keys) else [];
      var name := ArchiveName(q.archiveName, env.design, env.job, q.step, q.index, env.now);
      (ChipState(saved, h.cwd, None), Success(Bundle(name, hashed, AheadResult(env.parents, env.tagCommit))))
  }

  const ManifestFailed := "writing orig_manifest.json failed"
  const CopyLoopFailed := "IndexError in determine_copy"
  const StagingFailed := "copying the work directory, collecting files or writing the replay files failed"
  const SealFailed := "writing the support files or the archive failed"

  /** Whether the copy loop finishes depends only on the types of the
      visited parameters, so hashing first does not change it. */
  lemma CopyOutcomeByTypes(p1: map<KeyPath, Param>, p2: map<KeyPath, Param>, keys: seq<KeyPath>,
                           taskRequires: seq<string>, sel: Selection, b: Binding)
    requires forall k :: k in keys ==> k in p1 && k in p2 && p1[k].typ == p2[k].typ
    ensures CopyFlags(p1, keys, taskRequires, sel, b).1 == CopyFlags(p2, keys, taskRequires, sel, b).1
  {
    CopyFlagsEffect(p1, keys, taskRequires, sel, b);
    CopyFlagsEffect(p2, keys, taskRequires, sel, b);
  }

  /** Generation succeeds exactly when the copy loop finishes and every
      file-system step succeeds; it then puts back the schema and the
      working directory, clears the relative path, and returns the archive
      name, the hashed key-paths (those visited and eligible, when hashing
      was asked for) and the commit count. */
  lemma GenerationSucceeds(s: ChipState, q: Request, env: Surroundings, failAt: Option<Stage>, k: KeyPath)
    requires forall k :: k in env.keys ==> k in s.schema.params
    requires ValidTimestamp(env.now)
    ensures var (after, r) := Generation(s, q, env, failAt);
      && (r.Success? <==> CopyFlags(s.schema.params, env.keys, env.taskRequires, q.sel, env.b).1 && failAt.None?)
      && (r.Success? ==>
            && after == ChipState(s.schema, s.cwd, None)
            && r.value.archiveName == ArchiveName(q.archiveName, env.design, env.job, q.step, q.index, env.now)
            && (k in r.value.hashed <==> q.hashFiles && k in env.keys && Hashed(s.schema.params, k))
            && (env.tagCommit.Some? ==> r.value.gitCount == Success(AheadCount(env.parents, env.tagCommit.value))))
  {
    HashTargetsExactly(s.schema.params, env.keys, k);
    MarkHashedEffect(s.schema.params, env.keys);
    var marked := if q.hashFiles then MarkHashed(s.schema.params, env.keys) else s.schema.params;
    CopyOutcomeByTypes(s.schema.params, marked, env.keys, env.taskRequires, q.sel, env.b);
    if failAt.Some? {
      match failAt.value
      case WriteManifest =>
      case CopyInputs =>
      case WriteReplay =>
      case SealArchive =>
    }
  }

  /** A failed generation leaves the hash values in the schema, with
      `option, continue` set: every parameter hashed before is still hashed,
      and so is every key-path handed to `hash_files`. A failing manifest
      write stops before `option, copyall` and the copy flags are touched;
      any later failure leaves the copy loop's flags, `option, copyall`
      cleared, and the chip where the failing step left it. */
  lemma GenerationFails(s: ChipState, q: Request, env: Surroundings, failAt: Option<Stage>)
    requires forall k :: k in env.keys ==> k in s.schema.params
    requires ValidTimestamp(env.now)
    ensures var (after, r) := Generation(s, q, env, failAt);
      var marked := if q.hashFiles then MarkHashed(s.schema.params, env.keys) else s.schema.params;
      var (params, ok) := CopyFlags(marked, env.keys, env.taskRequires, q.sel, env.b);
      r.Failure? ==>
        && (failAt == Some(WriteManifest) ==>
              after == ChipState(Schema(marked, true, s.schema.copyAll), s.cwd, s.relativePath)
              && r == Failure(ManifestFailed))
        && (failAt != Some(WriteManifest) ==> after.schema == Schema(params, true, false))
        && after.schema.continueOnError
        && after.schema.params.Keys == s.schema.params.Keys
        && (forall k :: k in s.schema.params ==>
              (after.schema.params[k].hashed <==>
                 s.schema.params[k].hashed || (q.hashFiles && k in HashTargets(s.schema.params, env.keys))))
        && (!ok || failAt == Some(CopyInputs) || failAt == Some(WriteManifest) ==> after.cwd == s.cwd && after.relativePath == s.relativePath)
        && (ok && failAt == Some(WriteReplay) ==> after.cwd == env.issueDir && after.relativePath == Some(env.newWorkDir))
        && (ok && failAt == Some(SealArchive) ==> after.cwd == s.cwd && after.relativePath.None?)
  {
    MarkHashedEffect(s.schema.params, env.keys);
    var marked := if q.hashFiles then MarkHashed(s.schema.params, env.keys) else s.schema.params;
    CopyFlagsEffect(marked, env.keys, env.taskRequires, q.sel, env.b);
  }

  /** `generate_testcase`, changing the chip in place. */
  method GenerateTestcase(chip: IssueChip, q: Request, env: Surroundings, failAt: Option<Stage>)
    returns (r: Result<Bundle, string>)
    requires forall k :: k in env.keys ==> k in chip.schema.params && |k| > 0
    requires ValidTimestamp(env.now)
    modifies chip
    ensures (chip.State(), r) == Generation(old(chip.State()), q, env, failAt)
  {
    var schemaCopy := chip.schema;
    var hashed := PrepareHashes(chip, env.keys, q.hashFiles);
    if failAt == Some(WriteManifest) {
      return Failure(ManifestFailed);
    }
    r := FinishTestcase(chip, schemaCopy, hashed, q, env, failAt);
  }

  /** Generation after `orig_manifest.json` is written: the copy flags,
      staging, sealing, and putting back the saved schema on success. */
  method FinishTestcase(chip: IssueChip, saved: Schema, hashed: seq<KeyPath>, q: Request, env: Surroundings,
                        failAt: Option<Stage>)
    returns (r: Result<Bundle, string>)
    requires forall k :: k in env.keys ==> k in chip.schema.params
    requires ValidTimestamp(env.now)
    requires hashed == if q.hashFiles then HashTargets(saved.params, env.keys) else []
    requires failAt != Some(WriteManifest)
    modifies chip
    ensures (chip.State(), r) == AfterManifest(saved, old(chip.State()), q, env, failAt)
  {
    var ok := PrepareCopies(chip, env.keys, env.taskRequires, q.sel, env.b);
    if !ok {
      return Failure(CopyLoopFailed);
    }
    var staged := StageFiles(chip, env.issueDir, env.newWorkDir, failAt);
    if !staged {
      return Failure(StagingFailed);
    }
    r := Seal(hashed, q, env, failAt);
    if r.Success? {
      chip.schema := saved;
    } else {
      assert failAt == Some(SealArchive);
    }
  }

  /** The last stage: the commits are counted and the archive is named and
      sealed, unless writing the support files or the archive fails. */
  method Seal(hashed: seq<KeyPath>, q: Request, env: Surroundings, failAt: Option<Stage>)
    returns (r: Result<Bundle, string>)
    requires ValidTimestamp(env.now)
    ensures failAt.Some? ==> r == Failure(SealFailed)
    ensures failAt.None? ==>
      r == Success(Bundle(ArchiveName(q.archiveName, env.design, env.job, q.step, q.index, env.now),
                          hashed, AheadResult(env.parents, env.tagCommit)))
  {
    var gitCount := CountAhead(env.parents, env.tagCommit);
    var name := ArchiveName(q.archiveName, env.design, env.job, q.step, q.index, env.now);
    if failAt.Some? {
      return Failure(SealFailed);
    }
    return Success(Bundle(name, hashed, gitCount));
  }

  /** The schema changes made before `orig_manifest.json` is written:
      `option, continue` is set and, when asked for, the eligible parameters
      are hashed (chosen from the schema as it was). */
  method PrepareHashes(chip: IssueChip, keys: seq<KeyPath>, hashFiles: bool) returns (hashed: seq<KeyPath>)
    requires forall k :: k in keys ==> k in chip.schema.params && |k| > 0
    modifies chip
    ensures hashed == if hashFiles then HashTargets(old(chip.schema.params), keys) else []
    ensures chip.schema == Schema(if hashFiles then MarkHashed(old(chip.schema.params), keys) else old(chip.schema.params),
                                  true, old(chip.schema.copyAll))
    ensures chip.cwd == old(chip.cwd) && chip.relativePath == old(chip.relativePath)
  {
    chip.schema := chip.schema.(continueOnError := true);
    hashed := [];
    if hashFiles {
      hashed := chip.HashFiles(keys);
    }
  }

  /** The schema changes made once `orig_manifest.json` is written:
      `option, copyall` is cleared and the copy loop runs. */
  method PrepareCopies(chip: IssueChip, keys: seq<KeyPath>, taskRequires: seq<string>, sel: Selection, b: Binding)
    returns (ok: bool)
    requires forall k :: k in keys ==> k in chip.schema.params
    modifies chip
    ensures chip.schema == Schema(CopyFlags(old(chip.schema.params), keys, taskRequires, sel, b).0,
                                  old(chip.schema.continueOnError), false)
    ensures ok == CopyFlags(old(chip.schema.params), keys, taskRequires, sel, b).1
    ensures chip.cwd == old(chip.cwd) && chip.relativePath == old(chip.relativePath)
  {
    chip.schema := chip.schema.(copyAll := false);
    ok := chip.SetCopyFlags(keys, taskRequires, sel, b);
  }

  /** The moves between directories while inputs are collected and the
      replay files are written: the chip goes to the staging directory and
      back to copy the inputs, then to the staging directory with its
      relative path set for the replay files, and back. Returns false at the
      stage given by `failAt`, where the chip stays where that stage left it. */
  method StageFiles(chip: IssueChip, issueDir: string, newWorkDir: string, failAt: Option<Stage>)
    returns (reached: bool)
    modifies chip
    ensures chip.schema == old(chip.schema)
    ensures reached <==> failAt != Some(CopyInputs) && failAt != Some(WriteReplay)
    ensures match failAt
      case Some(WriteReplay) => chip.cwd == issueDir && chip.relativePath == Some(newWorkDir)
      case Some(CopyInputs) => chip.cwd == old(chip.cwd) && chip.relativePath == old(chip.relativePath)
      case _ => chip.cwd == old(chip.cwd) && chip.relativePath.None?
  {
    var originalCwd := chip.cwd;
    chip.cwd := issueDir;
    chip.cwd := originalCwd;
    if failAt.Some? && failAt.value == CopyInputs {
      return false;
    }
    chip.relativePath := Some(newWorkDir);
    chip.cwd := issueDir;
    if failAt.Some? && failAt.value == WriteReplay {
      return false;
    }
    chip.relativePath := None;
    chip.cwd := originalCwd;
    return true;
  }
}
