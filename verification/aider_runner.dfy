/**
 The pure decisions of aider_runner.py around one Aider run: which folder
 Aider works in, when it is not started at all, the command line it gets, how
 a change of the git HEAD is detected, and the `{"userOutput","fileChanged"}`
 result on every path.

 Everything the script learns from the outside world is an input, gathered in
 `World`: whether the folder and its `site` subdirectory exist, the web files
 the glob found, whether `os.chdir` fails, `os.path.relpath`, Aider itself (a
 function from its argument vector to what it printed or raised), and what
 `git rev-parse HEAD` reports for a directory before and after the run.
 */
module AiderRunner {
  import opened Wrappers
  import opened Text
  import opened Seqs
  import opened RunnerResult
  import AiderOutput

  /** How `subprocess.run` ended: an exit code with the captured stdout, or an
      exception (git missing, the 10-second timeout). */
  datatype ProcessOutcome = Exited(returnCode: int, stdout: string) | Raised(message: string)

  /** What `get_git_head_commit` can observe of one directory: whether a
      `.git` entry exists there and how `git rev-parse HEAD` run there ends. */
  datatype HeadProbe = HeadProbe(gitDirExists: bool, revParse: ProcessOutcome)

  /** What the in-process Aider call did: returned after printing `stdout`,
      or raised an exception with the given message. */
  datatype AiderOutcome = AiderReturned(stdout: string) | AiderRaised(message: string)

  /** The outside world of one `run_aider_on_folder` call. `cwd` is the
      directory the script runs in; `headBefore`/`headAfter` map the directory
      path the script probes (as a string, resolved against the current working
      directory) to what git reports there before and after Aider runs. */
  datatype World = World(
    cwd: string,
    folderExists: bool,
    siteDirIsDir: bool,
    webFiles: seq<string>,
    chdirError: Option<string>,
    relPath: (string, string) -> string,
    headBefore: string -> HeadProbe,
    aider: seq<string> -> AiderOutcome,
    headAfter: string -> HeadProbe)

  // ---------------------------------------------------------------------------
  // Paths

  /** `os.path.join(a, b)` on POSIX: an absolute `b` replaces `a`; otherwise a
      single `/` separates the two unless `a` is empty or already ends in one. */
  function PathJoin(a: string, b: string): (r: string)
    ensures EndsWith(r, b)
    ensures StartsWith(b, "/") ==> r == b
    ensures !StartsWith(b, "/") ==> StartsWith(r, a) && |a| + |b| <= |r| <= |a| + |b| + 1
    ensures !StartsWith(b, "/") ==> (|r| == |a| + |b| <==> a == "" || EndsWith(a, "/"))
    ensures !StartsWith(b, "/") && |r| == |a| + |b| + 1 ==> r[|a|] == '/'
  {
    if StartsWith(b, "/") then b
    else if a == "" || EndsWith(a, "/") then a + b
    else a + "/" + b
  }

  /** The folder whose web files Aider edits: the `site` subdirectory when it
      exists as a directory, the given folder otherwise. */
  function TargetFolder(folderPath: string, siteDirIsDir: bool): (target: string)
    ensures !siteDirIsDir ==> target == folderPath
    ensures siteDirIsDir ==> EndsWith(target, "site") && StartsWith(target, folderPath)
    ensures siteDirIsDir && folderPath != "" && !EndsWith(folderPath, "/") ==> target == folderPath + "/site"
    ensures siteDirIsDir && (folderPath == "" || EndsWith(folderPath, "/")) ==> target == folderPath + "site"
  {
    assert !StartsWith("site", "/") by { assert "site"[..1][0] == 's'; }
    if siteDirIsDir then PathJoin(folderPath, "site") else folderPath
  }

  // ---------------------------------------------------------------------------
  // Change detection

  /** `get_git_head_commit`: the stripped output of `git rev-parse HEAD`, or ""
      when there is no `.git`, git fails, or the call raises. */
  function GetGitHeadCommit(probe: HeadProbe): (hash: string)
    ensures IsStripped(hash)
    ensures hash != "" ==> probe.gitDirExists && probe.revParse.Exited? && probe.revParse.returnCode == 0
    ensures probe.gitDirExists && probe.revParse.Exited? && probe.revParse.returnCode == 0 ==>
              hash == Strip(probe.revParse.stdout)
  {
    if !probe.gitDirExists then ""
    else match probe.revParse
      case Exited(code, stdout) => if code == 0 then Strip(stdout) else ""
      case Raised(_) => ""
  }

  /** `analyze_aider_output`: files count as changed exactly when `.git`
      exists, git reports a HEAD, and that HEAD differs from the one recorded
      before the run. */
  function AnalyzeAiderOutput(beforeCommit: string, after: HeadProbe): (changed: bool)
    ensures changed <==>
              && after.gitDirExists
              && after.revParse.Exited?
              && after.revParse.returnCode == 0
              && Strip(after.revParse.stdout) != ""
              && Strip(after.revParse.stdout) != beforeCommit
  {
    if !after.gitDirExists then false
    else
      var afterCommit := GetGitHeadCommit(after);
      if afterCommit == "" then false
      else beforeCommit != afterCommit
  }

  /** A repository whose HEAD did not move reports no change. */
  lemma UnchangedHeadIsNoChange(probe: HeadProbe)
    ensures !AnalyzeAiderOutput(GetGitHeadCommit(probe), probe)
  {
  }

  /** Without a HEAD after the run there is never a change, whatever was
      recorded before. */
  lemma MissingHeadIsNoChange(beforeCommit: string, after: HeadProbe)
    requires GetGitHeadCommit(after) == ""
    ensures !AnalyzeAiderOutput(beforeCommit, after)
  {
  }

  // ---------------------------------------------------------------------------
  // Aider's command line

  /** The single message Aider receives: the system and user messages labelled
      and separated by a blank line. */
  function FullMessage(systemMessage: string, userMessage: string): string {
    "System: " + systemMessage + "\n\nUser: " + userMessage
  }

  /** One `--file <path>` pair per path, in order. */
  function FileArgs(paths: seq<string>): (r: seq<string>)
    ensures |r| == 2 * |paths|
    ensures forall i :: 0 <= i < |paths| ==> r[2 * i] == "--file" && r[2 * i + 1] == paths[i]
  {
    if |paths| == 0 then []
    else
      var rest := FileArgs(paths[1..]);
      var r := ["--file", paths[0]] + rest;
      assert r[0] == "--file" && r[1] == paths[0];
      forall i | 1 <= i < |paths|
        ensures r[2 * i] == "--file" && r[2 * i + 1] == paths[i]
      {
        assert paths[1..][i - 1] == paths[i];
        assert r[2 * i] == rest[2 * (i - 1)] && r[2 * i + 1] == rest[2 * (i - 1) + 1];
      }
      r
  }

  /** Aider's argument vector: eight fixed elements (model, message, and the
      flags that silence prompts, colour, URL detection and git), then the
      files. */
  function AiderArgv(message: string, paths: seq<string>): (argv: seq<string>)
    ensures |argv| == 8 + 2 * |paths|
    ensures argv[..8] == ["--model", "gpt-5", "--message", message, "--yes", "--no-pretty", "--no-detect-urls", "--no-git"]
    ensures argv[8..] == FileArgs(paths)
  {
    ["--model", "gpt-5", "--message", message, "--yes", "--no-pretty", "--no-detect-urls", "--no-git"]
      + FileArgs(paths)
  }

  /** The values given to a repeatable option, read the way a command-line
      parser reads them: each occurrence of `flag` takes the next element. */
  function OptionValues(flag: string, argv: seq<string>): seq<string>
    decreases |argv|
  {
    if |argv| < 2 then []
    else if argv[0] == flag then [argv[1]] + OptionValues(flag, argv[2..])
    else OptionValues(flag, argv[1..])
  }

  /** Reading `--file` back from the pairs gives the paths. */
  lemma {:induction false} FileArgsRoundTrip(paths: seq<string>)
    ensures OptionValues("--file", FileArgs(paths)) == paths
    decreases |paths|
  {
    if |paths| > 0 {
      FileArgsRoundTrip(paths[1..]);
      assert FileArgs(paths)[2..] == FileArgs(paths[1..]);
    }
  }

  /** Elements before the pairs that are not `--file` are skipped. */
  lemma {:induction false} OptionValuesSkip(prefix: seq<string>, rest: seq<string>)
    requires forall i :: 0 <= i < |prefix| ==> prefix[i] != "--file"
    ensures OptionValues("--file", prefix + rest) == OptionValues("--file", rest)
    decreases |prefix|
  {
    if |prefix| > 0 {
      assert (prefix + rest)[1..] == prefix[1..] + rest;
      OptionValuesSkip(prefix[1..], rest);
      if |rest| == 0 && |prefix| == 1 {
        assert prefix + rest == prefix;
      }
    } else {
      assert prefix + rest == rest;
    }
  }

  /** The files Aider is told to edit are exactly the given paths, in order:
      the message never reads as a `--file` flag since it starts with "System: ". */
  lemma AiderArgvFiles(systemMessage: string, userMessage: string, paths: seq<string>)
    ensures OptionValues("--file", AiderArgv(FullMessage(systemMessage, userMessage), paths)) == paths
  {
    var message := FullMessage(systemMessage, userMessage);
    var argv := AiderArgv(message, paths);
    assert message[..1] == "S";
    OptionValuesSkip(argv[..8], argv[8..]);
    assert argv == argv[..8] + argv[8..];
    FileArgsRoundTrip(paths);
  }

  // ---------------------------------------------------------------------------
  // One run

  /** What happens before Aider would start: either the run is already over,
      or Aider is invoked in `targetFolder` with `argv`. */
  datatype Step = Finished(result: RunResult) | InvokeAider(targetFolder: string, argv: seq<string>)

  /** Any exception inside the run, reported with its message. */
  function ErrorResult(message: string): RunResult {
    RunResult("Error running Aider: " + message, false)
  }

  /** The part of `run_aider_on_folder` up to the Aider call: choose the target
      folder, fail when it does not exist (`find_web_files` raises), stop when
      it holds no web files, fail when `os.chdir` does, and otherwise build the
      argument vector with each file's path relative to the target folder. */
  function PrepareRun(folderPath: string, systemMessage: string, userMessage: string, w: World): (step: Step)
    ensures step.Finished? ==> !step.result.fileChanged
    ensures step.InvokeAider? ==>
              && step.targetFolder == TargetFolder(folderPath, w.siteDirIsDir)
              && |w.webFiles| > 0
              && |step.argv| == 8 + 2 * |w.webFiles|
              && step.argv[3] == FullMessage(systemMessage, userMessage)
              && forall i :: 0 <= i < |w.webFiles| ==>
                   step.argv[8 + 2 * i] == "--file" && step.argv[9 + 2 * i] == w.relPath(w.webFiles[i], step.targetFolder)
  {
    var target := TargetFolder(folderPath, w.siteDirIsDir);
    if !w.siteDirIsDir && !w.folderExists then
      Finished(ErrorResult("Folder not found: " + target))
    else if |w.webFiles| == 0 then
      Finished(RunResult("No HTML, JS, or CSS files found in " + target, false))
    else if w.chdirError.Some? then
      Finished(ErrorResult(w.chdirError.value))
    else
      var paths := Map((f: string) => w.relPath(f, target), w.webFiles);
      var argv := AiderArgv(FullMessage(systemMessage, userMessage), paths);
      assert forall i :: 0 <= i < |paths| ==> argv[8 + 2 * i] == argv[8..][2 * i];
      assert forall i :: 0 <= i < |paths| ==> argv[9 + 2 * i] == argv[8..][2 * i + 1];
      InvokeAider(target, argv)
  }

  /** The rest of the run once Aider has been invoked, with the git HEAD probed
      at `gitFolder`: an exception from Aider is an error; otherwise the HEAD
      comparison decides `fileChanged` and shapes the user output. */
  function FinishRun(argv: seq<string>, gitFolder: string, w: World): (r: RunResult)
    ensures w.aider(argv).AiderRaised? ==> r == ErrorResult(w.aider(argv).message)
    ensures w.aider(argv).AiderReturned? ==>
              r.fileChanged == AnalyzeAiderOutput(GetGitHeadCommit(w.headBefore(gitFolder)), w.headAfter(gitFolder))
    ensures w.aider(argv).AiderReturned? && r.fileChanged ==> r.userOutput == w.aider(argv).stdout
    ensures w.aider(argv).AiderReturned? && !r.fileChanged ==> r.userOutput != ""
  {
    var beforeCommit := GetGitHeadCommit(w.headBefore(gitFolder));
    match w.aider(argv)
    case AiderRaised(message) => ErrorResult(message)
    case AiderReturned(stdout) =>
      var fileChanged := AnalyzeAiderOutput(beforeCommit, w.headAfter(gitFolder));
      RunResult(AiderOutput.CreateUserOutput(stdout, fileChanged), fileChanged)
  }

  /** `run_aider_on_folder`, with the HEAD probed in the folder the caller
      named, resolved against the directory the script was started in (the
      evidently intended behaviour; see `RunAiderOnFolderAsWritten`).
      `fileChanged` is true only when Aider ran, returned, and the HEAD of
      that folder's repository moved. */
  function RunAiderOnFolder(folderPath: string, systemMessage: string, userMessage: string, w: World): (r: RunResult)
    ensures r.fileChanged ==>
              && PrepareRun(folderPath, systemMessage, userMessage, w).InvokeAider?
              && w.aider(PrepareRun(folderPath, systemMessage, userMessage, w).argv).AiderReturned?
              && AnalyzeAiderOutput(GetGitHeadCommit(w.headBefore(PathJoin(w.cwd, folderPath))),
                                    w.headAfter(PathJoin(w.cwd, folderPath)))
  {
    match PrepareRun(folderPath, systemMessage, userMessage, w)
    case Finished(result) => result
    case InvokeAider(_, argv) => FinishRun(argv, PathJoin(w.cwd, folderPath), w)
  }

  /** `run_aider_on_folder` as written: the HEAD is probed at `folder_path`
      after `os.chdir(target_folder)`, so a relative `folder_path` is
      resolved inside the target folder rather than where the caller meant. */
  function RunAiderOnFolderAsWritten(folderPath: string, systemMessage: string, userMessage: string, w: World): (r: RunResult)
    ensures var step := PrepareRun(folderPath, systemMessage, userMessage, w);
            r.fileChanged ==>
              && step.InvokeAider?
              && w.aider(step.argv).AiderReturned?
              && var g := PathJoin(PathJoin(w.cwd, step.targetFolder), folderPath);
                 AnalyzeAiderOutput(GetGitHeadCommit(w.headBefore(g)), w.headAfter(g))
  {
    match PrepareRun(folderPath, systemMessage, userMessage, w)
    case Finished(result) => result
    case InvokeAider(target, argv) => FinishRun(argv, PathJoin(PathJoin(w.cwd, target), folderPath), w)
  }

  /** With no web files in an existing target folder the run ends at once with
      a message naming that folder: Aider and git are never consulted, so
      replacing them changes nothing. */
  lemma NoWebFilesSkipsAider(folderPath: string, systemMessage: string, userMessage: string, w: World,
                             aider: seq<string> -> AiderOutcome, headBefore: string -> HeadProbe, headAfter: string -> HeadProbe)
    requires w.siteDirIsDir || w.folderExists
    requires w.webFiles == []
    ensures RunAiderOnFolder(folderPath, systemMessage, userMessage, w)
            == RunResult("No HTML, JS, or CSS files found in " + TargetFolder(folderPath, w.siteDirIsDir), false)
    ensures RunAiderOnFolder(folderPath, systemMessage, userMessage, w)
            == RunAiderOnFolder(folderPath, systemMessage, userMessage, w.(aider := aider, headBefore := headBefore, headAfter := headAfter))
  {
  }

  /** Every failure is reported as `"Error running Aider: " + message` with
      `fileChanged` false: a missing folder, a failing `os.chdir`, and an
      exception from Aider. */
  lemma FailuresReportNoChange(folderPath: string, systemMessage: string, userMessage: string, w: World)
    ensures !w.siteDirIsDir && !w.folderExists ==>
              RunAiderOnFolder(folderPath, systemMessage, userMessage, w) == ErrorResult("Folder not found: " + folderPath)
    ensures (w.siteDirIsDir || w.folderExists) && |w.webFiles| > 0 && w.chdirError.Some? ==>
              RunAiderOnFolder(folderPath, systemMessage, userMessage, w) == ErrorResult(w.chdirError.value)
    ensures var step := PrepareRun(folderPath, systemMessage, userMessage, w);
            step.InvokeAider? && w.aider(step.argv).AiderRaised? ==>
              RunAiderOnFolder(folderPath, systemMessage, userMessage, w) == ErrorResult(w.aider(step.argv).message)
  {
  }

  /** When Aider runs, it is told to edit exactly the web files found, each
      as its path relative to the target folder, in discovery order. */
  lemma AiderEditsEveryWebFile(folderPath: string, systemMessage: string, userMessage: string, w: World)
    requires PrepareRun(folderPath, systemMessage, userMessage, w).InvokeAider?
    ensures var step := PrepareRun(folderPath, systemMessage, userMessage, w);
            OptionValues("--file", step.argv) == Map((f: string) => w.relPath(f, step.targetFolder), w.webFiles)
  {
    var target := TargetFolder(folderPath, w.siteDirIsDir);
    AiderArgvFiles(systemMessage, userMessage, Map((f: string) => w.relPath(f, target), w.webFiles));
  }

  /** The two readings agree whenever the caller passes an absolute folder. */
  lemma AsWrittenAgreesOnAbsoluteFolder(folderPath: string, systemMessage: string, userMessage: string, w: World)
    requires StartsWith(folderPath, "/")
    ensures RunAiderOnFolderAsWritten(folderPath, systemMessage, userMessage, w)
            == RunAiderOnFolder(folderPath, systemMessage, userMessage, w)
  {
  }

  /** The two readings differ only in where the HEAD is probed: whenever the
      run ends before Aider is invoked, or Aider raises, they give the same
      result, for any folder. */
  lemma AsWrittenAgreesWithoutProbe(folderPath: string, systemMessage: string, userMessage: string, w: World)
    ensures var step := PrepareRun(folderPath, systemMessage, userMessage, w);
            step.Finished? || w.aider(step.argv).AiderRaised? ==>
              RunAiderOnFolderAsWritten(folderPath, systemMessage, userMessage, w)
              == RunAiderOnFolder(folderPath, systemMessage, userMessage, w)
  {
  }

  /** A world in which the script runs in /srv on the relative folder "shop"
      (no `site` subdirectory, one web file), and the repository at /srv/shop
      moves its HEAD from "aaa" to "bbb" while Aider runs. */
  function ShopWorld(): World {
    World(
      "/srv", true, false, ["shop/index.html"], None,
      (f: string, t: string) => "index.html",
      (d: string) => if d == "/srv/shop" then HeadProbe(true, Exited(0, "aaa")) else HeadProbe(false, Exited(128, "")),
      (argv: seq<string>) => AiderReturned("Done."),
      (d: string) => if d == "/srv/shop" then HeadProbe(true, Exited(0, "bbb")) else HeadProbe(false, Exited(128, "")))
  }

  /** A relative folder, as in the script's own usage examples: the repository
      at /srv/shop gets a new HEAD during the run, but the script as written
      probes /srv/shop/shop, finds no `.git`, and reports no change. */
  lemma RelativeFolderMissesChange()
    ensures RunAiderOnFolder("shop", "You are a web developer", "Add a contact form", ShopWorld()).fileChanged
    ensures !RunAiderOnFolderAsWritten("shop", "You are a web developer", "Add a contact form", ShopWorld()).fileChanged
  {
    var w := ShopWorld();
    var step := PrepareRun("shop", "You are a web developer", "Add a contact form", w);
    assert step.InvokeAider? && step.targetFolder == "shop";
    assert "/srv"[3..] != "/";
    assert PathJoin("/srv", "shop") == "/srv/shop";
    assert "/srv/shop"[8..] != "/";
    assert PathJoin("/srv/shop", "shop") == "/srv/shop/shop";
    StripOfStripped("aaa");
    StripOfStripped("bbb");
    assert GetGitHeadCommit(w.headBefore("/srv/shop")) == "aaa";
    assert GetGitHeadCommit(w.headAfter("/srv/shop")) == "bbb";
    assert GetGitHeadCommit(w.headAfter("/srv/shop/shop")) == "";
  }
}
