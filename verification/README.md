# Aider and OpenAI runners of the LandingAI backend, in Dafny

The website builder's backend answers chat requests about a generated static
site with one of two Python scripts:

- `aider_runner.py` runs the Aider coding assistant on the site's web files.
  It decides whether files changed by comparing the git HEAD before and after
  the run. It also turns Aider's console transcript into the reply shown to
  the user.
- `simple_ai_runner.py` pastes the site's files into a system prompt. It sends
  one chat-completion request and passes the reply on. It never edits files.

This project models the pure logic of both scripts as functions over strings
and sequences, and proves properties of it. The parts are:

- the transcript filter (`AiderOutput`);
- HEAD-based change detection, target-folder choice, Aider's command line and
  the result on every path (`AiderRunner`);
- prompt assembly and the result shape (`SimpleAiRunner`).

The Python string operations they rely on are in `Text`: `strip()` with
Python's whitespace set, `split('\n')` and `'\n'.join`. Generic filter and map
facts are in `Seqs`.

Everything the scripts get from outside is an input:

- whether the folder and its `site` subdirectory exist;
- the files the glob found, and each file's contents (or a read failure);
- whether `os.chdir` fails;
- `os.path.relpath`;
- Aider itself, as a function from its argument vector to its printed output
  or exception;
- what `git rev-parse HEAD` reports for a directory before and after the run;
- the HTTP round trip to the chat-completion endpoint.

## Model

| member | source | states |
|---|---|---|
| `Text.Strip` | apps/backend/python/aider_runner.py:174 | `str.strip()`: the result has no whitespace at either end and is no longer than the input |
| `Text.StripCutsOnlySpace` | apps/backend/python/aider_runner.py:174 | what `strip()` keeps is a contiguous piece of the line, and everything it cuts away is whitespace |
| `Text.SplitJoin` | apps/backend/python/aider_runner.py:160 | `split('\n')` recovers the lines that `'\n'.join` glued together |
| `Text.JoinSplit` | apps/backend/python/aider_runner.py:160 | joining the pieces of `split('\n')` with `'\n'` gives back the transcript |
| `Text.Split` | apps/backend/python/aider_runner.py:160 | `split('\n')`: always at least one piece, and no piece contains the separator |
| `Text.Join` | apps/backend/python/aider_runner.py:177 | `'\n'.join`: no pieces give ""; otherwise the pieces in order with the separator between neighbours (the definition) |
| `AiderOutput.Dropped` | apps/backend/python/aider_runner.py:168-170 | a line is skipped when its stripped form is an "Added … to the chat." notice, it is blank, or it starts with a banner prefix (the definition) |
| `AiderOutput.DroppedMeaning` | apps/backend/python/aider_runner.py:168-170 | "blank" means what `not line.strip()` means: the line is skipped if and only if it is a notice, consists of whitespace only, or is a banner line |
| `AiderOutput.IsStop` | apps/backend/python/aider_runner.py:171-173 | the scan stops at a line that is not skipped and whose stripped form starts with "Tokens:" (the definition) |
| `AiderOutput.KeepLine` | apps/backend/python/aider_runner.py:166-174 | a kept line contributes its stripped form, which is non-empty, stripped and not an "Added … to the chat." notice |
| `AiderOutput.LineClassification` | apps/backend/python/aider_runner.py:166-174 | the script's `continue` branch, its fall-through and its capturing branch correspond to `KeepLine` and `IsStop`: only the capturing branch keeps the line, and it breaks exactly on a stop line |
| `AiderOutput.ResponseLinesWithoutStop` | apps/backend/python/aider_runner.py:166-174 | without a surviving "Tokens:" line, the reply lines are all the kept lines of the transcript |
| `AiderOutput.ResponseLines` | apps/backend/python/aider_runner.py:163-174 | every collected line is non-empty and stripped, is not an "Added … to the chat." notice and does not start with "Tokens:"; there are no more of them than lines before the first token report |
| `AiderOutput.CollectResponseLines` | apps/backend/python/aider_runner.py:160-174 | the script's loop, with its skips and its `break`, collects exactly the kept lines before the first surviving "Tokens:" line |
| `AiderOutput.CreateUserOutput` | apps/backend/python/aider_runner.py:121-182 | with files changed, Aider's output is returned unchanged; otherwise the result is never empty: the greeting when no line survives, else the surviving lines joined by newlines (the final `strip()` changes nothing) |
| `AiderOutput.ResponseLinesSubsequence` | apps/backend/python/aider_runner.py:166-177 | the reply's lines are a subsequence of the stripped transcript lines: nothing is invented and the order is kept |
| `AiderOutput.ResponseLinesMembership` | apps/backend/python/aider_runner.py:166-174 | a string is a reply line if and only if some line before the first token report survives the filter and strips to it |
| `AiderOutput.ResponseLinesIgnoreAfterStop` | apps/backend/python/aider_runner.py:171-173 | once a surviving "Tokens:" line has appeared, appending further lines leaves the reply unchanged |
| `AiderOutput.DroppedLineIgnored` | apps/backend/python/aider_runner.py:167-170 | a blank line, a banner line (starting with U+2500, "Aider v", "Main model:", "Weak model:", "Git repo:" or "Repo-map:") or an "Added … to the chat." notice in front of the transcript does not change the reply |
| `AiderOutput.OnlyDroppedLinesGiveGreeting` | apps/backend/python/aider_runner.py:176-182 | a transcript made only of dropped lines yields exactly the fixed greeting |
| `AiderOutput.EmptyOutputGivesGreeting` | apps/backend/python/aider_runner.py:160-182 | an empty transcript yields the greeting |
| `AiderRunner.GetGitHeadCommit` | apps/backend/python/aider_runner.py:51-85 | the hash is stripped; it is non-empty only if `.git` exists and `git rev-parse HEAD` exited 0, and in that case it is the stripped stdout |
| `AiderRunner.AnalyzeAiderOutput` | apps/backend/python/aider_runner.py:88-118 | files changed if and only if `.git` exists, git reports a non-empty HEAD, and that HEAD differs from the one recorded before |
| `AiderRunner.UnchangedHeadIsNoChange` | apps/backend/python/aider_runner.py:113-114 | a HEAD that did not move is never reported as a change |
| `AiderRunner.MissingHeadIsNoChange` | apps/backend/python/aider_runner.py:110-111 | an empty HEAD after the run is never a change, whatever was recorded before |
| `AiderRunner.PathJoin` | apps/backend/python/aider_runner.py:203 | `os.path.join`: the result ends with the second part; an absolute second part replaces the first; otherwise the first part is kept in front, and a single `/` is inserted between them exactly when the first part is non-empty and does not already end in `/` |
| `AiderRunner.TargetFolder` | apps/backend/python/aider_runner.py:202-209 | Aider works in the folder itself when there is no `site` directory; otherwise in exactly `<folder>/site`, or `<folder>site` when the folder is empty or already ends in `/` |
| `AiderRunner.FullMessage` | apps/backend/python/aider_runner.py:226 | Aider's single message is `System: <system>`, a blank line, then `User: <user>` (the definition) |
| `AiderRunner.ErrorResult` | apps/backend/python/aider_runner.py:275-279 | an exception becomes `Error running Aider: ` and its message, with `fileChanged` false (the definition) |
| `AiderRunner.FileArgs` | apps/backend/python/aider_runner.py:238-242 | one `--file`, path pair per file, in order, so twice as many elements as files |
| `AiderRunner.AiderArgv` | apps/backend/python/aider_runner.py:225-242 | eight fixed elements `--model gpt-5 --message M --yes --no-pretty --no-detect-urls --no-git`, then the `--file` pairs: length 8 + 2n |
| `AiderRunner.FileArgsRoundTrip` | apps/backend/python/aider_runner.py:238-242 | reading the `--file` options back from the pairs gives the paths |
| `AiderRunner.AiderArgvFiles` | apps/backend/python/aider_runner.py:225-242 | in the full command line, the `--file` options are exactly the given paths, because the message starts with "System: " and so is never read as a flag |
| `AiderRunner.PrepareRun` | apps/backend/python/aider_runner.py:201-242 | an early end never reports a change; when Aider is invoked there are web files, Aider runs in the target folder, and its command line carries the combined `System:`/`User:` message and, for file i, `--file` and its path relative to the target folder |
| `AiderRunner.FinishRun` | apps/backend/python/aider_runner.py:244-269 | an exception from Aider becomes an error result; otherwise `fileChanged` is the HEAD comparison, a change returns Aider's output verbatim, and no change returns a non-empty reply |
| `AiderRunner.RunAiderOnFolder` | apps/backend/python/aider_runner.py:185-279 | `fileChanged` is true only if Aider was invoked, returned normally, and the HEAD of the caller's folder moved |
| `AiderRunner.NoWebFilesSkipsAider` | apps/backend/python/aider_runner.py:211-218 | with no web files the result is "No HTML, JS, or CSS files found in " and the target folder, with `fileChanged` false; replacing Aider or git changes nothing, so neither is consulted |
| `AiderRunner.FailuresReportNoChange` | apps/backend/python/aider_runner.py:275-279 | a missing folder, a failing `os.chdir` and an exception from Aider each give "Error running Aider: " and the message, with `fileChanged` false |
| `AiderRunner.AiderEditsEveryWebFile` | apps/backend/python/aider_runner.py:238-242 | when Aider runs, its `--file` options are the relative paths of all web files found, in discovery order |
| `AiderRunner.RunAiderOnFolderAsWritten` | apps/backend/python/aider_runner.py:244-246 | the script as written: a change is reported only when Aider was invoked, returned normally, and change detection found a new HEAD at the folder path resolved inside the target folder |
| `AiderRunner.AsWrittenAgreesWithoutProbe` | apps/backend/python/aider_runner.py:201-279 | whenever the run ends before Aider starts, or Aider raises, the script as written and the corrected run give the same result, for any folder path |
| `AiderRunner.AsWrittenAgreesOnAbsoluteFolder` | apps/backend/python/aider_runner.py:244-246 | for an absolute folder path, the script as written and the corrected run give the same result |
| `AiderRunner.RelativeFolderMissesChange` | apps/backend/python/aider_runner.py:220-261 | with the relative folder "shop" run from /srv, a HEAD that moves in /srv/shop is reported as a change by the corrected run and missed by the script as written |
| `SimpleAiRunner.BuildRequest` | apps/backend/python/simple_ai_runner.py:24-36 | the request goes to the chat-completions URL with a bearer token, model `gpt-4`, temperature 0.7 and at most 2000 tokens, carrying the messages unchanged (the definition) |
| `SimpleAiRunner.FileBlock` | apps/backend/python/simple_ai_runner.py:87 | a readable file contributes `File: <name>`, a newline, its contents and a newline (the definition) |
| `SimpleAiRunner.SystemContent` | apps/backend/python/simple_ai_runner.py:92-97 | the system message, a blank line, the "Here are the current files:" header, then the blocks of the readable files joined by newlines (the definition) |
| `SimpleAiRunner.CallOpenAiApi` | apps/backend/python/simple_ai_runner.py:13-45 | the reply is the first choice's content; any failure of the request comes back as text prefixed with "Error calling OpenAI API: " |
| `SimpleAiRunner.Messages` | apps/backend/python/simple_ai_runner.py:94-103 | exactly two messages: the system message, starting with the system text and the "Here are the current files:" header, then the user's message verbatim |
| `SimpleAiRunner.RunAiOnFolder` | apps/backend/python/simple_ai_runner.py:47-117 | `fileChanged` is false on every path; a missing folder gives "Folder not found: " and the path; an empty glob gives "No HTML, JS, or CSS files found in " and the path; a failing glob gives "Error running AI: " and the message; otherwise the output is exactly what the API call returned |
| `SimpleAiRunner.EarlyExitSkipsApi` | apps/backend/python/simple_ai_runner.py:60-79 | when the folder is missing or the glob fails or finds nothing, any other transport gives the same result, so the API is not called |
| `SimpleAiRunner.UnreadableFileSkipped` | apps/backend/python/simple_ai_runner.py:81-89 | an unreadable file anywhere in the list leaves the messages exactly as without it |
| `SimpleAiRunner.ReadableFileAppended` | apps/backend/python/simple_ai_runner.py:87-97 | a readable file found last adds `File: name\ncontents\n` at the end of the system message, after a newline unless it is the first block |
| `SimpleAiRunner.FileBlocksFromReadableFiles` | apps/backend/python/simple_ai_runner.py:82-92 | a block is in the prompt's file list if and only if it is the block of some readable file |
| `SimpleAiRunner.UnreadableFilesStillCallApi` | apps/backend/python/simple_ai_runner.py:81-106 | files that were found but none of which could be read are not an error: the API is still called, with an empty file list after the header |

## Findings

| source | as written | input that shows it | evidently intended | confidence | as-written member | corrected member |
|---|---|---|---|---|---|---|
| apps/backend/python/aider_runner.py:244-246 | `get_git_head_commit(folder_path)` runs after `os.chdir(target_folder)`. A relative `folder_path` (like `./my-project` in the script's own usage text) is then resolved inside the target folder. | Run from /srv on folder "shop", with no `site` subdirectory. The repository at /srv/shop moves its HEAD from "aaa" to "bbb". The script probes /srv/shop/shop, finds no `.git`, and reports `fileChanged` false. | Probe the folder the caller named ("Use the original folder for git operations"), resolved against the starting directory. | medium; not executed | `AiderRunner.RunAiderOnFolderAsWritten` (`AiderRunner.RelativeFolderMissesChange`) | `AiderRunner.RunAiderOnFolder` |

The corrected run probes `os.path.join(cwd, folder_path)`. For absolute
folder paths it agrees with the script as written
(`AiderRunner.AsWrittenAgreesOnAbsoluteFolder`).

## Notes

- Aider is started with `--no-git`, so Aider itself makes no commits. Whether
  the HEAD moves during the run depends on code outside these scripts. The
  model takes the two HEAD readings as inputs and states only what the
  comparison of them decides.
- The banner check looks at the line as printed, but the other checks look at
  the stripped line. So an indented banner line such as `"  Aider v0.1"`
  survives the filter. The model keeps this behaviour.

## Left out

- File discovery (`find_web_files`, aider_runner.py:25-48, and the globs at
  simple_ai_runner.py:70-73): the list of files found is an input. Only the
  "Folder not found" check of `find_web_files` is modelled. Both scripts glob
  with `*` and `**/*`, so top-level files can be listed twice. Glob semantics
  are not modelled, so nothing is claimed about duplicates.
- The code after the `return` at aider_runner.py:133 (lines 134-157) never
  runs, and is not modelled.
- Running Aider in-process, redirecting stdout and changing directory are
  foreign calls. Aider is a function parameter, and `os.chdir` is a possible
  failure message. Restoring the working directory in the `finally` block is
  not modelled.
- A `SystemExit` from Aider is not an `Exception`, so it escapes the
  `except` clause. It is not modelled: Aider's outcome is either a return or
  an exception the script catches.
- `git rev-parse` (subprocess, 10-second timeout) is an input: it either
  exits with a code and stdout, or raises.
- `os.path.relpath` is a function parameter. Paths are compared as strings.
  `abspath` normalisation (`.`, `..`, repeated `/`) is not modelled.
- The HTTP request, the response JSON and `raise_for_status` in
  `call_openai_api` are one input: a reply text or a failure message. A JSON
  `null` content, which the script would return as `None`, is not modelled.
- The `print` of read errors (simple_ai_runner.py:89), `main()`, argparse and
  environment-variable handling are console I/O and are left out.
- In `run_ai_on_folder` only the glob is modelled as a source of the
  "Error running AI: " exception path. `Path.exists` is taken as a boolean
  input.
- aider_analysis.py (subprocess batches and report files) and
  example_usage.py (usage text) are not part of this model.
