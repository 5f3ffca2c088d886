# ROI Slack bot: the decision core

The ROI Slack bot answers the `/roi <request>` slash command with a line chart. It asks a language model for a matplotlib program and runs that program. If anything goes wrong it falls back to a fixed chart, and it uploads the resulting PNG to the channel. A second variant runs the generated program inside a locked-down Docker container. Inside the container, an executor restricts the builtins and reports success as one JSON record.

This Dafny project models the decision logic around these untrusted steps:

- the cleaning of the model's reply;
- the fallback template and the fallback chart;
- the run of the generated code in a temporary directory, and the working-directory restore on every path;
- the container executor's allow-list and its response record;
- the host-side classification of a container run into a chart path or one error message;
- the slash-command handler;
- the events route;
- the start-up check of the credentials.

External steps are parameters of the model, not computations:

- the model's reply (`GraphGenerator.Llm`);
- what the executed code writes, whether it changes directory, and whether it raises (`Runtime.Executor`). The executor receives a `Runtime.Code`: the text the model wrote, or the fixed fallback program, whose text is `GraphGenerator.FallbackCode()`;
- whether file-system and library calls raise (`Runtime.Step`, `GraphGenerator.Io`);
- how the container run ends (`GraphGeneratorSafe.Docker`) and how the image build ends (`GraphGeneratorSafe.Builder`);
- whether Slack's upload raises, and what Slack's request handler returns (`SlackBot.Handler`).

The process's working directory and the file system are a `Files.Host` object: a working directory, a set of directory paths and a set of file paths. Its methods are the `os`, `shutil` and `tempfile` calls the code makes. Python's `str.strip`, `in`, `split(sep)[0]` and `split(sep)[1]` are written out in `Text` over Python's whitespace set.

Modules, one file each:

- `Wrappers`: `Option`, `Result`.
- `Text`: string primitives and their lemmas.
- `Runtime`: the execution oracle.
- `Files`: paths, temporary names, `Host`.
- `GraphGenerator`: graph_generator.py.
- `SafeExecutor`: safe_executor.py.
- `GraphGeneratorSafe`: graph_generator_safe.py.
- `SlackBot`: roi-slackbot.py.

## Model

| member | source | states |
|---|---|---|
| Text.Strip | graph_generator.py:95 | the stripped text is the input with its leading whitespace and its trailing whitespace removed: it is the slice that begins right after the leading whitespace, everything after it is whitespace, and it neither starts nor ends with whitespace; it is empty exactly when every character of the input is whitespace |
| Text.Find | graph_generator.py:98 | the index found is the first occurrence of the pattern, and there is no index exactly when the pattern does not occur |
| Text.Head | graph_generator.py:99 | `split(sep)[0]` is a prefix of the text that does not contain the separator; when it is shorter than the text, it ends exactly where the first occurrence of the separator begins |
| Text.Second | graph_generator.py:99-101 | `split(sep)[1]`, defined when the separator occurs: the text that begins right after the first separator, up to the next separator (exclusive) or the end, and containing no separator |
| Text.Take | graph_generator.py:200 | `s[:n]` is the prefix of length n, or the whole text when that is shorter |
| Text.NatToStringValue | graph_generator.py:207 | the decimal digits of a natural number read back as that number |
| Text.IntToString | graph_generator.py:207 | `str(v)` is a minus sign exactly for a negative v, then decimal digits without a leading zero whose value is the magnitude of v |
| Files.Join | graph_generator.py:139 | `os.path.join(dir, name)` for a relative name gives a path below the directory |
| GraphGenerator.JoinInjective | graph_generator.py:139 | joining one directory with two names gives the same path only for the same name, so output.png is found exactly when the code wrote that name |
| Files.DirnameOfJoin | graph_generator_safe.py:60-91 | `os.path.dirname` of a name joined to a directory, for a name without `/`, is that directory, so the container mounts and the host looks in the directory of the temp file |
| Text.ContainsIff | graph_generator.py:98-100 | Python's `p in s` holds exactly when the pattern occurs somewhere in the text |
| Files.Host.Chdir | graph_generator.py:132-155 | `os.chdir(d)` makes d the working directory and changes nothing else |
| Files.Host.NewPngTempFile | graph_generator.py:144 | `NamedTemporaryFile(suffix='.png', delete=False)` adds one new empty file, a .png directly in the temp directory, and changes nothing else |
| Files.Host.NewTempDir | graph_generator.py:115 | `TemporaryDirectory()` adds one new directory directly in the temp directory, below which nothing exists yet |
| Files.Host.RemoveTree | graph_generator.py:115 | leaving the `with` block removes the directory and everything below it, and nothing else |
| Files.Host.Rename | safe_executor.py:79 | `os.rename` of an existing file replaces its path by the new one |
| Files.Host.Remove | roi-slackbot.py:75-76 | `os.remove` of an existing file removes exactly that file |
| Text.StripKeepsSolidPattern | graph_generator.py:95-100 | for a non-empty pattern without whitespace (such as a fence), stripping the reply neither adds nor removes an occurrence |
| GraphGenerator.CleanReply | graph_generator.py:95-103 | the cleaned code never contains ``` and is never longer than the reply |
| GraphGenerator.CleanPythonBlock | graph_generator.py:98-99 | when the stripped reply contains ```python and the fence that closes it is not followed by a backtick, the code is the trimmed text between the first ```python and the next ``` after it |
| GraphGenerator.CleanPythonUnclosed | graph_generator.py:98-99 | when the stripped reply contains ```python and no later ```, the code is everything after the first ```python, trimmed |
| GraphGenerator.CleanPlainBlock | graph_generator.py:100-101 | without ```python, the code is the trimmed text between the first and the second ``` |
| GraphGenerator.CleanPlainUnclosed | graph_generator.py:100-101 | without ```python and with only one ```, the code is everything after it, trimmed |
| GraphGenerator.CleanWithoutFence | graph_generator.py:95-103 | a reply without ``` is only stripped of surrounding whitespace |
| GraphGenerator.CutsAtFirstFence | graph_generator.py:99 | splitting at ```python and then at ``` keeps exactly the text before the first ``` when that fence is not followed by a backtick |
| GraphGenerator.UserMessageCarriesRequest | graph_generator.py:89 | the user message is "Create a line graph for: " followed by the whole request, so distinct requests send distinct messages |
| GraphGenerator.GraphCodeAsWritten | graph_generator.py:33-108 | as written, the code is obtained except exactly when constructing the client raises; that error leaves the function |
| GraphGenerator.ClientFailureEscapes | graph_generator.py:37 | with no API key, the request "VR training ROI over 6 months" fails with an error that is not the pipeline's fatal error |
| GraphGenerator.GraphCode | graph_generator.py:84-108 | corrected: the code is the model's own text exactly when there is a reply, and that text contains no fence and is no longer than the reply; every failure to obtain a reply gives the fallback program |
| GraphGenerator.FallbackCodeIgnoresRequest | graph_generator.py:105-108 | without a reply, the code is the fixed fallback program, whose text is the template, whatever the request and whatever the failure |
| GraphGenerator.GraphCodeRepairsOnlyClientFailure | graph_generator.py:33-108 | the corrected code agrees with the code as written wherever the latter returns, and gives the template where the latter raised |
| GraphGenerator.FallbackCode | graph_generator.py:162-186 | the fixed fallback program contains the line `plt.savefig('output.png', dpi=300, bbox_inches='tight')`, so it saves under the name the pipeline looks for |
| GraphGenerator.LineInUnlines | graph_generator.py:162-186 | every line of the template occurs in the joined program text, where `LineStart` says |
| GraphGenerator.FallbackTitle | graph_generator.py:200 | the fallback title is "ROI Analysis: " followed by the request when it has at most 50 characters, and by exactly its first 50 characters when it has more |
| GraphGenerator.DrawFallbackChart | graph_generator.py:192-208 | six periods Q1 to Q6 against the six values 15 to 110, of equal length; each value v is labelled "v%" at height v + 2 above point i; the title is the fallback title |
| GraphGenerator.FatalError | graph_generator.py:218-220 | the fallback's failure is reported as "Could not generate any graph: " followed by the reason |
| GraphGenerator.GenerateFallbackGraph | graph_generator.py:188-220 | succeeds exactly when drawing and saving both go through, with one new .png temp file whose path is returned; otherwise it fails with the fatal error; the working directory is untouched |
| GraphGenerator.LocalNamespaceShape | graph_generator.py:118-128 | the local globals are exactly `__builtins__` bound to the full builtins, the three libraries under two names each, `os` and `tempfile` |
| GraphGenerator.ExecuteGraphCode | graph_generator.py:110-160 | the working directory and the directories are restored on every path; when the code finishes, output.png exists in the temp directory and the copy goes through, the copy's fresh path is returned and only that file is added; otherwise the result is the fallback graph's; the temp directory is removed |
| GraphGenerator.RouteOf | graph_generator.py:16-31 | corrected: the route of a request through the corrected pipeline (the client failure of graph_generator.py:37 falls back); the only error it can end in starts with "Could not generate any graph: " |
| GraphGenerator.RouteWithoutReply | graph_generator.py:105-108 | without a reply, how a request ends does not depend on the request |
| GraphGenerator.GenerateRoiGraph | graph_generator.py:16-31 | corrected: the result follows the corrected route: a path of a file it created, or the fatal error exactly when even the fallback fails; the working directory is unchanged and every file left behind is a .png directly in the temp directory |
| GraphGenerator.GenerateRoiGraphAsWritten | graph_generator.py:16-37 | as written: when the client cannot be constructed, the call fails with the client's own error and no file is touched; otherwise it ends as the corrected pipeline does |
| SafeExecutor.SafeBuiltinsCount | safe_executor.py:25-52 | the executed code sees exactly 26 builtins |
| SafeExecutor.DangerousBuiltinsWithheld | safe_executor.py:25-52 | `open`, `__import__`, `eval`, `exec`, `compile` and `globals` are not among them |
| SafeExecutor.SafeNamespaceShape | safe_executor.py:24-69 | besides `__builtins__`, bound to the restricted set, the only names in scope are matplotlib, plt, pandas, pd, numpy and np, each bound to a module |
| SafeExecutor.SafeNamespaceNarrowsLocal | safe_executor.py:62-69 | the container's globals are the local pipeline's minus `os` and `tempfile`, binding the libraries alike; the local pipeline passes the full builtins |
| SafeExecutor.SafeExecuteGraphCode | safe_executor.py:18-85 | true exactly when the code finishes and output.png exists in the directory it ends in, in which case that file is moved to the output path; any failure gives false; the working directory is left where the code put it |
| SafeExecutor.SuccessResponse | safe_executor.py:109-115 | the success record carries the output path /tmp/graph_output.png and a message and no error |
| SafeExecutor.FailureResponse | safe_executor.py:116-120 | the failure record carries the error "Failed to generate graph" and no output path |
| SafeExecutor.ErrorResponse | safe_executor.py:124-131 | the record of an exception carries the exception's text as its error |
| SafeExecutor.RunExecutor | safe_executor.py:87-131 | exactly one well-formed record: a missing, empty or unreadable request, or a client that cannot be constructed, gives an error record and status 1 without touching files or the working directory; otherwise the status is 0, the working directory is where the code left it, and the record is the success record exactly when the code produced output.png, which is then moved to /tmp/graph_output.png; the files are those before plus what the code wrote, with that move applied on success |
| GraphGeneratorSafe.DockerCommand | graph_generator_safe.py:51-63 | the command is `docker run`; --rm, --network=none, --memory=512m, --cpus=1, --user=1000:1000, --read-only and --tmpfs=/tmp:rw,size=100m all come before the image; the output directory is mounted read-write at /output; the image runs `python3 safe_executor.py` |
| GraphGeneratorSafe.Wrap | graph_generator_safe.py:106-108 | a wrapped message is "Failed to generate graph: " followed by the original |
| GraphGeneratorSafe.DockerVerdict | graph_generator_safe.py:81-108 | the chart is delivered exactly when the container exited 0, reported success and graph_output.png is present; every failure is the timeout message or carries exactly one layer of wrapping; a failure is the timeout message exactly when the run timed out |
| GraphGeneratorSafe.NonZeroExitMessage | graph_generator_safe.py:81-83 | a non-zero exit fails with "Failed to generate graph: Container execution failed: " and the container's standard error, whatever it printed |
| GraphGeneratorSafe.MissingOutputMessage | graph_generator_safe.py:98-99 | reported success without the file fails with "Failed to generate graph: Container did not create output file" |
| GraphGeneratorSafe.ReportedErrorMessage | graph_generator_safe.py:100-101 | reported failure fails with the reported error, or with "Unknown container error" when there is none, wrapped once |
| GraphGeneratorSafe.ReportedPathIgnored | graph_generator_safe.py:88-97 | the output path the container reports plays no part in the outcome |
| GraphGeneratorSafe.TimeoutNotWrapped | graph_generator_safe.py:103-105 | a timeout fails with "Graph generation timed out", which the generic handler does not wrap |
| GraphGeneratorSafe.ExecutorFailureDoublyWrapped | graph_generator_safe.py:100-101 | when the executor's code fails, the host reports "Failed to generate graph: Failed to generate graph" |
| GraphGeneratorSafe.ExecutorSuccessNeedsFile | graph_generator_safe.py:88-99 | after the executor's success record, the chart is delivered exactly when graph_output.png is next to the temp file |
| GraphGeneratorSafe.AfterRun | graph_generator_safe.py:60 | a container run only adds files, and only below the mounted temp directory |
| GraphGeneratorSafe.SafeGraphGenerator.constructor | graph_generator_safe.py:19-21 | the generator keeps the dispatch flag and runs the image roi-graph-generator |
| GraphGeneratorSafe.SafeGraphGenerator.GenerateWithDocker | graph_generator_safe.py:37-108 | a failure to create the temp file is wrapped and changes nothing; otherwise the container sees the request, the result follows the verdict, and a delivered chart's graph_output.png is moved onto the fresh .png temp path, which is returned; a failure leaves at most the temp file behind besides what the container wrote |
| GraphGeneratorSafe.SafeGraphGenerator.GenerateRoiGraph | graph_generator_safe.py:23-35 | corrected: with the flag set, the container path is taken, with its outcome; otherwise the corrected local pipeline is, with its whole outcome: earlier files kept, only .png temp files added, the chart among them, and the fatal error exactly when the route gives up |
| GraphGeneratorSafe.GenerateRoiGraphSafe | graph_generator_safe.py:142-145 | always the container path with the default image |
| GraphGeneratorSafe.BuildCommand | graph_generator_safe.py:116 | the build is `docker build -t roi-graph-generator .` |
| GraphGeneratorSafe.BuildDockerImage | graph_generator_safe.py:110-139 | true exactly when the build exits with status 0; a timeout or an exception gives false |
| GraphGeneratorSafe.BuildsTheImageItRuns | graph_generator_safe.py:21 | the image the build tags is the image the generator starts |
| SlackBot.Startup | roi-slackbot.py:17-27 | start-up goes ahead exactly when both SLACK_BOT_TOKEN and SLACK_SIGNING_SECRET are set and non-empty; otherwise it fails with the bot token's message if that one is missing, and with the secret's message if not |
| SlackBot.BotTokenCheckedFirst | roi-slackbot.py:21-27 | without a bot token, the signing secret makes no difference and its message never appears |
| SlackBot.AckText | roi-slackbot.py:56-59 | the immediate reply carries the whole request, in bold, between a fixed lead-in and the note that it may take 15-30 seconds |
| SlackBot.BlankIffAllSpace | roi-slackbot.py:48 | the text is refused exactly when it consists of whitespace only |
| SlackBot.UploadTitle | roi-slackbot.py:70 | the title is "ROI Analysis: " followed by the text when it has at most 50 characters, and by its first 50 characters and "..." when it has more |
| SlackBot.UploadTitleExtendsChartTitle | roi-slackbot.py:70 | the upload's title is the fallback chart's title plus "..." when the text is cut, and at most 67 characters long |
| SlackBot.UploadComment | roi-slackbot.py:71 | the comment carries the whole request, in bold, behind a fixed lead-in |
| SlackBot.ErrorNotice | roi-slackbot.py:84-87 | the channel message embeds the whole error when it has at most 200 characters and exactly its first 200 when it has more, followed by "..." in every case |
| SlackBot.Outbox.Send | roi-slackbot.py:42-86 | a message sent is appended to what Slack has received |
| SlackBot.Report | roi-slackbot.py:64-87 | exactly one message is sent: the error notice for a failed generation or a failed upload, with the files untouched, or the upload of the chart with its title and comment, after which the file, if it still exists, is removed |
| SlackBot.GenerateAndReport | roi-slackbot.py:55-87 | corrected: for text that is not blank, the "generating" notice comes first and one report follows it; files are only added, as .png temp files; the report follows the route the request takes; an uploaded file no longer exists |
| SlackBot.HandleRoiCommand | roi-slackbot.py:40-87 | corrected: acknowledges first; blank text gets the usage text and nothing is generated; otherwise the acknowledgement comes before generation; a failure of the generation or the upload posts the error notice to the channel; a successful upload carries the title and comment, and the file is then removed; when the generated code's own chart was uploaded, the files end as they began |
| SlackBot.SlackEvents | roi-slackbot.py:124-156 | a GET answers 200 with a non-empty challenge echoed, or "OK"; an empty POST answers 400 "Empty request body"; any other POST answers as the handler does, or 400 with the text of its exception |
| SlackBot.HandlerNotConsulted | roi-slackbot.py:126-143 | neither a GET nor an empty POST depends on the handler |
| SlackBot.BadRequestIff | roi-slackbot.py:141-156 | the route answers 400 exactly for an empty POST, a handler exception, or a handler's own 400 |

## Left out

- The language model call, the prompt text and the sampling parameters. The model is an oracle whose outcome is a reply, a failed call, or a client that cannot be constructed.
- What `exec` does and Python's semantics, including what the restricted builtins break. An execution is an outcome: the names it writes in the directory it starts in, an optional change of directory, and an optional exception.
- Absolute-path writes and deletions by the executed code are not modelled.
- Writes by the executed code outside the directory it starts in are not modelled either. A name written after its own `os.chdir`, or one that steps out with `..`, is still read as a path below the start directory. So the model removes that file with the temporary directory, while the real file would survive elsewhere. `GraphGenerator.ExecuteGraphCode`, `GraphGenerator.GenerateRoiGraph` and `SlackBot.HandleRoiCommand` rely on this reading for "every file left behind is a .png directly in the temp directory" and "the files end as they began".
- `Runtime.ExecOutcome.raised` stands for exceptions of `Exception`'s subclasses only. The local pipeline passes the full builtins, so the generated code could also call `exit()` or raise `SystemExit` or `KeyboardInterrupt`. That exception would pass the `except Exception` handlers of `execute_graph_code`, `generate_roi_graph` and `handle_roi_command`, leaving no fallback chart and no error notice. `GraphGenerator.ExecuteGraphCode`, `GraphGenerator.RouteOf` and `SlackBot.HandleRoiCommand` do not model that escape. RouteOf's "the only error is the fatal one" holds only without it.
- Matplotlib rendering and PNG contents, which involve floating point and a foreign library. Only the existence of files is tracked. `DrawFallbackChart` records the chart's data but no pixels.
- Real time. The timeouts of `communicate(timeout=60)` and `communicate(timeout=300)` are the constants `TimeoutSeconds` and `BuildTimeoutSeconds`, passed to the `Docker` and `Builder` oracles, whose `TimedOut` and `BuildTimedOut` outcomes stand for the expiry. The code does not kill a container that timed out, and the model does not say what such a container does afterwards.
- JSON encoding and parsing. Records are datatypes. The request sent to the container is `Request(Some(request))`, which is what `json.dumps` of a string member parses back to.
- Concurrency, logging, `load_dotenv`, Flask and Bolt routing, the `/roi-help`, `/health` and `/` routes, and `__main__`. None of these has decision logic.
- setup_safe_testing.py, setup_local_testing.py, test_graph_generation.py, test_graph_generation_safe.py, test_minimal.py and application.py are not part of this model. They are set-up scripts, print-based harnesses and entry-point wiring.
- `tempfile` picks random names. `Files.Host.NewPngTempFile` and `Files.Host.NewTempDir` build a name longer than every existing path instead. That name is just as fresh, but the model does not capture that names are unpredictable.
- `Files.Dirname` is `os.path.dirname` for the paths this model builds, which never end in `/`.
- `os.rename` and `os.remove` after an existence check are taken not to raise. A cross-device move inside the container is therefore not modelled.
- The imports inside `safe_execute_graph_code` and `matplotlib.use` are taken not to raise.
- Errors raised while `TemporaryDirectory` removes its directory are not modelled.
- The clean-up of matplotlib figures and closing of files are not modelled.
- `GraphGeneratorSafe.SafeGraphGenerator.GenerateWithDocker`: a failure is stated to leave at most one extra file, not which one it is. That file is the empty temp file, which the code leaves behind on every failure.
- `GraphGenerator.CleanPythonBlock`: it is stated only when the closing fence is not followed by a backtick. With a reply such as "````python", the second split cuts at the next ```python first.
- `GraphGenerator.ExecuteGraphCode`: a failed copy leaves its empty temp file behind, and so does a failed fallback save. The contract only bounds what is left to .png files directly in the temp directory.
- `GraphGenerator.ExecuteGraphCode`: treats every exception of the executed code as caught, and every name it writes as a path below the temporary directory (see above).
- `SafeExecutor.RunExecutor`: "exactly one record" covers only what `main` prints. The executed code may call `print`, which is in the allowed set, and writes to the same standard output that the host parses whole. That output is not modelled.
- `SafeExecutor.RunExecutor`: the container runs the code as written (`GraphGenerator.GraphCodeAsWritten`). There, a client that cannot be constructed is caught by the executor's own handler and gives an error record with status 1.
- A stale /tmp/graph_output.png on the host, or a stale output.png in the directory the executed code ends in, counts as output. The model follows the code in this.
- `GraphGenerator.RouteOf`: the route of the corrected pipeline, built on `GraphGenerator.GraphCode` (see Findings). It has no route for a client that cannot be constructed, and it assumes that only `Exception` subclasses are raised (see above).
- `GraphGenerator.GenerateRoiGraph`: the corrected pipeline. The pipeline as written, where a client that cannot be constructed ends the call with its own error, is `GraphGenerator.GenerateRoiGraphAsWritten`. Its bound on the files left behind relies on the executed code writing only below its start directory (see above).
- `GraphGeneratorSafe.SafeGraphGenerator.GenerateRoiGraph`: its local branch runs the corrected pipeline. As written, a client failure there leaves `generate_roi_graph` with the client's error.
- `SlackBot.GenerateAndReport` drives the corrected pipeline. As written, the client's error would be caught at roi-slackbot.py:80 and posted as an error notice, instead of a fallback chart being uploaded.
- `SlackBot.HandleRoiCommand` drives the corrected pipeline, through `SlackBot.GenerateAndReport`. A failed upload leaves the image file behind.
- `SlackBot.HandleRoiCommand`: an exception outside `Exception` raised by the generated code passes its handler, and it is not modelled. A file written outside the start directory is not modelled either (see above). Its "the files end as they began" relies on both.

Two behaviours are modelled as the code has them:

- the code does not terminate the container on a timeout;
- on an executor failure, the container exits 0 with a failure record, which the host wraps into "Failed to generate graph: Failed to generate graph".

## Findings

| source | as written | input that shows it | evidently intended | confidence | as-written member | corrected member |
|---|---|---|---|---|---|---|
| graph_generator.py:37 | the language model client is constructed before the `try` at line 84, so an exception from the constructor leaves `get_graph_code_from_llm` and `generate_roi_graph` | OPENAI_API_KEY unset, request "VR training ROI over 6 months": the constructor raises, and the error is not "Could not generate any graph: …" | any failure to obtain code falls back to the template, and the only error leaving `generate_roi_graph` is "Could not generate any graph: …" | medium, not executed | GraphGenerator.GraphCodeAsWritten | GraphGenerator.GraphCode |
