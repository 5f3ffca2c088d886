/**
 * The containerised generator: it asks a locked-down container running the
 * executor for the chart, and turns the container's exit status, its
 * printed record and the presence of its output file into either the path
 * of the chart or one error message.
 */
module GraphGeneratorSafe {
  import opened Wrappers
  import opened Text
  import opened Runtime
  import opened Files
  import GraphGenerator
  import SafeExecutor

  /** The image the container is started from (and the one the build tags). */
  const DefaultImage := "roi-graph-generator"

  /** The file the host looks for next to its temp file. */
  const ContainerOutputName := "graph_output.png"

  const TimeoutSeconds: nat := 60
  const BuildTimeoutSeconds: nat := 300

  const TimeoutMessage := "Graph generation timed out"
  const WrapPrefix := "Failed to generate graph: "
  const ExitFailedPrefix := "Container execution failed: "
  const NoOutputFile := "Container did not create output file"
  const UnknownError := "Unknown container error"

  /** The options that isolate the container, all of which precede the image name. */
  const IsolationFlags: seq<string> := [
    "--rm", "--network=none", "--memory=512m", "--cpus=1", "--user=1000:1000",
    "--read-only", "--tmpfs=/tmp:rw,size=100m"
  ]

  /** The command line that starts the executor, with `outputDir` mounted writable at /output. */
  function DockerCommand(image: string, outputDir: Path): (cmd: seq<string>)
    ensures |cmd| == 14 && cmd[..2] == ["docker", "run"]
    ensures forall f :: f in IsolationFlags ==> f in cmd[2..|cmd| - 3]
    ensures cmd[|cmd| - 5..|cmd| - 3] == ["-v", outputDir + ":/output:rw"]
    ensures cmd[|cmd| - 3..] == [image, "python3", "safe_executor.py"]
  {
    var cmd := ["docker", "run"] + IsolationFlags + ["-v", outputDir + ":/output:rw"] + [image, "python3", "safe_executor.py"];
    assert cmd[2..|cmd| - 3] == IsolationFlags + ["-v", outputDir + ":/output:rw"];
    cmd
  }

  /** The container's standard output, as the host parses it. */
  datatype ContainerReply =
    | Unparseable(reason: string)  // parsing raised, or the value is not an object
    | Reply(success: bool, outputPath: Option<string>, error: Option<string>)

  /** How running the container ended. */
  datatype ContainerRun =
    | LaunchFailed(reason: string)  // starting the process raised (no docker binary, say)
    | TimedOut                      // no exit within the timeout
    | Exited(status: int, reply: ContainerReply, stderr: string, created: set<string>)
      // `created`: the names the container wrote into the mounted directory

  /**
   * The container engine, as a function of the command line, the request
   * record sent on standard input and the timeout in seconds.
   */
  type Docker = (seq<string>, SafeExecutor.ExecutorInput, nat) -> ContainerRun

  /** The one layer of wrapping the generic handler adds. */
  function Wrap(m: string): (e: string)
    ensures StartsWith(e, WrapPrefix) && e[|WrapPrefix|..] == m
  {
    WrapPrefix + m
  }

  /** Hand over the chart, or fail with a message. */
  datatype Verdict = Deliver | Fail(message: string)

  /**
   * The classification of a container run, given whether `graph_output.png`
   * is present next to the temp file once the container is done.
   */
  function DockerVerdict(run: ContainerRun, present: bool): (v: Verdict)
    ensures v.Deliver? <==>
      run.Exited? && run.status == 0 && run.reply.Reply? && run.reply.success && present
    ensures v.Fail? ==> v.message == TimeoutMessage || StartsWith(v.message, WrapPrefix)
    ensures v == Fail(TimeoutMessage) <==> run.TimedOut?
  {
    assert WrapPrefix[0] != TimeoutMessage[0];
    match run
    case LaunchFailed(reason) => Fail(Wrap(reason))
    case TimedOut => Fail(TimeoutMessage)
    case Exited(status, reply, stderr, _) =>
      if status != 0 then Fail(Wrap(ExitFailedPrefix + stderr))
      else match reply
        case Unparseable(reason) => Fail(Wrap(reason))
        case Reply(success, _, error) =>
          if !success then Fail(Wrap(error.GetOr(UnknownError)))
          else if present then Deliver
          else Fail(Wrap(NoOutputFile))
  }

  /** A non-zero exit fails with the container's standard error, whatever it printed. */
  lemma NonZeroExitMessage(status: int, reply: ContainerReply, stderr: string, created: set<string>, present: bool)
    requires status != 0
    ensures DockerVerdict(Exited(status, reply, stderr, created), present)
      == Fail(WrapPrefix + (ExitFailedPrefix + stderr))
  {
  }

  /** A reported success without the output file fails ("Failed to generate graph: Container did not create output file"). */
  lemma MissingOutputMessage(reply: ContainerReply, stderr: string, created: set<string>)
    requires reply.Reply? && reply.success
    ensures DockerVerdict(Exited(0, reply, stderr, created), false) == Fail(WrapPrefix + NoOutputFile)
  {
  }

  /** A reported failure carries the reported error, or a stand-in when there is none. */
  lemma ReportedErrorMessage(reply: ContainerReply, stderr: string, created: set<string>, present: bool)
    requires reply.Reply? && !reply.success
    ensures DockerVerdict(Exited(0, reply, stderr, created), present)
      == Fail("Failed to generate graph: " + if reply.error.Some? then reply.error.value else "Unknown container error")
  {
  }

  /** The path the container reports plays no part in the verdict. */
  lemma ReportedPathIgnored(success: bool, p1: Option<string>, p2: Option<string>, error: Option<string>,
                            stderr: string, created: set<string>, present: bool)
    ensures DockerVerdict(Exited(0, Reply(success, p1, error), stderr, created), present)
      == DockerVerdict(Exited(0, Reply(success, p2, error), stderr, created), present)
  {
  }

  /** A timeout is reported as such, without the generic wrapping. */
  lemma TimeoutNotWrapped(present: bool)
    ensures DockerVerdict(TimedOut, present) == Fail("Graph generation timed out")
    ensures !StartsWith(DockerVerdict(TimedOut, present).message, WrapPrefix)
  {
    assert WrapPrefix[0] != TimeoutMessage[0];
  }

  /** The executor's record as the host reads it back from standard output. */
  function ReplyOf(r: SafeExecutor.Response): (reply: ContainerReply)
    ensures reply.Reply? && reply.success == r.success && reply.error == r.error
  {
    Reply(r.success, r.outputPath, r.error)
  }

  /**
   * When the executor runs but the code fails, it exits 0 with a failure
   * record, and the host wraps the executor's message a second time.
   */
  lemma ExecutorFailureDoublyWrapped(stderr: string, created: set<string>, present: bool)
    ensures DockerVerdict(Exited(0, ReplyOf(SafeExecutor.FailureResponse()), stderr, created), present)
      == Fail(WrapPrefix + SafeExecutor.ExecutionFailed)
  {
  }

  /** When the executor reports success, the host delivers exactly when the file is next to its temp file. */
  lemma ExecutorSuccessNeedsFile(stderr: string, created: set<string>, present: bool)
    ensures DockerVerdict(Exited(0, ReplyOf(SafeExecutor.SuccessResponse()), stderr, created), present).Deliver?
      <==> present
  {
  }

  /** The files after a container run: those before, plus what the container wrote into the mounted directory. */
  function AfterRun(files: set<Path>, run: ContainerRun): (after: set<Path>)
    ensures files <= after
    ensures forall f :: f in after - files ==> Under(f, TempRoot)
  {
    if run.Exited? then files + Below(TempRoot, run.created) else files
  }

  /** The verdict on a request, given the files that existed before it. */
  function RequestVerdict(files: set<Path>, request: string, image: string, docker: Docker): Verdict {
    var run := docker(DockerCommand(image, TempRoot), SafeExecutor.Request(Some(request)), TimeoutSeconds);
    DockerVerdict(run, Join(TempRoot, ContainerOutputName) in AfterRun(files, run))
  }

  /** The files a request leaves behind when its temp file could be created. */
  function RequestFiles(files: set<Path>, request: string, image: string, docker: Docker): set<Path> {
    AfterRun(files, docker(DockerCommand(image, TempRoot), SafeExecutor.Request(Some(request)), TimeoutSeconds))
  }

  /**
   * What the containerised generation does to the files and returns:
   * a failure to create the temp file is wrapped and changes nothing;
   * otherwise the result follows the verdict, a delivered chart is moved
   * onto the fresh temp path, and a failure leaves at most that temp file
   * behind besides what the container wrote.
   */
  predicate DockerResult(before: set<Path>, after: set<Path>, r: Result<Path, string>,
                         request: string, image: string, docker: Docker, tempFile: Step)
  {
    if tempFile.Raises? then
      r == Failure(Wrap(tempFile.reason)) && after == before
    else
      var v := RequestVerdict(before, request, image, docker);
      var written := RequestFiles(before, request, image, docker);
      && (r.Success? <==> v.Deliver?)
      && (r.Failure? ==> r.error == v.message)
      && (r.Success? ==>
        && TempEntry(r.value) && EndsWith(r.value, ".png") && r.value !in before
        && after == written - {Join(TempRoot, ContainerOutputName)} + {r.value})
      && (r.Failure? ==>
        && written <= after && |after - written| <= 1
        && forall f :: f in after - written ==> TempEntry(f) && EndsWith(f, ".png"))
  }

  lemma TempEntryJoin(p: Path)
    requires TempEntry(p)
    ensures p == Join(TempRoot, p[|TempRoot| + 1..]) && '/' !in p[|TempRoot| + 1..]
  {
    assert p[..|TempRoot| + 1] == TempRoot + "/";
  }

  /** `SafeGraphGenerator`: the dispatch flag and the image it runs. */
  class SafeGraphGenerator {
    var useDocker: bool
    var dockerImage: string

    constructor (useDocker: bool)
      ensures this.useDocker == useDocker && dockerImage == DefaultImage
    {
      this.useDocker := useDocker;
      dockerImage := DefaultImage;
    }

    /**
     * `_generate_with_docker`: creates the temp file, runs the container
     * with the temp file's directory mounted, and moves the container's
     * `graph_output.png` onto the temp path when the run is to be delivered.
     */
    method GenerateWithDocker(h: Host, request: string, docker: Docker, tempFile: Step) returns (r: Result<Path, string>)
      modifies h
      ensures h.cwd == old(h.cwd) && h.dirs == old(h.dirs)
      ensures DockerResult(old(h.files), h.files, r, request, dockerImage, docker, tempFile)
    {
      if tempFile.Raises? {
        return Failure(Wrap(tempFile.reason));
      }
      ghost var before := h.files;
      var p := h.NewPngTempFile();
      TempEntryJoin(p);
      DirnameOfJoin(TempRoot, p[|TempRoot| + 1..]);
      var dir := Dirname(p);
      var cmd := DockerCommand(dockerImage, dir);
      var run := docker(cmd, SafeExecutor.Request(Some(request)), TimeoutSeconds);
      if run.Exited? {
        h.AddFiles(Below(dir, run.created));
      }
      var expected := Join(dir, ContainerOutputName);
      assert !StartsWith(ContainerOutputName, TempPrefix) by {
        assert ContainerOutputName[0] != TempPrefix[0];
      }
      TempEntryIsNot(p, ContainerOutputName);
      ghost var written := AfterRun(before, run);
      assert expected in h.files <==> expected in written;
      var v := DockerVerdict(run, expected in h.files);
      if v.Deliver? {
        h.Rename(expected, p);
        return Success(p);
      }
      assert h.files == written + {p};
      r := Failure(v.message);
    }

    /** `generate_roi_graph`: the container path when the flag is set, the local pipeline otherwise. */
    method GenerateRoiGraph(h: Host, request: string, env: Env) returns (r: Result<Path, string>)
      modifies h
      ensures h.cwd == old(h.cwd) && h.dirs == old(h.dirs)
      ensures useDocker ==> DockerResult(old(h.files), h.files, r, request, dockerImage, env.docker, env.tempFile)
      ensures !useDocker ==>
        GraphGenerator.PipelineOutcome(old(h.files), h.files, r, GraphGenerator.RouteOf(request, env.local))
    {
      if useDocker {
        r := GenerateWithDocker(h, request, env.docker, env.tempFile);
      } else {
        r := GraphGenerator.GenerateRoiGraph(h, request, env.local);
      }
    }
  }

  /** Everything outside the generator that its result depends on. */
  datatype Env = Env(local: GraphGenerator.World, docker: Docker, tempFile: Step)

  /** `generate_roi_graph_safe`: always the container path, with the default image. */
  method GenerateRoiGraphSafe(h: Host, request: string, env: Env) returns (r: Result<Path, string>)
    modifies h
    ensures h.cwd == old(h.cwd) && h.dirs == old(h.dirs)
    ensures DockerResult(old(h.files), h.files, r, request, DefaultImage, env.docker, env.tempFile)
  {
    var g := new SafeGraphGenerator(true);
    r := g.GenerateRoiGraph(h, request, env);
  }

  // ---------------------------------------------------------------------
  // Building the image
  // ---------------------------------------------------------------------

  /** How the image build ended. */
  datatype BuildRun = BuildExited(status: int) | BuildTimedOut | BuildRaised(reason: string)

  /** The build command: it tags the image the generator runs. */
  function BuildCommand(): (cmd: seq<string>)
    ensures |cmd| == 5 && cmd[..2] == ["docker", "build"] && cmd[2..4] == ["-t", DefaultImage] && cmd[|cmd| - 1] == "."
  {
    ["docker", "build", "-t", DefaultImage, "."]
  }

  /** The build engine, as a function of the command line and the timeout in seconds. */
  type Builder = (seq<string>, nat) -> BuildRun

  /** `build_docker_image`: true exactly when the build exits with status 0. */
  function BuildDockerImage(builder: Builder): (ok: bool)
    ensures ok <==> builder(BuildCommand(), BuildTimeoutSeconds) == BuildExited(0)
  {
    match builder(BuildCommand(), BuildTimeoutSeconds)
    case BuildExited(status) => status == 0
    case BuildTimedOut => false
    case BuildRaised(_) => false
  }

  /** The image the build tags is the image the generator starts. */
  lemma BuildsTheImageItRuns(outputDir: Path)
    ensures BuildCommand()[3] == DockerCommand(DefaultImage, outputDir)[11]
  {
  }
}
