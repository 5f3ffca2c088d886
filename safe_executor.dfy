/**
 * The executor that runs inside the container: it reads one request,
 * obtains the plotting code, runs it with a restricted set of builtins
 * and libraries, and answers with one JSON record.
 */
module SafeExecutor {
  import opened Wrappers
  import opened Text
  import opened Runtime
  import opened Files
  import GraphGenerator

  /** The builtins the executed code may use, and no others. */
  const SafeBuiltinNames: set<string> := {
    "print", "len", "range", "enumerate", "zip", "min", "max", "sum", "abs", "round",
    "int", "float", "str", "list", "dict", "tuple", "set", "bool", "type", "isinstance",
    "hasattr", "getattr", "setattr", "Exception", "ValueError", "TypeError"
  }

  /** The libraries added to the globals after the builtins. */
  const LibraryBindings: Namespace := map[
    "matplotlib" := Module("matplotlib"),
    "plt" := Module("matplotlib.pyplot"),
    "pandas" := Module("pandas"),
    "pd" := Module("pandas"),
    "numpy" := Module("numpy"),
    "np" := Module("numpy")
  ]

  /** The globals the executed code sees: the restricted builtins, then the libraries, and neither `os` nor `tempfile`. */
  function SafeNamespace(): Namespace {
    map["__builtins__" := Builtins(SafeBuiltinNames)] + LibraryBindings
  }

  /** The allowed builtins whose names have `n` characters. */
  function NamesOfLength(n: nat): set<string> {
    set x | x in SafeBuiltinNames && |x| == n
  }

  lemma DisjointCard(a: set<string>, b: set<string>, m: nat, n: nat)
    requires |a| == m && |b| == n && a !! b
    ensures |a + b| == m + n
  {
  }

  lemma NamesByLength()
    ensures SafeBuiltinNames == NamesOfLength(3) + NamesOfLength(4) + NamesOfLength(5)
      + NamesOfLength(7) + NamesOfLength(9) + NamesOfLength(10)
  {
  }

  lemma NamesOfLengthApart(m: nat, n: nat)
    requires m != n
    ensures NamesOfLength(m) !! NamesOfLength(n)
  {
  }

  lemma ShortNamesCounts()
    ensures |NamesOfLength(3)| == 9 && |NamesOfLength(4)| == 4 && |NamesOfLength(5)| == 5
  {
    assert NamesOfLength(3) == {"len", "zip", "min", "max", "sum", "abs", "int", "str", "set"} by {}
    assert NamesOfLength(4) == {"list", "dict", "bool", "type"} by {}
    assert NamesOfLength(5) == {"print", "range", "round", "float", "tuple"} by {}
  }

  lemma LongNamesCounts()
    ensures |NamesOfLength(7)| == 3 && |NamesOfLength(9)| == 3 && |NamesOfLength(10)| == 2
  {
    assert NamesOfLength(7) == {"hasattr", "getattr", "setattr"} by {}
    assert NamesOfLength(9) == {"enumerate", "Exception", "TypeError"} by {}
    assert NamesOfLength(10) == {"isinstance", "ValueError"} by {}
  }

  /** The executed code sees exactly 26 builtins. */
  lemma SafeBuiltinsCount()
    ensures |SafeBuiltinNames| == 26
  {
    NamesByLength();
    ShortNamesCounts();
    LongNamesCounts();
    var l3, l4, l5 := NamesOfLength(3), NamesOfLength(4), NamesOfLength(5);
    var l7, l9, l10 := NamesOfLength(7), NamesOfLength(9), NamesOfLength(10);
    NamesOfLengthApart(3, 4); NamesOfLengthApart(3, 5); NamesOfLengthApart(4, 5);
    NamesOfLengthApart(3, 7); NamesOfLengthApart(4, 7); NamesOfLengthApart(5, 7);
    NamesOfLengthApart(3, 9); NamesOfLengthApart(4, 9); NamesOfLengthApart(5, 9);
    NamesOfLengthApart(7, 9); NamesOfLengthApart(3, 10); NamesOfLengthApart(4, 10);
    NamesOfLengthApart(5, 10); NamesOfLengthApart(7, 10); NamesOfLengthApart(9, 10);
    DisjointCard(l3, l4, 9, 4);
    DisjointCard(l3 + l4, l5, 13, 5);
    DisjointCard(l3 + l4 + l5, l7, 18, 3);
    DisjointCard(l3 + l4 + l5 + l7, l9, 21, 3);
    DisjointCard(l3 + l4 + l5 + l7 + l9, l10, 24, 2);
  }

  /** Opening files, importing and evaluating code are not available to the executed code. */
  lemma DangerousBuiltinsWithheld()
    ensures "open" !in SafeBuiltinNames && "__import__" !in SafeBuiltinNames
    ensures "eval" !in SafeBuiltinNames && "exec" !in SafeBuiltinNames
    ensures "compile" !in SafeBuiltinNames && "globals" !in SafeBuiltinNames
  {
  }

  /** Besides the restricted builtins, the executed code sees exactly the three libraries under their two names each. */
  lemma SafeNamespaceShape()
    ensures SafeNamespace().Keys == {"__builtins__", "matplotlib", "plt", "pandas", "pd", "numpy", "np"}
    ensures SafeNamespace()["__builtins__"] == Builtins(SafeBuiltinNames)
    ensures forall k :: k in SafeNamespace() && k != "__builtins__" ==> SafeNamespace()[k].Module?
  {
  }

  /**
   * The container's globals are the local pipeline's minus `os` and
   * `tempfile`, with the builtins restricted; the libraries are bound alike.
   */
  lemma SafeNamespaceNarrowsLocal()
    ensures SafeNamespace().Keys == GraphGenerator.LocalNamespace().Keys - {"os", "tempfile"}
    ensures forall k :: k in SafeNamespace() && k != "__builtins__" ==>
      SafeNamespace()[k] == GraphGenerator.LocalNamespace()[k]
    ensures GraphGenerator.LocalNamespace()["__builtins__"] == AllBuiltins
  {
    SafeNamespaceShape();
  }

  /** Executing `code` with these globals leaves a file named output.png in the working directory it ends in. */
  predicate Produces(out: ExecOutcome, cwd: Path, files: set<Path>) {
    out.raised.None? && Join(out.chdir.GetOr(cwd), GraphGenerator.OutputName) in files + Below(cwd, out.written)
  }

  /**
   * `safe_execute_graph_code`: runs the code with the restricted globals;
   * true exactly when it finishes and output.png exists, in which case
   * that file is moved to `outputPath`. Nothing is cleaned up otherwise.
   */
  method SafeExecuteGraphCode(h: Host, code: Code, outputPath: Path, exec: Executor) returns (ok: bool)
    modifies h
    ensures h.dirs == old(h.dirs)
    ensures var out := exec(code, SafeNamespace());
      var written := old(h.files) + Below(old(h.cwd), out.written);
      var produced := Join(out.chdir.GetOr(old(h.cwd)), GraphGenerator.OutputName);
      && h.cwd == out.chdir.GetOr(old(h.cwd))
      && (ok <==> Produces(out, old(h.cwd), old(h.files)))
      && (ok ==> h.files == written - {produced} + {outputPath})
      && (!ok ==> h.files == written)
  {
    var globals := map["__builtins__" := Builtins(SafeBuiltinNames)];
    globals := globals + LibraryBindings;
    var out := exec(code, globals);
    h.AddFiles(Below(h.cwd, out.written));
    if out.chdir.Some? {
      h.Chdir(out.chdir.value);
    }
    if out.raised.Some? {
      return false;
    }
    var produced := Join(h.cwd, GraphGenerator.OutputName);
    if produced !in h.files {
      return false;
    }
    h.Rename(produced, outputPath);
    ok := true;
  }

  /** What the executor reads from its standard input. */
  datatype ExecutorInput =
    | Unreadable(reason: string)             // not a JSON object: the parser (or the lookup) raised
    | Request(userRequest: Option<string>)   // the `user_request` member; `None` when missing or null

  /** The JSON record the executor prints. */
  datatype Response = Response(success: bool, outputPath: Option<string>, message: Option<string>, error: Option<string>)

  /** A record carries an output path and a message exactly when it reports success, and an error exactly when it does not. */
  predicate WellFormed(r: Response) {
    (r.outputPath.Some? <==> r.success) && (r.message.Some? <==> r.success) && (r.error.Some? <==> !r.success)
  }

  /** Where the executor leaves the chart inside the container. */
  const ContainerOutputPath: Path := "/tmp/graph_output.png"
  const MissingRequest := "No user_request provided"
  const ExecutionFailed := "Failed to generate graph"

  function SuccessResponse(): (r: Response)
    ensures WellFormed(r) && r.success && r.outputPath == Some(ContainerOutputPath)
  {
    Response(true, Some(ContainerOutputPath), Some("Graph generated successfully"), None)
  }

  function FailureResponse(): (r: Response)
    ensures WellFormed(r) && !r.success && r.error == Some(ExecutionFailed)
  {
    Response(false, None, None, Some(ExecutionFailed))
  }

  /** The record printed from the handler of any exception. */
  function ErrorResponse(reason: string): (r: Response)
    ensures WellFormed(r) && !r.success && r.error == Some(reason)
  {
    Response(false, None, None, Some(reason))
  }

  /** The request the executor accepts: a present, non-empty `user_request`. */
  predicate Accepted(input: ExecutorInput) {
    input.Request? && input.userRequest.Some? && input.userRequest.value != ""
  }

  /** Why the executor rejects an input. */
  function RejectReason(input: ExecutorInput): string
    requires !Accepted(input)
  {
    if input.Unreadable? then input.reason else MissingRequest
  }

  /**
   * `main`: the single record the executor prints and its exit status.
   * A rejected input, or a failure to construct the model's client, gives
   * an error record and status 1; otherwise the code is run, and the
   * record says whether that worked, with status 0 either way.
   */
  method RunExecutor(h: Host, input: ExecutorInput, llm: GraphGenerator.Llm, exec: Executor)
    returns (response: Response, status: int)
    modifies h
    ensures WellFormed(response)
    ensures h.dirs == old(h.dirs)
    ensures !Accepted(input) ==>
      response == ErrorResponse(RejectReason(input)) && status == 1 && h.files == old(h.files) && h.cwd == old(h.cwd)
    ensures Accepted(input) ==>
      var code := GraphGenerator.GraphCodeAsWritten(input.userRequest.value, llm);
      && (code.Failure? ==> response == ErrorResponse(code.error) && status == 1 && h.files == old(h.files) && h.cwd == old(h.cwd))
      && (code.Success? ==>
        var out := exec(code.value, SafeNamespace());
        var written := old(h.files) + Below(old(h.cwd), out.written);
        var produced := Join(out.chdir.GetOr(old(h.cwd)), GraphGenerator.OutputName);
        && status == 0
        && h.cwd == out.chdir.GetOr(old(h.cwd))
        && (response.success <==> Produces(out, old(h.cwd), old(h.files)))
        && (response.success ==> response == SuccessResponse() && h.files == written - {produced} + {ContainerOutputPath})
        && (!response.success ==> response == FailureResponse() && h.files == written))
  {
    if !Accepted(input) {
      response, status := ErrorResponse(RejectReason(input)), 1;
      return;
    }
    var code := GraphGenerator.GraphCodeAsWritten(input.userRequest.value, llm);
    if code.Failure? {
      response, status := ErrorResponse(code.error), 1;
      return;
    }
    var ok := SafeExecuteGraphCode(h, code.value, ContainerOutputPath, exec);
    response := if ok then SuccessResponse() else FailureResponse();
    status := 0;
  }
}
