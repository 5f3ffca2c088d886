/**
 * The local chart pipeline: ask the language model for plotting code,
 * clean the reply, run the code in a fresh temporary directory, and fall
 * back to a fixed chart whenever anything goes wrong.
 */
module GraphGenerator {
  import opened Wrappers
  import opened Text
  import opened Runtime
  import opened Files

  // ---------------------------------------------------------------------
  // Cleaning the model's reply
  // ---------------------------------------------------------------------

  const Fence := "```"
  const PythonFence := "```python"

  /**
   * The code kept from the model's reply: the reply is stripped; if it
   * holds a ```python marker, the text after the first one up to the next
   * piece boundary is kept; otherwise, if it holds a ``` marker, the text
   * between the first and the second one; the kept text is stripped again.
   */
  function CleanReply(reply: string): (code: string)
    ensures Absent(code, Fence)
    ensures |code| <= |reply|
  {
    var text := Strip(reply);
    if Contains(text, PythonFence) then
      var piece := Head(Second(text, PythonFence), Fence);
      StripKeepsAbsent(piece, Fence);
      Strip(piece)
    else if Contains(text, Fence) then
      var piece := Head(Second(text, Fence), Fence);
      StripKeepsAbsent(piece, Fence);
      Strip(piece)
    else
      assert Absent(text, Fence) by { ContainsIff(text, Fence); }
      text
  }

  lemma FindIsFirst(s: string, p: string, i: nat)
    requires FirstAt(s, p, i)
    ensures Find(s, p) == Some(i)
  {
    var k := Find(s, p).value;
    assert !(k < i) && !(i < k);
  }

  /** Every ```python marker begins with a ``` marker. */
  lemma PythonFenceIsFence(s: string, i: nat)
    requires OccursAt(s, PythonFence, i)
    ensures OccursAt(s, Fence, i)
  {
    assert s[i..i + 3] == s[i..i + 9][..3];
  }

  /**
   * Cutting at the next ```python and then at the first ``` is cutting at
   * the first ```, as long as that ``` is not followed by another backtick.
   */
  lemma {:induction false} CutsAtFirstFence(t: string, j: nat)
    requires FirstAt(t, Fence, j)
    requires j + 3 == |t| || t[j + 3] != '`'
    ensures Head(Head(t, PythonFence), Fence) == t[..j]
  {
    var h := Head(t, PythonFence);
    var m := |h|;
    if m < |t| {
      assert OccursAt(t, PythonFence, m);
      PythonFenceIsFence(t, m);
      assert j <= m;
      assert m != j + 1 && m != j + 2 by {
        var f := t[m..m + 3];
        assert f == Fence;
        assert t[m + 1] == f[1] == '`' && t[m + 2] == f[2] == '`';
      }
    }
    assert h == t[..m];
    forall k: nat ensures OccursAt(h, Fence, k) <==> k + 3 <= m && OccursAt(t, Fence, k) {
      OccursInPrefix(t, Fence, m, k);
    }
    if j + 3 <= m {
      assert FirstAt(h, Fence, j);
      FindIsFirst(h, Fence, j);
    } else {
      assert m == j;
      assert Absent(h, Fence);
    }
  }

  /** Without any ``` left, both cuts keep everything. */
  lemma CutsNothing(t: string)
    requires Absent(t, Fence)
    ensures Head(Head(t, PythonFence), Fence) == t
  {
    var h := Head(t, PythonFence);
    if |h| < |t| {
      PythonFenceIsFence(t, |h|);
      assert false;
    }
  }

  /**
   * A reply with a ```python block: the code is the stripped text between
   * the first ```python and the first ``` after it (when that ``` is not
   * followed by a further backtick).
   */
  lemma CleanPythonBlock(reply: string, i: nat, j: nat)
    requires FirstAt(Strip(reply), PythonFence, i)
    requires var rest := Strip(reply)[i + |PythonFence|..];
      FirstAt(rest, Fence, j) && (j + 3 == |rest| || rest[j + 3] != '`')
    ensures CleanReply(reply) == Strip(Strip(reply)[i + |PythonFence|..][..j])
  {
    var text := Strip(reply);
    FindIsFirst(text, PythonFence, i);
    CutsAtFirstFence(text[i + |PythonFence|..], j);
  }

  /** A ```python block that is never closed: the code is everything after the marker, stripped. */
  lemma CleanPythonUnclosed(reply: string, i: nat)
    requires FirstAt(Strip(reply), PythonFence, i)
    requires Absent(Strip(reply)[i + |PythonFence|..], Fence)
    ensures CleanReply(reply) == Strip(Strip(reply)[i + |PythonFence|..])
  {
    var text := Strip(reply);
    FindIsFirst(text, PythonFence, i);
    CutsNothing(text[i + |PythonFence|..]);
  }

  /**
   * A reply with a plain ``` block and no ```python: the code is the
   * stripped text between the first and the second ```.
   */
  lemma CleanPlainBlock(reply: string, i: nat, j: nat)
    requires !Contains(Strip(reply), PythonFence)
    requires FirstAt(Strip(reply), Fence, i)
    requires FirstAt(Strip(reply)[i + |Fence|..], Fence, j)
    ensures CleanReply(reply) == Strip(Strip(reply)[i + |Fence|..][..j])
  {
    var text := Strip(reply);
    FindIsFirst(text, Fence, i);
    var rest := text[i + |Fence|..];
    FindIsFirst(rest, Fence, j);
    assert Head(rest, Fence) == rest[..j];
  }

  /** A plain ``` block that is never closed: the code is everything after the marker, stripped. */
  lemma CleanPlainUnclosed(reply: string, i: nat)
    requires !Contains(Strip(reply), PythonFence)
    requires FirstAt(Strip(reply), Fence, i)
    requires Absent(Strip(reply)[i + |Fence|..], Fence)
    ensures CleanReply(reply) == Strip(Strip(reply)[i + |Fence|..])
  {
    FindIsFirst(Strip(reply), Fence, i);
  }

  /** Text without ``` has no ```python either. */
  lemma NoFenceNoPythonFence(s: string)
    requires Absent(s, Fence)
    ensures Absent(s, PythonFence)
  {
    forall i: nat ensures !OccursAt(s, PythonFence, i) {
      if OccursAt(s, PythonFence, i) {
        PythonFenceIsFence(s, i);
      }
    }
  }

  /** A reply without any ``` is only stripped. */
  lemma CleanWithoutFence(reply: string)
    requires !Contains(reply, Fence)
    ensures CleanReply(reply) == Strip(reply)
  {
    var text := Strip(reply);
    StripKeepsSolidPattern(reply, Fence);
    ContainsIff(text, Fence);
    NoFenceNoPythonFence(text);
    ContainsIff(text, PythonFence);
  }

  // ---------------------------------------------------------------------
  // Asking the model for code
  // ---------------------------------------------------------------------

  /** What calling the language model came to. */
  datatype LlmOutcome =
    | ClientUnavailable(reason: string)  // constructing the client raised (for one, no API key is set)
    | CallFailed(reason: string)         // the completion request raised, or the reply had no text
    | Replied(content: string)           // the text of the first choice

  /** The language model, as a function of the user message it is sent. */
  type Llm = string -> LlmOutcome

  const UserPrefix := "Create a line graph for: "

  /** The user message sent along with the fixed system prompt. */
  function UserMessage(request: string): string {
    UserPrefix + request
  }

  /** The user message carries the whole request, behind a fixed lead-in, so distinct requests ask distinct questions. */
  lemma UserMessageCarriesRequest(r1: string, r2: string)
    ensures StartsWith(UserMessage(r1), UserPrefix) && UserMessage(r1)[|UserPrefix|..] == r1
    ensures UserMessage(r1) == UserMessage(r2) ==> r1 == r2
  {
    assert UserMessage(r1)[|UserPrefix|..] == r1;
    assert UserMessage(r2)[|UserPrefix|..] == r2;
  }

  /** The template's line that saves the chart, under the name the executor looks for. */
  const SaveLine := "plt.savefig('" + OutputName + "', dpi=300, bbox_inches='tight')"

  /** The lines of the fixed plotting program used when the model cannot be asked. */
  const FallbackTemplateLines: seq<string> := [
    "",
    "import matplotlib.pyplot as plt",
    "import numpy as np",
    "",
    "# Simple fallback ROI data",
    "months = ['Q1', 'Q2', 'Q3', 'Q4', 'Q5', 'Q6']",
    "roi_data = [15, 35, 55, 75, 90, 110]",
    "",
    "plt.figure(figsize=(12, 8))",
    "plt.plot(months, roi_data, marker='o', linewidth=3, color='#2E86AB', markersize=8)",
    "plt.title('ROI Analysis Over Time', fontsize=18, fontweight='bold', pad=20)",
    "plt.xlabel('Time Period', fontsize=14)",
    "plt.ylabel('ROI (%)', fontsize=14)",
    "plt.grid(True, alpha=0.3)",
    "plt.tight_layout()",
    "",
    "# Add data labels",
    "for i, v in enumerate(roi_data):",
    "    plt.text(i, v + 2, f'{v}%', ha='center', va='bottom', fontweight='bold')",
    "",
    SaveLine,
    "plt.close()",
    ""
  ]

  /** `lines` joined with newlines. */
  function Unlines(lines: seq<string>): string {
    if |lines| == 0 then "" else if |lines| == 1 then lines[0] else lines[0] + "\n" + Unlines(lines[1..])
  }

  /** Where line `k` begins in `Unlines(lines)`. */
  function LineStart(lines: seq<string>, k: nat): nat
    requires k < |lines|
  {
    if k == 0 then 0 else |lines[0]| + 1 + LineStart(lines[1..], k - 1)
  }

  /** Every line occurs in the joined text, where `LineStart` says. */
  lemma {:induction false} LineInUnlines(lines: seq<string>, k: nat)
    requires k < |lines|
    ensures OccursAt(Unlines(lines), lines[k], LineStart(lines, k))
  {
    if k > 0 {
      var rest := Unlines(lines[1..]);
      var i := LineStart(lines[1..], k - 1);
      var p := lines[k];
      LineInUnlines(lines[1..], k - 1);
      var head := lines[0] + "\n";
      assert Unlines(lines) == head + rest;
      var x, y := (head + rest)[|head| + i..|head| + i + |p|], rest[i..i + |p|];
      assert forall j :: 0 <= j < |p| ==> x[j] == y[j];
      assert x == y;
    }
  }

  /**
   * `get_fallback_graph_code`: the fixed plotting program (it takes no
   * part of the request), which saves its chart under the name the
   * pipeline looks for.
   */
  function FallbackCode(): (code: string)
    ensures Contains(code, SaveLine)
  {
    var lines := FallbackTemplateLines;
    LineInUnlines(lines, 20);
    ContainsIff(Unlines(lines), SaveLine);
    Unlines(lines)
  }

  /** The source text of a program handed to `exec`. */
  function SourceText(code: Code): string {
    match code
    case Written(text) => text
    case FallbackProgram => FallbackCode()
  }

  /**
   * The code obtained for a request, as the source is written: a failure
   * of the completion call falls back to the template, but a failure to
   * construct the client escapes as an exception.
   */
  function GraphCodeAsWritten(request: string, llm: Llm): (r: Result<Code, string>)
    ensures r.Failure? <==> llm(UserMessage(request)).ClientUnavailable?
  {
    match llm(UserMessage(request))
    case ClientUnavailable(reason) => Failure(reason)
    case CallFailed(_) => Success(FallbackProgram)
    case Replied(content) => Success(Written(CleanReply(content)))
  }

  /** A request whose client construction fails escapes the pipeline with an error that is not the fatal one. */
  lemma ClientFailureEscapes()
    ensures var r := GraphCodeAsWritten("VR training ROI over 6 months", _ => ClientUnavailable("no API key"));
      r.Failure? && !StartsWith(r.error, FatalPrefix)
  {
    var llm: Llm := _ => ClientUnavailable("no API key");
    var r := GraphCodeAsWritten("VR training ROI over 6 months", llm);
    assert llm(UserMessage("VR training ROI over 6 months")) == ClientUnavailable("no API key");
    assert r == Failure("no API key");
    assert |"no API key"| < |FatalPrefix|;
  }

  /** The code obtained for a request: every failure to get a reply falls back to the template. */
  function GraphCode(request: string, llm: Llm): (code: Code)
    ensures code.Written? <==> llm(UserMessage(request)).Replied?
    ensures code.Written? ==> Absent(code.text, Fence) && |code.text| <= |llm(UserMessage(request)).content|
  {
    match llm(UserMessage(request))
    case Replied(content) => Written(CleanReply(content))
    case _ => FallbackProgram
  }

  /** Without a reply, the code does not depend on the request or on the way the model failed. */
  lemma FallbackCodeIgnoresRequest(r1: string, r2: string, llm1: Llm, llm2: Llm)
    requires !llm1(UserMessage(r1)).Replied? && !llm2(UserMessage(r2)).Replied?
    ensures GraphCode(r1, llm1) == GraphCode(r2, llm2) == FallbackProgram
    ensures SourceText(GraphCode(r1, llm1)) == FallbackCode()
  {
  }

  /** The corrected code agrees with the code as written wherever the latter returns. */
  lemma GraphCodeRepairsOnlyClientFailure(request: string, llm: Llm)
    ensures GraphCodeAsWritten(request, llm).Success? ==> GraphCodeAsWritten(request, llm).value == GraphCode(request, llm)
    ensures GraphCodeAsWritten(request, llm).Failure? ==> GraphCode(request, llm) == FallbackProgram
  {
  }

  // ---------------------------------------------------------------------
  // The fallback chart
  // ---------------------------------------------------------------------

  /** A text label placed on the chart at point `(x, y)`. */
  datatype DataLabel = DataLabel(x: int, y: int, text: string)

  /** What the fallback figure shows. */
  datatype Chart = Chart(title: string, periods: seq<string>, values: seq<int>, labels: seq<DataLabel>)

  const FallbackPeriods: seq<string> := ["Q1", "Q2", "Q3", "Q4", "Q5", "Q6"]
  const FallbackValues: seq<int> := [15, 35, 55, 75, 90, 110]
  const TitlePrefix := "ROI Analysis: "
  const TitleLimit := 50

  /** The fallback chart's title: the request enters it through at most its first 50 characters. */
  function FallbackTitle(request: string): (title: string)
    ensures StartsWith(title, TitlePrefix)
    ensures |title| <= |TitlePrefix| + TitleLimit
    ensures StartsWith(request, title[|TitlePrefix|..])
    ensures |request| <= TitleLimit ==> title == TitlePrefix + request
    ensures |request| > TitleLimit ==> title == TitlePrefix + request[..TitleLimit]
  {
    TitlePrefix + Take(request, TitleLimit)
  }

  /**
   * Builds the fallback figure: six periods against six values, each
   * value labelled `v%` two units above its point.
   */
  method DrawFallbackChart(request: string) returns (c: Chart)
    ensures c.title == FallbackTitle(request)
    ensures |c.periods| == |c.values| == |c.labels| == 6
    ensures c.periods == FallbackPeriods && c.values == FallbackValues
    ensures forall i :: 0 <= i < |c.labels| ==>
      c.labels[i] == DataLabel(i, c.values[i] + 2, IntToString(c.values[i]) + "%")
  {
    var periods := FallbackPeriods;
    var values := FallbackValues;
    assert |periods| == |values|;
    var labels: seq<DataLabel> := [];
    var i := 0;
    while i < |values|
      invariant 0 <= i <= |values|
      invariant |labels| == i
      invariant forall k :: 0 <= k < i ==> labels[k] == DataLabel(k, values[k] + 2, IntToString(values[k]) + "%")
    {
      labels := labels + [DataLabel(i, values[i] + 2, IntToString(values[i]) + "%")];
      i := i + 1;
    }
    c := Chart(FallbackTitle(request), periods, values, labels);
  }

  // ---------------------------------------------------------------------
  // Running the code
  // ---------------------------------------------------------------------

  /** The file the generated code is told to write. */
  const OutputName := "output.png"

  /** The globals handed to `exec` by the local pipeline: everything, including `os` and `tempfile`. */
  function LocalNamespace(): Namespace {
    map[
      "__builtins__" := AllBuiltins,
      "matplotlib" := Module("matplotlib"),
      "plt" := Module("matplotlib.pyplot"),
      "pd" := Module("pandas"),
      "pandas" := Module("pandas"),
      "np" := Module("numpy"),
      "numpy" := Module("numpy"),
      "os" := Module("os"),
      "tempfile" := Module("tempfile")
    ]
  }

  /** The local pipeline's code sees the full builtins, the three libraries under two names each, and `os` and `tempfile`. */
  lemma LocalNamespaceShape()
    ensures LocalNamespace().Keys == {"__builtins__", "matplotlib", "plt", "pd", "pandas", "np", "numpy", "os", "tempfile"}
    ensures LocalNamespace()["__builtins__"] == AllBuiltins
    ensures LocalNamespace()["os"] == Module("os") && LocalNamespace()["tempfile"] == Module("tempfile")
  {
  }

  /** Whether the library calls around the generated code raise. */
  datatype Io = Io(
    copyTemp: Step,      // creating the permanent temp file for the copy
    copy: Step,          // copying output.png into it
    fallbackDraw: Step,  // drawing the fallback figure and creating its temp file
    fallbackSave: Step)  // saving the fallback figure into that file

  /** Everything outside the pipeline that its result depends on. */
  datatype World = World(llm: Llm, exec: Executor, io: Io)

  /** Executing the code counts: it finished, wrote output.png in its directory, and the copy went through. */
  predicate ExecSucceeds(out: ExecOutcome, io: Io) {
    out.raised.None? && OutputName in out.written && io.copyTemp.Ok? && io.copy.Ok?
  }

  const FatalPrefix := "Could not generate any graph: "

  /** The one error that leaves the pipeline, raised when even the fallback fails. */
  function FatalError(reason: string): (e: string)
    ensures StartsWith(e, FatalPrefix)
  {
    FatalPrefix + reason
  }

  predicate FallbackWrites(io: Io) {
    io.fallbackDraw.Ok? && io.fallbackSave.Ok?
  }

  function FallbackError(io: Io): (e: string)
    requires !FallbackWrites(io)
    ensures StartsWith(e, FatalPrefix)
  {
    FatalError(if io.fallbackDraw.Raises? then io.fallbackDraw.reason else io.fallbackSave.reason)
  }

  /**
   * `generate_fallback_graph`: draws the fallback figure and saves it to
   * a fresh temp file; any failure becomes the fatal error. A failure
   * while saving leaves the (empty) temp file behind.
   */
  method GenerateFallbackGraph(h: Host, request: string, io: Io) returns (r: Result<Path, string>)
    modifies h
    ensures h.cwd == old(h.cwd) && h.dirs == old(h.dirs)
    ensures old(h.files) <= h.files
    ensures forall f :: f in h.files - old(h.files) ==> TempEntry(f) && EndsWith(f, ".png")
    ensures io.fallbackDraw.Raises? ==> h.files == old(h.files)
    ensures r.Success? <==> FallbackWrites(io)
    ensures r.Success? ==> r.value !in old(h.files) && h.files == old(h.files) + {r.value}
    ensures r.Failure? ==> r.error == FallbackError(io)
  {
    var chart := DrawFallbackChart(request);
    if io.fallbackDraw.Raises? {
      return Failure(FatalError(io.fallbackDraw.reason));
    }
    var p := h.NewPngTempFile();
    if io.fallbackSave.Raises? {
      return Failure(FatalError(io.fallbackSave.reason));
    }
    r := Success(p);
  }

  lemma JoinInjective(d: Path, a: string, b: string)
    requires Join(d, a) == Join(d, b)
    ensures a == b
  {
    assert a == Join(d, a)[|d| + 1..];
  }

  /**
   * `execute_graph_code`: runs the code in a fresh temporary directory,
   * with the working directory moved there and moved back on every path;
   * if output.png appeared, it is copied to a permanent temp file whose
   * path is returned; otherwise, or on any exception, the fallback chart
   * is made. The temporary directory is removed with all it holds.
   */
  method ExecuteGraphCode(h: Host, code: Code, request: string, exec: Executor, io: Io) returns (r: Result<Path, string>)
    modifies h
    ensures h.cwd == old(h.cwd) && h.dirs == old(h.dirs)
    ensures old(h.files) <= h.files
    ensures forall f :: f in h.files - old(h.files) ==> TempEntry(f) && EndsWith(f, ".png")
    ensures r.Success? ==> r.value in h.files - old(h.files)
    ensures ExecSucceeds(exec(code, LocalNamespace()), io) ==>
      r.Success? && h.files == old(h.files) + {r.value}
    ensures !ExecSucceeds(exec(code, LocalNamespace()), io) ==>
      (r.Success? <==> FallbackWrites(io)) && (r.Failure? ==> r.error == FallbackError(io))
  {
    var d := h.NewTempDir();
    ghost var before := h.files;
    var ns := LocalNamespace();
    var original := h.cwd;
    h.Chdir(d);
    var out := exec(code, ns);
    h.AddFiles(Below(d, out.written));
    if out.chdir.Some? {
      h.Chdir(out.chdir.value);
    }
    assert Join(d, OutputName) !in before;
    assert Join(d, OutputName) in h.files <==> OutputName in out.written by {
      forall n | n in out.written && Join(d, n) == Join(d, OutputName) ensures n == OutputName {
        JoinInjective(d, n, OutputName);
      }
    }
    ghost var run := h.files;
    if out.raised.None? && Join(d, OutputName) in h.files && io.copyTemp.Ok? {
      var p := h.NewPngTempFile();
      if io.copy.Ok? {
        h.Chdir(original);
        TempEntriesAreSiblings(p, d);
        h.RemoveTree(d);
        assert h.files == before + {p};
        return Success(p);
      }
    }
    ghost var mid := h.files;
    assert forall f :: f in mid - run ==> TempEntry(f) && EndsWith(f, ".png");
    h.Chdir(original);
    r := GenerateFallbackGraph(h, request, io);
    ghost var last := h.files;
    h.RemoveTree(d);
    forall f | f in last - run ensures !Under(f, d) {
      TempEntriesAreSiblings(f, d);
    }
    assert h.files == before + (last - run);
  }

  // ---------------------------------------------------------------------
  // End to end
  // ---------------------------------------------------------------------

  /** How a request ends. */
  datatype Route = Executed | FellBack | GaveUp(error: string)

  /** The route a request takes through the pipeline. */
  function RouteOf(request: string, w: World): (route: Route)
    ensures route.GaveUp? ==> StartsWith(route.error, FatalPrefix)
  {
    var out := w.exec(GraphCode(request, w.llm), LocalNamespace());
    if ExecSucceeds(out, w.io) then Executed
    else if FallbackWrites(w.io) then FellBack
    else GaveUp(FallbackError(w.io))
  }

  /** Whenever the model gives no reply, the route does not depend on the request. */
  lemma RouteWithoutReply(r1: string, r2: string, llm1: Llm, llm2: Llm, exec: Executor, io: Io)
    requires !llm1(UserMessage(r1)).Replied? && !llm2(UserMessage(r2)).Replied?
    ensures RouteOf(r1, World(llm1, exec, io)) == RouteOf(r2, World(llm2, exec, io))
  {
    FallbackCodeIgnoresRequest(r1, r2, llm1, llm2);
  }

  /**
   * What a run of the pipeline leaves, given the route it took: only new
   * `.png` files directly in the temporary directory, among them the
   * chart whose path is returned; the fatal error exactly when the route
   * gave up; and just the chart when the generated code's own went through.
   */
  ghost predicate PipelineOutcome(before: set<Path>, after: set<Path>, r: Result<Path, string>, route: Route) {
    && before <= after
    && (forall f :: f in after - before ==> TempEntry(f) && EndsWith(f, ".png"))
    && (r.Success? ==> r.value in after - before)
    && (r.Failure? <==> route.GaveUp?)
    && (r.Failure? ==> r.error == route.error)
    && (route == Executed ==> after == before + {r.value})
  }

  /**
   * `generate_roi_graph`, corrected: the path of a chart, or the fatal
   * error; the working directory and the directories are as before.
   */
  method GenerateRoiGraph(h: Host, request: string, w: World) returns (r: Result<Path, string>)
    modifies h
    ensures h.cwd == old(h.cwd) && h.dirs == old(h.dirs)
    ensures PipelineOutcome(old(h.files), h.files, r, RouteOf(request, w))
  {
    var code := GraphCode(request, w.llm);
    r := ExecuteGraphCode(h, code, request, w.exec, w.io);
  }

  /**
   * `generate_roi_graph` as the source is written: a client that cannot be
   * constructed makes it fail with the client's own error before anything
   * is touched; otherwise it is the corrected pipeline.
   */
  method GenerateRoiGraphAsWritten(h: Host, request: string, w: World) returns (r: Result<Path, string>)
    modifies h
    ensures h.cwd == old(h.cwd) && h.dirs == old(h.dirs)
    ensures w.llm(UserMessage(request)).ClientUnavailable? ==>
      r == Failure(w.llm(UserMessage(request)).reason) && h.files == old(h.files)
    ensures !w.llm(UserMessage(request)).ClientUnavailable? ==>
      PipelineOutcome(old(h.files), h.files, r, RouteOf(request, w))
  {
    var code := GraphCodeAsWritten(request, w.llm);
    if code.Failure? {
      return Failure(code.error);
    }
    GraphCodeRepairsOnlyClientFailure(request, w.llm);
    r := ExecuteGraphCode(h, code.value, request, w.exec, w.io);
  }
}
