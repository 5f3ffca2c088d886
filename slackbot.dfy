/**
 * The Slack side of the bot: the `/roi` slash command, the events route
 * and the start-up check of the credentials. Slack itself is seen only
 * through the messages the bot sends and the outcome of the upload.
 */
module SlackBot {
  import opened Wrappers
  import opened Text
  import opened Runtime
  import opened Files
  import GraphGenerator

  // ---------------------------------------------------------------------
  // Start-up
  // ---------------------------------------------------------------------

  datatype Credentials = Credentials(botToken: string, signingSecret: string)

  const BotTokenRequired := "SLACK_BOT_TOKEN environment variable is required"
  const SigningSecretRequired := "SLACK_SIGNING_SECRET environment variable is required"

  /** An environment variable that is set to a non-empty value. */
  predicate Given(v: Option<string>) {
    v.Some? && v.value != ""
  }

  /**
   * The start-up check: both variables must be set and non-empty; the bot
   * token is checked first.
   */
  function Startup(botToken: Option<string>, signingSecret: Option<string>): (r: Result<Credentials, string>)
    ensures r.Success? <==> Given(botToken) && Given(signingSecret)
    ensures r.Success? ==> r.value == Credentials(botToken.value, signingSecret.value)
    ensures !Given(botToken) ==> r == Failure(BotTokenRequired)
    ensures Given(botToken) && !Given(signingSecret) ==> r == Failure(SigningSecretRequired)
  {
    if !Given(botToken) then Failure(BotTokenRequired)
    else if !Given(signingSecret) then Failure(SigningSecretRequired)
    else Success(Credentials(botToken.value, signingSecret.value))
  }

  /** Without a bot token, the signing secret makes no difference to the outcome. */
  lemma BotTokenCheckedFirst(botToken: Option<string>, s1: Option<string>, s2: Option<string>)
    requires !Given(botToken)
    ensures Startup(botToken, s1) == Startup(botToken, s2)
    ensures Startup(botToken, s1).Failure? && Startup(botToken, s1).error != SigningSecretRequired
  {
    assert |BotTokenRequired| != |SigningSecretRequired|;
  }

  // ---------------------------------------------------------------------
  // The /roi command
  // ---------------------------------------------------------------------

  /** The fields of the slash command the handler reads. */
  datatype Command = Command(text: string, channelId: string, userId: string)

  /** What the bot sends to Slack. */
  datatype Message =
    | Acked                                                       // the command's acknowledgement
    | Ephemeral(text: string)                                     // a reply only the user sees
    | FileUpload(channel: string, file: Path, title: string, comment: string)
    | ChannelPost(channel: string, text: string)

  /** The messages Slack has received from the bot, in order. */
  class Outbox {
    var sent: seq<Message>

    constructor ()
      ensures sent == []
    {
      sent := [];
    }

    method Send(m: Message)
      modifies this
      ensures sent == old(sent) + [m]
    {
      sent := sent + [m];
    }
  }

  const UsageText := "Please provide a description for your ROI graph!\nExample: `/roi VR training vs traditional training over 3 years`"

  const AckHead := "\U{1F3AF} Generating ROI graph for: *"
  const AckTail := "*\nThis may take 15-30 seconds..."

  /** The immediate reply to a request that is going to be drawn: the whole request, in bold, between fixed texts. */
  function AckText(text: string): (t: string)
    ensures StartsWith(t, AckHead) && EndsWith(t, AckTail)
    ensures |t| == |AckHead| + |text| + |AckTail| && t[|AckHead|..|t| - |AckTail|] == text
  {
    var t := AckHead + text + AckTail;
    assert t[|AckHead|..|t| - |AckTail|] == text;
    assert t[|t| - |AckTail|..] == AckTail;
    t
  }

  /** Text that is empty once its surrounding whitespace is removed. */
  predicate Blank(text: string) {
    Strip(text) == ""
  }

  /** Text is blank exactly when every character of it is whitespace. */
  lemma BlankIffAllSpace(text: string)
    ensures Blank(text) <==> forall k :: 0 <= k < |text| ==> IsSpace(text[k])
  {
  }

  const TitleLimit := 50
  const Ellipsis := "..."

  /** The upload's title: the first 50 characters of the request, marked when cut. */
  function UploadTitle(text: string): (t: string)
    ensures StartsWith(t, GraphGenerator.TitlePrefix)
    ensures |text| <= TitleLimit ==> t == GraphGenerator.TitlePrefix + text
    ensures |text| > TitleLimit ==>
      t == GraphGenerator.TitlePrefix + text[..TitleLimit] + Ellipsis
  {
    GraphGenerator.TitlePrefix + Take(text, TitleLimit) + (if |text| > TitleLimit then Ellipsis else "")
  }

  /** The upload's title is the fallback chart's title, with the ellipsis added when the request is cut. */
  lemma UploadTitleExtendsChartTitle(text: string)
    ensures UploadTitle(text) == GraphGenerator.FallbackTitle(text) + (if |text| > TitleLimit then Ellipsis else "")
    ensures |UploadTitle(text)| <= |GraphGenerator.TitlePrefix| + TitleLimit + |Ellipsis|
  {
  }

  const CommentHead := "\U{1F4CA} Here's your ROI analysis for: *"

  /** The comment posted with the chart: the whole request, in bold, behind a fixed text. */
  function UploadComment(text: string): (c: string)
    ensures StartsWith(c, CommentHead) && EndsWith(c, "*")
    ensures |c| == |CommentHead| + |text| + 1 && c[|CommentHead|..|c| - 1] == text
  {
    var c := CommentHead + text + "*";
    assert c[|CommentHead|..|c| - 1] == text;
    assert c[|c| - 1..] == "*";
    c
  }

  const NoticeHead := "\U{274C} Sorry, I couldn't generate that graph. Error: "
  const NoticeTail := "...\n\nTry rephrasing your request or contact support."
  const ErrorLimit := 200

  /**
   * The channel message for a failure: it embeds at most the first 200
   * characters of the error, followed by an ellipsis whether or not it was cut.
   */
  function ErrorNotice(error: string): (t: string)
    ensures StartsWith(t, NoticeHead) && EndsWith(t, NoticeTail)
    ensures |NoticeHead| + |NoticeTail| <= |t| <= |NoticeHead| + ErrorLimit + |NoticeTail|
    ensures StartsWith(error, t[|NoticeHead|..|t| - |NoticeTail|])
    ensures |error| <= ErrorLimit ==> t[|NoticeHead|..|t| - |NoticeTail|] == error
    ensures |error| > ErrorLimit ==> t[|NoticeHead|..|t| - |NoticeTail|] == error[..ErrorLimit]
  {
    var t := NoticeHead + Take(error, ErrorLimit) + NoticeTail;
    assert t[|NoticeHead|..|t| - |NoticeTail|] == Take(error, ErrorLimit);
    assert t[|t| - |NoticeTail|..] == NoticeTail;
    t
  }

  /**
   * The second half of `handle_roi_command`, once the generation is done:
   * uploads the chart and removes its file, or posts the error of the
   * generation or of the upload to the channel.
   */
  method Report(out: Outbox, h: Host, cmd: Command, r: Result<Path, string>, upload: Step)
    modifies out, h
    ensures h.cwd == old(h.cwd) && h.dirs == old(h.dirs)
    ensures |out.sent| == |old(out.sent)| + 1 && out.sent[..|old(out.sent)|] == old(out.sent)
    ensures r.Failure? ==>
      out.sent[|out.sent| - 1] == ChannelPost(cmd.channelId, ErrorNotice(r.error)) && h.files == old(h.files)
    ensures r.Success? && upload.Raises? ==>
      out.sent[|out.sent| - 1] == ChannelPost(cmd.channelId, ErrorNotice(upload.reason)) && h.files == old(h.files)
    ensures r.Success? && upload.Ok? ==>
      out.sent[|out.sent| - 1] == FileUpload(cmd.channelId, r.value, UploadTitle(cmd.text), UploadComment(cmd.text))
      && h.files == old(h.files) - {r.value}
  {
    if r.Failure? {
      out.Send(ChannelPost(cmd.channelId, ErrorNotice(r.error)));
      return;
    }
    if upload.Raises? {
      out.Send(ChannelPost(cmd.channelId, ErrorNotice(upload.reason)));
      return;
    }
    out.Send(FileUpload(cmd.channelId, r.value, UploadTitle(cmd.text), UploadComment(cmd.text)));
    if r.value in h.files {
      h.Remove(r.value);
    }
  }

  /** What `handle_roi_command` has sent and left behind for text that is not blank. */
  ghost predicate CommandHandled(sent: seq<Message>, before: set<Path>, after: set<Path>, cmd: Command,
                                 w: GraphGenerator.World, upload: Step)
  {
    var route := GraphGenerator.RouteOf(cmd.text, w);
    && |sent| == 2
    && var last := sent[1];
    && sent[0] == Ephemeral(AckText(cmd.text))
    && before <= after
    && (forall f :: f in after - before ==> TempEntry(f) && EndsWith(f, ".png"))
    && (route.GaveUp? ==> last == ChannelPost(cmd.channelId, ErrorNotice(route.error)))
    && (!route.GaveUp? && upload.Raises? ==> last == ChannelPost(cmd.channelId, ErrorNotice(upload.reason)))
    && (!route.GaveUp? && upload.Ok? ==>
      && last.FileUpload? && last.channel == cmd.channelId
      && last.title == UploadTitle(cmd.text) && last.comment == UploadComment(cmd.text)
      && last.file !in after && last.file !in before)
    && (route == GraphGenerator.Executed && upload.Ok? ==> after == before)
  }

  /**
   * `handle_roi_command` for text that is not blank: tells the user the
   * graph is on its way, generates it, and reports the outcome.
   */
  method GenerateAndReport(out: Outbox, h: Host, cmd: Command, w: GraphGenerator.World, upload: Step, ghost start: nat)
    requires start == |out.sent|
    modifies out, h
    ensures h.cwd == old(h.cwd) && h.dirs == old(h.dirs)
    ensures |out.sent| == start + 2 && out.sent[..start] == old(out.sent)
    ensures CommandHandled(out.sent[start..], old(h.files), h.files, cmd, w, upload)
  {
    out.Send(Ephemeral(AckText(cmd.text)));
    ghost var acked := out.sent;
    var r := GraphGenerator.GenerateRoiGraph(h, cmd.text, w);
    Report(out, h, cmd, r, upload);
    assert out.sent == acked + [out.sent[|out.sent| - 1]];
  }

  /**
   * `handle_roi_command`: acknowledges; rejects blank text with the usage
   * text and nothing else; otherwise tells the user the graph is on its
   * way, generates it, and reports the outcome.
   */
  method HandleRoiCommand(out: Outbox, h: Host, cmd: Command, w: GraphGenerator.World, upload: Step)
    modifies out, h
    ensures h.cwd == old(h.cwd) && h.dirs == old(h.dirs)
    ensures |out.sent| > |old(out.sent)| && out.sent[..|old(out.sent)|] == old(out.sent)
    ensures out.sent[|old(out.sent)|] == Acked
    ensures Blank(cmd.text) ==>
      out.sent == old(out.sent) + [Acked, Ephemeral(UsageText)] && h.files == old(h.files)
    ensures !Blank(cmd.text) ==>
      CommandHandled(out.sent[|old(out.sent)| + 1..], old(h.files), h.files, cmd, w, upload)
  {
    out.Send(Acked);
    if Blank(cmd.text) {
      out.Send(Ephemeral(UsageText));
      return;
    }
    ghost var acked := out.sent;
    GenerateAndReport(out, h, cmd, w, upload, |old(out.sent)| + 1);
    assert out.sent[..|acked|] == acked;
    assert out.sent[|old(out.sent)|] == acked[|old(out.sent)|];
    assert out.sent[..|old(out.sent)|] == acked[..|old(out.sent)|];
  }

  // ---------------------------------------------------------------------
  // The events route
  // ---------------------------------------------------------------------

  /** A response body: plain text, or the JSON object `{"error": ...}`. */
  datatype Body = Text(text: string) | ErrorJson(error: string)

  datatype HttpResponse = HttpResponse(status: int, body: Body)

  /** A request to `/slack/events`: a GET with its `challenge` argument, or a POST with its raw body. */
  datatype HttpRequest = Get(challenge: Option<string>) | Post(body: string)

  /** What Slack's request handler does with a POST. */
  datatype HandlerResult = Handled(response: HttpResponse) | HandlerRaised(reason: string)

  type Handler = string -> HandlerResult

  const EmptyBody := "Empty request body"

  /**
   * `slack_events`: a GET echoes a non-empty challenge or says OK; a POST
   * with an empty body is refused; any other POST goes to the handler,
   * whose exception becomes a 400 carrying its text.
   */
  function SlackEvents(req: HttpRequest, handler: Handler): (resp: HttpResponse)
    ensures req.Get? ==> resp.status == 200 && resp.body.Text?
    ensures req.Get? && Given(req.challenge) ==> resp.body == Text(req.challenge.value)
    ensures req.Get? && !Given(req.challenge) ==> resp.body == Text("OK")
    ensures req.Post? && req.body == "" ==> resp == HttpResponse(400, ErrorJson(EmptyBody))
    ensures req.Post? && req.body != "" && handler(req.body).Handled? ==> resp == handler(req.body).response
    ensures req.Post? && req.body != "" && handler(req.body).HandlerRaised? ==>
      resp == HttpResponse(400, ErrorJson(handler(req.body).reason))
  {
    match req
    case Get(challenge) => if Given(challenge) then HttpResponse(200, Text(challenge.value)) else HttpResponse(200, Text("OK"))
    case Post(body) =>
      if body == "" then HttpResponse(400, ErrorJson(EmptyBody))
      else match handler(body)
        case Handled(response) => response
        case HandlerRaised(reason) => HttpResponse(400, ErrorJson(reason))
  }

  /** Neither a GET nor an empty POST reaches the handler: any two handlers give the same response. */
  lemma HandlerNotConsulted(req: HttpRequest, h1: Handler, h2: Handler)
    requires req.Get? || req.body == ""
    ensures SlackEvents(req, h1) == SlackEvents(req, h2)
  {
  }

  /** The route answers 400 exactly for an empty POST, a handler exception, or a handler's own 400. */
  lemma BadRequestIff(req: HttpRequest, handler: Handler)
    ensures SlackEvents(req, handler).status == 400 <==>
      req.Post? && (req.body == "" || handler(req.body).HandlerRaised? || handler(req.body).response.status == 400)
  {
  }
}
