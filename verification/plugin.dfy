/** The DingTalk notification plugin's `post_process`: the send guards, the
    "git context" taken from the last stack frame, and the markdown alert it
    posts. The host objects (`group`, `event`, the option store) are plain
    input records; the HTTP POST itself is not modelled, only the request it
    would carry. */
module DingDing {
  import opened Wrappers
  import opened PyStr

  // ---------------------------------------------------------------------------
  // Inputs
  // ---------------------------------------------------------------------------

  /** The plugin options read from the host's option store; `None` is an unset option. */
  datatype Options = Options(
    accessToken: Option<string>,
    gitlabUrl: Option<string>,
    deployPath: Option<string>)

  /** One stack frame. An absent `abs_path` is `""`; an absent or null `in_app` is `false`;
      an absent `lineno` is `None`. */
  datatype Frame = Frame(absPath: string, lineno: Option<int>, inApp: bool)

  /** One entry of `exception.values`. A missing or empty `stacktrace` is `None`;
      a present one carries its `frames` list. */
  datatype ExceptionValue = ExceptionValue(stacktrace: Option<seq<Frame>>)

  /** The parts of the event payload the plugin reads. A missing
      `exception.values` is the empty sequence; a missing `event_id` is `""`. */
  datatype Event = Event(
    projectSlug: string,
    message: string,
    id: Option<int>,
    eventId: string,
    exceptionValues: seq<ExceptionValue>,
    extra: map<string, string>)

  /** The error group: its ignored state and its absolute URL in the tracker UI. */
  datatype Group = Group(ignored: bool, absoluteUrl: string)

  /** The exceptions `post_process` can raise from the modelled lines. */
  datatype Error =
    | EmptySeparator   // `str.split('')` raises ValueError
    | NoFrames         // `frames[-1]` on an empty list raises IndexError

  /** The webhook request: the URL and the JSON payload's fields. */
  datatype Message = Message(url: string, msgtype: string, title: string, text: string)

  /** Either nothing is sent or one message is posted. */
  datatype Outcome = Skipped | Send(msg: Message)

  const DingTalkApi: string := "https://oapi.dingtalk.com/robot/send?access_token="

  // ---------------------------------------------------------------------------
  // Guards
  // ---------------------------------------------------------------------------

  /** `bool(get_option('access_token'))`: set and non-empty, which is the
      token read through the `or ''` fallback being non-empty. */
  predicate IsConfigured(opts: Options)
    ensures IsConfigured(opts) <==> OptionText(opts.accessToken) != ""
  {
    opts.accessToken.Some? && opts.accessToken.value != ""
  }

  /** `get_option(name) or ''`. */
  function OptionText(o: Option<string>): (r: string)
    ensures o.Some? && o.value != "" ==> r == o.value
    ensures r == "" <==> o.None? || o.value == ""
  {
    o.GetOr("")
  }

  // ---------------------------------------------------------------------------
  // Git context
  // ---------------------------------------------------------------------------

  /** `extra.get(key, '').strip("'")`. */
  function ExtraText(extra: map<string, string>, key: string): (r: string)
    ensures r == [] || (r[0] != '\'' && r[|r| - 1] != '\'')
    ensures key in extra ==> r == Strip(extra[key], '\'')
    ensures key !in extra ==> r == ""
  {
    Strip(if key in extra then extra[key] else "", '\'')
  }

  /** `abs_path.replace('\\', '/')`: Windows separators become `/`, nothing else moves. */
  function NormalisePath(path: string): (r: string)
    ensures |r| == |path|
    ensures '\\' !in r
    ensures forall i :: 0 <= i < |path| && path[i] == '\\' ==> r[i] == '/'
    ensures forall i :: 0 <= i < |path| && path[i] != '\\' ==> r[i] == path[i]
  {
    ReplaceChar(path, '\\', '/')
  }

  /** `in_app or (deploy_path and abs_path.startswith(deploy_path))`, taken as
      a truth value. What the decision means for the split that follows it:
      a frame in-app without its own flag has a path that is `deploy_path`
      followed by exactly what `split(deploy_path, 1)[-1]` keeps, and with an
      empty `deploy_path` only the flag can make a frame in-app. */
  predicate InApp(flag: bool, deployPath: string, path: string)
    ensures !flag && InApp(flag, deployPath, path) ==>
              SplitOnceTail(path, deployPath).Some? && path == deployPath + SplitOnceTail(path, deployPath).value
    ensures deployPath == "" ==> (InApp(flag, deployPath, path) <==> flag)
  {
    if !flag && deployPath != "" && StartsWith(path, deployPath) then
      SplitOnceTailOfPrefix(path, deployPath);
      assert path == deployPath + path[|deployPath|..];
      true
    else
      flag || (deployPath != "" && StartsWith(path, deployPath))
  }

  /** `abs_path.split(deploy_path, 1)[-1].strip('/')`. */
  function RelativeFilename(path: string, deployPath: string): (r: Result<string, Error>)
    ensures r.Err? <==> deployPath == ""
    ensures r.Ok? ==> r.value == [] || (r.value[0] != '/' && r.value[|r.value| - 1] != '/')
    ensures deployPath != "" && StartsWith(path, deployPath) ==>
              r == Ok(Strip(path[|deployPath|..], '/'))
  {
    match SplitOnceTail(path, deployPath)
    case None => Err(EmptySeparator)
    case Some(filePath) => Ok(Strip(filePath, '/'))
  }

  /** `'%s' % lineno`: the line number in decimal, reading back as that number,
      or `None` when the frame has none. */
  function LinenoText(lineno: Option<int>): (r: string)
    ensures r != []
    ensures lineno.None? <==> r == "None"
    ensures lineno.Some? ==> IsCanonicalIntText(r) && ParseInt(r) == lineno.value
  {
    match lineno
    case None => "None"
    case Some(n) => IntToStringRoundTrip(n); IntToString(n)
  }

  /** `'%s/%s#L%s' % (gitlab_url.strip('/'), filename, lineno)`: the link reads
      back as the stripped GitLab URL, a `/`, the file name and `#L<lineno>`. */
  function SourceLink(gitlabUrl: string, filename: string, lineno: Option<int>): (r: string)
    ensures var base := Strip(gitlabUrl, '/');
            var anchor := "#L" + LinenoText(lineno);
            |r| == |base| + 1 + |filename| + |anchor|
            && r[..|base|] == base
            && r[|base|] == '/'
            && r[|base| + 1..|r| - |anchor|] == filename
            && r[|r| - |anchor|..] == anchor
  {
    var base := Strip(gitlabUrl, '/');
    var anchor := "#L" + LinenoText(lineno);
    var head := base + "/" + filename;
    var r := head + anchor;
    assert r[..|head|] == head && r[|head|..] == anchor;
    assert head[..|base|] == base && head[|base| + 1..] == filename;
    assert r[|base| + 1..|r| - |anchor|] == head[|base| + 1..];
    r
  }

  /** The suffix for an in-app frame: `'\n\n %s [gitlab](%s) %s'` around
      `'%s %s %s' % (git_msg, filename, lineno)`, the link and the rid. */
  function InAppSuffix(gitMsg: string, filename: string, lineno: string, link: string, rid: string): (r: string)
    ensures |r| == 3 + |gitMsg| + 1 + |filename| + 1 + |lineno| + 10 + |link| + 2 + |rid|
    ensures r[..3] == "\n\n "
    ensures r[|r| - |rid|..] == rid
  {
    var body := "\n\n " + gitMsg + " " + filename + " " + lineno + " [gitlab](" + link + ") ";
    assert (body + rid)[..3] == body[..3];
    assert (body + rid)[|body|..] == rid;
    body + rid
  }

  /** The git context of the one frame consulted: it fails, with the
      empty-separator error, exactly when the frame is in-app while
      `deploy_path` is empty; a frame that is not in-app gives the
      quote-stripped `git_msg`; an in-app one gives a suffix that opens with a
      blank line and ends with the quote-stripped `rid`. */
  function FrameContext(gitlabUrl: string, deployPath: string, frame: Frame, extra: map<string, string>)
    : (r: Result<string, Error>)
    ensures var inApp := InApp(frame.inApp, deployPath, NormalisePath(frame.absPath));
            r.Err? <==> inApp && deployPath == ""
    ensures r.Err? ==> r.error == EmptySeparator
    ensures !InApp(frame.inApp, deployPath, NormalisePath(frame.absPath)) ==> r == Ok(ExtraText(extra, "git_msg"))
    ensures var inApp := InApp(frame.inApp, deployPath, NormalisePath(frame.absPath));
            var rid := ExtraText(extra, "rid");
            inApp && r.Ok? ==>
              && |r.value| >= 3 + |rid|
              && r.value[..3] == "\n\n "
              && r.value[|r.value| - |rid|..] == rid
  {
    var gitMsg := ExtraText(extra, "git_msg");
    var rid := ExtraText(extra, "rid");
    var path := NormalisePath(frame.absPath);
    if !InApp(frame.inApp, deployPath, path) then Ok(gitMsg)
    else match RelativeFilename(path, deployPath)
      case Err(e) => Err(e)
      case Ok(filename) =>
        Ok(InAppSuffix(gitMsg, filename, LinenoText(frame.lineno), SourceLink(gitlabUrl, filename, frame.lineno), rid))
  }

  /** The event has a stacktrace on its last exception value. */
  predicate HasStack(event: Event) {
    event.exceptionValues != [] && event.exceptionValues[|event.exceptionValues| - 1].stacktrace.Some?
  }

  /** The frames of the last exception value's stacktrace. */
  function LastFrames(event: Event): seq<Frame>
    requires HasStack(event)
  {
    event.exceptionValues[|event.exceptionValues| - 1].stacktrace.value
  }

  /** The git context suffix appended to the alert: taken from the last frame
      of the last exception value only, `""` when there is no stacktrace. It
      fails with IndexError exactly when the frame list is empty, and with
      ValueError exactly when the last frame is flagged in-app while
      `deploy_path` is empty. */
  function GitContext(opts: Options, event: Event): (r: Result<string, Error>)
    ensures !HasStack(event) ==> r == Ok("")
    ensures r == Err(NoFrames) <==> HasStack(event) && LastFrames(event) == []
    ensures r == Err(EmptySeparator) <==>
              HasStack(event) && LastFrames(event) != []
              && LastFrames(event)[|LastFrames(event)| - 1].inApp && OptionText(opts.deployPath) == ""
  {
    var values := event.exceptionValues;
    if values == [] then Ok("")
    else match values[|values| - 1].stacktrace
      case None => Ok("")
      case Some(frames) =>
        if frames == [] then Err(NoFrames)
        else
          var deployPath := OptionText(opts.deployPath);
          var f := frames[|frames| - 1];
          assert LastFrames(event) == frames;
          assert deployPath == "" ==> (InApp(f.inApp, deployPath, NormalisePath(f.absPath)) <==> f.inApp);
          FrameContext(OptionText(opts.gitlabUrl), deployPath, f, event.extra)
  }

  // ---------------------------------------------------------------------------
  // The alert
  // ---------------------------------------------------------------------------

  /** `u"New alert from {}".format(slug)`: the fixed lead-in, then the slug. */
  function Title(slug: string): (r: string)
    ensures |r| == 15 + |slug|
    ensures r[..15] == "New alert from "
    ensures r[15..] == slug
  {
    "New alert from " + slug
  }

  /** `event.id or event.event_id or 'latest'`: a zero or missing id and an empty
      event id count as absent. */
  function EventRef(event: Event): (r: string)
    ensures r != []
    ensures event.id.Some? && event.id.value != 0 ==> r == IntToString(event.id.value)
    ensures (event.id.None? || event.id.value == 0) && event.eventId != "" ==> r == event.eventId
    ensures (event.id.None? || event.id.value == 0) && event.eventId == "" ==> r == "latest"
  {
    if event.id.Some? && event.id.value != 0 then IntToString(event.id.value)
    else if event.eventId != "" then event.eventId
    else "latest"
  }

  /** `'{}events/{}/'.format(group.get_absolute_url(), ref)`: the group URL,
      `events/`, the event reference and a closing `/`. */
  function SentryUrl(groupUrl: string, event: Event): (r: string)
    ensures |r| == |groupUrl| + 7 + |EventRef(event)| + 1
    ensures r[..|groupUrl|] == groupUrl
    ensures r[|groupUrl|..|groupUrl| + 7] == "events/"
    ensures r[|groupUrl| + 7..|r| - 1] == EventRef(event)
    ensures r[|r| - 1] == '/'
  {
    var head := groupUrl + "events/";
    var r := head + EventRef(event) + "/";
    assert r[..|head|] == head;
    assert head[..|groupUrl|] == groupUrl && head[|groupUrl|..] == "events/";
    r
  }

  /** The markdown text: `'#### {title} \n > {message} [sentry]({url}) {git_msg}'`.
      It reads back as the `#### ` heading with the title, the quoted message,
      the `[sentry](...)` link around the event URL, and the git context last. */
  function Body(title: string, message: string, sentryUrl: string, gitMsg: string): (r: string)
    ensures var quoted := "#### " + title + " \n > " + message;
            var link := " [sentry](" + sentryUrl + ") ";
            && |r| == |quoted| + |link| + |gitMsg|
            && r[..|quoted|] == quoted
            && r[|quoted|..|quoted| + |link|] == link
            && r[|r| - |gitMsg|..] == gitMsg
  {
    var quoted := "#### " + title + " \n > " + message;
    var link := " [sentry](" + sentryUrl + ") ";
    var r := "#### " + title + " \n > " + message + " [sentry](" + sentryUrl + ") " + gitMsg;
    assert r == quoted + link + gitMsg;
    assert r[..|quoted| + |link|] == quoted + link && r[|quoted| + |link|..] == gitMsg;
    assert (quoted + link)[..|quoted|] == quoted && (quoted + link)[|quoted|..] == link;
    r
  }

  /** `post_process` (and `notify_users`, which only calls it): skip when the
      access token is unset or empty or the group is ignored, otherwise build
      the message, unless a modelled line raises first. */
  function PostProcess(opts: Options, group: Group, event: Event): (r: Result<Outcome, Error>)
    ensures r == Ok(Skipped) <==> !IsConfigured(opts) || group.ignored
    ensures r.Err? <==> IsConfigured(opts) && !group.ignored && GitContext(opts, event).Err?
    ensures r.Err? ==> r.error == GitContext(opts, event).error
    ensures r.Ok? && r.value.Send? ==>
              && IsConfigured(opts) && !group.ignored
              && r.value.msg.url == DingTalkApi + opts.accessToken.value
              && r.value.msg.msgtype == "markdown"
              && r.value.msg.title == "New alert from " + event.projectSlug
              && GitContext(opts, event).Ok?
  {
    if !IsConfigured(opts) then Ok(Skipped)
    else if group.ignored then Ok(Skipped)
    else
      var title := Title(event.projectSlug);
      match GitContext(opts, event)
      case Err(e) => Err(e)
      case Ok(gitMsg) =>
        var text := Body(title, event.message, SentryUrl(group.absoluteUrl, event), gitMsg);
        Ok(Send(Message(DingTalkApi + opts.accessToken.value, "markdown", title, text)))
  }
}
