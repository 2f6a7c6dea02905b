/** Properties of the DingTalk plugin model: which inputs produce an error,
    what the git context is in each case, that only the last frame matters,
    and the layout of the alert text. */
module DingDingProps {
  import opened Wrappers
  import opened PyStr
  import opened DingDing

  /** No exception values, or no stacktrace on the last one: the suffix is
      empty. This restates the first clause of `GitContext`'s contract. */
  lemma NoStackNoContext(opts: Options, event: Event)
    requires !HasStack(event)
    ensures GitContext(opts, event) == Ok("")
  {
  }

  /** The git context fails exactly when the frame list is empty (`frames[-1]`)
      or the frame's own `in_app` flag is set while `deploy_path` is empty
      (`split('')`); the first is an IndexError, the second a ValueError.
      This restates `GitContext`'s error clauses, together with their union. */
  lemma GitContextErrors(opts: Options, event: Event)
    ensures GitContext(opts, event).Err? <==>
              HasStack(event)
              && (LastFrames(event) == []
                  || (LastFrames(event)[|LastFrames(event)| - 1].inApp && OptionText(opts.deployPath) == ""))
    ensures GitContext(opts, event) == Err(NoFrames) <==> HasStack(event) && LastFrames(event) == []
    ensures GitContext(opts, event) == Err(EmptySeparator) <==>
              HasStack(event) && LastFrames(event) != []
              && LastFrames(event)[|LastFrames(event)| - 1].inApp && OptionText(opts.deployPath) == ""
  {
  }

  /** A frame that is not in-app contributes only the quote-stripped `git_msg`. */
  lemma NotInAppContext(opts: Options, event: Event)
    requires HasStack(event) && LastFrames(event) != []
    requires var f := LastFrames(event)[|LastFrames(event)| - 1];
             !InApp(f.inApp, OptionText(opts.deployPath), NormalisePath(f.absPath))
    ensures GitContext(opts, event) == Ok(ExtraText(event.extra, "git_msg"))
  {
    LastFrameContext(opts, event);
  }

  /** The suffix built from any in-app frame (by its own flag or by prefix)
      when `deploy_path` is set: the quote-stripped `git_msg`, the file name
      `RelativeFilename` gives, the line, the GitLab link to that file and
      line, and the quote-stripped `rid`. `InAppByFlagFilename`,
      `InAppByFlagNoOccurrence` and `RelativeFilename`'s contract fix the file
      name in each case. */
  lemma InAppSuffixExact(gitlabUrl: string, deploy: string, f: Frame, extra: map<string, string>)
    requires deploy != "" && InApp(f.inApp, deploy, NormalisePath(f.absPath))
    ensures RelativeFilename(NormalisePath(f.absPath), deploy).Ok?
    ensures var filename := RelativeFilename(NormalisePath(f.absPath), deploy).value;
            var line := LinenoText(f.lineno);
            var link := SourceLink(gitlabUrl, filename, f.lineno);
            FrameContext(gitlabUrl, deploy, f, extra)
              == Ok("\n\n " + ExtraText(extra, "git_msg") + " " + filename + " " + line
                    + " [gitlab](" + link + ") " + ExtraText(extra, "rid"))
  {
    var path := NormalisePath(f.absPath);
    var filename := RelativeFilename(path, deploy).value;
    assert FrameContext(gitlabUrl, deploy, f, extra)
        == Ok(InAppSuffix(ExtraText(extra, "git_msg"), filename, LinenoText(f.lineno),
                          SourceLink(gitlabUrl, filename, f.lineno), ExtraText(extra, "rid")));
  }

  /** The suffix built from one frame that is in-app because its normalised
      path starts with `deploy_path`: the file name is the rest of the path
      with every leading and trailing `/` removed, and the suffix is the
      quote-stripped `git_msg`, file name and line, the GitLab link to that
      file and line, and the quote-stripped `rid`. A corollary of
      `InAppSuffixExact` and the prefix clause of `RelativeFilename`'s
      contract, stated with the file name written out. */
  lemma InAppByPrefixSuffix(gitlabUrl: string, deploy: string, f: Frame, extra: map<string, string>)
    requires deploy != "" && StartsWith(NormalisePath(f.absPath), deploy)
    ensures var filename := Strip(NormalisePath(f.absPath)[|deploy|..], '/');
            var line := LinenoText(f.lineno);
            var link := SourceLink(gitlabUrl, filename, f.lineno);
            FrameContext(gitlabUrl, deploy, f, extra)
              == Ok("\n\n " + ExtraText(extra, "git_msg") + " " + filename + " " + line
                    + " [gitlab](" + link + ") " + ExtraText(extra, "rid"))
  {
    var path := NormalisePath(f.absPath);
    assert InApp(f.inApp, deploy, path);
    assert RelativeFilename(path, deploy) == Ok(Strip(path[|deploy|..], '/'));
    InAppSuffixExact(gitlabUrl, deploy, f, extra);
  }

  /** The suffix of an event is the one built from the last frame of its
      last exception value. */
  lemma LastFrameContext(opts: Options, event: Event)
    requires HasStack(event) && LastFrames(event) != []
    ensures GitContext(opts, event)
         == FrameContext(OptionText(opts.gitlabUrl), OptionText(opts.deployPath),
                         LastFrames(event)[|LastFrames(event)| - 1], event.extra)
  {
  }

  /** A frame in-app by its flag with a non-empty `deploy_path` that occurs
      in the path: the path is cut after the FIRST occurrence, wherever it
      lies, and then stripped of `/`. */
  lemma InAppByFlagFilename(path: string, deploy: string, i: nat)
    requires deploy != "" && OccursAt(path, deploy, i)
    requires forall j :: 0 <= j < i ==> !OccursAt(path, deploy, j)
    ensures RelativeFilename(path, deploy) == Ok(Strip(path[i + |deploy|..], '/'))
  {
    SplitOnceTailAtFirst(path, deploy, i);
  }

  /** A frame in-app by its flag whose path does not contain `deploy_path`:
      the whole path, stripped of `/`, is the file name. */
  lemma InAppByFlagNoOccurrence(path: string, deploy: string)
    requires deploy != ""
    requires forall j :: 0 <= j <= |path| ==> !OccursAt(path, deploy, j)
    ensures RelativeFilename(path, deploy) == Ok(Strip(path, '/'))
  {
  }

  /** The in-app decision for the one frame consulted: a frame that is not
      in-app yields the quote-stripped `git_msg`; an in-app frame yields the
      `\n\n `-led suffix ending in the quote-stripped `rid` when `deploy_path`
      is set, and the empty-separator error when it is not. This restates
      `FrameContext`'s contract case by case. */
  lemma InAppDecision(gitlabUrl: string, deploy: string, f: Frame, extra: map<string, string>)
    ensures var inApp := InApp(f.inApp, deploy, NormalisePath(f.absPath));
            !inApp ==> FrameContext(gitlabUrl, deploy, f, extra) == Ok(ExtraText(extra, "git_msg"))
    ensures var inApp := InApp(f.inApp, deploy, NormalisePath(f.absPath));
            inApp && deploy == "" ==> FrameContext(gitlabUrl, deploy, f, extra) == Err(EmptySeparator)
    ensures var inApp := InApp(f.inApp, deploy, NormalisePath(f.absPath));
            var r := FrameContext(gitlabUrl, deploy, f, extra);
            var rid := ExtraText(extra, "rid");
            inApp && deploy != "" ==>
              r.Ok? && StartsWith(r.value, "\n\n ") && |rid| <= |r.value| && r.value[|r.value| - |rid|..] == rid
  {
    var path := NormalisePath(f.absPath);
    if InApp(f.inApp, deploy, path) && deploy != "" {
      var filename := RelativeFilename(path, deploy).value;
      var gitMsg := ExtraText(extra, "git_msg");
      var rid := ExtraText(extra, "rid");
      var ln := LinenoText(f.lineno);
      var link := SourceLink(gitlabUrl, filename, f.lineno);
      assert FrameContext(gitlabUrl, deploy, f, extra) == Ok(InAppSuffix(gitMsg, filename, ln, link, rid));
      InAppSuffixShape(gitMsg, filename, ln, link, rid);
    }
  }

  /** The in-app suffix starts with a blank line and a space and ends with
      the rid. This restates part of `InAppSuffix`'s contract. */
  lemma InAppSuffixShape(gitMsg: string, filename: string, lineno: string, link: string, rid: string)
    ensures var r := InAppSuffix(gitMsg, filename, lineno, link, rid);
            StartsWith(r, "\n\n ") && |rid| <= |r| && r[|r| - |rid|..] == rid
  {
    var body := "\n\n " + gitMsg + " " + filename + " " + lineno + " [gitlab](" + link + ") ";
    assert InAppSuffix(gitMsg, filename, lineno, link, rid) == body + rid;
    assert (body + rid)[..3] == body[..3] == "\n\n ";
    assert (body + rid)[|body|..] == rid;
  }

  /** `deploy_path` is compared with the NORMALISED frame path but is not
      normalised itself: a `deploy_path` written with `\` never occurs in the
      path, so it never makes a frame in-app. */
  lemma BackslashDeployPathNeverMatches(absPath: string, deploy: string)
    requires '\\' in deploy
    ensures forall j :: 0 <= j <= |absPath| ==> !OccursAt(NormalisePath(absPath), deploy, j)
    ensures !StartsWith(NormalisePath(absPath), deploy)
  {
    var r := NormalisePath(absPath);
    var k :| 0 <= k < |deploy| && deploy[k] == '\\';
    forall j | 0 <= j <= |r|
      ensures !OccursAt(r, deploy, j)
    {
      if j + |deploy| <= |r| {
        assert r[j..j + |deploy|][k] == r[j + k];
        assert r[j + k] in r;
      }
    }
    assert !OccursAt(r, deploy, 0);
  }

  /** Only the last frame of the last exception value is consulted: earlier
      exception values and earlier frames can be anything. */
  lemma OnlyLastFrameMatters(opts: Options, event: Event, earlier: seq<ExceptionValue>, before: seq<Frame>, f: Frame)
    ensures GitContext(opts, event.(exceptionValues := earlier + [ExceptionValue(Some(before + [f]))]))
         == GitContext(opts, event.(exceptionValues := [ExceptionValue(Some([f]))]))
  {
    var e1 := event.(exceptionValues := earlier + [ExceptionValue(Some(before + [f]))]);
    assert e1.exceptionValues[|e1.exceptionValues| - 1] == ExceptionValue(Some(before + [f]));
  }

  /** The alert text is the header with the title, the quoted message, the
      link to the event in the tracker, and then the git context suffix. */
  lemma AlertLayout(opts: Options, group: Group, event: Event)
    requires PostProcess(opts, group, event).Ok? && PostProcess(opts, group, event).value.Send?
    ensures var text := PostProcess(opts, group, event).value.msg.text;
            var title := "New alert from " + event.projectSlug;
            var eventUrl := group.absoluteUrl + "events/" + EventRef(event) + "/";
            var suffix := GitContext(opts, event).value;
            text == "#### " + title + " \n > " + event.message + " [sentry](" + eventUrl + ") " + suffix
  {
    var gc := GitContext(opts, event);
    assert gc.Ok?;
    assert PostProcess(opts, group, event).value.msg.text
        == Body(Title(event.projectSlug), event.message, SentryUrl(group.absoluteUrl, event), gc.value);
  }

  /** The example of a deployment under `/app`: the frame
      `/app/sdks/alipay.py` has the file name `sdks/alipay.py`. */
  lemma DeployPathExample()
    ensures RelativeFilename("/app/sdks/alipay.py", "/app") == Ok("sdks/alipay.py")
  {
    var path := "/app/sdks/alipay.py";
    assert path[..4] == "/app";
    SplitOnceTailOfPrefix(path, "/app");
    assert path[4..] == "/sdks/alipay.py";
    LeadingSlashExample();
  }

  /** Stripping `/` from `/sdks/alipay.py` drops the leading separator only. */
  lemma LeadingSlashExample()
    ensures Strip("/sdks/alipay.py", '/') == "sdks/alipay.py"
  {
    var tail := "/sdks/alipay.py";
    StripCharacterisation(tail, '/', 1, |tail|);
    assert tail[1..|tail|] == "sdks/alipay.py";
  }

  /** Line 14 of a file links to an anchor `#L14`, whatever the GitLab URL. */
  lemma SourceLinkExample(gitlabUrl: string, filename: string)
    ensures var link := SourceLink(gitlabUrl, filename, Some(14));
            4 <= |link| && link[|link| - 4..] == "#L14"
  {
    assert NatToString(1) == "1";
    assert NatToString(14) == "14";
  }

  /** A Windows path is normalised before the prefix test. */
  lemma WindowsPathExample()
    ensures NormalisePath("\\app\\x.py") == "/app/x.py"
  {
  }
}
