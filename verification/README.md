# DingTalk alert plugin — Dafny model

A model of the notification step of `sentry-mydingding`, an issue-tracker
plugin that forwards error-group alerts to a DingTalk chat robot. When the
tracker calls `notify_users`/`post_process` for an event, the plugin

1. does nothing unless the `access_token` option is set and non-empty and the
   group is not ignored;
2. looks at the last stack frame of the last exception value of the event,
   normalises its path (`\` becomes `/`), and decides whether the frame is
   in-app (its own `in_app` flag, or a non-empty `deploy_path` that prefixes
   the path);
3. for an in-app frame, cuts the path after the first occurrence of
   `deploy_path`, strips `/` from both ends to get a file name, and builds a
   GitLab link `<gitlab_url>/<file>#L<line>` and a "git context" suffix from
   it, the `git_msg` and `rid` extra fields and the line number;
4. builds the markdown alert `#### New alert from <slug> \n > <message>
   [sentry](<group url>events/<id>/) <suffix>` and posts it to
   `https://oapi.dingtalk.com/robot/send?access_token=<token>`.

The model is functional. The host's objects become input records
(`DingDing.Options`, `Group`, `Event`, `Frame`, `ExceptionValue`), the Python
string operations used are written out with their Python semantics in module
`PyStr` (`replace`, `startswith`, `split(sep, 1)[-1]`, `strip(c)`, `str(int)`),
and the exceptions the modelled lines can raise are `Err` results:
`NoFrames` for `frames[-1]` on an empty frame list and `EmptySeparator` for
`split('')` when a frame is flagged in-app while `deploy_path` is empty.
`DingDing.PostProcess` returns `Ok(Skipped)`, `Ok(Send(message))` with the
webhook URL and JSON fields, or that error.

Files:

- `wrappers.dfy` — `Option` and `Result`.
- `py_str.dfy` — module `PyStr`: the Python string operations and their
  characterisations (strip is the unique maximal trimming, `int(str(n)) == n`).
- `plugin.dfy` — module `DingDing`: the data model, the guards, the git
  context and the alert.
- `plugin_props.dfy` — module `DingDingProps`: error cases, the suffix in
  each case, that only the last frame is consulted, the alert layout, and
  worked examples.

Only the last frame of the last exception value is read; there is no frame
walk, blame lookup or contact list.

Only the frame path is normalised, not `deploy_path`. A `deploy_path` written
with `\` therefore never matches (`BackslashDeployPathNeverMatches`): such a
frame is in-app only by its own flag, and then the whole path, stripped of
`/`, becomes the file name (`InAppByFlagNoOccurrence`).

## Model

| member | source | states |
|---|---|---|
| PyStr.ReplaceChar | src/mysentry_dingding/plugin.py:79 | `replace` keeps the length, turns every `from` into `to` and leaves every other character at its position |
| PyStr.ReplaceCharRemoves | src/mysentry_dingding/plugin.py:79 | after replacing `\` by `/` no `\` is left |
| PyStr.ReplaceCharIdempotent | src/mysentry_dingding/plugin.py:79 | a property of `replace` (the source replaces once): a second pass over its result changes nothing, so an already normalised path is a fixed point |
| PyStr.FindFrom | src/mysentry_dingding/plugin.py:82 | the index found is an occurrence of the separator with no earlier one; none found means no occurrence at all |
| PyStr.SplitOnceTail | src/mysentry_dingding/plugin.py:82 | `split(sep, 1)[-1]` fails exactly for an empty separator; otherwise it is a suffix of the input that follows the first occurrence, or the whole input when there is none |
| PyStr.SplitOnceTailAtFirst | src/mysentry_dingding/plugin.py:82 | splitting once at the first occurrence of the separator keeps exactly what follows it |
| PyStr.SplitOnceTailOfPrefix | src/mysentry_dingding/plugin.py:80-82 | when the path starts with a non-empty separator the split removes exactly that prefix |
| PyStr.LeadCount | src/mysentry_dingding/plugin.py:83 | the count of leading strip characters: everything before it is the character, the next one is not |
| PyStr.TrimEnd | src/mysentry_dingding/plugin.py:83 | the end of the text once trailing strip characters are dropped: everything after it is the character, the last kept one is not |
| PyStr.Strip | src/mysentry_dingding/plugin.py:83 | `strip(c)` yields a contiguous slice of the input whose outside is all `c` and which neither starts nor ends with `c` |
| PyStr.StripCharacterisation | src/mysentry_dingding/plugin.py:83 | any slice with all-`c` outside and non-`c` ends is the stripped string, so strip is uniquely determined |
| PyStr.StripIdempotent | src/mysentry_dingding/plugin.py:83 | a property of `strip` (the source strips each value once): stripping its result again changes nothing |
| PyStr.NatToString | src/mysentry_dingding/plugin.py:84-85 | the decimal rendering of a line number is non-empty, all digits, without leading zeros |
| PyStr.NatToStringRoundTrip | src/mysentry_dingding/plugin.py:84-85 | reading the digits back gives the number |
| PyStr.IntToString | src/mysentry_dingding/plugin.py:84-85 | `str(n)` is non-empty, starts with `-` exactly for negative `n`, and has the canonical shape: digits with no leading zero and no `-0` |
| PyStr.DigitsRoundTrip | src/mysentry_dingding/plugin.py:84-85 | a digit string without a leading zero is the decimal rendering of the number it denotes |
| PyStr.ParseIntRoundTrip | src/mysentry_dingding/plugin.py:84-85 | `str(int(s)) == s` for every string of the canonical shape, so with `IntToStringRoundTrip` `str` is a bijection onto that shape |
| PyStr.IntToStringRoundTrip | src/mysentry_dingding/plugin.py:84-85 | `int(str(n)) == n` |
| PyStr.IntToStringInjective | src/mysentry_dingding/plugin.py:84-85 | different line numbers render differently |
| DingDing.IsConfigured | src/mysentry_dingding/plugin.py:36-40 | the plugin is configured exactly when the access token, read through the `or ''` fallback, is non-empty |
| DingDing.OptionText | src/mysentry_dingding/plugin.py:56-58 | `get_option(...) or ''` is `""` exactly when the option is unset or empty, otherwise its value |
| DingDing.ExtraText | src/mysentry_dingding/plugin.py:74-76 | a present extra field is its value with surrounding `'` stripped (so it never starts or ends with `'`), and a missing field is `""` |
| DingDing.NormalisePath | src/mysentry_dingding/plugin.py:78-79 | the normalised path has the same length, every `\` becomes `/`, no `\` is left, and every other character is unchanged in position |
| DingDing.InApp | src/mysentry_dingding/plugin.py:80-82 | a frame in-app without its own flag has a path that is `deploy_path` followed by exactly what `split(deploy_path, 1)[-1]` keeps; with an empty `deploy_path` only the flag makes a frame in-app |
| DingDing.RelativeFilename | src/mysentry_dingding/plugin.py:82-83 | the file name fails exactly for an empty `deploy_path`, never begins or ends with `/`, and for a prefixed path is the rest of the path stripped of `/` |
| DingDing.LinenoText | src/mysentry_dingding/plugin.py:77-85 | a present line number renders in the canonical shape of `str(n)` (optional `-`, digits, no leading zero) and reads back as `n`, which by `ParseIntRoundTrip` fixes the text; a missing one renders as `None`, and only then |
| DingDing.SourceLink | src/mysentry_dingding/plugin.py:84 | the link reads back as the `/`-stripped GitLab URL, a `/`, the file name and `#L<lineno>` |
| DingDing.InAppSuffix | src/mysentry_dingding/plugin.py:85-87 | the in-app suffix has the length of its parts plus the fixed text, opens with `\n\n ` and ends with the rid; `InAppSuffixExact` places the file, line and link in it |
| DingDing.FrameContext | src/mysentry_dingding/plugin.py:72-87 | the frame's context fails, with the empty-separator ValueError, exactly when the frame is in-app and `deploy_path` is empty; a frame that is not in-app gives the quote-stripped `git_msg`; an in-app one gives a suffix opening with `\n\n ` and ending with the quote-stripped rid |
| DingDing.GitContext | src/mysentry_dingding/plugin.py:62-87 | no stacktrace on the last exception value gives `""`; the context fails with IndexError exactly when its frame list is empty and with ValueError exactly when the last frame is flagged in-app while `deploy_path` is empty |
| DingDing.Title | src/mysentry_dingding/plugin.py:60 | the title is the fixed `New alert from ` followed by the project slug |
| DingDing.EventRef | src/mysentry_dingding/plugin.py:96 | the event reference is the non-zero id, else the non-empty event id, else `latest`; never empty |
| DingDing.SentryUrl | src/mysentry_dingding/plugin.py:96 | the event URL reads back as the group URL, `events/`, the event reference and a closing `/` |
| DingDing.Body | src/mysentry_dingding/plugin.py:93-97 | the alert text reads back as the `#### ` heading with title and quoted message, the `[sentry](...)` link around the event URL, and the git context last |
| DingDing.PostProcess | src/mysentry_dingding/plugin.py:36-100 | nothing is sent exactly when the token is unset or empty or the group is ignored; an error exactly when the git context fails; a sent message goes to the DingTalk URL with the token, has type `markdown` and title `New alert from <slug>` |
| DingDingProps.NoStackNoContext | src/mysentry_dingding/plugin.py:64-69 | no exception values, or no stacktrace on the last one, gives an empty suffix |
| DingDingProps.GitContextErrors | src/mysentry_dingding/plugin.py:70-82 | the git context fails exactly for an empty frame list (IndexError) or a flagged frame with empty `deploy_path` (ValueError) |
| DingDingProps.NotInAppContext | src/mysentry_dingding/plugin.py:72-81 | a frame that is not in-app contributes only the quote-stripped `git_msg` |
| DingDingProps.InAppSuffixExact | src/mysentry_dingding/plugin.py:80-87 | any in-app frame (by flag or by prefix) with `deploy_path` set yields `"\n\n " + git_msg + " " + file + " " + line + " [gitlab](" + link + ") " + rid`, the file being what `split(deploy_path, 1)[-1].strip('/')` gives |
| DingDingProps.InAppByPrefixSuffix | src/mysentry_dingding/plugin.py:80-87 | a frame in-app by prefix yields `"\n\n " + git_msg + " " + file + " " + line + " [gitlab](" + link + ") " + rid` with the file being the path after `deploy_path`, stripped of `/` |
| DingDingProps.InAppDecision | src/mysentry_dingding/plugin.py:80-87 | a frame that is not in-app yields the quote-stripped `git_msg`; an in-app frame yields a suffix starting `\n\n ` and ending in the rid when `deploy_path` is set, and the empty-separator error when it is not |
| DingDingProps.InAppSuffixShape | src/mysentry_dingding/plugin.py:85-87 | the in-app suffix starts with `\n\n ` and ends with the rid |
| DingDingProps.BackslashDeployPathNeverMatches | src/mysentry_dingding/plugin.py:79-80 | a `deploy_path` containing `\` never occurs in the normalised path, so it never makes a frame in-app |
| DingDingProps.LastFrameContext | src/mysentry_dingding/plugin.py:64-74 | with a non-empty frame list the suffix is the one built from the last frame of the last exception value |
| DingDingProps.InAppByFlagFilename | src/mysentry_dingding/plugin.py:80-83 | for a flagged frame the path is cut after the first occurrence of `deploy_path`, wherever it lies, then stripped of `/` |
| DingDingProps.InAppByFlagNoOccurrence | src/mysentry_dingding/plugin.py:80-83 | for a flagged frame whose path does not contain `deploy_path` the whole path, stripped of `/`, is the file name |
| DingDingProps.OnlyLastFrameMatters | src/mysentry_dingding/plugin.py:65-71 | earlier exception values and earlier frames do not affect the suffix |
| DingDingProps.AlertLayout | src/mysentry_dingding/plugin.py:93-97 | the alert text is `#### New alert from <slug> \n > <message> [sentry](<group url>events/<ref>/) ` followed by the git context suffix |
| DingDingProps.DeployPathExample | src/mysentry_dingding/plugin.py:82-83 | `/app/sdks/alipay.py` under `/app` has the file name `sdks/alipay.py` |
| DingDingProps.LeadingSlashExample | src/mysentry_dingding/plugin.py:83 | stripping `/` from `/sdks/alipay.py` gives `sdks/alipay.py` |
| DingDingProps.SourceLinkExample | src/mysentry_dingding/plugin.py:84 | the link for line 14 ends in `#L14`, whatever the GitLab URL and file |
| DingDingProps.WindowsPathExample | src/mysentry_dingding/plugin.py:79 | a backslash path is normalised to slashes |

## Left out

- The HTTP POST, JSON serialisation and UTF-8 encoding (plugin.py:101-105): network I/O; the model stops at the URL and payload fields.
- `get_group_data` (plugin.py:107-131): host plumbing with a database query and a feature-flag check from the host framework, which is not part of this model.
- The `gitlab_project_name` option and its `strip('/')` (plugin.py:57, 68): the value is never used.
- The `git_repo_url` extra field (plugin.py:75): it is overwritten before any use.
- Type errors from malformed payloads: a `None` `abs_path`, non-string `extra` values, a stacktrace without a `frames` key. Every such field is a well-typed value here.
- `get_option`, `group.is_ignored`, `group.get_absolute_url`, `event.*`: host APIs, taken as plain input fields.
- `forms.py` and `setup.py`: a declarative options form and packaging metadata, with no logic.
- Blame resolution and contact-list parsing: not present in this code.
- Python 2 byte/unicode string distinctions: strings are sequences of characters.
