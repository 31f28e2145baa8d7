# link-navi in Dafny

link-navi is a Reddit (Devvit) moderation app. When a post is created, it
checks the post against a whitelist and/or a blacklist of criteria. These
are title and body patterns, a link in the body, a minimum body length,
post flairs and user flairs. Removed posts are set aside as the ignore
preference says.

For a post that matches, the app can remind the author to update the post
or to answer in a comment. The reminder is either posted at once or
queued as a `reminder` job, and it may be removed later by a
`reminder-removal` job. The app can also queue an `action` job. When the
awaited reply is still missing at that point, the job sets a flair,
removes the post (with a removal reason, a note and a comment or modmail
notice) or reports it.

This project models that decision logic in Dafny and proves what it
promises:

- **Strings** (`strings.dfy`): the JavaScript string builtins the app
  relies on, written out. This covers `split`/`join`, global literal
  replacement, `includes`, `startsWith`, `trim`, `toLowerCase` and
  `length`, which counts UTF-16 code units.
- **Helpers** (`helpers.dfy`, `src/list_check/helpers.tsx`):
  - the post snapshot and `getPostParams`;
  - `containsLink`, written as a string predicate;
  - the pre-order flattening of the reply tree. `fetchCommentsRecursive`
    pushes onto a shared `CommentList` object, and `fetchAllComments`
    calls it.
- **Getters** (`getters.dfy`, `src/settings/getters.tsx`): raw setting
  values and the JavaScript coercions applied to them (`String(x)`,
  `Boolean(x)`, `x || default`, `parseInt(x) || default`). It also covers
  the list pipelines (split, trim, lowercase, drop empties) and every
  getter.
- **Validation** (`validation.dfy`, `src/settings/settings.tsx`): the
  comma-list and semicolon-list grammars and the numeric `onValidate`
  rules.
- **ListCheck** (`listcheck.dfy`, `src/list_check/list_check.tsx`):
  - the eight criteria of `checkPostParams`;
  - the removal gate and list-preference dispatch of `checkPost`;
  - the comment scan `checkComments`, as a loop with early return.
- **MessageFormat** (`format.dfy`): `formatMessage` and `formatMail`.
- **Effects** (`effects.dfy`): the platform as a `Platform` object. It
  holds a log of Reddit API calls (`effects`) and a queue of scheduled
  jobs (`jobs`) that the handlers append to.
- **Reminder** (`reminder.dfy`, `src/actions/reminder.tsx`): `sendReminder`.
- **Action** (`action.dfy`, `src/actions/action.tsx`): `executeAction`.
- **Handlers** (`handlers.dfy`, `src/main.tsx`): the PostCreate trigger
  and the `reminder`, `reminder-removal` and `action` jobs.

### How each imperative handler is specified

Each imperative handler is a method on the `Platform`. Its postcondition
says that the log and the queue grow by exactly the outcome of a
specification function. Those functions are `ReminderOutcome`,
`ActionEffects`, `ReminderPart` / `ActionPart`, `ReminderJobOutcome` and
`RemovalEffectsFor`. The lemmas beside each function then prove what the
source promises about that outcome.

### What the handlers take as inputs

The following are inputs, not fetched by the model:

- the post and comment the platform returns for an id;
- the reply forest of a post;
- the ids the platform gives a new comment or modmail conversation.

These arrive in an `Env` or as parameters: settings, the app's name, the
clock (integer minutes), the random draw, the current community, the
author's flair, the host name of the post's URL, the flair templates and
the removal reasons.

### Coercions the code performs

The model follows the code where its coercions matter:

- An unset text setting is stringified to `"undefined"`. So an unset list
  setting reads as the one entry `"undefined"` (`UnsetListReadsUndefined`),
  and an unset reminder message reads as the text "undefined".
- Only the first selected ignore choice counts, and it is then tested by
  substring (`OnlyFirstIgnoreChoiceCounts`).
- The post's author is identified by account id, not by name.
- A body length of 0 means "no length criterion".

## Model

| member | source | states |
|---|---|---|
| Strings.Split | src/settings/getters.tsx:49 | `split`: at least one piece, no piece contains the separator, and joining the pieces with the separator gives the string back |
| Strings.SplitJoin | src/settings/getters.tsx:49 | splitting on one character undoes joining with it when no piece contains that character |
| Strings.Trim | src/settings/getters.tsx:50 | `trim`: the result is the slice of the string left after removing whitespace at its two ends only, with no whitespace at either end; a trimmed string is kept, and the result is empty exactly when the string is all whitespace |
| Strings.TrimOfIsUnique | src/settings/getters.tsx:50 | only one trimmed slice has nothing but whitespace around it, so the contract of `trim` fixes its result |
| Strings.ToLower | src/settings/getters.tsx:50 | `toLowerCase`: the same length, each character lowered on its own (ASCII letters folded) |
| Strings.ToLowerProperties | src/settings/getters.tsx:50 | lowering is idempotent and keeps a trimmed string trimmed |
| Strings.Utf16Length | src/list_check/list_check.tsx:51 | `length`: the number of characters plus the number of positions holding a character above U+FFFF; hence between the number of characters and twice it, zero only for "", and equal to the number of characters when all lie below U+10000 |
| Helpers.GetPostParams | src/list_check/helpers.tsx:6-16 | id and title are copied; a missing body, flair text, flair template id or user flair becomes "", a present one is kept |
| Helpers.ContainsLink | src/list_check/helpers.tsx:21-24 | true exactly when some position starts "http://" or "https://" followed by a non-whitespace character |
| Helpers.NoSchemeNoLink | src/list_check/helpers.tsx:21-24 | text in which neither scheme occurs (the empty string included) holds no link |
| Helpers.LinkSurvivesContext | src/list_check/helpers.tsx:22-23 | the pattern is unanchored: text before and after a link never hides it |
| Helpers.FetchCommentsRecursive | src/list_check/helpers.tsx:29-34 | the shared list grows by exactly the thread in pre-order: the comment, then each reply's thread in turn |
| Helpers.FetchAllComments | src/list_check/helpers.tsx:39-45 | the result is the pre-order flattening of the whole reply forest, threads in order |
| Helpers.CommentList.Push | src/list_check/helpers.tsx:30 | the pushed comment is appended at the end and nothing else changes |
| Helpers.PreorderLength | src/list_check/helpers.tsx:29-34 | a thread's flattening has exactly one entry per comment of the thread |
| Helpers.PreorderForestLength | src/list_check/helpers.tsx:39-45 | the flattened forest has exactly one entry per comment of the forest |
| Helpers.ThreadIsContiguous | src/list_check/helpers.tsx:30-32 | every thread anywhere in the forest appears as one contiguous block that starts with its own comment, so a comment precedes all its replies |
| Helpers.TopLevelOrder | src/list_check/helpers.tsx:41-43 | top-level comments start their blocks and keep their original order |
| Helpers.PreorderForestEntries | src/list_check/helpers.tsx:29-45 | every entry of the output is the comment of some thread of the forest: nothing is invented |
| Getters.Stringify | src/settings/getters.tsx:47 | `String(v)`: text is kept, an unset value becomes "undefined", a selection its comma-joined items |
| Getters.StringOr | src/settings/getters.tsx:184-189 | `String(v) \|\| fallback`: the fallback replaces only the empty string, so an unset value gives "undefined" |
| Getters.NumberOr | src/settings/getters.tsx:169-170 | `n \|\| fallback`: 0 and NaN give the fallback, any other number is kept |
| Getters.FirstSelected | src/settings/getters.tsx:8-9 | falsy gives the fallback; an array gives its first element ("undefined" when empty); a scalar gives its string |
| Getters.GetListPreference | src/settings/getters.tsx:7-10 | "none" when the list preference is unset or falsy; the first selected item when it is a non-empty selection |
| Getters.GetIgnorePreference | src/settings/getters.tsx:15-18 | "both" when the ignore preference is unset or falsy; the first selected item when it is a non-empty selection |
| Getters.GetCommentIgnorePreference | src/settings/getters.tsx:23-26 | "both" when the comment ignore preference is unset or falsy; the first selected item when it is a non-empty selection |
| Getters.Clean | src/settings/getters.tsx:50 | a cleaned piece is the trimmed piece, lowercased when asked; so it is trimmed, lowercase when asked, empty exactly when the piece is all whitespace, and a clean piece is kept as it is |
| Getters.CleanEntries | src/settings/getters.tsx:49-51 | the cleaned list is no longer than the pieces, and every entry is non-empty, trimmed and (for text lists) lowercase |
| Getters.CleanEntriesComeFromPieces | src/settings/getters.tsx:47-51 | every entry of the cleaned list is the cleaned form of some piece |
| Getters.CleanEntriesKeepPieces | src/settings/getters.tsx:47-51 | every piece that is not blank after cleaning appears in the list |
| Getters.ParseList | src/settings/getters.tsx:47-66 | the parsed list has no empty entry, every entry equals its own trim, text lists are lowercase, and "" parses to the empty list |
| Getters.CleanEntriesKeepsClean | src/settings/getters.tsx:50-51 | a list already in clean form passes through the map and filter unchanged |
| Getters.ParseListOfJoin | src/settings/getters.tsx:47-66 | round trip: clean entries free of the separator are parsed back from their join |
| Getters.UnsetListReadsUndefined | src/settings/getters.tsx:47 | an unset list setting is stringified to "undefined" and so reads as the one entry "undefined" |
| Getters.GetListSettings | src/settings/getters.tsx:31-110 | each pattern is absent exactly when its raw value is falsy, otherwise its stringified source with flags "i" exactly when its case box is falsy; link box by truthiness; body length `Number(x) \|\| 0`; each flair list is its setting split on ",", trimmed, empties dropped, the two text lists lowercased and the two id lists with their case kept |
| Getters.GetCommentSettings | src/settings/getters.tsx:115-149 | with accept-any-comment set, no pattern and no link requirement whatever the other settings; otherwise both as configured; the ignore list is the "comment-user-ignore" setting split on ",", trimmed, lowercased, empties dropped |
| Getters.CleanEntriesAreTrimmedPieces | src/settings/getters.tsx:159-161 | without lowercasing, the cleaned list holds exactly the trimmed pieces that are not blank: every entry is the trim of a piece, and every piece not blank once trimmed is an entry |
| Getters.RandomPool | src/settings/getters.tsx:157-161 | the `{{random}}` values are non-empty and trimmed; each is the trim of a piece of the setting split on ";" (case kept), and every such piece not blank once trimmed is among them |
| Getters.ReminderMessage | src/settings/getters.tsx:162 | the message is empty exactly when the raw message is; otherwise it ends with the footer naming the community |
| Getters.GetReminderSettings | src/settings/getters.tsx:155-174 | enabled by truthiness; delay defaults to 5 and removal delay to 0 (for 0 and NaN); the delay is never 0; the message is the raw message formatted with the `{{random}}` pool (so it ends with the footer), or "" exactly when the raw one stringifies to ""; options from the selection |
| Getters.GetActionSettings | src/settings/getters.tsx:179-193 | delay defaults to 10 and is never 0; the notification is the stringified setting, or "do_nothing" when that is ""; the action, report reason, flair template id and removal reason are the stringified settings; archive by truthiness |
| Validation.MatchesIffNoEmptyPiece | src/settings/settings.tsx:381 | the list grammar `^[^c]+(c[^c]+)*$` holds exactly for non-empty strings whose split on c has no empty piece |
| Validation.ValidateCommaSeparatedList | src/settings/settings.tsx:378-384 | undefined and "" are accepted; any other value is accepted iff splitting on "," leaves no empty piece (no leading, trailing or doubled comma); the only error is the list message |
| Validation.ValidateRandomValues | src/settings/settings.tsx:267-271 | the same rule for ";" with the semicolon message |
| Validation.ValidateWhitelistBodyLength | src/settings/settings.tsx:63-67 | accepted iff unset or not negative |
| Validation.ValidateBlacklistBodyLength | src/settings/settings.tsx:129-133 | accepted iff unset or not negative (bound 1, but 0 is falsy) |
| Validation.ValidateReminderDelay | src/settings/settings.tsx:239-243 | accepted iff unset or not negative: a delay of 0 passes |
| Validation.ValidateReminderRemoveDelay | src/settings/settings.tsx:249-253 | accepted iff unset or not negative |
| Validation.ValidateActionDelay | src/settings/settings.tsx:307-311 | accepted iff unset or not negative: a delay of 0 passes |
| ListCheck.AllPassMeansEveryHolds | src/list_check/list_check.tsx:68-70 | with unset criteria passing, the AND of the eight passes says every configured criterion holds |
| ListCheck.AnyPassMeansSomeHolds | src/list_check/list_check.tsx:71-72 | with unset criteria failing, the OR of the eight passes says some configured criterion holds |
| ListCheck.CheckPostParams | src/list_check/list_check.tsx:16-73 | under "whitelist", true iff every configured criterion holds; under any other preference, true iff no configured criterion holds (the body length counted in UTF-16 code units) |
| ListCheck.BodyLengthInCodeUnits | src/list_check/list_check.tsx:50-51 | a configured minimum body length, counted in UTF-16 code units, rejects a shorter body under the whitelist and a body reaching it under the blacklist; one character above U+FFFF counts 2 |
| ListCheck.EmptyListMatchesEverything | src/list_check/list_check.tsx:39-72 | with every criterion unset the result is true under either polarity |
| ListCheck.FlairTextCaseInsensitive | src/list_check/list_check.tsx:54-61 | changing the case of the post's flair texts never changes the result |
| ListCheck.FlairIdsCompareExactly | src/list_check/list_check.tsx:56-64 | with a post flair or user flair id list configured, the whitelist rejects every post whose id is not literally listed (one differing only in case included); the blacklist rejects a post whose id is listed |
| ListCheck.FlairIdCaseSensitive | src/list_check/list_check.tsx:57 | flair ids compare exactly: "abc" does not match a whitelisted "ABC", "ABC" does |
| ListCheck.PostGate | src/list_check/list_check.tsx:82-102 | a post that is up passes; a removed post passes only if its category is author, moderator, reddit or automod_filtered |
| ListCheck.PostGateRemoved | src/list_check/list_check.tsx:86-102 | a removed post passes iff its category's keyword ("removed", "reddit", "filtered") is not contained in the ignore preference |
| ListCheck.DefaultIgnoresNothing | src/settings/getters.tsx:16 | with the ignore preference at its default "both", no removed post of a known category is set aside |
| ListCheck.OnlyFirstIgnoreChoiceCounts | src/settings/getters.tsx:16-17 | with "filtered" then "removed" selected, only "filtered" is read, and a moderator-removed post still passes |
| ListCheck.CheckPost | src/list_check/list_check.tsx:81-120 | a passing post passes the gate and has a preference among whitelist, blacklist and both |
| ListCheck.ListDispatchMeaning | src/list_check/list_check.tsx:104-119 | the list-preference switch passes iff the preference is whitelist, blacklist or both and (unless blacklist) every whitelist criterion holds and (unless whitelist) no blacklist criterion holds |
| ListCheck.CheckPostMeaning | src/list_check/list_check.tsx:81-120 | passes iff gate and preference in {whitelist, blacklist, both} and (unless blacklist) every whitelist criterion holds and (unless whitelist) no blacklist criterion holds; "none" or anything else is false |
| ListCheck.CheckComments | src/list_check/list_check.tsx:128-175 | true iff some comment of the pre-order list is not skipped by the ignore filter, not by the app, not ignored, OP by id unless any author counts, top-level unless replies count, and passes the pattern and link tests |
| ListCheck.QualifyingCommentInTree | src/list_check/list_check.tsx:138-140 | the scan finds a reply iff some comment anywhere in the tree, at any depth, qualifies; a post without comments has none |
| MessageFormat.FooterNamesSubreddit | src/settings/format_message.tsx:8-10 | the footer names the community in its contact link |
| MessageFormat.ApplyRandomPicksFromPool | src/settings/format_message.tsx:13-16 | with the placeholder and a non-empty pool, every `{{random}}` becomes one and the same pool element; otherwise the message is untouched |
| MessageFormat.PlaceholdersStartWithBrace | src/settings/format_message.tsx:49-71 | every placeholder of the chain starts with "{" |
| MessageFormat.UnimplementedPlaceholdersAreEmpty | src/settings/format_message.tsx:25-66 | the media placeholders and the author flair template id always become "" |
| MessageFormat.FormatMessageAddsFooter | src/settings/format_message.tsx:7-74 | `formatMessage`: the result always ends with the footer; a message without "{" comes back unchanged plus the footer |
| MessageFormat.BraceFreeSkipsRandom | src/settings/format_message.tsx:13 | a message without a brace has no `{{random}}` to fill |
| MessageFormat.BraceFreeSkipsChain | src/settings/format_message.tsx:49-71 | a message without a brace matches no placeholder of the chain |
| MessageFormat.FormatMailFrame | src/actions/format_mail.tsx:7-23 | `formatMail`: the modmail starts with "Your post from <sub> was removed because of: '<title>'" and ends with the modmail footer |
| MessageFormat.FormatMailVerbatim | src/actions/format_mail.tsx:7-23 | `formatMail`: a reason message without "{community_" is quoted verbatim after "Hi u/<author>, ", followed by "Original post: <permalink>"; "{{author}}" and other text are left intact |
| Effects.DistinguishEffects | src/actions/reminder.tsx:38-44 | at most one distinguish; none iff neither "sticky" nor "distinguish" is chosen; sticky wins over plain |
| Effects.ModeratedCommentOrder | src/actions/reminder.tsx:29-44 | a bot comment is posted with the given text, then locked, then distinguished at most once and only third; without options there are exactly two calls |
| Effects.PostModeratedComment | src/actions/reminder.tsx:29-44 | the log grows by exactly the comment, the lock and the distinguish rule; no job is queued |
| Effects.Platform.Emit | src/actions/reminder.tsx:29-31 | one API call is appended to the log and the queue is unchanged |
| Effects.Platform.Schedule | src/actions/reminder.tsx:50-54 | one job is appended to the queue and the log is unchanged |
| Reminder.RemovalJobs | src/actions/reminder.tsx:47-55 | a removal job is queued iff the removal delay is positive; it carries the new comment's id and runs removeDelay minutes from now |
| Reminder.ReminderOutcomeShape | src/actions/reminder.tsx:19-55 | not due does nothing; due posts the message first and locks it second; at most one job, the comment's removal, and only with a positive delay |
| Reminder.SendReminder | src/actions/reminder.tsx:11-56 | the log and queue grow by exactly what the re-check decides: nothing unless the post still passes and has no reply, else the moderated comment and its removal job |
| Reminder.IsStillDue | src/actions/reminder.tsx:19-22 | true iff the post still passes `checkPost` and the scan finds no reply |
| Reminder.PostReminder | src/actions/reminder.tsx:29-55 | the comment, lock and distinguish are logged and the removal job is queued iff the delay is positive |
| Action.FindReason | src/actions/action.tsx:39 | `find`: none iff no reason has the title; otherwise the first reason with exactly that title |
| Action.ReportReasonText | src/actions/action.tsx:87 | the report reason is "<app>: <reason>" when the reason is non-empty, else the app's name alone |
| Action.ExecuteAction | src/actions/action.tsx:11-90 | the log grows by exactly the effects of the configured action under the action settings read from the store; no job is queued |
| Action.PerformAction | src/actions/action.tsx:15-88 | the switch on the action kind logs exactly `ActionEffects` and queues nothing |
| Action.RemoveWithNotice | src/actions/action.tsx:42-75 | removal, removal note with the reason's id and "automated removal by <app>", then the notice, in that order |
| Action.Notify | src/actions/action.tsx:46-74 | a moderated comment with the formatted reason message, or a modmail (archived when it has an id and archiving is on), or nothing |
| Action.ReportBranch | src/actions/action.tsx:15-88 | a flair with an unknown template, a remove with an unknown reason and any other kind end in exactly one report |
| Action.FlairKnownSetsFlair | src/actions/action.tsx:16-26 | "flair" with a known template sets exactly that flair and nothing else |
| Action.FlairUnknownReports | src/actions/action.tsx:27-88 | "flair" with an unknown template files exactly one report, "<app>: invalid change flair ID" |
| Action.RemoveWithoutReason | src/actions/action.tsx:80-83 | "remove" without a reason name removes the post and does nothing else |
| Action.RemoveUnknownReasonReports | src/actions/action.tsx:76-88 | "remove" naming no existing reason does not remove and reports "<app>: invalid removal reason" |
| Action.RemovalBranch | src/actions/action.tsx:36-75 | "remove" naming an existing reason does the removal with the first reason of that title |
| Action.NoticeNeverReports | src/actions/action.tsx:46-74 | the notice never reports, and archives only a modmail conversation with an id when archiving is on |
| Action.RemoveWithReason | src/actions/action.tsx:42-75 | "remove" with a found reason removes the post, notes that reason's id and the app, and files no report |
| Action.ArchiveOnlyWhenEnabled | src/actions/action.tsx:71-73 | an archive call implies a modmail notice, a conversation id and archiving enabled |
| Action.OtherActionsReport | src/actions/action.tsx:15-88 | any kind other than "flair" and "remove" ends in one report with the configured reason |
| Handlers.OnPostCreate | src/main.tsx:27-95 | no post in the event, or a post failing `checkPost`, changes nothing; otherwise the log and queue grow by the reminder part then the action part, with the event's user flair ("" without one) |
| Handlers.HandleNewPost | src/main.tsx:51-93 | failing `checkPost` changes nothing; passing it adds the reminder part under the reminder settings and then the action part under the action settings |
| Handlers.FollowUp | src/main.tsx:62-93 | the reminder step and then the action step, their effects and jobs in that order |
| Handlers.SendOrQueueReminder | src/main.tsx:63-83 | nothing unless enabled with a message; a queued `reminder` job at a delay of 10 minutes or more; otherwise `sendReminder` at once |
| Handlers.QueueAction | src/main.tsx:86-93 | an `action` job at now + delay iff the action is non-empty and not "do_nothing"; no effect |
| Handlers.FailedCheckDoesNothing | src/main.tsx:51-54 | a post failing the check on creation gets no reminder and no job |
| Handlers.ReminderOnlyWhenWanted | src/main.tsx:63 | without an enabled reminder with a message, nothing is posted and no reminder is queued |
| Handlers.LongDelayQueuesReminder | src/main.tsx:66-77 | with a delay of 10 or more, nothing is posted and exactly one `reminder` job is queued, at now + delay, with the post id, message, options and user flair |
| Handlers.ShortDelaySendsAtOnce | src/main.tsx:78-82 | with a shorter delay the reminder is sent exactly as `sendReminder` sends it and no `reminder` job is queued |
| Handlers.ActionOnlyQueued | src/main.tsx:86-93 | an `action` job is queued iff the post passes and an action is configured, last, at now + action delay; the action never runs at creation |
| Handlers.RunReminderJob | src/main.tsx:103-151 | nothing without a post id or message; otherwise exactly what `sendReminder` does with the payload |
| Handlers.ReminderJobGuards | src/main.tsx:109-119 | does nothing iff the id or message is missing or the post is no longer due; otherwise posts the message first and locks it |
| Handlers.RunReminderRemovalJob | src/main.tsx:157-177 | the comment is removed iff it has an id and is not removed, spam or filtered; no job is queued |
| Handlers.RemovalIdempotent | src/main.tsx:169-174 | at most one removal; a comment already removed is left alone, so a second run does nothing |
| Handlers.RunActionJob | src/main.tsx:184-205 | nothing without a post id or when the post is no longer due; otherwise exactly the effects of `executeAction`; no job is queued |

## Left out

- The JavaScript regular-expression engine. User title, body and comment
  patterns are compiled to `Regex(source, flags)`. Whether one matches is
  a `Matcher` parameter. `validateRegex` (src/settings/settings.tsx:366-373)
  only asks that engine whether a pattern compiles, so it is not modelled.
- `getDomainName` (URL parsing) is not modelled. The host name is an input
  in `Env.domain`, "" when the URL does not parse.
- `Math.random`. The draw is `Env.pick`, reduced modulo the size of the
  pool.
- The Reddit API and `context.settings.get`:
  - fetching a post, comment, reply list, current community, author flair,
    flair templates or removal reasons is replaced by inputs;
  - every call that changes something is one entry in the effect log.
  A failing API call, with the exception it would raise, is not modelled.
- The scheduler's delivery and any concurrency between jobs. A job is
  only recorded in the queue with its due minute.
- `DateTime`, `performance.now` and all `console` logging. Times are
  integer minutes.
- The declarative settings literal and the Devvit registration. Only the
  validator rules taken from it are modelled.
- `$` patterns in `replace` replacement strings. Replacement is modelled
  as literal substitution (split, then join), so a value containing `$&`
  or `$1` is inserted verbatim.
- Unicode case mapping. `toLowerCase` lowers the ASCII letters only;
  other letters keep their case. `trim` and `\s` use JavaScript's full
  whitespace set (`Strings.IsWhitespace`).
- Numbers. Number settings are whole numbers. `parseInt` on a non-number
  value reads as NaN. Fractional values and the `toString` of
  non-integers are not modelled.
- Job payloads. Payloads are typed. A `reminder` job whose `rawOptions`
  is not an array, or whose `removeDelay` is not a number (the `Number(…)`
  and `Array.isArray` coercions of src/main.tsx:128, 141), is not
  modelled. A missing payload field reads as "".
- ListCheck.CheckPost: the contract states only what a pass implies. The
  if-and-only-if is `CheckPostMeaning`.
