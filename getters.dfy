/**
 * The settings getters (src/settings/getters.tsx): each reads raw values
 * from the installation's settings store and turns them into the typed
 * configuration the list check, the comment scanner, the reminder and the
 * action use, with JavaScript's coercions written out: `String(x)`,
 * `Boolean(x)`, `x || default` and `parseInt(x) || default`.
 */
module Getters {
  import opened Optional
  import opened Strings
  import opened Helpers
  import opened MessageFormat

  /**
   * A raw setting value as the platform returns it: unset, a boolean, a
   * number, a string, or the array of choices of a select field.
   */
  datatype SettingValue = Missing | Flag(b: bool) | Number(n: int) | Text(s: string) | Selection(items: seq<string>)

  /** The installation's settings, by name; a name that is not stored reads as `Missing`. */
  type Store = map<string, SettingValue>

  function Get(store: Store, name: string): SettingValue
  {
    if name in store then store[name] else Missing
  }

  /** JavaScript truthiness; every array, even an empty one, is truthy. */
  predicate Truthy(v: SettingValue)
  {
    match v
    case Missing => false
    case Flag(b) => b
    case Number(n) => n != 0
    case Text(s) => s != ""
    case Selection(_) => true
  }

  function Digit(d: nat): char
    requires d < 10
  {
    "0123456789"[d]
  }

  /** The decimal numeral of a natural number. */
  function Decimal(n: nat): string
    decreases n
  {
    if n < 10 then [Digit(n)] else Decimal(n / 10) + [Digit(n % 10)]
  }

  /** JavaScript `String(v)`: an unset value becomes "undefined", an array its comma-joined items. */
  function Stringify(v: SettingValue): (s: string)
    ensures v.Text? ==> s == v.s
    ensures v.Missing? ==> s == "undefined"
    ensures v.Selection? ==> s == Join(v.items, ",")
  {
    match v
    case Missing => "undefined"
    case Flag(b) => if b then "true" else "false"
    case Number(n) => if n < 0 then "-" + Decimal(-n) else Decimal(n)
    case Text(s) => s
    case Selection(items) => Join(items, ",")
  }

  /** `String(v) || fallback`: the fallback replaces only the empty string. */
  function StringOr(v: SettingValue, fallback: string): (s: string)
    ensures s == "" ==> fallback == ""
    ensures v.Missing? ==> s == "undefined"
    ensures v.Text? && v.s != "" ==> s == v.s
    ensures v.Text? && v.s == "" ==> s == fallback
  {
    var t := Stringify(v);
    if t != "" then t else fallback
  }

  /**
   * `parseInt(v)` / `Number(v)` on a number field: the number when one is
   * stored, `None` (NaN) when the value is unset or is not a number.
   */
  function NumericValue(v: SettingValue): Option<int>
  {
    if v.Number? then Some(v.n) else None
  }

  /** `n || fallback` on a parsed number: 0 and NaN both give the fallback. */
  function NumberOr(n: Option<int>, fallback: int): (r: int)
    ensures r == fallback || (n.Some? && r == n.value)
    ensures r == 0 ==> fallback == 0
    ensures n.Some? && n.value != 0 ==> r == n.value
  {
    if n.Some? && n.value != 0 then n.value else fallback
  }

  /**
   * The preference getters: `(get(name) || [fallback])`, then the first
   * element of an array (an empty array yields "undefined") or the value
   * itself, as a string.
   */
  function FirstSelected(v: SettingValue, fallback: string): (r: string)
    ensures !Truthy(v) ==> r == fallback
    ensures v.Selection? && |v.items| > 0 ==> r == v.items[0]
    ensures v.Selection? && |v.items| == 0 ==> r == "undefined"
    ensures Truthy(v) && !v.Selection? ==> r == Stringify(v)
  {
    var w := if Truthy(v) then v else Selection([fallback]);
    match w
    case Selection(items) => if |items| > 0 then items[0] else "undefined"
    case _ => Stringify(w)
  }

  /** `getListPreference`: "whitelist", "blacklist", "both" or "none" ("none" when unset). */
  function GetListPreference(store: Store): (r: string)
    ensures !Truthy(Get(store, "list-preference")) ==> r == "none"
    ensures var v := Get(store, "list-preference"); v.Selection? && |v.items| > 0 ==> r == v.items[0]
  {
    FirstSelected(Get(store, "list-preference"), "none")
  }

  /** `getIgnorePreference`: the first selected kind of removed post to ignore ("both" when unset). */
  function GetIgnorePreference(store: Store): (r: string)
    ensures !Truthy(Get(store, "ignore-preference")) ==> r == "both"
    ensures var v := Get(store, "ignore-preference"); v.Selection? && |v.items| > 0 ==> r == v.items[0]
  {
    FirstSelected(Get(store, "ignore-preference"), "both")
  }

  /** `getCommentIgnorePreference`: which removed comments to ignore ("both" when unset). */
  function GetCommentIgnorePreference(store: Store): (r: string)
    ensures !Truthy(Get(store, "comment-ignore-preference")) ==> r == "both"
    ensures var v := Get(store, "comment-ignore-preference"); v.Selection? && |v.items| > 0 ==> r == v.items[0]
  {
    FirstSelected(Get(store, "comment-ignore-preference"), "both")
  }

  /** The option list of a multi-select field: its items, or nothing when it is not an array. */
  function OptionsList(v: SettingValue): (r: seq<string>)
    ensures v.Selection? ==> r == v.items
    ensures !v.Selection? ==> r == []
  {
    if v.Selection? then v.items else []
  }

  /** A user pattern compiled with `RegExp(source, flags)`. */
  datatype Regex = Regex(source: string, flags: string)

  /**
   * The JavaScript regular-expression engine, which this model does not
   * describe: whether a compiled pattern matches somewhere in a text.
   */
  type Matcher = (Regex, string) -> bool

  /** The flags of a user pattern: case-insensitive ("i") unless the case-sensitive box is set. */
  function CaseFlag(caseSensitive: SettingValue): (f: string)
    ensures f == "i" <==> !Truthy(caseSensitive)
    ensures f == "" <==> Truthy(caseSensitive)
  {
    if Truthy(caseSensitive) then "" else "i"
  }

  /** A pattern setting: no pattern when the raw value is falsy, else the pattern with its case flag. */
  function CompileRegex(raw: SettingValue, caseSensitive: SettingValue): (r: Option<Regex>)
    ensures r.None? <==> !Truthy(raw)
    ensures r.Some? ==> r.value.source == Stringify(raw) && r.value.flags == CaseFlag(caseSensitive)
  {
    if Truthy(raw) then Some(Regex(Stringify(raw), CaseFlag(caseSensitive))) else None
  }

  /** One piece of a split list after `trim()` and, for text lists, `toLowerCase()`. */
  function Clean(piece: string, lower: bool): (r: string)
    ensures IsTrimmed(r)
    ensures lower ==> IsLower(r)
    ensures r == "" <==> forall k :: 0 <= k < |piece| ==> IsWhitespace(piece[k])
    ensures IsTrimmed(piece) && (lower ==> IsLower(piece)) ==> r == piece
    ensures !lower ==> r == Trim(piece)
    ensures lower ==> r == ToLower(Trim(piece))
  {
    var t := Trim(piece);
    if lower then
      ToLowerProperties(t);
      ToLower(t)
    else
      t
  }

  /**
   * `.map(clean).filter(x => x.length > 0)`: the cleaned pieces, in order,
   * without the empty ones.
   */
  function CleanEntries(pieces: seq<string>, lower: bool): (r: seq<string>)
    ensures |r| <= |pieces|
    ensures forall k :: 0 <= k < |r| ==> r[k] != "" && IsTrimmed(r[k]) && (lower ==> IsLower(r[k]))
    decreases |pieces|
  {
    if |pieces| == 0 then
      []
    else
      var c := Clean(pieces[0], lower);
      var rest := CleanEntries(pieces[1..], lower);
      if c == "" then rest
      else
        CleanEntriesCons(c, rest, lower);
        [c] + rest
  }

  /** Putting a clean entry in front of clean entries keeps the list clean. */
  lemma CleanEntriesCons(c: string, rest: seq<string>, lower: bool)
    requires c != "" && IsTrimmed(c) && (lower ==> IsLower(c))
    requires forall k :: 0 <= k < |rest| ==> rest[k] != "" && IsTrimmed(rest[k]) && (lower ==> IsLower(rest[k]))
    ensures forall k :: 0 <= k < |[c] + rest| ==> ([c] + rest)[k] != "" && IsTrimmed(([c] + rest)[k]) && (lower ==> IsLower(([c] + rest)[k]))
  {
  }

  /** Every entry of the cleaned list is the cleaned form of some piece. */
  lemma {:induction false} CleanEntriesComeFromPieces(pieces: seq<string>, lower: bool)
    ensures forall e :: e in CleanEntries(pieces, lower) ==>
              exists j :: 0 <= j < |pieces| && Clean(pieces[j], lower) == e
  {
    if |pieces| > 0 {
      var c := Clean(pieces[0], lower);
      var rest := CleanEntries(pieces[1..], lower);
      CleanEntriesComeFromPieces(pieces[1..], lower);
      forall e | e in CleanEntries(pieces, lower) ensures exists j :: 0 <= j < |pieces| && Clean(pieces[j], lower) == e {
        if c != "" && e == c {
          assert Clean(pieces[0], lower) == e;
        } else {
          assert e in rest;
          var j :| 0 <= j < |pieces[1..]| && Clean(pieces[1..][j], lower) == e;
          assert pieces[1..][j] == pieces[j + 1];
        }
      }
    }
  }

  /** Every piece that is not blank after cleaning appears in the cleaned list. */
  lemma {:induction false} CleanEntriesKeepPieces(pieces: seq<string>, lower: bool)
    ensures forall j :: 0 <= j < |pieces| && Clean(pieces[j], lower) != "" ==>
              Clean(pieces[j], lower) in CleanEntries(pieces, lower)
  {
    if |pieces| > 0 {
      CleanEntriesKeepPieces(pieces[1..], lower);
      forall j | 1 <= j < |pieces| && Clean(pieces[j], lower) != ""
        ensures Clean(pieces[j], lower) in CleanEntries(pieces, lower)
      {
        assert pieces[1..][j - 1] == pieces[j];
      }
    }
  }

  /**
   * A list setting: the stringified raw value split on `sep`, each piece
   * trimmed (and lowercased when `lower`), empty pieces dropped.
   */
  function ParseList(raw: string, sep: char, lower: bool): (r: seq<string>)
    ensures forall k :: 0 <= k < |r| ==> r[k] != "" && IsTrimmed(r[k]) && (lower ==> IsLower(r[k]))
    ensures raw == "" ==> r == []
  {
    var pieces := Split(raw, [sep]);
    assert raw == "" ==> pieces == [""] by {
      if raw == "" {
        SplitWithoutSeparator(raw, [sep]);
      }
    }
    CleanEntries(pieces, lower)
  }

  /** A list already in clean form loses nothing and gains nothing on the way through. */
  lemma {:induction false} CleanEntriesKeepsClean(entries: seq<string>, lower: bool)
    requires forall k :: 0 <= k < |entries| ==> entries[k] != "" && IsTrimmed(entries[k]) && (lower ==> IsLower(entries[k]))
    ensures CleanEntries(entries, lower) == entries
  {
    if |entries| > 0 {
      CleanEntriesKeepsClean(entries[1..], lower);
      assert [entries[0]] + entries[1..] == entries;
    }
  }

  /**
   * Round trip: entries that are non-empty, trimmed, lowercase where
   * required and free of the separator are parsed back from their join.
   */
  lemma {:induction false} ParseListOfJoin(entries: seq<string>, sep: char, lower: bool)
    requires forall k :: 0 <= k < |entries| ==> entries[k] != "" && IsTrimmed(entries[k]) && (lower ==> IsLower(entries[k]))
    requires forall k :: 0 <= k < |entries| ==> Lacks(entries[k], sep)
    ensures ParseList(Join(entries, [sep]), sep, lower) == entries
  {
    if |entries| > 0 {
      SplitJoin(entries, sep);
      CleanEntriesKeepsClean(entries, lower);
    }
  }

  /** A comma list read from a setting (`String(get(name))`, split, cleaned). */
  function ListSetting(store: Store, name: string, lower: bool): seq<string>
  {
    ParseList(Stringify(Get(store, name)), ',', lower)
  }

  /** An unset list setting is stringified to "undefined" and so reads as the one entry "undefined". */
  lemma {:induction false} UnsetListReadsUndefined(store: Store, name: string, lower: bool)
    requires name !in store
    ensures ListSetting(store, name, lower) == ["undefined"]
  {
    var u := "undefined";
    assert Lacks(u, ',');
    assert IsTrimmed(u) && IsLower(u) by {
      assert ToLower(u) == u;
    }
    ParseListOfJoin([u], ',', lower);
  }

  /**
   * The criteria of one list (white or black): patterns for the title and
   * the body, the link requirement, a minimum body length (0 means unset)
   * and the four flair lists.
   */
  datatype ListSettings = ListSettings(
    titleRegex: Option<Regex>,
    bodyRegex: Option<Regex>,
    bodyLinkRequired: bool,
    bodyLength: int,
    flairTexts: seq<string>,
    flairIDs: seq<string>,
    userFlairTexts: seq<string>,
    userFlairIDs: seq<string>)

  /**
   * `getWhitelistSettings` (prefix "wl") and `getBlacklistSettings`
   * (prefix "bl"): the two read the same fields under their own prefix.
   * Flair texts are lowercased, flair ids keep their case.
   */
  function GetListSettings(store: Store, prefix: string): (r: ListSettings)
    ensures r.titleRegex.None? <==> !Truthy(Get(store, prefix + "-title-regex"))
    ensures r.bodyRegex.None? <==> !Truthy(Get(store, prefix + "-body-regex"))
    ensures r.bodyLinkRequired <==> Truthy(Get(store, prefix + "-body-link"))
    ensures r.bodyLength == NumberOr(NumericValue(Get(store, prefix + "-body-length")), 0)
    ensures forall k :: 0 <= k < |r.flairTexts| ==> IsLower(r.flairTexts[k])
    ensures forall k :: 0 <= k < |r.userFlairTexts| ==> IsLower(r.userFlairTexts[k])
    ensures r.titleRegex == CompileRegex(Get(store, prefix + "-title-regex"), Get(store, prefix + "-title-regex-case"))
    ensures r.bodyRegex == CompileRegex(Get(store, prefix + "-body-regex"), Get(store, prefix + "-body-regex-case"))
    ensures r.flairTexts == ListSetting(store, prefix + "-flair-text", true)
    ensures r.flairIDs == ListSetting(store, prefix + "-flair-ids", false)
    ensures r.userFlairTexts == ListSetting(store, prefix + "-user-flair-text", true)
    ensures r.userFlairIDs == ListSetting(store, prefix + "-user-flair-ids", false)
  {
    ListSettings(
      CompileRegex(Get(store, prefix + "-title-regex"), Get(store, prefix + "-title-regex-case")),
      CompileRegex(Get(store, prefix + "-body-regex"), Get(store, prefix + "-body-regex-case")),
      Truthy(Get(store, prefix + "-body-link")),
      NumberOr(NumericValue(Get(store, prefix + "-body-length")), 0),
      ListSetting(store, prefix + "-flair-text", true),
      ListSetting(store, prefix + "-flair-ids", false),
      ListSetting(store, prefix + "-user-flair-text", true),
      ListSetting(store, prefix + "-user-flair-ids", false))
  }

  /** The requirements a comment must meet to count as the awaited reply. */
  datatype CommentSettings = CommentSettings(
    checkNonTopLevel: bool,
    checkNonOP: bool,
    userIgnoreList: seq<string>,
    commentRegex: Option<Regex>,
    bodyLinkRequired: bool)

  /**
   * `getCommentSettings`. With "accept-any-comment" set, the pattern and
   * the link requirement are dropped whatever their own settings say; the
   * ignore list is lowercased.
   */
  function GetCommentSettings(store: Store): (r: CommentSettings)
    ensures Truthy(Get(store, "accept-any-comment")) ==> r.commentRegex.None? && !r.bodyLinkRequired
    ensures !Truthy(Get(store, "accept-any-comment")) ==>
              r.commentRegex == CompileRegex(Get(store, "comment-body-regex"), Get(store, "comment-regex-case"))
              && (r.bodyLinkRequired <==> Truthy(Get(store, "comment-body-link")))
    ensures r.checkNonTopLevel <==> Truthy(Get(store, "comment-level"))
    ensures r.checkNonOP <==> Truthy(Get(store, "comment-author"))
    ensures forall k :: 0 <= k < |r.userIgnoreList| ==> IsLower(r.userIgnoreList[k]) && r.userIgnoreList[k] != ""
    ensures r.userIgnoreList == ListSetting(store, "comment-user-ignore", true)
  {
    var checkNonTopLevel := Truthy(Get(store, "comment-level"));
    var checkNonOP := Truthy(Get(store, "comment-author"));
    var userIgnoreList := ListSetting(store, "comment-user-ignore", true);
    if Truthy(Get(store, "accept-any-comment")) then
      CommentSettings(checkNonTopLevel, checkNonOP, userIgnoreList, None, false)
    else
      CommentSettings(checkNonTopLevel, checkNonOP, userIgnoreList,
                      CompileRegex(Get(store, "comment-body-regex"), Get(store, "comment-regex-case")),
                      Truthy(Get(store, "comment-body-link")))
  }

  /**
   * `entries` are the trimmed pieces that are not blank, case kept: each
   * entry is the trimmed form of some piece, and each piece that is not
   * blank once trimmed is among the entries.
   */
  ghost predicate TrimmedPiecesOf(entries: seq<string>, pieces: seq<string>)
  {
    && (forall e :: e in entries ==> exists j :: 0 <= j < |pieces| && Trim(pieces[j]) == e)
    && (forall j :: 0 <= j < |pieces| && Trim(pieces[j]) != "" ==> Trim(pieces[j]) in entries)
  }

  /** Cleaning without lowercasing keeps exactly the trimmed pieces that are not blank. */
  lemma CleanEntriesAreTrimmedPieces(pieces: seq<string>)
    ensures TrimmedPiecesOf(CleanEntries(pieces, false), pieces)
  {
    var entries := CleanEntries(pieces, false);
    CleanEntriesComeFromPieces(pieces, false);
    CleanEntriesKeepPieces(pieces, false);
    forall e | e in entries ensures exists j :: 0 <= j < |pieces| && Trim(pieces[j]) == e {
      var j :| 0 <= j < |pieces| && Clean(pieces[j], false) == e;
      assert Trim(pieces[j]) == e;
    }
    forall j | 0 <= j < |pieces| && Trim(pieces[j]) != "" ensures Trim(pieces[j]) in entries {
      assert Clean(pieces[j], false) == Trim(pieces[j]);
    }
  }

  /** The values of the `{{random}}` placeholder: split on ";", trimmed, empties dropped, case kept. */
  function RandomPool(store: Store): (pool: seq<string>)
    ensures forall k :: 0 <= k < |pool| ==> pool[k] != "" && IsTrimmed(pool[k])
    ensures TrimmedPiecesOf(pool, Split(Stringify(Get(store, "reminder-random")), ";"))
  {
    var raw := Stringify(Get(store, "reminder-random"));
    var pieces := Split(raw, ";");
    CleanEntriesAreTrimmedPieces(pieces);
    ParseList(raw, ';', false)
  }

  /** The reminder: whether it is on, when it is sent and removed, its text and its moderator options. */
  datatype ReminderSettings = ReminderSettings(
    enabled: bool,
    delay: int,
    removeDelay: int,
    message: string,
    options: seq<string>)

  /**
   * The reminder text: the raw message formatted (placeholders,
   * `{{random}}`, footer) unless it is empty. `pick` stands for the random
   * draw, reduced to an index into the pool.
   */
  function ReminderMessage(rawMessage: string, pool: seq<string>, pick: nat, ctx: FormatContext): (m: string)
    ensures m == "" <==> rawMessage == ""
    ensures m != "" ==> EndsWith(m, Footer(ctx.post.subredditName))
  {
    if |rawMessage| > 0 then
      var index := if |pool| > 0 then pick % |pool| else 0;
      FormatMessageAddsFooter(rawMessage, pool, index, ctx);
      FormatMessage(rawMessage, pool, index, ctx)
    else
      ""
  }

  /**
   * `getReminderSettings`: the formatted message, the options, and the
   * delays defaulting to 5 and 0 minutes when unset or 0.
   */
  function GetReminderSettings(store: Store, pick: nat, ctx: FormatContext): (r: ReminderSettings)
    ensures r.enabled <==> Truthy(Get(store, "reminder-enable"))
    ensures r.delay == NumberOr(NumericValue(Get(store, "reminder-delay")), 5)
    ensures r.removeDelay == NumberOr(NumericValue(Get(store, "reminder-remove-delay")), 0)
    ensures r.delay != 0
    ensures r.message == "" <==> Stringify(Get(store, "reminder-message")) == ""
    ensures r.options == OptionsList(Get(store, "reminder-options"))
    ensures r.message == ReminderMessage(StringOr(Get(store, "reminder-message"), ""), RandomPool(store), pick, ctx)
  {
    ReminderSettings(
      Truthy(Get(store, "reminder-enable")),
      NumberOr(NumericValue(Get(store, "reminder-delay")), 5),
      NumberOr(NumericValue(Get(store, "reminder-remove-delay")), 0),
      ReminderMessage(StringOr(Get(store, "reminder-message"), ""), RandomPool(store), pick, ctx),
      OptionsList(Get(store, "reminder-options")))
  }

  /** What to do with a post that never got its reply, and how. */
  datatype ActionSettings = ActionSettings(
    action: string,
    delay: int,
    reportReason: string,
    changeFlairID: string,
    removalReason: string,
    notifyUserVia: string,
    options: seq<string>,
    archiveModmail: bool)

  /** `getActionSettings`: the action delay defaults to 10 minutes, the notification to "do_nothing". */
  function GetActionSettings(store: Store): (r: ActionSettings)
    ensures r.delay == NumberOr(NumericValue(Get(store, "missing-link-delay")), 10)
    ensures r.delay != 0
    ensures r.notifyUserVia != ""
    ensures Stringify(Get(store, "notify-user-via")) == "" ==> r.notifyUserVia == "do_nothing"
    ensures Stringify(Get(store, "notify-user-via")) != "" ==> r.notifyUserVia == Stringify(Get(store, "notify-user-via"))
    ensures r.action == Stringify(Get(store, "missing-link-action"))
    ensures r.reportReason == Stringify(Get(store, "report-reason"))
    ensures r.changeFlairID == Stringify(Get(store, "change-flair-id"))
    ensures r.removalReason == Stringify(Get(store, "removal-reason"))
    ensures r.options == OptionsList(Get(store, "action-notify-options"))
    ensures r.archiveModmail <==> Truthy(Get(store, "modmail-archive"))
  {
    ActionSettings(
      StringOr(Get(store, "missing-link-action"), ""),
      NumberOr(NumericValue(Get(store, "missing-link-delay")), 10),
      StringOr(Get(store, "report-reason"), ""),
      StringOr(Get(store, "change-flair-id"), ""),
      StringOr(Get(store, "removal-reason"), ""),
      StringOr(Get(store, "notify-user-via"), "do_nothing"),
      OptionsList(Get(store, "action-notify-options")),
      Truthy(Get(store, "modmail-archive")))
  }
}
