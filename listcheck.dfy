/**
 * The list check (src/list_check/list_check.tsx): the eight post criteria
 * of a white- or blacklist, the gate that sets removed posts aside, the
 * dispatch on the list preference, and the scan of a post's comments for
 * the awaited reply.
 */
module ListCheck {
  import opened Optional
  import opened Strings
  import opened Helpers
  import opened Getters

  /** The criteria of a list, in the order they are evaluated. */
  datatype Criterion = Title | Body | BodyLink | BodyLength | FlairText | FlairID | UserFlairText | UserFlairID

  /** A criterion is configured: a pattern given, the link box ticked, a non-zero length, a non-empty list. */
  predicate IsSet(s: ListSettings, c: Criterion)
  {
    match c
    case Title => s.titleRegex.Some?
    case Body => s.bodyRegex.Some?
    case BodyLink => s.bodyLinkRequired
    case BodyLength => s.bodyLength != 0
    case FlairText => |s.flairTexts| > 0
    case FlairID => |s.flairIDs| > 0
    case UserFlairText => |s.userFlairTexts| > 0
    case UserFlairID => |s.userFlairIDs| > 0
  }

  /**
   * What a configured criterion says of the post. Flair texts are
   * compared after lowercasing the post's value, flair ids exactly.
   */
  predicate Holds(p: PostParams, s: ListSettings, m: Matcher, c: Criterion)
    requires IsSet(s, c)
  {
    match c
    case Title => m(s.titleRegex.value, p.title)
    case Body => m(s.bodyRegex.value, p.body)
    case BodyLink => ContainsLink(p.body)
    case BodyLength => Utf16Length(p.body) >= s.bodyLength
    case FlairText => ToLower(p.flairText) in s.flairTexts
    case FlairID => p.flairID in s.flairIDs
    case UserFlairText => ToLower(p.userFlairText) in s.userFlairTexts
    case UserFlairID => p.userFlairID in s.userFlairIDs
  }

  /**
   * The outcome of one criterion (`titlePass`, `bodyPass`, ...): its test
   * when configured, otherwise the list's default.
   */
  predicate Pass(p: PostParams, s: ListSettings, m: Matcher, c: Criterion, default: bool)
  {
    if IsSet(s, c) then Holds(p, s, m, c) else default
  }

  /** The outcomes of all eight criteria, joined by AND. */
  predicate AllPass(p: PostParams, s: ListSettings, m: Matcher, default: bool)
  {
    Pass(p, s, m, Title, default) && Pass(p, s, m, Body, default) && Pass(p, s, m, BodyLink, default)
    && Pass(p, s, m, BodyLength, default) && Pass(p, s, m, FlairText, default) && Pass(p, s, m, FlairID, default)
    && Pass(p, s, m, UserFlairText, default) && Pass(p, s, m, UserFlairID, default)
  }

  /** The outcomes of all eight criteria, joined by OR. */
  predicate AnyPass(p: PostParams, s: ListSettings, m: Matcher, default: bool)
  {
    Pass(p, s, m, Title, default) || Pass(p, s, m, Body, default) || Pass(p, s, m, BodyLink, default)
    || Pass(p, s, m, BodyLength, default) || Pass(p, s, m, FlairText, default) || Pass(p, s, m, FlairID, default)
    || Pass(p, s, m, UserFlairText, default) || Pass(p, s, m, UserFlairID, default)
  }

  /** With unset criteria passing, the AND says that every configured criterion holds. */
  lemma {:induction false} AllPassMeansEveryHolds(p: PostParams, s: ListSettings, m: Matcher)
    ensures AllPass(p, s, m, true) <==> forall c :: IsSet(s, c) ==> Holds(p, s, m, c)
  {
    if AllPass(p, s, m, true) {
      forall c | IsSet(s, c) ensures Holds(p, s, m, c) {
        assert Pass(p, s, m, c, true);
      }
    }
  }

  /** With unset criteria failing, the OR says that some configured criterion holds. */
  lemma {:induction false} AnyPassMeansSomeHolds(p: PostParams, s: ListSettings, m: Matcher)
    ensures AnyPass(p, s, m, false) <==> exists c :: IsSet(s, c) && Holds(p, s, m, c)
  {
    if exists c :: IsSet(s, c) && Holds(p, s, m, c) {
      var c :| IsSet(s, c) && Holds(p, s, m, c);
      assert Pass(p, s, m, c, false);
    }
  }

  /**
   * `checkPostParams`. Under "whitelist" (where an unset criterion
   * defaults to true) the post matches when every configured criterion
   * holds; under any other preference (default false) when none holds.
   */
  function CheckPostParams(p: PostParams, s: ListSettings, listPreference: string, m: Matcher): (r: bool)
    ensures listPreference == "whitelist" ==> (r <==> forall c :: IsSet(s, c) ==> Holds(p, s, m, c))
    ensures listPreference != "whitelist" ==> (r <==> !exists c :: IsSet(s, c) && Holds(p, s, m, c))
  {
    var def := listPreference == "whitelist";
    AllPassMeansEveryHolds(p, s, m);
    AnyPassMeansSomeHolds(p, s, m);
    if def then AllPass(p, s, m, def) else !AnyPass(p, s, m, def)
  }

  /** No criterion configured at all. */
  predicate NothingSet(s: ListSettings)
  {
    s.titleRegex.None? && s.bodyRegex.None? && !s.bodyLinkRequired && s.bodyLength == 0
    && s.flairTexts == [] && s.flairIDs == [] && s.userFlairTexts == [] && s.userFlairIDs == []
  }

  /** An empty list lets every post through, under either polarity. */
  lemma {:induction false} EmptyListMatchesEverything(p: PostParams, s: ListSettings, listPreference: string, m: Matcher)
    requires NothingSet(s)
    ensures CheckPostParams(p, s, listPreference, m)
  {
    assert forall c :: !IsSet(s, c) by {
      forall c ensures !IsSet(s, c) {
        match c
        case Title =>
        case Body =>
        case BodyLink =>
        case BodyLength =>
        case FlairText =>
        case FlairID =>
        case UserFlairText =>
        case UserFlairID =>
      }
    }
  }

  /** The case of the post's flair texts does not matter: only their lowercase form is compared. */
  lemma {:induction false} FlairTextCaseInsensitive(p: PostParams, q: PostParams, s: ListSettings, listPreference: string, m: Matcher)
    requires q == p.(flairText := q.flairText, userFlairText := q.userFlairText)
    requires ToLower(q.flairText) == ToLower(p.flairText) && ToLower(q.userFlairText) == ToLower(p.userFlairText)
    ensures CheckPostParams(q, s, listPreference, m) == CheckPostParams(p, s, listPreference, m)
  {
    assert forall c :: IsSet(s, c) ==> (Holds(q, s, m, c) <==> Holds(p, s, m, c));
  }

  /** Flair ids are compared exactly: a whitelisted id in another case does not match. */
  lemma {:induction false} FlairIdCaseSensitive(p: PostParams, m: Matcher)
    requires p.flairID == "abc"
    ensures var s := ListSettings(None, None, false, 0, [], ["ABC"], [], []);
            !CheckPostParams(p, s, "whitelist", m) && CheckPostParams(p.(flairID := "ABC"), s, "whitelist", m)
  {
    var s := ListSettings(None, None, false, 0, [], ["ABC"], [], []);
    assert IsSet(s, FlairID) && !Holds(p, s, m, FlairID);
    assert forall c :: IsSet(s, c) ==> c == FlairID;
  }

  /**
   * Flair ids are compared exactly, with no case folding. Under the
   * whitelist a configured id list rejects every post whose id is not
   * literally listed, an id in another case included; under the
   * blacklist a literally listed id rejects the post.
   */
  lemma {:induction false} FlairIdsCompareExactly(p: PostParams, s: ListSettings, m: Matcher)
    ensures |s.flairIDs| > 0 && p.flairID !in s.flairIDs ==> !CheckPostParams(p, s, "whitelist", m)
    ensures |s.userFlairIDs| > 0 && p.userFlairID !in s.userFlairIDs ==> !CheckPostParams(p, s, "whitelist", m)
    ensures p.flairID in s.flairIDs ==> !CheckPostParams(p, s, "blacklist", m)
    ensures p.userFlairID in s.userFlairIDs ==> !CheckPostParams(p, s, "blacklist", m)
  {
    assert IsSet(s, FlairID) ==> (Holds(p, s, m, FlairID) <==> p.flairID in s.flairIDs);
    assert IsSet(s, UserFlairID) ==> (Holds(p, s, m, UserFlairID) <==> p.userFlairID in s.userFlairIDs);
  }

  /**
   * The minimum body length is measured in UTF-16 code units, as
   * JavaScript's `length` counts them: a character above U+FFFF counts
   * twice. A configured minimum rejects a shorter body under the whitelist
   * and a body that reaches it under the blacklist.
   */
  lemma {:induction false} BodyLengthInCodeUnits(p: PostParams, s: ListSettings, m: Matcher)
    ensures s.bodyLength != 0 && Utf16Length(p.body) < s.bodyLength ==> !CheckPostParams(p, s, "whitelist", m)
    ensures s.bodyLength != 0 && Utf16Length(p.body) >= s.bodyLength ==> !CheckPostParams(p, s, "blacklist", m)
    ensures p.body == "\U{1F600}" ==> Utf16Length(p.body) == 2
  {
    assert IsSet(s, BodyLength) ==> (Holds(p, s, m, BodyLength) <==> Utf16Length(p.body) >= s.bodyLength);
    if p.body == "\U{1F600}" {
      assert p.body[1..] == "";
    }
  }

  /**
   * The removal gate of `checkPost`: a post that is up passes; a removed
   * one passes only when its category's keyword ("removed" for author and
   * moderator removals, "reddit", "filtered") does not occur in the
   * ignore preference.
   */
  function PostGate(removedByCategory: Option<string>, ignorePreference: string): (r: bool)
    ensures !TruthyText(removedByCategory) ==> r
    ensures TruthyText(removedByCategory) && r ==>
              removedByCategory.value in {"author", "moderator", "reddit", "automod_filtered"}
  {
    if TruthyText(removedByCategory) then
      var category := removedByCategory.value;
      if (category == "author" || category == "moderator") && !Contains(ignorePreference, "removed") then true
      else if category == "reddit" && !Contains(ignorePreference, "reddit") then true
      else if category == "automod_filtered" && !Contains(ignorePreference, "filtered") then true
      else false
    else
      true
  }

  /** A removed post passes the gate exactly when its category's keyword is not ignored. */
  lemma {:induction false} PostGateRemoved(category: string, ignorePreference: string)
    requires category != ""
    ensures PostGate(Some(category), ignorePreference) <==>
              ((category == "author" || category == "moderator") && !Contains(ignorePreference, "removed"))
              || (category == "reddit" && !Contains(ignorePreference, "reddit"))
              || (category == "automod_filtered" && !Contains(ignorePreference, "filtered"))
  {
  }

  /**
   * With the ignore preference unset (read as "both", which contains none
   * of the keywords), no removed post of a known category is ignored.
   */
  lemma {:induction false} DefaultIgnoresNothing(category: string)
    requires category in {"author", "moderator", "reddit", "automod_filtered"}
    ensures PostGate(Some(category), "both")
  {
    NoLeadCharNoOccurrence("both", "removed");
    NoLeadCharNoOccurrence("both", "reddit");
    NoLeadCharNoOccurrence("both", "filtered");
  }

  /**
   * Only the first selected ignore choice counts: with "filtered" then
   * "removed" selected, a post removed by a moderator still passes.
   */
  lemma {:induction false} OnlyFirstIgnoreChoiceCounts(store: Store)
    requires Get(store, "ignore-preference") == Selection(["filtered", "removed"])
    ensures GetIgnorePreference(store) == "filtered"
    ensures PostGate(Some("moderator"), GetIgnorePreference(store))
  {
    var f := "filtered";
    forall i | 0 <= i <= |f| - |"removed"| ensures !OccursAt(f, "removed", i) {
      assert f[i..i + 7][0] == f[i];
    }
  }

  /**
   * `checkPost`: the removal gate, then the list preference: the
   * whitelist, the blacklist, both (the whitelist and the blacklist must
   * each match), and false for "none" or anything else.
   */
  function CheckPost(post: Post, store: Store, userFlairText: string, userFlairID: string, m: Matcher): (r: bool)
    ensures r ==> PostGate(post.removedByCategory, GetIgnorePreference(store))
                  && GetListPreference(store) in {"whitelist", "blacklist", "both"}
  {
    if !PostGate(post.removedByCategory, GetIgnorePreference(store)) then
      false
    else
      ListDispatch(GetPostParams(post, userFlairText, userFlairID), GetListPreference(store),
                   GetListSettings(store, "wl"), GetListSettings(store, "bl"), m)
  }

  /**
   * The list-preference switch of `checkPost`: the whitelist, the
   * blacklist, or both in turn; any other preference ("none") fails.
   */
  predicate ListDispatch(p: PostParams, listPreference: string, wl: ListSettings, bl: ListSettings, m: Matcher)
  {
    if listPreference == "whitelist" then
      CheckPostParams(p, wl, listPreference, m)
    else if listPreference == "blacklist" then
      CheckPostParams(p, bl, listPreference, m)
    else if listPreference == "both" then
      CheckPostParams(p, wl, "whitelist", m) && CheckPostParams(p, bl, "blacklist", m)
    else
      false
  }

  /** The switch passes exactly when the selected lists agree: every whitelist criterion holds, no blacklist one does. */
  lemma {:induction false} ListDispatchMeaning(p: PostParams, pref: string, wl: ListSettings, bl: ListSettings, m: Matcher)
    ensures ListDispatch(p, pref, wl, bl, m) <==>
              pref in {"whitelist", "blacklist", "both"}
              && (pref != "blacklist" ==> forall c :: IsSet(wl, c) ==> Holds(p, wl, m, c))
              && (pref != "whitelist" ==> !exists c :: IsSet(bl, c) && Holds(p, bl, m, c))
  {
  }

  /**
   * A post passes `checkPost` exactly when it passes the gate and the
   * lists the preference selects: under "whitelist" and "both" every
   * configured whitelist criterion holds, under "blacklist" and "both" no
   * configured blacklist criterion holds.
   */
  lemma {:induction false} CheckPostMeaning(post: Post, store: Store, userFlairText: string, userFlairID: string, m: Matcher)
    ensures var p := GetPostParams(post, userFlairText, userFlairID);
            var pref := GetListPreference(store);
            CheckPost(post, store, userFlairText, userFlairID, m) <==>
              PostGate(post.removedByCategory, GetIgnorePreference(store))
              && pref in {"whitelist", "blacklist", "both"}
              && (pref != "blacklist" ==>
                    forall c :: IsSet(GetListSettings(store, "wl"), c) ==> Holds(p, GetListSettings(store, "wl"), m, c))
              && (pref != "whitelist" ==>
                    !exists c :: IsSet(GetListSettings(store, "bl"), c) && Holds(p, GetListSettings(store, "bl"), m, c))
  {
    ListDispatchMeaning(GetPostParams(post, userFlairText, userFlairID), GetListPreference(store),
                        GetListSettings(store, "wl"), GetListSettings(store, "bl"), m);
  }

  /** The comment was filtered: it carries a non-zero ban time stamp. */
  predicate Filtered(c: Comment)
  {
    c.bannedAtUtc.Some? && c.bannedAtUtc.value != 0
  }

  /**
   * The ignore filter of the scan: unless the preference is "none",
   * removed or spam comments are skipped under "both" and "removed", and
   * filtered ones under "both" and "filtered".
   */
  predicate SkippedByIgnore(c: Comment, ignorePreference: string)
  {
    ignorePreference != "none"
    && (((c.isRemoved || c.isSpam) && (ignorePreference == "both" || ignorePreference == "removed"))
        || (Filtered(c) && (ignorePreference == "both" || ignorePreference == "filtered")))
  }

  /**
   * Who may answer: not the app itself, nobody on the ignore list, only
   * the post's author (matched by account id) unless other authors are
   * allowed, and only top-level comments (parent "t3_…") unless replies
   * are allowed.
   */
  predicate Eligible(c: Comment, postAuthorID: string, settings: CommentSettings, appName: string)
  {
    var authorName := c.authorName.GetOr("");
    var authorID := c.authorId.GetOr("");
    authorName != appName
    && ToLower(authorName) !in settings.userIgnoreList
    && (settings.checkNonOP || authorID == postAuthorID)
    && (settings.checkNonTopLevel || StartsWith(c.parentId, "t3_"))
  }

  /** What the answer must say: match the pattern, if any, and contain a link, if required. */
  predicate BodyPasses(c: Comment, settings: CommentSettings, m: Matcher)
  {
    (settings.commentRegex.None? || m(settings.commentRegex.value, c.body))
    && (!settings.bodyLinkRequired || ContainsLink(c.body))
  }

  /** The comment is the awaited reply. */
  predicate Qualifies(c: Comment, postAuthorID: string, settings: CommentSettings, ignorePreference: string,
                      appName: string, m: Matcher)
  {
    !SkippedByIgnore(c, ignorePreference) && Eligible(c, postAuthorID, settings, appName) && BodyPasses(c, settings, m)
  }

  /** Some comment of the list qualifies. */
  predicate AnyQualifies(comments: seq<Comment>, postAuthorID: string, settings: CommentSettings,
                         ignorePreference: string, appName: string, m: Matcher)
  {
    exists k :: 0 <= k < |comments| && Qualifies(comments[k], postAuthorID, settings, ignorePreference, appName, m)
  }

  /**
   * The post already has its reply: some comment of its reply tree, in
   * pre-order, qualifies under the comment settings and the comment
   * ignore preference of the store.
   */
  predicate HasReply(post: Post, forest: seq<CommentNode>, store: Store, appName: string, m: Matcher)
  {
    AnyQualifies(PreorderForest(forest), post.authorId.GetOr(""), GetCommentSettings(store),
                 GetCommentIgnorePreference(store), appName, m)
  }

  /**
   * `checkComments`: walks the post's comments in pre-order and answers
   * true at the first qualifying one, false when there is none.
   */
  method CheckComments(post: Post, forest: seq<CommentNode>, settings: CommentSettings, ignorePreference: string,
                       appName: string, m: Matcher) returns (found: bool)
    ensures found == AnyQualifies(PreorderForest(forest), post.authorId.GetOr(""), settings, ignorePreference, appName, m)
  {
    var postAuthorID := if TruthyText(post.authorId) then post.authorId.value else "";
    var comments := FetchAllComments(forest);
    for i := 0 to |comments|
      invariant forall k :: 0 <= k < i ==> !Qualifies(comments[k], postAuthorID, settings, ignorePreference, appName, m)
    {
      var comment := comments[i];
      var isRemoved := comment.isRemoved || comment.isSpam;
      var bannedAt := comment.bannedAtUtc;
      if ignorePreference != "none" {
        if isRemoved && (ignorePreference == "both" || ignorePreference == "removed") {
          continue;
        } else if bannedAt.Some? && bannedAt.value != 0 && (ignorePreference == "both" || ignorePreference == "filtered") {
          continue;
        }
      }
      var commentAuthorName := if TruthyText(comment.authorName) then comment.authorName.value else "";
      var commentAuthorID := if TruthyText(comment.authorId) then comment.authorId.value else "";
      if commentAuthorName != appName && ToLower(commentAuthorName) !in settings.userIgnoreList
         && (settings.checkNonOP || commentAuthorID == postAuthorID)
         && (settings.checkNonTopLevel || StartsWith(comment.parentId, "t3_")) {
        var regexPass := if settings.commentRegex.Some? then m(settings.commentRegex.value, comment.body) else true;
        var bodyLinkPass := if settings.bodyLinkRequired then ContainsLink(comment.body) else true;
        if regexPass && bodyLinkPass {
          assert Qualifies(comments[i], postAuthorID, settings, ignorePreference, appName, m);
          return true;
        }
      }
    }
    return false;
  }

  /**
   * The scan finds a reply exactly when some comment anywhere in the reply
   * tree, at any depth, qualifies; a post without comments has none.
   */
  lemma {:induction false} QualifyingCommentInTree(forest: seq<CommentNode>, postAuthorID: string,
                                                    settings: CommentSettings, ignorePreference: string,
                                                    appName: string, m: Matcher)
    ensures AnyQualifies(PreorderForest(forest), postAuthorID, settings, ignorePreference, appName, m)
            <==> (exists n :: InForest(n, forest) && Qualifies(n.comment, postAuthorID, settings, ignorePreference, appName, m))
    ensures forest == [] ==> !AnyQualifies(PreorderForest(forest), postAuthorID, settings, ignorePreference, appName, m)
  {
    var flat := PreorderForest(forest);
    if exists k :: 0 <= k < |flat| && Qualifies(flat[k], postAuthorID, settings, ignorePreference, appName, m) {
      var k :| 0 <= k < |flat| && Qualifies(flat[k], postAuthorID, settings, ignorePreference, appName, m);
      PreorderForestEntries(forest, k);
    }
    if exists n :: InForest(n, forest) && Qualifies(n.comment, postAuthorID, settings, ignorePreference, appName, m) {
      var n :| InForest(n, forest) && Qualifies(n.comment, postAuthorID, settings, ignorePreference, appName, m);
      ThreadIsContiguous(n, forest);
      var i :| InfixAt(Preorder(n), flat, i);
      assert flat[i] == n.comment;
    }
  }
}
