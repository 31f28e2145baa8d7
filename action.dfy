/**
 * `executeAction` (src/actions/action.tsx): what happens to a post that
 * never got its reply. "flair" sets a post flair, "remove" removes the
 * post (with a removal reason and a notice when one is named); a flair
 * template or removal reason that cannot be found, and every other action
 * kind, end in a report instead.
 */
module Action {
  import opened Optional
  import opened Strings
  import opened Helpers
  import opened Getters
  import opened MessageFormat
  import opened Effects

  /** The first removal reason with exactly the given title, if any (`find`). */
  function FindReason(reasons: seq<RemovalReason>, title: string): (r: Option<RemovalReason>)
    ensures r.None? <==> forall k :: 0 <= k < |reasons| ==> reasons[k].title != title
    ensures r.Some? ==> exists k :: 0 <= k < |reasons| && reasons[k] == r.value && r.value.title == title
                                    && forall j :: 0 <= j < k ==> reasons[j].title != title
  {
    if |reasons| == 0 then None
    else if reasons[0].title == title then Some(reasons[0])
    else
      var r := FindReason(reasons[1..], title);
      assert r.Some? ==> exists k :: 0 <= k < |reasons| && reasons[k] == r.value && r.value.title == title
                                     && forall j :: 0 <= j < k ==> reasons[j].title != title by {
        if r.Some? {
          var k :| 0 <= k < |reasons[1..]| && reasons[1..][k] == r.value && r.value.title == title
                   && forall j :: 0 <= j < k ==> reasons[1..][j].title != title;
          assert reasons[k + 1] == r.value;
          assert forall j :: 1 <= j < k + 1 ==> reasons[j].title != title by {
            forall j | 1 <= j < k + 1 ensures reasons[j].title != title {
              assert reasons[1..][j - 1] == reasons[j];
            }
          }
        }
      }
      assert r.None? ==> forall k :: 0 <= k < |reasons| ==> reasons[k].title != title by {
        if r.None? {
          forall k | 0 <= k < |reasons| ensures reasons[k].title != title {
            if k > 0 {
              assert reasons[1..][k - 1] == reasons[k];
            }
          }
        }
      }
      r
  }

  /** The text of the bot's report: "<app>: <reason>", or the app's name alone when there is no reason. */
  function ReportReasonText(appName: string, reason: string): (r: string)
    ensures StartsWith(r, appName)
    ensures reason == "" ==> r == appName
    ensures reason != "" ==> r[|appName|..] == ": " + reason
  {
    var r := if reason != "" then appName + ": " + reason else appName;
    assert r[..|appName|] == appName;
    r
  }

  /** The reason reported when the action could not be carried out, or the configured one otherwise. */
  function FallbackReason(settings: ActionSettings): string
  {
    if settings.action == "flair" then "invalid change flair ID"
    else if settings.action == "remove" then "invalid removal reason"
    else settings.reportReason
  }

  /** The subject of the removal modmail. */
  function ModmailSubject(subredditName: string): string
  {
    "Your post from " + subredditName + " was removed"
  }

  /**
   * The notice after a removal with a reason: a moderated comment with the
   * formatted reason message, or a modmail from the moderators (archived
   * when archiving is on and the conversation has an id), or nothing.
   */
  function NoticeEffects(env: Env, post: Post, settings: ActionSettings, reason: RemovalReason,
                         commentId: string, conversationId: string): seq<Effect>
  {
    if settings.notifyUserVia == "comment" then
      ModeratedComment(post.id, FormatMessage(reason.message, [], 0, ContextFor(env, post)), commentId, settings.options)
    else if settings.notifyUserVia == "modmail" then
      [CreateModmail(post.subredditName, post.authorName, ModmailSubject(post.subredditName),
                     FormatMail(post, env.subreddit.description, reason.title, reason.message), true)]
      + (if conversationId != "" && settings.archiveModmail then [ArchiveModmail(conversationId)] else [])
    else
      []
  }

  /** A removal with a reason: the post is removed, the reason noted for the moderators, then the notice. */
  function RemovalEffects(env: Env, post: Post, settings: ActionSettings, reason: RemovalReason,
                          commentId: string, conversationId: string): seq<Effect>
  {
    [RemovePost(post.id), AddRemovalNote(post.id, reason.id, "automated removal by " + env.appName)]
    + NoticeEffects(env, post, settings, reason, commentId, conversationId)
  }

  /**
   * What `executeAction` does, as a list of API calls: the flair, the
   * removal (with note and notice when a reason is found), or a report.
   * `commentId` and `conversationId` are the ids the platform gives the
   * notice comment and the modmail conversation.
   */
  function ActionEffects(env: Env, settings: ActionSettings, post: Post, commentId: string, conversationId: string): seq<Effect>
  {
    var reason := FindReason(env.removalReasons, settings.removalReason);
    if settings.action == "flair" && settings.changeFlairID in env.flairTemplateIds then
      [SetPostFlair(post.subredditName, post.id, settings.changeFlairID)]
    else if settings.action == "remove" && settings.removalReason == "" then
      [RemovePost(post.id)]
    else if settings.action == "remove" && reason.Some? then
      RemovalEffects(env, post, settings, reason.value, commentId, conversationId)
    else
      [Report(post.id, ReportReasonText(env.appName, FallbackReason(settings)))]
  }

  /** `executeAction`: reads the action settings, then carries the action out. */
  method ExecuteAction(platform: Platform, env: Env, post: Post, commentId: string, conversationId: string)
    modifies platform
    ensures platform.effects == old(platform.effects)
                                + ActionEffects(env, GetActionSettings(env.store), post, commentId, conversationId)
    ensures platform.jobs == old(platform.jobs)
  {
    var settings := GetActionSettings(env.store);
    PerformAction(platform, env, settings, post, commentId, conversationId);
  }

  /** The body of `executeAction` under the given action settings. */
  method PerformAction(platform: Platform, env: Env, settings: ActionSettings, post: Post,
                       commentId: string, conversationId: string)
    modifies platform
    ensures platform.effects == old(platform.effects) + ActionEffects(env, settings, post, commentId, conversationId)
    ensures platform.jobs == old(platform.jobs)
  {
    var reportReason := settings.reportReason;
    if settings.action == "flair" {
      if settings.changeFlairID in env.flairTemplateIds {
        platform.Emit(SetPostFlair(post.subredditName, post.id, settings.changeFlairID));
        return;
      } else {
        reportReason := "invalid change flair ID";
      }
    } else if settings.action == "remove" {
      if settings.removalReason != "" {
        var removalReason := FindReason(env.removalReasons, settings.removalReason);
        if removalReason.Some? {
          RemoveWithNotice(platform, env, post, settings, removalReason.value, commentId, conversationId);
          return;
        } else {
          reportReason := "invalid removal reason";
        }
      } else {
        platform.Emit(RemovePost(post.id));
        return;
      }
    }
    reportReason := if reportReason != "" then env.appName + ": " + reportReason else env.appName;
    platform.Emit(Report(post.id, reportReason));
  }

  /** The removal with a reason that exists: the removal, its note, then the notice. */
  method RemoveWithNotice(platform: Platform, env: Env, post: Post, settings: ActionSettings, reason: RemovalReason,
                          commentId: string, conversationId: string)
    modifies platform
    ensures platform.effects == old(platform.effects)
                                + RemovalEffects(env, post, settings, reason, commentId, conversationId)
    ensures platform.jobs == old(platform.jobs)
  {
    platform.Emit(RemovePost(post.id));
    platform.Emit(AddRemovalNote(post.id, reason.id, "automated removal by " + env.appName));
    Notify(platform, env, post, settings, reason, commentId, conversationId);
  }

  /** The notice after a removal with a reason: the comment or the modmail, as configured. */
  method Notify(platform: Platform, env: Env, post: Post, settings: ActionSettings, reason: RemovalReason,
                commentId: string, conversationId: string)
    modifies platform
    ensures platform.effects == old(platform.effects) + NoticeEffects(env, post, settings, reason, commentId, conversationId)
    ensures platform.jobs == old(platform.jobs)
  {
    var commentMessage := FormatMessage(reason.message, [], 0, ContextFor(env, post));
    if settings.notifyUserVia == "comment" {
      PostModeratedComment(platform, post.id, commentMessage, commentId, settings.options);
    } else if settings.notifyUserVia == "modmail" {
      platform.Emit(CreateModmail(post.subredditName, post.authorName, ModmailSubject(post.subredditName),
                                  FormatMail(post, env.subreddit.description, reason.title, reason.message), true));
      if conversationId != "" && settings.archiveModmail {
        platform.Emit(ArchiveModmail(conversationId));
      }
    }
  }

  /** When the action is neither a known flair, a plain removal nor a removal with a found reason, it is one report. */
  lemma {:induction false} ReportBranch(env: Env, settings: ActionSettings, post: Post, commentId: string, conversationId: string)
    requires !(settings.action == "flair" && settings.changeFlairID in env.flairTemplateIds)
    requires !(settings.action == "remove" && settings.removalReason == "")
    requires !(settings.action == "remove" && FindReason(env.removalReasons, settings.removalReason).Some?)
    ensures ActionEffects(env, settings, post, commentId, conversationId)
            == [Report(post.id, ReportReasonText(env.appName, FallbackReason(settings)))]
  {
  }

  /** No report is among the effects. */
  predicate NoReport(es: seq<Effect>)
  {
    forall k :: 0 <= k < |es| ==> !es[k].Report?
  }

  /** "flair" with a known template sets exactly that flair and reports nothing. */
  lemma {:induction false} FlairKnownSetsFlair(env: Env, settings: ActionSettings, post: Post, commentId: string, conversationId: string)
    requires settings.action == "flair"
    requires settings.changeFlairID in env.flairTemplateIds
    ensures ActionEffects(env, settings, post, commentId, conversationId)
            == [SetPostFlair(post.subredditName, post.id, settings.changeFlairID)]
  {
  }

  /** "flair" with an unknown template files one report, "<app>: invalid change flair ID". */
  lemma {:induction false} FlairUnknownReports(env: Env, settings: ActionSettings, post: Post, commentId: string, conversationId: string)
    requires settings.action == "flair"
    requires settings.changeFlairID !in env.flairTemplateIds
    ensures ActionEffects(env, settings, post, commentId, conversationId)
            == [Report(post.id, env.appName + ": invalid change flair ID")]
  {
    assert ReportReasonText(env.appName, "invalid change flair ID") == env.appName + ": invalid change flair ID";
  }

  /** "remove" without a removal reason name removes the post and reports nothing. */
  lemma {:induction false} RemoveWithoutReason(env: Env, settings: ActionSettings, post: Post, commentId: string, conversationId: string)
    requires settings.action == "remove"
    requires settings.removalReason == ""
    ensures ActionEffects(env, settings, post, commentId, conversationId) == [RemovePost(post.id)]
  {
  }

  /** "remove" naming a reason that does not exist leaves the post up and reports "<app>: invalid removal reason". */
  lemma {:induction false} RemoveUnknownReasonReports(env: Env, settings: ActionSettings, post: Post, commentId: string, conversationId: string)
    requires settings.action == "remove"
    requires settings.removalReason != ""
    requires forall k :: 0 <= k < |env.removalReasons| ==>
               env.removalReasons[k].title != settings.removalReason
    ensures ActionEffects(env, settings, post, commentId, conversationId)
            == [Report(post.id, env.appName + ": invalid removal reason")]
  {
    assert FindReason(env.removalReasons, settings.removalReason).None?;
    ReportBranch(env, settings, post, commentId, conversationId);
    assert ReportReasonText(env.appName, "invalid removal reason") == env.appName + ": invalid removal reason";
  }

  /** "remove" naming a reason that exists does what `RemovalEffects` says with the first reason of that title. */
  lemma {:induction false} RemovalBranch(env: Env, settings: ActionSettings, post: Post, commentId: string, conversationId: string)
    requires settings.action == "remove" && settings.removalReason != ""
    requires FindReason(env.removalReasons, settings.removalReason).Some?
    ensures ActionEffects(env, settings, post, commentId, conversationId)
            == RemovalEffects(env, post, settings, FindReason(env.removalReasons, settings.removalReason).value,
                              commentId, conversationId)
  {
  }

  /**
   * The notice never reports, and it archives only a modmail conversation
   * that has an id, with archiving on.
   */
  lemma {:induction false} NoticeNeverReports(env: Env, post: Post, settings: ActionSettings, reason: RemovalReason,
                                              commentId: string, conversationId: string)
    ensures var notice := NoticeEffects(env, post, settings, reason, commentId, conversationId);
            NoReport(notice)
            && (forall k :: 0 <= k < |notice| && notice[k].ArchiveModmail? ==>
                  conversationId != "" && settings.archiveModmail && settings.notifyUserVia == "modmail")
  {
    if settings.notifyUserVia == "comment" {
      ModeratedCommentOrder(post.id, FormatMessage(reason.message, [], 0, ContextFor(env, post)), commentId, settings.options);
    }
  }

  /**
   * "remove" with a reason that exists removes the post, adds a removal
   * note with that reason's id, notifies as configured, and reports
   * nothing.
   */
  lemma {:induction false} RemoveWithReason(env: Env, settings: ActionSettings, post: Post, commentId: string, conversationId: string, k: int)
    requires settings.action == "remove"
    requires 0 <= k < |env.removalReasons|
    requires env.removalReasons[k].title == settings.removalReason != ""
    ensures var es := ActionEffects(env, settings, post, commentId, conversationId);
            |es| >= 2 && es[0] == RemovePost(post.id) && es[1].AddRemovalNote? && es[1].postId == post.id
            && es[1].modNote == "automated removal by " + env.appName
            && (exists j :: 0 <= j < |env.removalReasons| && es[1].reasonId == env.removalReasons[j].id
                            && env.removalReasons[j].title == settings.removalReason)
            && NoReport(es)
  {
    var reason := FindReason(env.removalReasons, settings.removalReason);
    assert reason.Some?;
    RemovalBranch(env, settings, post, commentId, conversationId);
    NoticeNeverReports(env, post, settings, reason.value, commentId, conversationId);
    var es := ActionEffects(env, settings, post, commentId, conversationId);
    var notice := NoticeEffects(env, post, settings, reason.value, commentId, conversationId);
    forall i | 2 <= i < |es| ensures !es[i].Report? {
      assert es[i] == notice[i - 2];
    }
  }

  /** The modmail conversation is archived only when it has an id and archiving is on. */
  lemma {:induction false} ArchiveOnlyWhenEnabled(env: Env, settings: ActionSettings, post: Post, commentId: string, conversationId: string)
    requires exists k :: 0 <= k < |ActionEffects(env, settings, post, commentId, conversationId)| &&
                         ActionEffects(env, settings, post, commentId, conversationId)[k].ArchiveModmail?
    ensures conversationId != "" && settings.archiveModmail
    ensures settings.notifyUserVia == "modmail"
  {
    var es := ActionEffects(env, settings, post, commentId, conversationId);
    var reason := FindReason(env.removalReasons, settings.removalReason);
    if settings.action == "remove" && settings.removalReason != "" && reason.Some? {
      RemovalBranch(env, settings, post, commentId, conversationId);
      NoticeNeverReports(env, post, settings, reason.value, commentId, conversationId);
      var notice := NoticeEffects(env, post, settings, reason.value, commentId, conversationId);
      var k :| 0 <= k < |es| && es[k].ArchiveModmail?;
      assert es[k] == notice[k - 2];
    }
  }

  /** Any action kind other than "flair" and "remove" ends in one report with the configured reason. */
  lemma {:induction false} OtherActionsReport(env: Env, settings: ActionSettings, post: Post, commentId: string, conversationId: string)
    requires settings.action != "flair" && settings.action != "remove"
    ensures ActionEffects(env, settings, post, commentId, conversationId)
            == [Report(post.id, ReportReasonText(env.appName, settings.reportReason))]
  {
  }
}
