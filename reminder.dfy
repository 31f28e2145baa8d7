/**
 * `sendReminder` (src/actions/reminder.tsx): re-check the post, then post
 * the reminder comment, lock it, distinguish it as the options say, and
 * schedule its removal when a removal delay is set.
 */
module Reminder {
  import opened Helpers
  import opened Getters
  import opened ListCheck
  import opened Effects

  /**
   * A reminder or an action is still due: the post still passes the list
   * check and nobody has given the awaited reply.
   */
  predicate StillDue(env: Env, post: Post, forest: seq<CommentNode>, userFlairText: string, userFlairID: string)
  {
    CheckPost(post, env.store, userFlairText, userFlairID, env.matcher)
    && !HasReply(post, forest, env.store, env.appName, env.matcher)
  }

  /** The removal of the reminder `commentId`, `removeDelay` minutes from now, when that delay is positive. */
  function RemovalJobs(removeDelay: int, commentId: string, now: int): (r: seq<ScheduledJob>)
    ensures |r| <= 1
    ensures |r| == 1 <==> removeDelay > 0
    ensures |r| == 1 ==> r[0].job == ReminderRemovalJob(commentId) && r[0].runAt == now + removeDelay
  {
    if removeDelay > 0 then [ScheduledJob(ReminderRemovalJob(commentId), now + removeDelay)] else []
  }

  /**
   * What `sendReminder` does once it knows whether the post is still
   * `due`: nothing when it is not; otherwise the reminder `message` as a
   * moderated comment (the platform gives it the id `commentId`) and,
   * with a positive removal delay, its scheduled removal.
   */
  function ReminderOutcome(due: bool, postId: string, removeDelay: int, message: string, options: seq<string>,
                           commentId: string, now: int): Outcome
  {
    if due then Outcome(ModeratedComment(postId, message, commentId, options), RemovalJobs(removeDelay, commentId, now))
    else Nothing
  }

  /**
   * A reminder that is no longer due does nothing; one that is due posts
   * the message first and locks it, and schedules at most one job, the
   * removal of that comment, only when the removal delay is positive.
   */
  lemma {:induction false} ReminderOutcomeShape(due: bool, postId: string, removeDelay: int, message: string, options: seq<string>,
                             commentId: string, now: int)
    ensures var o := ReminderOutcome(due, postId, removeDelay, message, options, commentId, now);
            (!due ==> o == Nothing)
            && (due ==> |o.effects| >= 2 && o.effects[0] == AddComment(postId, message, commentId)
                        && o.effects[1] == LockComment(commentId))
            && |o.jobs| <= 1
            && (|o.jobs| == 1 ==> removeDelay > 0 && o.jobs[0] == ScheduledJob(ReminderRemovalJob(commentId), now + removeDelay))
  {
  }

  /** `sendReminder`. */
  method SendReminder(platform: Platform, env: Env, post: Post, forest: seq<CommentNode>, removeDelay: int,
                      message: string, options: seq<string>, userFlairText: string, userFlairID: string,
                      commentId: string)
    modifies platform
    ensures var o := ReminderOutcome(StillDue(env, post, forest, userFlairText, userFlairID), post.id, removeDelay,
                                     message, options, commentId, env.now);
            platform.effects == old(platform.effects) + o.effects && platform.jobs == old(platform.jobs) + o.jobs
  {
    var due := IsStillDue(env, post, forest, userFlairText, userFlairID);
    if due {
      PostReminder(platform, post.id, message, commentId, options, removeDelay, env.now);
    }
  }

  /**
   * The two re-checks of `sendReminder` (and of the `action` job): the
   * post still matches the lists, and the scan of its comments finds no
   * reply.
   */
  method IsStillDue(env: Env, post: Post, forest: seq<CommentNode>, userFlairText: string, userFlairID: string)
    returns (due: bool)
    ensures due == StillDue(env, post, forest, userFlairText, userFlairID)
  {
    var matches := CheckPost(post, env.store, userFlairText, userFlairID, env.matcher);
    if !matches {
      return false;
    }
    var replied := CheckComments(post, forest, GetCommentSettings(env.store), GetCommentIgnorePreference(env.store),
                                 env.appName, env.matcher);
    return !replied;
  }

  /** The due branch of `sendReminder`: the moderated comment, then its scheduled removal when the delay is positive. */
  method PostReminder(platform: Platform, postId: string, message: string, commentId: string, options: seq<string>,
                      removeDelay: int, now: int)
    modifies platform
    ensures platform.effects == old(platform.effects) + ModeratedComment(postId, message, commentId, options)
    ensures platform.jobs == old(platform.jobs) + RemovalJobs(removeDelay, commentId, now)
  {
    PostModeratedComment(platform, postId, message, commentId, options);
    if removeDelay > 0 {
      platform.Schedule(ReminderRemovalJob(commentId), now + removeDelay);
    }
  }
}
