/**
 * The event handlers of the app (src/main.tsx): the PostCreate trigger,
 * which re-reads the settings and either posts the reminder at once,
 * queues it, or leaves it, and queues the action; and the three
 * scheduled jobs `reminder`, `reminder-removal` and `action`.
 *
 * The post, its reply tree and the comment a job looks up are inputs:
 * they stand for what the platform returns for the ids in the event or
 * the job's payload.
 */
module Handlers {
  import opened Optional
  import opened Helpers
  import opened Getters
  import opened ListCheck
  import opened Effects
  import opened Reminder
  import opened Action

  /** The author's user flair as the trigger event carries it. */
  datatype UserFlair = UserFlair(text: string, templateId: string)

  /** The PostCreate event: the new post's id, when the event has a post, and the author's flair, if any. */
  datatype PostCreateEvent = PostCreateEvent(postId: Option<string>, authorFlair: Option<UserFlair>)

  /** Reminders due sooner than this many minutes are posted at once instead of being queued. */
  const InlineReminderLimit: int := 10

  /** The user flair text and template id the handler passes on: both "" without a flair. */
  function FlairText(event: PostCreateEvent): string
  {
    if event.authorFlair.Some? then event.authorFlair.value.text else ""
  }

  function FlairID(event: PostCreateEvent): string
  {
    if event.authorFlair.Some? then event.authorFlair.value.templateId else ""
  }

  /** The reminder is wanted: enabled, with a non-empty message. */
  predicate ReminderWanted(reminder: ReminderSettings)
  {
    reminder.enabled && reminder.message != ""
  }

  /** An action is configured: a non-empty kind other than "do_nothing". */
  predicate ActionWanted(action: ActionSettings)
  {
    action.action != "" && action.action != "do_nothing"
  }

  /**
   * The reminder part of PostCreate: nothing when the reminder is not
   * wanted; a queued `reminder` job when its delay is at least ten
   * minutes; otherwise what `sendReminder` does at once, which depends on
   * whether the post is still `due`.
   */
  function ReminderPart(postId: string, post: Post, reminder: ReminderSettings, due: bool,
                        userFlairText: string, userFlairID: string, commentId: string, now: int): Outcome
  {
    if !ReminderWanted(reminder) then
      Nothing
    else if reminder.delay >= InlineReminderLimit then
      Outcome([], [ScheduledJob(ReminderJob(postId, reminder.removeDelay, reminder.message, reminder.options,
                                            userFlairText, userFlairID), now + reminder.delay)])
    else
      ReminderOutcome(due, post.id, reminder.removeDelay, reminder.message, reminder.options, commentId, now)
  }

  /** The action part of PostCreate: an `action` job, `action.delay` minutes from now, when an action is configured. */
  function ActionPart(postId: string, action: ActionSettings, userFlairText: string, userFlairID: string, now: int): Outcome
  {
    if ActionWanted(action) then Outcome([], [ScheduledJob(ActionJob(postId, userFlairText, userFlairID), now + action.delay)])
    else Nothing
  }

  /**
   * What the PostCreate handler does once the post is known to pass the
   * list check (`passes`) or not: nothing if it does not; otherwise the
   * reminder part followed by the action part.
   */
  function PostCreateOutcome(postId: string, post: Post, passes: bool, reminder: ReminderSettings, action: ActionSettings,
                             due: bool, userFlairText: string, userFlairID: string, commentId: string, now: int): Outcome
  {
    if !passes then Nothing
    else Then(ReminderPart(postId, post, reminder, due, userFlairText, userFlairID, commentId, now),
              ActionPart(postId, action, userFlairText, userFlairID, now))
  }

  /**
   * The PostCreate trigger. `commentId` is the id the platform gives a
   * reminder comment posted at once.
   */
  method OnPostCreate(platform: Platform, env: Env, event: PostCreateEvent, post: Post, forest: seq<CommentNode>,
                      commentId: string)
    modifies platform
    ensures event.postId.None? ==> platform.effects == old(platform.effects) && platform.jobs == old(platform.jobs)
    ensures event.postId.Some? && !CheckPost(post, env.store, FlairText(event), FlairID(event), env.matcher) ==>
              platform.effects == old(platform.effects) && platform.jobs == old(platform.jobs)
    ensures event.postId.Some? && CheckPost(post, env.store, FlairText(event), FlairID(event), env.matcher) ==>
              var o := Then(ReminderPart(event.postId.value, post, GetReminderSettings(env.store, env.pick, ContextFor(env, post)),
                                         StillDue(env, post, forest, FlairText(event), FlairID(event)),
                                         FlairText(event), FlairID(event), commentId, env.now),
                            ActionPart(event.postId.value, GetActionSettings(env.store), FlairText(event), FlairID(event), env.now));
              platform.effects == old(platform.effects) + o.effects && platform.jobs == old(platform.jobs) + o.jobs
  {
    if event.postId.None? {
      return;
    }
    var postId := event.postId.value;
    var userFlairText := "";
    var userFlairID := "";
    if event.authorFlair.Some? {
      userFlairText := event.authorFlair.value.text;
      userFlairID := event.authorFlair.value.templateId;
    }
    HandleNewPost(platform, env, postId, post, forest, userFlairText, userFlairID, commentId);
  }

  /** PostCreate once the post id and the user flair are known: the list check, then the follow-ups. */
  method HandleNewPost(platform: Platform, env: Env, postId: string, post: Post, forest: seq<CommentNode>,
                       userFlairText: string, userFlairID: string, commentId: string)
    modifies platform
    ensures !CheckPost(post, env.store, userFlairText, userFlairID, env.matcher) ==>
              platform.effects == old(platform.effects) && platform.jobs == old(platform.jobs)
    ensures CheckPost(post, env.store, userFlairText, userFlairID, env.matcher) ==>
              var o := Then(ReminderPart(postId, post, GetReminderSettings(env.store, env.pick, ContextFor(env, post)),
                                         StillDue(env, post, forest, userFlairText, userFlairID),
                                         userFlairText, userFlairID, commentId, env.now),
                            ActionPart(postId, GetActionSettings(env.store), userFlairText, userFlairID, env.now));
              platform.effects == old(platform.effects) + o.effects && platform.jobs == old(platform.jobs) + o.jobs
  {
    var passes := CheckPost(post, env.store, userFlairText, userFlairID, env.matcher);
    if passes {
      var reminder := GetReminderSettings(env.store, env.pick, ContextFor(env, post));
      var action := GetActionSettings(env.store);
      FollowUp(platform, env, postId, post, forest, reminder, action, userFlairText, userFlairID, commentId);
    }
  }

  /** PostCreate after the list check passed: the reminder step, then the action step. */
  method FollowUp(platform: Platform, env: Env, postId: string, post: Post, forest: seq<CommentNode>,
                  reminder: ReminderSettings, action: ActionSettings, userFlairText: string, userFlairID: string,
                  commentId: string)
    modifies platform
    ensures var o := Then(ReminderPart(postId, post, reminder, StillDue(env, post, forest, userFlairText, userFlairID),
                                       userFlairText, userFlairID, commentId, env.now),
                          ActionPart(postId, action, userFlairText, userFlairID, env.now));
            platform.effects == old(platform.effects) + o.effects && platform.jobs == old(platform.jobs) + o.jobs
  {
    ghost var r := ReminderPart(postId, post, reminder, StillDue(env, post, forest, userFlairText, userFlairID),
                                userFlairText, userFlairID, commentId, env.now);
    ghost var a := ActionPart(postId, action, userFlairText, userFlairID, env.now);
    ghost var before := Outcome(platform.effects, platform.jobs);
    SendOrQueueReminder(platform, env, postId, post, forest, reminder, userFlairText, userFlairID, commentId);
    QueueAction(platform, postId, action, userFlairText, userFlairID, env.now);
    ThenAssociative(before, r, a);
  }

  /** The reminder step of PostCreate: queue it when it is due in ten minutes or more, else send it at once. */
  method SendOrQueueReminder(platform: Platform, env: Env, postId: string, post: Post, forest: seq<CommentNode>,
                             reminder: ReminderSettings, userFlairText: string, userFlairID: string, commentId: string)
    modifies platform
    ensures var o := ReminderPart(postId, post, reminder, StillDue(env, post, forest, userFlairText, userFlairID),
                                  userFlairText, userFlairID, commentId, env.now);
            platform.effects == old(platform.effects) + o.effects && platform.jobs == old(platform.jobs) + o.jobs
  {
    if reminder.enabled && reminder.message != "" {
      if reminder.delay >= InlineReminderLimit {
        platform.Schedule(ReminderJob(postId, reminder.removeDelay, reminder.message, reminder.options,
                                      userFlairText, userFlairID), env.now + reminder.delay);
      } else {
        SendReminder(platform, env, post, forest, reminder.removeDelay, reminder.message, reminder.options,
                     userFlairText, userFlairID, commentId);
      }
    }
  }

  /** The action step of PostCreate: queue the `action` job when an action is configured. */
  method QueueAction(platform: Platform, postId: string, action: ActionSettings, userFlairText: string,
                     userFlairID: string, now: int)
    modifies platform
    ensures platform.effects == old(platform.effects)
    ensures platform.jobs == old(platform.jobs) + ActionPart(postId, action, userFlairText, userFlairID, now).jobs
  {
    if action.action != "" && action.action != "do_nothing" {
      platform.Schedule(ActionJob(postId, userFlairText, userFlairID), now + action.delay);
    }
  }

  /** A post that fails the list check on creation gets no reminder and no job. */
  lemma {:induction false} FailedCheckDoesNothing(postId: string, post: Post, reminder: ReminderSettings,
                                                   action: ActionSettings, due: bool, userFlairText: string,
                                                   userFlairID: string, commentId: string, now: int)
    ensures PostCreateOutcome(postId, post, false, reminder, action, due, userFlairText, userFlairID, commentId, now) == Nothing
  {
  }

  /** The job queued for a reminder, if any. */
  predicate QueuesReminder(o: Outcome)
  {
    exists k :: 0 <= k < |o.jobs| && o.jobs[k].job.ReminderJob?
  }

  /** The job queued for an action, if any. */
  predicate QueuesAction(o: Outcome)
  {
    exists k :: 0 <= k < |o.jobs| && o.jobs[k].job.ActionJob?
  }

  /**
   * Without a wanted reminder (disabled, or an empty message) PostCreate
   * neither posts a comment nor queues a reminder.
   */
  lemma {:induction false} ReminderOnlyWhenWanted(postId: string, post: Post, passes: bool, reminder: ReminderSettings,
                                                   action: ActionSettings, due: bool, userFlairText: string,
                                                   userFlairID: string, commentId: string, now: int)
    requires !ReminderWanted(reminder)
    ensures var o := PostCreateOutcome(postId, post, passes, reminder, action, due, userFlairText, userFlairID, commentId, now);
            o.effects == [] && !QueuesReminder(o)
  {
    var o := PostCreateOutcome(postId, post, passes, reminder, action, due, userFlairText, userFlairID, commentId, now);
    if passes {
      ThenNothing(ActionPart(postId, action, userFlairText, userFlairID, now));
    }
  }

  /**
   * A wanted reminder with a delay of ten minutes or more is queued
   * exactly once, `delay` minutes from now, with the post's id, the
   * formatted message and the user flair, and nothing is posted.
   */
  lemma {:induction false} LongDelayQueuesReminder(postId: string, post: Post, reminder: ReminderSettings,
                                                    action: ActionSettings, due: bool, userFlairText: string,
                                                    userFlairID: string, commentId: string, now: int)
    requires ReminderWanted(reminder) && reminder.delay >= InlineReminderLimit
    ensures var o := PostCreateOutcome(postId, post, true, reminder, action, due, userFlairText, userFlairID, commentId, now);
            o.effects == []
            && o.jobs[0] == ScheduledJob(ReminderJob(postId, reminder.removeDelay, reminder.message, reminder.options,
                                                     userFlairText, userFlairID), now + reminder.delay)
            && forall k :: 0 < k < |o.jobs| ==> !o.jobs[k].job.ReminderJob?
  {
    var o := PostCreateOutcome(postId, post, true, reminder, action, due, userFlairText, userFlairID, commentId, now);
    var a := ActionPart(postId, action, userFlairText, userFlairID, now);
    assert o.jobs == [ScheduledJob(ReminderJob(postId, reminder.removeDelay, reminder.message, reminder.options,
                                               userFlairText, userFlairID), now + reminder.delay)] + a.jobs;
  }

  /**
   * A wanted reminder with a shorter delay is sent at once, exactly as
   * `sendReminder` would send it, and no `reminder` job is queued.
   */
  lemma {:induction false} ShortDelaySendsAtOnce(postId: string, post: Post, reminder: ReminderSettings,
                                                  action: ActionSettings, due: bool, userFlairText: string,
                                                  userFlairID: string, commentId: string, now: int)
    requires ReminderWanted(reminder) && reminder.delay < InlineReminderLimit
    ensures var o := PostCreateOutcome(postId, post, true, reminder, action, due, userFlairText, userFlairID, commentId, now);
            o.effects == ReminderOutcome(due, post.id, reminder.removeDelay, reminder.message, reminder.options, commentId, now).effects
            && !QueuesReminder(o)
  {
    var o := PostCreateOutcome(postId, post, true, reminder, action, due, userFlairText, userFlairID, commentId, now);
    var r := ReminderOutcome(due, post.id, reminder.removeDelay, reminder.message, reminder.options, commentId, now);
    var a := ActionPart(postId, action, userFlairText, userFlairID, now);
    ReminderOutcomeShape(due, post.id, reminder.removeDelay, reminder.message, reminder.options, commentId, now);
    assert o.jobs == r.jobs + a.jobs;
    forall k | 0 <= k < |o.jobs| ensures !o.jobs[k].job.ReminderJob? {
      if k < |r.jobs| {
        assert o.jobs[k] == r.jobs[k];
      } else {
        assert o.jobs[k] == a.jobs[k - |r.jobs|];
      }
    }
  }

  /**
   * An `action` job is queued, `action.delay` minutes from now, exactly
   * when the post passes and an action is configured; the action itself
   * never runs at creation: the only effects are those of a reminder
   * comment.
   */
  lemma {:induction false} ActionOnlyQueued(postId: string, post: Post, passes: bool, reminder: ReminderSettings,
                                            action: ActionSettings, due: bool, userFlairText: string,
                                            userFlairID: string, commentId: string, now: int)
    ensures var o := PostCreateOutcome(postId, post, passes, reminder, action, due, userFlairText, userFlairID, commentId, now);
            (QueuesAction(o) <==> passes && ActionWanted(action))
            && (passes && ActionWanted(action) ==>
                  o.jobs[|o.jobs| - 1] == ScheduledJob(ActionJob(postId, userFlairText, userFlairID), now + action.delay))
            && forall k :: 0 <= k < |o.effects| ==>
                 o.effects[k].AddComment? || o.effects[k].LockComment? || o.effects[k].DistinguishComment?
  {
    var o := PostCreateOutcome(postId, post, passes, reminder, action, due, userFlairText, userFlairID, commentId, now);
    if passes {
      var r := ReminderPart(postId, post, reminder, due, userFlairText, userFlairID, commentId, now);
      var a := ActionPart(postId, action, userFlairText, userFlairID, now);
      assert o.jobs == r.jobs + a.jobs && o.effects == r.effects;
      assert forall k :: 0 <= k < |r.jobs| ==> !r.jobs[k].job.ActionJob? by {
        if ReminderWanted(reminder) && reminder.delay < InlineReminderLimit {
          ReminderOutcomeShape(due, post.id, reminder.removeDelay, reminder.message, reminder.options, commentId, now);
        }
      }
      if ActionWanted(action) {
        assert o.jobs[|o.jobs| - 1] == a.jobs[0];
      } else {
        assert o.jobs == r.jobs;
      }
      if ReminderWanted(reminder) && reminder.delay < InlineReminderLimit && due {
        ModeratedCommentOrder(post.id, reminder.message, commentId, reminder.options);
        assert forall k :: 0 <= k < |r.effects| ==> k < 2 || r.effects[k] == r.effects[2];
      }
    }
  }

  /**
   * What the `reminder` job does: nothing without a post id or a message;
   * otherwise what `sendReminder` does with the payload.
   */
  function ReminderJobOutcome(data: Job, post: Post, due: bool, commentId: string, now: int): Outcome
    requires data.ReminderJob?
  {
    if data.postId == "" || data.message == "" then Nothing
    else ReminderOutcome(due, post.id, data.removeDelay, data.message, data.options, commentId, now)
  }

  /**
   * The `reminder` job. `post` is the post with the payload's id;
   * `commentId` the id the platform gives the reminder comment.
   */
  method RunReminderJob(platform: Platform, env: Env, data: Job, post: Post, forest: seq<CommentNode>, commentId: string)
    requires data.ReminderJob?
    modifies platform
    ensures var o := ReminderJobOutcome(data, post, StillDue(env, post, forest, data.userFlairText, data.userFlairID),
                                        commentId, env.now);
            platform.effects == old(platform.effects) + o.effects && platform.jobs == old(platform.jobs) + o.jobs
  {
    if data.postId == "" || data.message == "" {
      return;
    }
    SendReminder(platform, env, post, forest, data.removeDelay, data.message, data.options,
                 data.userFlairText, data.userFlairID, commentId);
  }

  /**
   * The `reminder` job does nothing without a post id or a message, or
   * when the post is no longer due; otherwise it posts the message and
   * locks it before anything else.
   */
  lemma {:induction false} ReminderJobGuards(data: Job, post: Post, due: bool, commentId: string, now: int)
    requires data.ReminderJob?
    ensures var o := ReminderJobOutcome(data, post, due, commentId, now);
            (data.postId == "" || data.message == "" || !due <==> o == Nothing)
            && (o != Nothing ==> o.effects[0] == AddComment(post.id, data.message, commentId)
                                 && o.effects[1] == LockComment(commentId))
  {
    ReminderOutcomeShape(due, post.id, data.removeDelay, data.message, data.options, commentId, now);
  }

  /**
   * What the `reminder-removal` job does to the comment it looks up: no
   * id, or a comment already removed, marked as spam or filtered, means
   * nothing; otherwise the comment is removed (not as spam).
   */
  function RemovalEffectsFor(commentId: string, comment: Comment): seq<Effect>
  {
    if commentId == "" || comment.isRemoved || comment.isSpam || Filtered(comment) then []
    else [RemoveComment(comment.id)]
  }

  /** The `reminder-removal` job. `comment` is the comment with the payload's id. */
  method RunReminderRemovalJob(platform: Platform, data: Job, comment: Comment)
    requires data.ReminderRemovalJob?
    modifies platform
    ensures platform.effects == old(platform.effects) + RemovalEffectsFor(data.commentId, comment)
    ensures platform.jobs == old(platform.jobs)
  {
    if data.commentId == "" {
      return;
    }
    if comment.isRemoved || comment.isSpam || (comment.bannedAtUtc.Some? && comment.bannedAtUtc.value != 0) {
      return;
    }
    platform.Emit(RemoveComment(comment.id));
  }

  /**
   * The removal is idempotent: it removes at most once, and once the
   * comment is removed a second run does nothing.
   */
  lemma {:induction false} RemovalIdempotent(commentId: string, comment: Comment)
    ensures |RemovalEffectsFor(commentId, comment)| <= 1
    ensures RemovalEffectsFor(commentId, comment.(isRemoved := true)) == []
    ensures RemovalEffectsFor(commentId, comment) != [] <==>
              commentId != "" && !comment.isRemoved && !comment.isSpam && !Filtered(comment)
  {
  }

  /**
   * The `action` job. `post` is the post with the payload's id;
   * `commentId` and `conversationId` the ids the platform gives the
   * notice comment and the modmail conversation.
   */
  method RunActionJob(platform: Platform, env: Env, data: Job, post: Post, forest: seq<CommentNode>,
                      commentId: string, conversationId: string)
    requires data.ActionJob?
    modifies platform
    ensures data.postId == "" || !StillDue(env, post, forest, data.userFlairText, data.userFlairID) ==>
              platform.effects == old(platform.effects)
    ensures data.postId != "" && StillDue(env, post, forest, data.userFlairText, data.userFlairID) ==>
              platform.effects == old(platform.effects)
                                  + ActionEffects(env, GetActionSettings(env.store), post, commentId, conversationId)
    ensures platform.jobs == old(platform.jobs)
  {
    if data.postId == "" {
      return;
    }
    var due := IsStillDue(env, post, forest, data.userFlairText, data.userFlairID);
    if !due {
      return;
    }
    ExecuteAction(platform, env, post, commentId, conversationId);
  }
}
