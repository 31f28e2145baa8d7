/**
 * What the bot does to the outside world, recorded instead of performed:
 * every call into the Reddit API that changes something becomes an
 * `Effect` in the platform's log, and every `scheduler.runJob` a
 * `ScheduledJob` in its queue. The values the handlers read from the
 * platform (settings, the app's name, the clock, looked-up templates and
 * removal reasons) arrive in an `Env`.
 */
module Effects {
  import opened Optional
  import opened Helpers
  import opened Getters
  import opened MessageFormat

  /** An observable change made through the Reddit API. */
  datatype Effect =
    | AddComment(postId: string, text: string, commentId: string)
    | LockComment(commentId: string)
    | DistinguishComment(commentId: string, sticky: bool)
    | RemoveComment(commentId: string)
    | RemovePost(postId: string)
    | AddRemovalNote(postId: string, reasonId: string, modNote: string)
    | SetPostFlair(subredditName: string, postId: string, flairTemplateId: string)
    | Report(postId: string, reason: string)
    | CreateModmail(subredditName: string, to: string, subject: string, body: string, isAuthorHidden: bool)
    | ArchiveModmail(conversationId: string)

  /** The payload of a scheduled job; a field the payload lacks reads as "". */
  datatype Job =
    | ReminderJob(postId: string, removeDelay: int, message: string, options: seq<string>,
                  userFlairText: string, userFlairID: string)
    | ReminderRemovalJob(commentId: string)
    | ActionJob(postId: string, userFlairText: string, userFlairID: string)

  /** A job together with the minute it is due. */
  datatype ScheduledJob = ScheduledJob(job: Job, runAt: int)

  /** What one handler run adds: effects to the log and jobs to the queue. */
  datatype Outcome = Outcome(effects: seq<Effect>, jobs: seq<ScheduledJob>)

  /** A run that does nothing observable. */
  const Nothing: Outcome := Outcome([], [])

  /** One run followed by another. */
  function Then(a: Outcome, b: Outcome): (r: Outcome)
    ensures r.effects == a.effects + b.effects && r.jobs == a.jobs + b.jobs
  {
    Outcome(a.effects + b.effects, a.jobs + b.jobs)
  }

  /** Doing nothing before or after a run changes nothing. */
  lemma ThenNothing(a: Outcome)
    ensures Then(Nothing, a) == a && Then(a, Nothing) == a
  {
  }

  /** Runs compose associatively: three runs in a row are the same however they are grouped. */
  lemma ThenAssociative(a: Outcome, b: Outcome, c: Outcome)
    ensures Then(Then(a, b), c) == Then(a, Then(b, c))
  {
  }

  /** A removal reason template of the community. */
  datatype RemovalReason = RemovalReason(id: string, title: string, message: string)

  /**
   * What a handler reads from the platform: the settings store, the app's
   * account name, the user-pattern engine, the current minute, the random
   * draw for `{{random}}`, the current community, the post author's flair,
   * the host name of the post's URL, the community's post flair template
   * ids and its removal reasons.
   */
  datatype Env = Env(
    store: Store,
    appName: string,
    matcher: Matcher,
    now: int,
    pick: nat,
    subreddit: Subreddit,
    authorFlair: Option<AuthorFlair>,
    domain: string,
    flairTemplateIds: seq<string>,
    removalReasons: seq<RemovalReason>)

  /** The formatter's view of a post in this environment. */
  function ContextFor(env: Env, post: Post): (ctx: FormatContext)
    ensures ctx.post == post && ctx.subreddit == env.subreddit
  {
    FormatContext(post, env.subreddit, env.authorFlair, env.domain)
  }

  /** The platform: the log of effects so far and the queue of scheduled jobs. */
  class Platform {
    var effects: seq<Effect>
    var jobs: seq<ScheduledJob>

    constructor ()
      ensures effects == [] && jobs == []
    {
      effects := [];
      jobs := [];
    }

    /** Performs one API call. */
    method Emit(e: Effect)
      modifies this
      ensures effects == old(effects) + [e]
      ensures jobs == old(jobs)
    {
      effects := effects + [e];
    }

    /** `scheduler.runJob`. */
    method Schedule(job: Job, runAt: int)
      modifies this
      ensures jobs == old(jobs) + [ScheduledJob(job, runAt)]
      ensures effects == old(effects)
    {
      jobs := jobs + [ScheduledJob(job, runAt)];
    }
  }

  /**
   * The moderator options of a bot comment: sticky (which also
   * distinguishes) when "sticky" is selected, else a plain distinguish
   * when "distinguish" is, else nothing.
   */
  function DistinguishEffects(commentId: string, options: seq<string>): (r: seq<Effect>)
    ensures |r| <= 1
    ensures r == [] <==> "sticky" !in options && "distinguish" !in options
    ensures |r| == 1 ==> r[0] == DistinguishComment(commentId, "sticky" in options)
  {
    if |options| > 0 then
      if "sticky" in options then [DistinguishComment(commentId, true)]
      else if "distinguish" in options then [DistinguishComment(commentId, false)]
      else []
    else
      []
  }

  /** A bot comment: posted, locked, then distinguished as its options say. */
  function ModeratedComment(postId: string, text: string, commentId: string, options: seq<string>): seq<Effect>
  {
    [AddComment(postId, text, commentId), LockComment(commentId)] + DistinguishEffects(commentId, options)
  }

  /**
   * A bot comment is posted with the given text and locked before any
   * distinguish call, and it is distinguished at most once.
   */
  lemma {:induction false} ModeratedCommentOrder(postId: string, text: string, commentId: string, options: seq<string>)
    ensures var es := ModeratedComment(postId, text, commentId, options);
            2 <= |es| <= 3 && es[0] == AddComment(postId, text, commentId) && es[1] == LockComment(commentId)
            && (forall k :: 0 <= k < |es| && es[k].DistinguishComment? ==> k == 2)
            && (options == [] ==> |es| == 2)
  {
  }

  /**
   * Posts a bot comment: `addComment`, `lock`, then the distinguish rule.
   */
  method PostModeratedComment(platform: Platform, postId: string, text: string, commentId: string, options: seq<string>)
    modifies platform
    ensures platform.effects == old(platform.effects) + ModeratedComment(postId, text, commentId, options)
    ensures platform.jobs == old(platform.jobs)
  {
    platform.Emit(AddComment(postId, text, commentId));
    platform.Emit(LockComment(commentId));
    if |options| > 0 {
      if "sticky" in options {
        platform.Emit(DistinguishComment(commentId, true));
      } else if "distinguish" in options {
        platform.Emit(DistinguishComment(commentId, false));
      }
    }
  }
}
