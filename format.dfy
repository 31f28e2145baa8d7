/**
 * Outgoing text: the reminder / removal-reason formatter
 * (src/settings/format_message.tsx) and the removal modmail body
 * (src/actions/format_mail.tsx). The values the source fetches from the
 * platform (the current subreddit, the author's user flair, the domain
 * of the post's URL) arrive in a `FormatContext`.
 */
module MessageFormat {
  import opened Optional
  import opened Strings
  import opened Helpers

  /** The community the app runs in, as the platform reports it. */
  datatype Subreddit = Subreddit(name: string, description: Option<string>)

  /** The post author's user flair in the community, when the author and the flair exist. */
  datatype AuthorFlair = AuthorFlair(flairText: Option<string>, flairCssClass: Option<string>)

  /**
   * Everything the formatter reads besides the message: the post, the
   * current community, the author's flair, and the host name of the
   * post's URL ("" when the URL does not parse).
   */
  datatype FormatContext = FormatContext(
    post: Post,
    subreddit: Subreddit,
    authorFlair: Option<AuthorFlair>,
    domain: string)

  const RandomPlaceholder: string := "{{random}}"

  /** The disclosure footer up to the community's name in the contact link. */
  const FooterHead: string :=
    "\n\n---\n*I am a bot, and this action was performed automatically. "
    + "Please [contact the moderators of this subreddit](https://www.reddit.com/message/compose/?to=/r/"

  /** The rest of the disclosure footer. */
  const FooterTail: string := ") if you have any questions or concerns.*"

  /** The disclosure footer appended to every formatted message. */
  function Footer(subredditName: string): string
  {
    FooterHead + subredditName + FooterTail
  }

  /** The footer names the community whose moderators the reader should contact. */
  lemma {:induction false} FooterNamesSubreddit(subredditName: string)
    ensures Contains(Footer(subredditName), subredditName)
  {
    var head := FooterHead;
    var f := Footer(subredditName);
    assert f[|head|..|head| + |subredditName|] == subredditName;
    assert OccursAt(f, subredditName, |head|);
  }

  /**
   * The `{{random}}` step: when the placeholder occurs and the pool is not
   * empty, every occurrence is replaced by the pool element at `index`
   * (the source draws it uniformly); otherwise the message is left as it
   * is.
   */
  function ApplyRandom(message: string, pool: seq<string>, index: nat): string
    requires |pool| > 0 ==> index < |pool|
  {
    if Contains(message, RandomPlaceholder) && |pool| > 0 then
      ReplaceAll(message, RandomPlaceholder, pool[index])
    else
      message
  }

  /**
   * Every `{{random}}` of the message becomes one and the same element of
   * the pool; a message without the placeholder, or an empty pool, leaves
   * the message as it is.
   */
  lemma {:induction false} ApplyRandomPicksFromPool(message: string, pool: seq<string>, index: nat)
    requires |pool| > 0 ==> index < |pool|
    ensures !(Contains(message, RandomPlaceholder) && |pool| > 0) ==> ApplyRandom(message, pool, index) == message
    ensures Contains(message, RandomPlaceholder) && |pool| > 0 ==>
              exists v :: v in pool && ApplyRandom(message, pool, index) == Join(Split(message, RandomPlaceholder), v)
  {
    if Contains(message, RandomPlaceholder) && |pool| > 0 {
      assert pool[index] in pool;
    }
  }

  /** The four single-brace community placeholders, shared by both formatters. */
  function CommunitySubstitutions(subredditName: string, description: Option<string>): seq<(string, string)>
  {
    [ ("{community_name}", subredditName),
      ("{community_link}", "r/" + subredditName),
      ("{community_description}", description.GetOr("")),
      ("{community_rules_url}", "https://www.reddit.com/r/" + subredditName + "/about/rules") ]
  }

  /** The placeholder chain of `formatMessage`, in the order the source applies it. */
  function Substitutions(ctx: FormatContext): seq<(string, string)>
  {
    var flairText := if ctx.authorFlair.Some? then ctx.authorFlair.value.flairText.GetOr("") else "";
    var flairCss := if ctx.authorFlair.Some? then ctx.authorFlair.value.flairCssClass.GetOr("") else "";
    [ ("{{author}}", ctx.post.authorName),
      ("{{author_flair_text}}", flairText),
      ("{{author_flair_css_class}}", flairCss),
      ("{{author_flair_template_id}}", ""),
      ("{{body}}", ctx.post.body.GetOr("")),
      ("{{permalink}}", ctx.post.permalink),
      ("{{subreddit}}", ctx.subreddit.name),
      ("{{kind}}", "submission"),
      ("{{title}}", ctx.post.title),
      ("{{domain}}", ctx.domain),
      ("{{url}}", ctx.post.url),
      ("{{media_author}}", ""),
      ("{{media_author_url}}", ""),
      ("{{media_title}}", ""),
      ("{{media_description}}", "") ]
    + CommunitySubstitutions(ctx.post.subredditName, ctx.subreddit.description)
  }

  /** Every placeholder of the chain starts with a brace. */
  lemma {:induction false} PlaceholdersStartWithBrace(ctx: FormatContext)
    ensures forall k :: 0 <= k < |Substitutions(ctx)| ==>
              |Substitutions(ctx)[k].0| > 0 && Substitutions(ctx)[k].0[0] == '{'
  {
  }

  /** The media placeholders and the author flair template id always become "". */
  lemma {:induction false} UnimplementedPlaceholdersAreEmpty(ctx: FormatContext)
    ensures forall k :: 0 <= k < |Substitutions(ctx)| &&
              Substitutions(ctx)[k].0 in ["{{author_flair_template_id}}", "{{media_author}}",
                                          "{{media_author_url}}", "{{media_title}}", "{{media_description}}"]
              ==> Substitutions(ctx)[k].1 == ""
  {
  }

  /** `formatMessage`: the `{{random}}` step, then the placeholder chain, then the footer. */
  function FormatMessage(message: string, pool: seq<string>, index: nat, ctx: FormatContext): string
    requires |pool| > 0 ==> index < |pool|
  {
    FillPlaceholders(message, pool, index, ctx) + Footer(ctx.post.subredditName)
  }

  /** The `{{random}}` step followed by the placeholder chain. */
  function FillPlaceholders(message: string, pool: seq<string>, index: nat, ctx: FormatContext): string
    requires |pool| > 0 ==> index < |pool|
  {
    ReplaceEach(ApplyRandom(message, pool, index), Substitutions(ctx))
  }

  /**
   * A formatted message always ends with the footer naming the community,
   * and a message without any brace passes through with only the footer
   * added.
   */
  lemma {:induction false} FormatMessageAddsFooter(message: string, pool: seq<string>, index: nat, ctx: FormatContext)
    requires |pool| > 0 ==> index < |pool|
    ensures EndsWith(FormatMessage(message, pool, index, ctx), Footer(ctx.post.subredditName))
    ensures (forall k :: 0 <= k < |message| ==> message[k] != '{') ==>
              FormatMessage(message, pool, index, ctx) == message + Footer(ctx.post.subredditName)
  {
    var body := FillPlaceholders(message, pool, index, ctx);
    var footer := Footer(ctx.post.subredditName);
    assert (body + footer)[|body|..] == footer;
    if forall k :: 0 <= k < |message| ==> message[k] != '{' {
      BraceFreeSkipsRandom(message, pool, index);
      BraceFreeSkipsChain(message, ctx);
    }
  }

  /** A message without a brace has no `{{random}}` to fill. */
  lemma {:induction false} BraceFreeSkipsRandom(message: string, pool: seq<string>, index: nat)
    requires |pool| > 0 ==> index < |pool|
    requires forall k :: 0 <= k < |message| ==> message[k] != '{'
    ensures ApplyRandom(message, pool, index) == message
  {
    NoLeadCharNoOccurrence(message, RandomPlaceholder);
  }

  /** A message without a brace matches no placeholder of the chain. */
  lemma {:induction false} BraceFreeSkipsChain(message: string, ctx: FormatContext)
    requires forall k :: 0 <= k < |message| ==> message[k] != '{'
    ensures ReplaceEach(message, Substitutions(ctx)) == message
  {
    PlaceholdersStartWithBrace(ctx);
    ReplaceEachSkipsLeadChar(message, Substitutions(ctx), '{');
  }

  /** The footer of the removal modmail. */
  const MailFooter: string :=
    "\n\n---\n*This action was performed automatically. "
    + "Please respond to this message if you have any questions or concerns.*"

  /** The first line of the removal modmail. */
  function MailHeader(subredditName: string, reasonTitle: string): string
  {
    "Your post from " + subredditName + " was removed because of: '" + reasonTitle + "'"
  }

  /**
   * `formatMail`: the header naming the community and the removal
   * reason, the greeting with the reason's message (community
   * placeholders substituted), the permalink, then the modmail footer.
   */
  function FormatMail(post: Post, description: Option<string>, reasonTitle: string, reasonMessage: string): string
  {
    MailHeader(post.subredditName, reasonTitle) + "\n\n" + "Hi u/" + post.authorName + ", "
    + ReplaceEach(reasonMessage, CommunitySubstitutions(post.subredditName, description)) + "\n\n"
    + "Original post: " + post.permalink + MailFooter
  }

  /** The modmail starts with the header naming community and reason, and ends with the footer. */
  lemma {:induction false} FormatMailFrame(post: Post, description: Option<string>, reasonTitle: string, reasonMessage: string)
    ensures StartsWith(FormatMail(post, description, reasonTitle, reasonMessage), MailHeader(post.subredditName, reasonTitle))
    ensures EndsWith(FormatMail(post, description, reasonTitle, reasonMessage), MailFooter)
  {
    var header := MailHeader(post.subredditName, reasonTitle);
    var r := FormatMail(post, description, reasonTitle, reasonMessage);
    assert r[..|header|] == header;
    assert r[|r| - |MailFooter|..] == MailFooter;
  }

  /** A reason message without any "{community_" text is quoted verbatim. */
  lemma {:induction false} FormatMailVerbatim(post: Post, description: Option<string>, reasonTitle: string, reasonMessage: string)
    requires !Contains(reasonMessage, "{community_")
    ensures FormatMail(post, description, reasonTitle, reasonMessage)
            == MailHeader(post.subredditName, reasonTitle) + "\n\n"
               + "Hi u/" + post.authorName + ", " + reasonMessage + "\n\n"
               + "Original post: " + post.permalink + MailFooter
  {
    var subs := CommunitySubstitutions(post.subredditName, description);
    forall k | 0 <= k < |subs| ensures !Contains(reasonMessage, subs[k].0) {
      ExtensionNotContained(reasonMessage, "{community_", subs[k].0);
    }
    ReplaceEachUntouched(reasonMessage, subs);
  }

  /** A text that lacks `p` lacks every pattern that starts with `p`. */
  lemma {:induction false} ExtensionNotContained(s: string, p: string, q: string)
    requires StartsWith(q, p) && !Contains(s, p)
    ensures !Contains(s, q)
  {
    forall i | 0 <= i <= |s| - |q| ensures !OccursAt(s, q, i) {
      if OccursAt(s, q, i) {
        assert s[i..i + |p|] == q[..|p|];
        assert OccursAt(s, p, i);
      }
    }
  }
}
