/**
 * The post snapshot, the link predicate and the flattening of a post's
 * reply tree (src/list_check/helpers.tsx).
 */
module Helpers {
  import opened Optional
  import opened Strings

  /** A post's flair as the platform reports it; both parts may be missing. */
  datatype PostFlair = PostFlair(text: Option<string>, templateId: Option<string>)

  /** A live post, as fetched by id. `removedByCategory` is absent (or "") while the post is up. */
  datatype Post = Post(
    id: string,
    title: string,
    body: Option<string>,
    flair: Option<PostFlair>,
    authorId: Option<string>,
    authorName: string,
    removedByCategory: Option<string>,
    subredditName: string,
    permalink: string,
    url: string)

  /** The post attributes the list check compares; none of them is ever missing. */
  datatype PostParams = PostParams(
    id: string,
    title: string,
    body: string,
    flairText: string,
    flairID: string,
    userFlairText: string,
    userFlairID: string)

  /** A live comment. `bannedAtUtc` is a positive time stamp when the comment was filtered. */
  datatype Comment = Comment(
    id: string,
    parentId: string,
    authorId: Option<string>,
    authorName: Option<string>,
    body: string,
    isRemoved: bool,
    isSpam: bool,
    bannedAtUtc: Option<int>)

  /** A comment together with its replies: the reply forest under a post. */
  datatype CommentNode = CommentNode(comment: Comment, replies: seq<CommentNode>)

  /** JavaScript truthiness of an optional string: present and non-empty. */
  predicate TruthyText(s: Option<string>)
  {
    s.Some? && s.value != ""
  }

  /**
   * The post's attributes with every missing one defaulted to "": body,
   * flair text and flair template id; the user flair is passed in.
   */
  function GetPostParams(post: Post, userFlairText: string, userFlairID: string): (r: PostParams)
    ensures r.id == post.id && r.title == post.title
    ensures r.body == post.body.GetOr("")
    ensures r.flairText == (if post.flair.Some? then post.flair.value.text.GetOr("") else "")
    ensures r.flairID == (if post.flair.Some? then post.flair.value.templateId.GetOr("") else "")
    ensures r.userFlairText == userFlairText && r.userFlairID == userFlairID
  {
    PostParams(
      post.id,
      post.title,
      if TruthyText(post.body) then post.body.value else "",
      if post.flair.Some? && TruthyText(post.flair.value.text) then post.flair.value.text.value else "",
      if post.flair.Some? && TruthyText(post.flair.value.templateId) then post.flair.value.templateId.value else "",
      if userFlairText != "" then userFlairText else "",
      if userFlairID != "" then userFlairID else "")
  }

  /**
   * The pattern /https?:\/\/[^\s]+/ matches at index `i`: "http://" or
   * "https://" starts there and is followed by a non-whitespace character.
   */
  predicate LinkAt(s: string, i: int)
  {
    || (OccursAt(s, "http://", i) && i + 7 < |s| && !IsWhitespace(s[i + 7]))
    || (OccursAt(s, "https://", i) && i + 8 < |s| && !IsWhitespace(s[i + 8]))
  }

  lemma LinkAtShift(s: string, i: int)
    requires |s| > 0 && 0 <= i
    ensures LinkAt(s[1..], i) <==> LinkAt(s, i + 1)
  {
    if i + 8 <= |s| {
      assert s[1..][i..i + 7] == s[i + 1..i + 8];
    }
    if i + 9 <= |s| {
      assert s[1..][i..i + 8] == s[i + 1..i + 9];
    }
  }

  /** `containsLink`: the unanchored link pattern matches somewhere in `text`. */
  function ContainsLink(text: string): (r: bool)
    ensures r <==> exists i :: 0 <= i < |text| && LinkAt(text, i)
    decreases |text|
  {
    if |text| == 0 then
      false
    else
      var rest := ContainsLink(text[1..]);
      forall i | 0 <= i < |text| - 1 ensures LinkAt(text[1..], i) <==> LinkAt(text, i + 1) {
        LinkAtShift(text, i);
      }
      assert rest ==> exists i :: 0 <= i < |text| && LinkAt(text, i) by {
        if rest {
          var i :| 0 <= i < |text| - 1 && LinkAt(text[1..], i);
          assert LinkAt(text, i + 1);
        }
      }
      assert (exists i :: 0 < i < |text| && LinkAt(text, i)) ==> rest by {
        if i :| 0 < i < |text| && LinkAt(text, i) {
          assert LinkAt(text[1..], i - 1);
        }
      }
      LinkAt(text, 0) || rest
  }

  /** Text in which neither "http://" nor "https://" occurs holds no link. */
  lemma {:induction false} NoSchemeNoLink(text: string)
    requires !Contains(text, "http://") && !Contains(text, "https://")
    ensures !ContainsLink(text)
  {
    forall i | 0 <= i < |text| ensures !LinkAt(text, i) {
      if i <= |text| - 7 {
        assert !OccursAt(text, "http://", i);
      }
      if i <= |text| - 8 {
        assert !OccursAt(text, "https://", i);
      }
    }
  }

  /** The pattern is unanchored: text before or after a link does not hide it. */
  lemma {:induction false} LinkSurvivesContext(before: string, text: string, after: string)
    requires ContainsLink(text)
    ensures ContainsLink(before + text + after)
  {
    var i :| 0 <= i < |text| && LinkAt(text, i);
    var s := before + text + after;
    var j := |before| + i;
    assert s[j..j + 7] == text[i..i + 7] by {
      if i + 7 <= |text| { assert s[j..j + 7] == text[i..i + 7]; }
    }
    if OccursAt(text, "http://", i) && i + 7 < |text| && !IsWhitespace(text[i + 7]) {
      assert s[j..j + 7] == text[i..i + 7];
      assert s[j + 7] == text[i + 7];
      assert LinkAt(s, j);
    } else {
      assert s[j..j + 8] == text[i..i + 8];
      assert s[j + 8] == text[i + 8];
      assert LinkAt(s, j);
    }
  }

  /** The comments of one thread in pre-order: the comment, then each reply's thread in turn. */
  function Preorder(n: CommentNode): seq<Comment>
    decreases n
  {
    [n.comment] + PreorderForest(n.replies)
  }

  /** The threads of a forest flattened one after the other. */
  function PreorderForest(f: seq<CommentNode>): seq<Comment>
    decreases f
  {
    if f == [] then [] else Preorder(f[0]) + PreorderForest(f[1..])
  }

  /** The number of comments in a thread. */
  function NodeCount(n: CommentNode): nat
    decreases n
  {
    1 + ForestCount(n.replies)
  }

  function ForestCount(f: seq<CommentNode>): nat
    decreases f
  {
    if f == [] then 0 else NodeCount(f[0]) + ForestCount(f[1..])
  }

  /** `m` is a thread somewhere under (or equal to) `n`. */
  ghost predicate InTree(m: CommentNode, n: CommentNode)
    decreases n
  {
    m == n || exists k :: 0 <= k < |n.replies| && InTree(m, n.replies[k])
  }

  /** `m` is a thread somewhere in the forest `f`. */
  ghost predicate InForest(m: CommentNode, f: seq<CommentNode>)
  {
    exists k :: 0 <= k < |f| && InTree(m, f[k])
  }

  /** `part` occurs as a contiguous block of `whole` starting at `i`. */
  ghost predicate InfixAt<T>(part: seq<T>, whole: seq<T>, i: int)
  {
    0 <= i && i + |part| <= |whole| && whole[i..i + |part|] == part
  }

  ghost predicate IsInfix<T>(part: seq<T>, whole: seq<T>)
  {
    exists i :: InfixAt(part, whole, i)
  }

  lemma InfixTransitive<T>(a: seq<T>, b: seq<T>, c: seq<T>, i: int, j: int)
    requires InfixAt(a, b, i) && InfixAt(b, c, j)
    ensures InfixAt(a, c, i + j)
  {
    forall t | 0 <= t < |a| ensures c[i + j + t] == a[t] {
      assert a[t] == b[i + t];
      assert b[i + t] == c[j + i + t];
    }
    assert c[i + j..i + j + |a|] == a;
  }

  lemma {:induction false} PreorderForestAppend(a: seq<CommentNode>, b: seq<CommentNode>)
    ensures PreorderForest(a + b) == PreorderForest(a) + PreorderForest(b)
    decreases |a|
  {
    if a == [] {
      assert a + b == b;
    } else {
      assert (a + b)[0] == a[0];
      assert (a + b)[1..] == a[1..] + b;
      PreorderForestAppend(a[1..], b);
    }
  }

  /** The flattened forest is the flattened prefix, the k-th thread, then the flattened rest. */
  lemma {:induction false} ForestAround(f: seq<CommentNode>, k: int)
    requires 0 <= k < |f|
    ensures PreorderForest(f) == PreorderForest(f[..k]) + Preorder(f[k]) + PreorderForest(f[k + 1..])
  {
    var tail := [f[k]] + f[k + 1..];
    assert f == f[..k] + tail;
    PreorderForestAppend(f[..k], tail);
    assert tail[0] == f[k] && tail[1..] == f[k + 1..];
    assert PreorderForest(tail) == Preorder(f[k]) + PreorderForest(f[k + 1..]);
  }

  /** Flattening visits every comment once: the output has one entry per comment of the forest. */
  lemma {:induction false} PreorderLength(n: CommentNode)
    ensures |Preorder(n)| == NodeCount(n)
    decreases n
  {
    PreorderForestLength(n.replies);
  }

  lemma {:induction false} PreorderForestLength(f: seq<CommentNode>)
    ensures |PreorderForest(f)| == ForestCount(f)
    decreases f
  {
    if f != [] {
      PreorderLength(f[0]);
      PreorderForestLength(f[1..]);
    }
  }

  /**
   * Each thread of the forest appears in the flattened output as one
   * contiguous block that starts with its own comment, so a comment
   * precedes all of its replies.
   */
  lemma {:induction false} ThreadIsContiguous(m: CommentNode, f: seq<CommentNode>)
    requires InForest(m, f)
    ensures Preorder(m)[0] == m.comment
    ensures IsInfix(Preorder(m), PreorderForest(f))
  {
    var k :| 0 <= k < |f| && InTree(m, f[k]);
    var i := SubthreadIsContiguous(m, f[k]);
    ForestAround(f, k);
    var j := |PreorderForest(f[..k])|;
    assert InfixAt(Preorder(f[k]), PreorderForest(f), j);
    InfixTransitive(Preorder(m), Preorder(f[k]), PreorderForest(f), i, j);
  }

  lemma {:induction false} SubthreadIsContiguous(m: CommentNode, n: CommentNode) returns (i: int)
    requires InTree(m, n)
    ensures InfixAt(Preorder(m), Preorder(n), i)
    decreases n
  {
    if m == n {
      i := 0;
    } else {
      var k :| 0 <= k < |n.replies| && InTree(m, n.replies[k]);
      var i0 := SubthreadIsContiguous(m, n.replies[k]);
      ForestAround(n.replies, k);
      var j := 1 + |PreorderForest(n.replies[..k])|;
      assert InfixAt(Preorder(n.replies[k]), Preorder(n), j);
      InfixTransitive(Preorder(m), Preorder(n.replies[k]), Preorder(n), i0, j);
      i := i0 + j;
    }
  }

  /** Top-level comments keep their order: the k-th one starts its block, and blocks follow in order. */
  lemma {:induction false} TopLevelOrder(f: seq<CommentNode>, j: int, k: int)
    requires 0 <= j < k < |f|
    ensures |PreorderForest(f[..j])| < |PreorderForest(f[..k])| < |PreorderForest(f)|
    ensures PreorderForest(f)[|PreorderForest(f[..k])|] == f[k].comment
    ensures PreorderForest(f)[|PreorderForest(f[..j])|] == f[j].comment
  {
    ForestAround(f, k);
    ForestAround(f, j);
    assert f[..k] == f[..j] + f[j..k];
    PreorderForestAppend(f[..j], f[j..k]);
    assert f[j..k] == [f[j]] + f[j + 1..k];
    PreorderForestAppend([f[j]], f[j + 1..k]);
    assert [f[j]][1..] == [];
  }

  /** Every entry of the flattened forest is the comment of some thread in the forest. */
  lemma {:induction false} PreorderForestEntries(f: seq<CommentNode>, i: int)
    requires 0 <= i < |PreorderForest(f)|
    ensures exists m :: InForest(m, f) && m.comment == PreorderForest(f)[i]
    decreases f
  {
    var p := Preorder(f[0]);
    if i < |p| {
      var m := PreorderEntries(f[0], i);
      assert InTree(m, f[0]);
    } else {
      PreorderForestEntries(f[1..], i - |p|);
      var m :| InForest(m, f[1..]) && m.comment == PreorderForest(f[1..])[i - |p|];
      var k :| 0 <= k < |f[1..]| && InTree(m, f[1..][k]);
      assert InTree(m, f[k + 1]);
    }
  }

  lemma {:induction false} PreorderEntries(n: CommentNode, i: int) returns (m: CommentNode)
    requires 0 <= i < |Preorder(n)|
    ensures InTree(m, n) && m.comment == Preorder(n)[i]
    decreases n
  {
    if i == 0 {
      m := n;
    } else {
      PreorderForestEntries(n.replies, i - 1);
      m :| InForest(m, n.replies) && m.comment == PreorderForest(n.replies)[i - 1];
      var k :| 0 <= k < |n.replies| && InTree(m, n.replies[k]);
    }
  }

  /** The array `fetchAllComments` pushes comments into. */
  class CommentList {
    var items: seq<Comment>

    constructor ()
      ensures items == []
    {
      items := [];
    }

    method Push(c: Comment)
      modifies this
      ensures items == old(items) + [c]
    {
      items := items + [c];
    }
  }

  /** `fetchCommentsRecursive`: push the comment, then each reply's thread, onto the shared list. */
  method FetchCommentsRecursive(node: CommentNode, comments: CommentList)
    modifies comments
    ensures comments.items == old(comments.items) + Preorder(node)
    decreases node
  {
    comments.Push(node.comment);
    var replies := node.replies;
    for i := 0 to |replies|
      invariant comments.items == old(comments.items) + [node.comment] + PreorderForest(replies[..i])
    {
      FetchCommentsRecursive(replies[i], comments);
      assert replies[..i + 1] == replies[..i] + [replies[i]];
      PreorderForestAppend(replies[..i], [replies[i]]);
      assert [replies[i]][1..] == [];
    }
    assert replies[..|replies|] == replies;
  }

  /** `fetchAllComments`: every comment under the post, each thread in pre-order, threads in order. */
  method FetchAllComments(forest: seq<CommentNode>) returns (comments: seq<Comment>)
    ensures comments == PreorderForest(forest)
  {
    var list := new CommentList();
    for i := 0 to |forest|
      invariant list.items == PreorderForest(forest[..i])
    {
      FetchCommentsRecursive(forest[i], list);
      assert forest[..i + 1] == forest[..i] + [forest[i]];
      PreorderForestAppend(forest[..i], [forest[i]]);
      assert [forest[i]][1..] == [];
    }
    assert forest[..|forest|] == forest;
    comments := list.items;
  }
}
