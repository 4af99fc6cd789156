/** The demo comment thread: `CommentsSection` owns a list of comments, each with a
    list of replies, and `CommentItem` renders one comment and, for a top-level
    comment, its replies. Likes are routed back to the section by id. */
module Comments {
  import opened Text

  /** A comment or a reply. A reply has no `replies` of its own (the field is absent
      in the source, which reads as an empty list). The avatar URL is left out. */
  datatype Comment = Comment(
    id: int,
    author: string,
    content: string,
    timestamp: int,
    likes: int,
    isLiked: bool,
    replies: seq<Comment>)

  /** 1 for a liked item, 0 otherwise. */
  function Bit(b: bool): int
  {
    if b then 1 else 0
  }

  /** Toggling one record's like: the flag flips and the count moves by one in the
      matching direction, so `likes - Bit(isLiked)` never changes. */
  function ToggleLike(c: Comment): (r: Comment)
    ensures r.isLiked == !c.isLiked
    ensures r.likes - Bit(r.isLiked) == c.likes - Bit(c.isLiked)
    ensures r.(likes := c.likes, isLiked := c.isLiked) == c
  {
    c.(isLiked := !c.isLiked, likes := if c.isLiked then c.likes - 1 else c.likes + 1)
  }

  /** Toggling a like twice restores the record. */
  lemma ToggleLikeTwice(c: Comment)
    ensures ToggleLike(ToggleLike(c)) == c
  {
  }

  /** What `handleCommentLike` is called with: `(commentId)` from a top-level comment, or
      `(replyId, true, parentId)` from a reply. */
  datatype LikeTarget = TopLevel(id: int) | ReplyOf(replyId: int, parentId: int)

  /** The inner `comment.replies.map(...)`: toggle every reply with id `replyId`. */
  function LikeReplies(rs: seq<Comment>, replyId: int): (r: seq<Comment>)
    ensures |r| == |rs|
    ensures forall i :: 0 <= i < |rs| ==> r[i] == if rs[i].id == replyId then ToggleLike(rs[i]) else rs[i]
    decreases |rs|
  {
    if rs == [] then []
    else [if rs[0].id == replyId then ToggleLike(rs[0]) else rs[0]] + LikeReplies(rs[1..], replyId)
  }

  /** `handleCommentLike`: the outer `prev.map(...)` over the top-level comments. */
  function LikeComments(cs: seq<Comment>, t: LikeTarget): (r: seq<Comment>)
    ensures |r| == |cs|
    ensures forall i :: 0 <= i < |cs| ==> r[i].id == cs[i].id
    ensures forall i :: 0 <= i < |cs| && t.TopLevel? && cs[i].id == t.id ==> r[i] == ToggleLike(cs[i])
    ensures forall i :: 0 <= i < |cs| && t.ReplyOf? && cs[i].id == t.parentId ==>
              r[i] == cs[i].(replies := LikeReplies(cs[i].replies, t.replyId))
    ensures forall i :: 0 <= i < |cs| && cs[i].id != TargetOwner(t) ==> r[i] == cs[i]
    decreases |cs|
  {
    if cs == [] then []
    else [LikeOne(cs[0], t)] + LikeComments(cs[1..], t)
  }

  /** The top-level comment a like target lands in. */
  function TargetOwner(t: LikeTarget): int
  {
    match t
    case TopLevel(id) => id
    case ReplyOf(_, parentId) => parentId
  }

  /** The callback of the outer `map` for one top-level comment. */
  function LikeOne(c: Comment, t: LikeTarget): Comment
  {
    match t
    case ReplyOf(replyId, parentId) =>
      if c.id == parentId then c.(replies := LikeReplies(c.replies, replyId)) else c
    case TopLevel(id) =>
      if c.id == id then ToggleLike(c) else c
  }

  /** Applying the same like toggle twice restores the whole list. */
  lemma {:induction false} LikeCommentsTwice(cs: seq<Comment>, t: LikeTarget)
    ensures LikeComments(LikeComments(cs, t), t) == cs
    decreases |cs|
  {
    if cs != [] {
      LikeCommentsTwice(cs[1..], t);
      if t.ReplyOf? && cs[0].id == t.parentId {
        LikeRepliesTwice(cs[0].replies, t.replyId);
      }
      assert LikeComments(cs, t)[1..] == LikeComments(cs[1..], t);
    }
  }

  /** Toggling the replies with one id twice restores them. */
  lemma {:induction false} LikeRepliesTwice(rs: seq<Comment>, replyId: int)
    ensures LikeReplies(LikeReplies(rs, replyId), replyId) == rs
  {
    var once := LikeReplies(rs, replyId);
    var twice := LikeReplies(once, replyId);
    forall i | 0 <= i < |rs|
      ensures twice[i] == rs[i]
    {
      ToggleLikeTwice(rs[i]);
    }
  }

  /** No two records of the list share an id. */
  predicate UniqueIds(cs: seq<Comment>)
  {
    forall i, j :: 0 <= i < j < |cs| ==> cs[i].id != cs[j].id
  }

  /** One rendered `CommentItem`: the target its like button calls back with, whether it
      shows a Reply button, and the items rendered beneath it. */
  datatype Item = Item(likeTarget: LikeTarget, canReply: bool, children: seq<Item>)

  /** Rendering a top-level comment (`isReply` false): its like calls `onLike(comment.id)`
      and each reply's like calls `onReplyLike(reply.id, comment.id)`. Replies are drawn
      only when `showReplies` is set; a reply never draws replies of its own. */
  function RenderThread(c: Comment, showReplies: bool): (item: Item)
    ensures item.likeTarget == TopLevel(c.id) && item.canReply
    ensures |item.children| == (if showReplies then |c.replies| else 0)
    ensures forall j :: 0 <= j < |item.children| ==>
              item.children[j] == Item(ReplyOf(c.replies[j].id, c.id), false, [])
  {
    Item(TopLevel(c.id), true,
         if showReplies then seq(|c.replies|, j requires 0 <= j < |c.replies| => RenderReply(c.replies[j], c.id)) else [])
  }

  /** Rendering a reply (`isReply` true) under the comment with id `parentId`. */
  function RenderReply(reply: Comment, parentId: int): Item
  {
    Item(ReplyOf(reply.id, parentId), false, [])
  }

  /** The list `comments.map(comment => <CommentItem .../>)`, each thread expanded or not. */
  function RenderList(cs: seq<Comment>, expanded: seq<bool>): (items: seq<Item>)
    requires |expanded| == |cs|
    ensures |items| == |cs|
    ensures forall i :: 0 <= i < |cs| ==> items[i] == RenderThread(cs[i], expanded[i])
  {
    seq(|cs|, i requires 0 <= i < |cs| => RenderThread(cs[i], expanded[i]))
  }

  /** Nesting depth is at most one, and only top-level comments offer Reply. */
  lemma RenderDepth(cs: seq<Comment>, expanded: seq<bool>)
    requires |expanded| == |cs|
    ensures forall i :: 0 <= i < |cs| ==> RenderList(cs, expanded)[i].canReply
    ensures forall i, j :: 0 <= i < |cs| && 0 <= j < |RenderList(cs, expanded)[i].children| ==>
              var child := RenderList(cs, expanded)[i].children[j];
              !child.canReply && child.children == []
  {
  }

  /** A like on the rendered top-level comment `i` toggles exactly that comment when the
      top-level ids are unique. */
  lemma TopLevelLikeRouting(cs: seq<Comment>, expanded: seq<bool>, i: int)
    requires |expanded| == |cs| && 0 <= i < |cs| && UniqueIds(cs)
    ensures var r := LikeComments(cs, RenderList(cs, expanded)[i].likeTarget);
            r[i] == ToggleLike(cs[i]) && forall k :: 0 <= k < |cs| && k != i ==> r[k] == cs[k]
  {
    var r := LikeComments(cs, RenderList(cs, expanded)[i].likeTarget);
    forall k | 0 <= k < |cs| && k != i
      ensures r[k] == cs[k]
    {
      assert cs[k].id != cs[i].id by {
        if k < i {
          assert cs[k].id != cs[i].id;
        }
      }
    }
  }

  /** A like on reply `j` rendered under comment `i` toggles exactly that reply when the
      top-level ids and that comment's reply ids are unique. */
  lemma ReplyLikeRouting(cs: seq<Comment>, i: int, j: int)
    requires 0 <= i < |cs| && 0 <= j < |cs[i].replies|
    requires UniqueIds(cs) && UniqueIds(cs[i].replies)
    ensures var r := LikeComments(cs, RenderThread(cs[i], true).children[j].likeTarget);
            && r[i].replies[j] == ToggleLike(cs[i].replies[j])
            && (forall k :: 0 <= k < |cs[i].replies| && k != j ==> r[i].replies[k] == cs[i].replies[k])
            && r[i].(replies := cs[i].replies) == cs[i]
            && (forall k :: 0 <= k < |cs| && k != i ==> r[k] == cs[k])
  {
    var t := RenderThread(cs[i], true).children[j].likeTarget;
    assert t == ReplyOf(cs[i].replies[j].id, cs[i].id);
    var r := LikeComments(cs, t);
    forall k | 0 <= k < |cs| && k != i
      ensures r[k] == cs[k]
    {
      assert cs[k].id != cs[i].id by {
        if k < i {
          assert cs[k].id != cs[i].id;
        }
      }
    }
    var rs := cs[i].replies;
    forall k | 0 <= k < |rs| && k != j
      ensures r[i].replies[k] == rs[k]
    {
      assert rs[k].id != rs[j].id by {
        if k < j {
          assert rs[k].id != rs[j].id;
        }
      }
    }
  }

  /** The record `handleAddComment` builds: `id` is `Date.now()` and `now` is `new Date()`. */
  function NewComment(id: int, now: int, content: string): (c: Comment)
    ensures c.content == content && c.likes == 0 && !c.isLiked && c.replies == []
    ensures c.author == "Current User" && c.id == id && c.timestamp == now
  {
    Comment(id, "Current User", content, now, 0, false, [])
  }

  /** The header's count: the number, then "Comment" for exactly one and "Comments" otherwise. */
  function CountLabel(n: nat): (text: string)
    ensures text == Decimal(n) + " Comment" <==> n == 1
    ensures text == Decimal(n) + " Comments" <==> n != 1
  {
    Decimal(n) + " " + (if n == 1 then "Comment" else "Comments")
  }

  /** The demo thread loaded on mount, with timestamps relative to `now` in milliseconds.
      Authors' texts are shortened; only ids, counts, flags and nesting matter here. */
  function MockComments(now: int): (cs: seq<Comment>)
    ensures |cs| == 2 && |cs[0].replies| == 1 && cs[1].replies == []
    ensures UniqueIds(cs) && UniqueIds(cs[0].replies)
  {
    [ Comment(1, "Sarah Johnson", "This is a really insightful article!", now - 1000 * 60 * 30, 12, false,
              [Comment(2, "Michael Chen", "I completely agree!", now - 1000 * 60 * 15, 5, true, [])]),
      Comment(3, "David Rodriguez", "Great piece of journalism.", now - 1000 * 60 * 60 * 2, 8, false, []) ]
  }

  /** The section's state. */
  class CommentsSection {
    var comments: seq<Comment>
    var likes: int
    var isLiked: bool
    var showCommentForm: bool

    /** First render, before the mount effect. */
    constructor ()
      ensures comments == [] && likes == 0 && !isLiked && !showCommentForm
    {
      comments := [];
      likes := 0;
      isLiked := false;
      showCommentForm := false;
    }

    /** The mount effect. `roll` is `Math.floor(Math.random() * 100)` and `coin` is
        `Math.random() > 0.5`. */
    method Load(now: int, roll: nat, coin: bool)
      requires roll < 100
      modifies this`comments, this`likes, this`isLiked
      ensures comments == MockComments(now)
      ensures 20 <= likes < 120 && likes == roll + 20 && isLiked == coin
    {
      comments := MockComments(now);
      likes := roll + 20;
      isLiked := coin;
    }

    /** `handleLike` for the article: the flag flips and the count follows it. */
    method HandleLike()
      modifies this`likes, this`isLiked
      ensures isLiked == !old(isLiked)
      ensures likes - Bit(isLiked) == old(likes) - Bit(old(isLiked))
    {
      likes := if isLiked then likes - 1 else likes + 1;
      isLiked := !isLiked;
    }

    /** `handleCommentLike`. */
    method HandleCommentLike(t: LikeTarget)
      modifies this`comments
      ensures comments == LikeComments(old(comments), t)
    {
      comments := LikeComments(comments, t);
    }

    /** `handleAddComment(newComment)`: the new record goes first and the form closes. */
    method HandleAddComment(content: string, id: int, now: int)
      modifies this`comments, this`showCommentForm
      ensures comments == [NewComment(id, now, content)] + old(comments)
      ensures |comments| == |old(comments)| + 1 && comments[1..] == old(comments)
      ensures !showCommentForm
    {
      comments := [NewComment(id, now, content)] + comments;
      showCommentForm := false;
    }

    /** The header button opens or closes the form. */
    method ToggleCommentForm()
      modifies this`showCommentForm
      ensures showCommentForm == !old(showCommentForm)
    {
      showCommentForm := !showCommentForm;
    }

    /** The form's Cancel. */
    method CancelCommentForm()
      modifies this`showCommentForm
      ensures !showCommentForm
    {
      showCommentForm := false;
    }
  }

  /** Liking the first demo comment twice brings its count from 12 to 13 and back. */
  method LikeJourney(now: int) returns (s: CommentsSection)
    ensures s.comments == MockComments(now)
  {
    s := new CommentsSection();
    s.Load(now, 0, false);
    s.HandleCommentLike(TopLevel(1));
    assert s.comments[0].likes == 13 && s.comments[0].isLiked;
    assert s.comments[1] == MockComments(now)[1];
    s.HandleCommentLike(TopLevel(1));
    LikeCommentsTwice(MockComments(now), TopLevel(1));
  }

  /** The per-item view state of one `CommentItem`. */
  class CommentItemView {
    const isReply: bool
    var showReplies: bool
    var showReplyForm: bool
    var showOptions: bool

    constructor (isReply: bool)
      ensures this.isReply == isReply && showReplies && !showReplyForm && !showOptions
    {
      this.isReply := isReply;
      showReplies := true;
      showReplyForm := false;
      showOptions := false;
    }

    /** The Reply button, which only a top-level comment shows. */
    method ToggleReplyForm()
      requires !isReply
      modifies this`showReplyForm
      ensures showReplyForm == !old(showReplyForm)
    {
      showReplyForm := !showReplyForm;
    }

    /** `handleReplySubmit`: the reply is not stored anywhere, and the form closes. */
    method HandleReplySubmit(content: string)
      modifies this`showReplyForm
      ensures !showReplyForm
    {
      showReplyForm := false;
    }

    /** The Hide/Show replies button, drawn only for more than one reply. */
    method ToggleReplies(replyCount: nat)
      requires !isReply && replyCount > 1
      modifies this`showReplies
      ensures showReplies == !old(showReplies)
    {
      showReplies := !showReplies;
    }

    /** The options button, and the click-outside overlay that closes the menu. */
    method ToggleOptions()
      modifies this`showOptions
      ensures showOptions == !old(showOptions)
    {
      showOptions := !showOptions;
    }

    method CloseOptions()
      modifies this`showOptions
      ensures !showOptions
    {
      showOptions := false;
    }
  }

  /** The replies button's text. */
  function RepliesLabel(showReplies: bool, n: nat): (text: string)
    ensures showReplies ==> text == "Hide " + Decimal(n) + " replies"
    ensures !showReplies ==> text == "Show " + Decimal(n) + " replies"
  {
    (if showReplies then "Hide " else "Show ") + Decimal(n) + " replies"
  }
}
