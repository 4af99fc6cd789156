/** `LikeCommentSection`: the like button and comment list under an article, backed by
    the article API. Each request's outcome is a parameter: a response with `ok` set and
    its payload, a response without `ok` and its error body, or a thrown `fetch`. */
module ArticleFeedback {
  import opened Wrappers
  import opened Seqs
  import opened Text

  /** A comment as the API returns it. */
  datatype ServerComment = ServerComment(
    id: string,            // `_id`
    username: string,
    userEmail: Option<string>,  // `user_email`, `None` for `null`
    text: string,          // `comment_text`
    createdAt: int)        // `created_at`, in milliseconds

  /** The like state the API returns (`like_count`, and `liked` or `user_liked`). */
  datatype LikeState = LikeState(likeCount: int, liked: bool)

  /** The outcome of one `fetch`. `NotOk` carries the error body's `error` field. */
  datatype Response<T> = Ok(payload: T) | NotOk(error: Option<string>) | Thrown

  /** The request a handler sends: the path's last segment and the HTTP verb. */
  datatype Request = Request(endpoint: string, verb: string)

  /** `userLiked ? 'unlike' : 'like'` with `DELETE` or `POST`. */
  function LikeRequest(userLiked: bool): (req: Request)
    ensures req.endpoint == "unlike" <==> userLiked
    ensures req.endpoint == "like" <==> !userLiked
    ensures req.verb == (if userLiked then "DELETE" else "POST")
  {
    if userLiked then Request("unlike", "DELETE") else Request("like", "POST")
  }

  /** `localStorage.getItem(...)` is truthy: present and not empty. */
  function Present(s: Option<string>): (b: bool)
    ensures s.None? ==> !b
    ensures s == Some("") ==> !b
    ensures b ==> s.Some?
  {
    s.Some? && s.value != []
  }

  /** `currentUserEmail === comment.user_email`: signed in, the Delete button is drawn
      exactly on the comments carrying the user's email; signed out, `null === null`
      draws it on every comment stored without an email. */
  function DeleteVisible(currentUserEmail: Option<string>, c: ServerComment): (b: bool)
    ensures currentUserEmail.Some? ==> (b <==> c.userEmail == Some(currentUserEmail.value))
    ensures currentUserEmail.None? ==> (b <==> c.userEmail.None?)
  {
    currentUserEmail == c.userEmail
  }

  /** The alert after a failed add: the server's `error` text when it is non-empty,
      otherwise the fixed message. */
  function AddFailureAlert(error: Option<string>): (msg: string)
    ensures msg != []
    ensures Present(error) ==> msg == error.value
    ensures !Present(error) ==> msg == "Failed to add comment"
  {
    if Present(error) then error.value else "Failed to add comment"
  }

  /** The list after deleting `id`: `comments.filter(c => c._id !== commentId)`. */
  function WithoutId(cs: seq<ServerComment>, id: string): (r: seq<ServerComment>)
    ensures forall c :: c in r <==> c in cs && c.id != id
  {
    Filter(cs, (c: ServerComment) => c.id != id)
  }

  /** Deleting keeps every other comment, as often as it occurred and in the same order. */
  lemma WithoutIdKeepsOthers(cs: seq<ServerComment>, id: string)
    ensures forall c: ServerComment :: c.id != id ==> multiset(WithoutId(cs, id))[c] == multiset(cs)[c]
    ensures IsSubsequence(WithoutId(cs, id), cs)
    ensures |WithoutId(cs, id)| == |cs| - |Filter(cs, (c: ServerComment) => c.id == id)|
  {
    forall c: ServerComment | c.id != id
      ensures multiset(WithoutId(cs, id))[c] == multiset(cs)[c]
    {
      FilterMultiset(cs, (c: ServerComment) => c.id != id, c);
    }
    FilterIsSubsequence(cs, (c: ServerComment) => c.id != id);
    FilterSplitsLength(cs, (c: ServerComment) => c.id != id, (c: ServerComment) => c.id == id);
  }

  class LikeCommentSection {
    var likes: int
    var userLiked: bool
    var comments: seq<ServerComment>
    var commentText: string
    var showComments: bool
    const token: Option<string>
    const currentUserEmail: Option<string>

    /** First render; `token` and `currentUserEmail` are read from storage. */
    constructor (token: Option<string>, currentUserEmail: Option<string>)
      ensures likes == 0 && !userLiked && comments == [] && commentText == [] && !showComments
      ensures this.token == token && this.currentUserEmail == currentUserEmail
    {
      likes := 0;
      userLiked := false;
      comments := [];
      commentText := [];
      showComments := false;
      this.token := token;
      this.currentUserEmail := currentUserEmail;
    }

    /** `fetchLikes`: the state is replaced from the body; a thrown request keeps it. The
        body is read without looking at `ok`. */
    method FetchLikes(resp: Option<LikeState>)
      modifies this`likes, this`userLiked
      ensures resp.Some? ==> likes == resp.value.likeCount && userLiked == resp.value.liked
      ensures resp.None? ==> likes == old(likes) && userLiked == old(userLiked)
    {
      if resp.Some? {
        likes := resp.value.likeCount;
        userLiked := resp.value.liked;
      }
    }

    /** `fetchComments`: `data.comments || []`; a thrown request keeps the list. */
    method FetchComments(resp: Option<Option<seq<ServerComment>>>)
      modifies this`comments
      ensures resp == Some(None) ==> comments == []
      ensures resp.Some? && resp.value.Some? ==> comments == resp.value.value
      ensures resp.None? ==> comments == old(comments)
    {
      if resp.Some? {
        comments := if resp.value.Some? then resp.value.value else [];
      }
    }

    /** `handleLike`. Without a token no request is sent and the user is alerted. With
        one, the request depends on `userLiked`, and the state is replaced only from
        an ok response. */
    method HandleLike(resp: Response<LikeState>) returns (sent: Option<Request>, alert: Option<string>)
      modifies this`likes, this`userLiked
      ensures !Present(token) ==>
                sent == None && alert == Some("Please sign in to like articles")
                && likes == old(likes) && userLiked == old(userLiked)
      ensures Present(token) ==> sent == Some(LikeRequest(old(userLiked))) && alert == None
      ensures Present(token) && resp.Ok? ==> likes == resp.payload.likeCount && userLiked == resp.payload.liked
      ensures !resp.Ok? ==> likes == old(likes) && userLiked == old(userLiked)
    {
      if !Present(token) {
        sent := None;
        alert := Some("Please sign in to like articles");
        return;
      }
      sent := Some(LikeRequest(userLiked));
      alert := None;
      if resp.Ok? {
        likes := resp.payload.likeCount;
        userLiked := resp.payload.liked;
      }
    }

    /** `handleAddComment`. Without a token the user is alerted; blank text sends nothing;
        otherwise the untrimmed text is posted, an ok response puts the returned comment
        first and clears the box, and a failure alerts and keeps both. */
    method HandleAddComment(resp: Response<ServerComment>) returns (posted: Option<string>, alert: Option<string>)
      modifies this`comments, this`commentText
      ensures !Present(token) ==> posted == None && alert == Some("Please sign in to comment")
      ensures Present(token) && AllSpace(old(commentText)) ==> posted == None && alert == None
      ensures posted.Some? <==> Present(token) && !AllSpace(old(commentText))
      ensures posted.Some? ==> posted.value == old(commentText)
      ensures posted.Some? && resp.Ok? ==>
                comments == [resp.payload] + old(comments) && commentText == [] && alert == None
      ensures posted.Some? && resp.NotOk? ==> alert == Some(AddFailureAlert(resp.error))
      ensures posted.Some? && resp.Thrown? ==> alert == Some("Failed to add comment")
      ensures !(posted.Some? && resp.Ok?) ==> comments == old(comments) && commentText == old(commentText)
    {
      if !Present(token) {
        posted := None;
        alert := Some("Please sign in to comment");
        return;
      }
      TrimEmptyIff(commentText);
      if Trim(commentText) == [] {
        posted := None;
        alert := None;
        return;
      }
      posted := Some(commentText);
      match resp
      case Ok(c) =>
        comments := [c] + comments;
        commentText := [];
        alert := None;
      case NotOk(error) =>
        alert := Some(AddFailureAlert(error));
      case Thrown =>
        alert := Some("Failed to add comment");
    }

    /** `handleDeleteComment(commentId)`: a declined confirm sends nothing; a confirmed
        delete removes the comments with that id when the response is ok. The request is
        sent whether or not a token is stored. */
    method HandleDeleteComment(id: string, confirmed: bool, ok: bool) returns (sent: bool)
      modifies this`comments
      ensures sent == confirmed
      ensures confirmed && ok ==> comments == WithoutId(old(comments), id)
      ensures !(confirmed && ok) ==> comments == old(comments)
    {
      sent := confirmed;
      if confirmed && ok {
        comments := WithoutId(comments, id);
      }
    }

    /** The comment button opens and closes the list. */
    method ToggleComments()
      modifies this`showComments
      ensures showComments == !old(showComments)
    {
      showComments := !showComments;
    }

    /** Typing in the comment box. */
    method ChangeText(value: string)
      modifies this`commentText
      ensures commentText == value
    {
      commentText := value;
    }
  }
}
