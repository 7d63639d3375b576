/**
 * The comment section under a post (client/src/components/CommentSection.tsx):
 * a draft of at most 200 characters, the last create error, and the list of
 * comments, which loading replaces, creating prepends to, and a like or an
 * edit changes one comment of, found by its id.
 */
module Comments {
  import opened Common
  import opened UserSlice

  /** A comment as the server returns it. */
  datatype CommentData = CommentData(id: string, content: string, likes: seq<string>, numberOfLikes: int, userId: string, createdAt: string)

  /** The body of the create request. */
  datatype NewComment = NewComment(content: string, postId: string, userId: string)

  /** The longest draft the section submits, and the textarea's `maxLength`. */
  const MaxLength := 200
  const SignInPath := "/sign-in"

  /** The shown like count agrees with the list of users who liked the comment. */
  predicate CountConsistent(c: CommentData) {
    c.numberOfLikes == |c.likes|
  }

  /** One comment after a like reply: the server's likers and their number; all else is kept. */
  function Liked(c: CommentData, likes: seq<string>): (r: CommentData)
    ensures r.likes == likes && CountConsistent(r)
    ensures r.id == c.id && r.content == c.content && r.userId == c.userId && r.createdAt == c.createdAt
  {
    c.(likes := likes, numberOfLikes := |likes|)
  }

  /**
   * The list after a like reply for `commentId`: every comment with that id
   * takes the reply's likers and their count; all else stays, in its place.
   */
  function WithLikes(cs: seq<CommentData>, commentId: string, likes: seq<string>): (r: seq<CommentData>)
    ensures |r| == |cs|
    ensures forall i :: 0 <= i < |cs| && cs[i].id != commentId ==> r[i] == cs[i]
    ensures forall i :: 0 <= i < |cs| && cs[i].id == commentId ==>
      r[i].likes == likes && CountConsistent(r[i]) &&
      r[i].id == cs[i].id && r[i].content == cs[i].content &&
      r[i].userId == cs[i].userId && r[i].createdAt == cs[i].createdAt
  {
    if cs == [] then []
    else [if cs[0].id == commentId then Liked(cs[0], likes) else cs[0]] + WithLikes(cs[1..], commentId, likes)
  }

  /**
   * The list after an edit of `commentId`: every comment with that id takes
   * the new content and keeps its other fields; all else stays, in its place.
   */
  function WithContent(cs: seq<CommentData>, commentId: string, content: string): (r: seq<CommentData>)
    ensures |r| == |cs|
    ensures forall i :: 0 <= i < |cs| && cs[i].id != commentId ==> r[i] == cs[i]
    ensures forall i :: 0 <= i < |cs| && cs[i].id == commentId ==>
      r[i].content == content && r[i].id == cs[i].id && r[i].likes == cs[i].likes &&
      r[i].numberOfLikes == cs[i].numberOfLikes && r[i].userId == cs[i].userId &&
      r[i].createdAt == cs[i].createdAt
  {
    if cs == [] then []
    else [if cs[0].id == commentId then cs[0].(content := content) else cs[0]] + WithContent(cs[1..], commentId, content)
  }

  /** Applying the same like reply twice is the same as applying it once. */
  lemma {:induction false} WithLikesIdempotent(cs: seq<CommentData>, commentId: string, likes: seq<string>)
    ensures WithLikes(WithLikes(cs, commentId, likes), commentId, likes) == WithLikes(cs, commentId, likes)
  {
    if cs != [] {
      var r := WithLikes(cs, commentId, likes);
      assert r[1..] == WithLikes(cs[1..], commentId, likes);
      WithLikesIdempotent(cs[1..], commentId, likes);
    }
  }

  /** Like replies for two different comments give the same list in either order. */
  lemma {:induction false} WithLikesCommute(cs: seq<CommentData>, a: string, la: seq<string>, b: string, lb: seq<string>)
    requires a != b
    ensures WithLikes(WithLikes(cs, a, la), b, lb) == WithLikes(WithLikes(cs, b, lb), a, la)
  {
    if cs != [] {
      assert WithLikes(cs, a, la)[1..] == WithLikes(cs[1..], a, la);
      assert WithLikes(cs, b, lb)[1..] == WithLikes(cs[1..], b, lb);
      WithLikesCommute(cs[1..], a, la, b, lb);
    }
  }

  /** A like reply and an edit give the same list in either order, even for the same comment. */
  lemma {:induction false} LikeAndEditCommute(cs: seq<CommentData>, a: string, likes: seq<string>, b: string, content: string)
    ensures WithContent(WithLikes(cs, a, likes), b, content) == WithLikes(WithContent(cs, b, content), a, likes)
  {
    if cs != [] {
      assert WithLikes(cs, a, likes)[1..] == WithLikes(cs[1..], a, likes);
      assert WithContent(cs, b, content)[1..] == WithContent(cs[1..], b, content);
      LikeAndEditCommute(cs[1..], a, likes, b, content);
    }
  }

  /** A like reply keeps every like count in agreement with its likers. */
  lemma WithLikesKeepsCounts(cs: seq<CommentData>, commentId: string, likes: seq<string>)
    requires forall i :: 0 <= i < |cs| ==> CountConsistent(cs[i])
    ensures forall i :: 0 <= i < |WithLikes(cs, commentId, likes)| ==> CountConsistent(WithLikes(cs, commentId, likes)[i])
  {
    var r := WithLikes(cs, commentId, likes);
    forall i | 0 <= i < |r| ensures CountConsistent(r[i]) {
      if cs[i].id != commentId {
        assert r[i] == cs[i];
      }
    }
  }

  /** A reply for an id no comment has leaves the list as it was. */
  lemma {:induction false} UnknownIdUnchanged(cs: seq<CommentData>, commentId: string, likes: seq<string>, content: string)
    requires forall i :: 0 <= i < |cs| ==> cs[i].id != commentId
    ensures WithLikes(cs, commentId, likes) == cs
    ensures WithContent(cs, commentId, content) == cs
  {
    if cs != [] {
      UnknownIdUnchanged(cs[1..], commentId, likes, content);
    }
  }

  class CommentSection {
    const postId: string
    var comment: string
    var commentError: Option<string>
    var comments: seq<CommentData>

    /** The draft fits the textarea. */
    predicate Valid()
      reads this
    {
      |comment| <= MaxLength
    }

    constructor (postId: string)
      ensures this.postId == postId && comment == "" && commentError == None && comments == []
      ensures Valid()
    {
      this.postId := postId;
      comment := "";
      commentError := None;
      comments := [];
    }

    /** The "characters remaining" counter: negative exactly when the draft is too long. */
    function Remaining(): (n: int)
      reads this
      ensures Valid() <==> n >= 0
      ensures n <= MaxLength && (n == MaxLength <==> comment == "")
    {
      MaxLength - |comment|
    }

    /**
     * The textarea's change event. `value` is the whole text the edit would
     * produce; the browser keeps at most `maxLength` characters of it. The
     * model keeps the first ones. A browser cuts inserted text at the caret
     * instead, so a paste into the middle of a long draft keeps a different
     * 200 characters; only the length bound is the same.
     */
    method HandleDraftChange(value: string)
      modifies this`comment
      ensures Valid()
      ensures comment <= value
      ensures |value| <= MaxLength ==> comment == value
      ensures |value| > MaxLength ==> |comment| == MaxLength
    {
      comment := if |value| <= MaxLength then value else value[..MaxLength];
    }

    /**
     * The load effect `getComments`: an ok reply replaces the list
     * wholesale; a reply that is not ok, or a thrown request, leaves it.
     */
    method LoadComments(response: Response<seq<CommentData>>)
      modifies this`comments
      ensures response.Replied? && response.ok ==> comments == response.data
      ensures !(response.Replied? && response.ok) ==> comments == old(comments)
    {
      if response.Replied? && response.ok {
        comments := response.data;
      }
    }

    /**
     * `handleSubmit`, for the signed-in `user` (the form is shown only then):
     * a draft over 200 characters sends nothing and changes nothing; an
     * empty one is sent. An ok reply is put first in the list and clears the
     * draft and the error; a reply that is not ok changes nothing; a thrown
     * request shows its message (a thrown non-`Error` value has none).
     * Returns the request sent.
     */
    method HandleSubmit(user: User, response: Response<CommentData>) returns (request: Option<NewComment>)
      modifies this`comment, this`commentError, this`comments
      ensures request.Some? <==> |old(comment)| <= MaxLength
      ensures old(Valid()) ==> request.Some?
      ensures request.Some? ==> request.value == NewComment(old(comment), postId, user.id)
      ensures request.None? || (response.Replied? && !response.ok) ==>
        comment == old(comment) && commentError == old(commentError) && comments == old(comments)
      ensures request.Some? && response.Replied? && response.ok ==>
        comments == [response.data] + old(comments) && comment == "" && commentError == None
      ensures request.Some? && response.Threw? ==>
        comment == old(comment) && comments == old(comments) &&
        commentError == (if response.thrown.ErrorObject? then Some(response.thrown.message) else None)
    {
      if |comment| > MaxLength {
        return None;
      }
      request := Some(NewComment(comment, postId, user.id));
      match response {
        case Replied(ok, data) =>
          if ok {
            comment := "";
            commentError := None;
            comments := [data] + comments;
          }
        case Threw(thrown) =>
          commentError := if thrown.ErrorObject? then Some(thrown.message) else None;
      }
    }

    /**
     * `handleLike`: with nobody signed in it navigates to the sign-in page
     * and sends nothing; otherwise an ok reply's likers replace those of the
     * comment with that id, and any other outcome changes nothing. Returns
     * where it navigated and whether the request was sent.
     */
    method HandleLike(currentUser: Option<User>, commentId: string, response: Response<seq<string>>)
      returns (navigateTo: Option<string>, requested: bool)
      modifies this`comments
      ensures requested <==> currentUser.Some?
      ensures navigateTo == (if currentUser.None? then Some(SignInPath) else None)
      ensures requested && response.Replied? && response.ok ==> comments == WithLikes(old(comments), commentId, response.data)
      ensures !(requested && response.Replied? && response.ok) ==> comments == old(comments)
    {
      if currentUser.None? {
        return Some(SignInPath), false;
      }
      navigateTo, requested := None, true;
      if response.Replied? && response.ok {
        comments := WithLikes(comments, commentId, response.data);
      }
    }

    /** `handleEdit`, called back by a comment once its edit was saved. */
    method HandleEdit(target: CommentData, editedContent: string)
      modifies this`comments
      ensures comments == WithContent(old(comments), target.id, editedContent)
    {
      comments := WithContent(comments, target.id, editedContent);
    }
  }
}
