/**
 * One comment in the list (client/src/components/Comment.tsx): an editing
 * flag and a draft seeded from the comment's content, the like label, and
 * the two predicates that decide what the signed-in user sees.
 */
module CommentItem {
  import opened Common
  import opened UserSlice
  import opened Comments

  /**
   * The like count as shown: nothing unless positive, then the number and
   * "like" or "likes".
   */
  function LikeLabel(n: int): (text: string)
    ensures text == "" <==> n <= 0
    ensures n > 0 ==> text == Decimal(n) + " " + (if n == 1 then "like" else "likes")
  {
    if n <= 0 then "" else Decimal(n) + " " + (if n == 1 then "like" else "likes")
  }

  /** The label's numeral reads back as the count, and the noun is singular exactly for one. */
  lemma LikeLabelReadsBack(n: int)
    requires n > 0
    ensures var k := |Decimal(n)|;
      && k < |LikeLabel(n)|
      && (forall i :: 0 <= i < k ==> IsDigit(LikeLabel(n)[i]))
      && DecimalValue(LikeLabel(n)[..k]) == n
      && LikeLabel(n)[k] == ' '
      && (LikeLabel(n)[k + 1..] == "like" <==> n == 1)
  {
    var d := Decimal(n);
    assert LikeLabel(n)[..|d|] == d;
    DecimalRoundTrip(n);
    assert LikeLabel(n)[|d| + 1..] == if n == 1 then "like" else "likes";
  }

  /** The number of digits a string starts with. */
  function LeadingDigits(s: string): (k: nat)
    ensures k <= |s|
    ensures forall i :: 0 <= i < k ==> IsDigit(s[i])
    ensures k < |s| ==> !IsDigit(s[k])
  {
    if s != [] && IsDigit(s[0]) then 1 + LeadingDigits(s[1..]) else 0
  }

  /** The numeral in front of a space is exactly the string's leading digits. */
  lemma {:induction false} NumeralEndsAtSpace(d: string, rest: string)
    requires forall i :: 0 <= i < |d| ==> IsDigit(d[i])
    ensures LeadingDigits(d + " " + rest) == |d|
  {
    if d != [] {
      assert (d + " " + rest)[1..] == d[1..] + " " + rest;
      NumeralEndsAtSpace(d[1..], rest);
    }
  }

  /** Different positive counts never show the same label. */
  lemma LikeLabelInjective(m: int, n: int)
    requires m > 0 && n > 0 && LikeLabel(m) == LikeLabel(n)
    ensures m == n
  {
    var dm, dn := Decimal(m), Decimal(n);
    var nm, nn := (if m == 1 then "like" else "likes"), (if n == 1 then "like" else "likes");
    NumeralEndsAtSpace(dm, nm);
    NumeralEndsAtSpace(dn, nn);
    assert dm == LikeLabel(m)[..|dm|];
    assert dn == LikeLabel(n)[..|dn|];
    DecimalInjective(m, n);
  }

  /** Edit and Delete are offered to the comment's author and to admins, and to nobody signed out. */
  predicate CanModify(currentUser: Option<User>, c: CommentData) {
    currentUser.Some? && (currentUser.value.id == c.userId || currentUser.value.isAdmin)
  }

  /** Who is offered Edit and Delete, case by case. */
  lemma ModifyRights(currentUser: Option<User>, c: CommentData)
    ensures currentUser.None? ==> !CanModify(currentUser, c)
    ensures currentUser.Some? && currentUser.value.isAdmin ==> CanModify(currentUser, c)
    ensures currentUser.Some? && !currentUser.value.isAdmin ==>
      (CanModify(currentUser, c) <==> currentUser.value.id == c.userId)
  {
  }

  /** The like button is highlighted when the signed-in user is among the likers. */
  predicate IsLikedBy(currentUser: Option<User>, c: CommentData) {
    currentUser.Some? && currentUser.value.id in c.likes
  }

  /**
   * After a like reply, the button of each affected comment is highlighted
   * exactly when the reply lists the user, and who may edit any comment
   * does not change.
   */
  lemma LikeReplyHighlight(cs: seq<CommentData>, commentId: string, likes: seq<string>, currentUser: Option<User>)
    ensures var r := WithLikes(cs, commentId, likes);
      forall i :: 0 <= i < |cs| ==>
        && (cs[i].id == commentId ==> (IsLikedBy(currentUser, r[i]) <==> currentUser.Some? && currentUser.value.id in likes))
        && (cs[i].id != commentId ==> (IsLikedBy(currentUser, r[i]) <==> IsLikedBy(currentUser, cs[i])))
        && (CanModify(currentUser, r[i]) <==> CanModify(currentUser, cs[i]))
  {
  }

  class CommentView {
    var comment: CommentData
    var isEditing: bool
    var editedContent: string

    /** The draft starts as the comment's content, outside editing. */
    constructor (comment: CommentData)
      ensures this.comment == comment && !isEditing && editedContent == comment.content
    {
      this.comment := comment;
      isEditing := false;
      editedContent := comment.content;
    }

    /**
     * A new `comment` prop: the draft is state, so it keeps its value and
     * is not re-seeded.
     */
    method PropsChanged(c: CommentData)
      modifies this`comment
      ensures comment == c
    {
      comment := c;
    }

    /** `handleEdit`: enters editing with the draft re-seeded from the current content. */
    method HandleEdit()
      modifies this`isEditing, this`editedContent
      ensures isEditing && editedContent == comment.content
    {
      isEditing := true;
      editedContent := comment.content;
    }

    /** The textarea's change event: only the draft changes. */
    method HandleDraftChange(value: string)
      modifies this`editedContent
      ensures editedContent == value
    {
      editedContent := value;
    }

    /**
     * `handleSave`: sends the draft; only an ok reply leaves editing and
     * calls back `onEdit` with the comment and the draft. Returns the
     * request's content and the call-back's arguments, if made.
     */
    method HandleSave(response: Response<()>) returns (sent: string, onEdit: Option<(CommentData, string)>)
      modifies this`isEditing
      ensures sent == editedContent
      ensures response.Replied? && response.ok ==> !isEditing && onEdit == Some((comment, editedContent))
      ensures !(response.Replied? && response.ok) ==> isEditing == old(isEditing) && onEdit == None
    {
      sent := editedContent;
      onEdit := None;
      if response.Replied? && response.ok {
        isEditing := false;
        onEdit := Some((comment, editedContent));
      }
    }

    /** The Cancel button: leaves editing, keeps the draft, and calls nothing back. */
    method HandleCancel()
      modifies this`isEditing
      ensures !isEditing
    {
      isEditing := false;
    }
  }

  /**
   * An edit from start to finish: the user opens the editor, types, and the
   * server accepts; the section then holds the typed text as the content of
   * every comment with that id, and nothing else in its list changed.
   */
  method EditAndSave(view: CommentView, section: CommentSection, typed: string)
    modifies view, section
    ensures !view.isEditing
    ensures |section.comments| == |old(section.comments)|
    ensures forall i :: 0 <= i < |section.comments| ==>
      if old(section.comments)[i].id == view.comment.id then section.comments[i] == old(section.comments)[i].(content := typed)
      else section.comments[i] == old(section.comments)[i]
  {
    view.HandleEdit();
    view.HandleDraftChange(typed);
    var sent, onEdit := view.HandleSave(Replied(true, ()));
    section.HandleEdit(onEdit.value.0, onEdit.value.1);
  }
}
