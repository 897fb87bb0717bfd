/** The review entity of the standalone tree
    (src/main/java/travelfinder/model/Review.java): a guarded rating setter,
    the moderation predicates over a free-text status and the one-line
    summary. The navigation references to user, booking and accommodation
    are not part of this model. */
module Reviews {
  import opened Common

  class Review {
    var reviewId: int
    var bookingId: int
    var userId: int
    var accommodationId: int
    var rating: int
    var comment: Option<string>
    var response: Option<string>
    var responseByUserId: Option<int>
    // 'Pending', 'Approved' or 'Rejected' in the database, but any text here.
    var moderationStatus: Option<string>
    var reviewDate: Option<int>
    var isVerified: bool

    /** The five-argument constructor: the rating is taken unchecked, the
        review starts Pending and verified. */
    constructor (reviewId: int, bookingId: int, userId: int, accommodationId: int, rating: int)
      ensures this.reviewId == reviewId && this.bookingId == bookingId && this.userId == userId
      ensures this.accommodationId == accommodationId && this.rating == rating
      ensures moderationStatus == Some("Pending") && isVerified
      ensures comment == None && response == None && responseByUserId == None && reviewDate == None
    {
      this.reviewId, this.bookingId, this.userId := reviewId, bookingId, userId;
      this.accommodationId, this.rating := accommodationId, rating;
      comment, response, responseByUserId, reviewDate := None, None, None, None;
      moderationStatus, isVerified := Some("Pending"), true;
    }

    /** The seven-argument constructor: as above, plus the comment and the
        review date. */
    constructor WithComment(reviewId: int, bookingId: int, userId: int, accommodationId: int, rating: int,
                            comment: Option<string>, reviewDate: Option<int>)
      ensures this.reviewId == reviewId && this.bookingId == bookingId && this.userId == userId
      ensures this.accommodationId == accommodationId && this.rating == rating
      ensures this.comment == comment && this.reviewDate == reviewDate
      ensures moderationStatus == Some("Pending") && isVerified
      ensures response == None && responseByUserId == None
    {
      this.reviewId, this.bookingId, this.userId := reviewId, bookingId, userId;
      this.accommodationId, this.rating := accommodationId, rating;
      this.comment, this.reviewDate := comment, reviewDate;
      response, responseByUserId := None, None;
      moderationStatus, isVerified := Some("Pending"), true;
    }

    /** `setRating`: a value outside 1..5 raises IllegalArgumentException
        (`ok` false) and leaves the rating as it was. */
    method SetRating(value: int) returns (ok: bool)
      modifies this`rating
      ensures ok <==> 1 <= value <= 5
      ensures rating == if ok then value else old(rating)
    {
      if value < 1 || value > 5 {
        return false;
      }
      rating := value;
      return true;
    }

    /** `setModerationStatus`: an unchecked field write. */
    method SetModerationStatus(status: Option<string>)
      modifies this`moderationStatus
      ensures moderationStatus == status
    {
      moderationStatus := status;
    }

    /** `setResponse`: an unchecked field write. */
    method SetResponse(text: Option<string>)
      modifies this`response
      ensures response == text
    {
      response := text;
    }

    /** `hasResponse`: a response that is present and not empty. */
    predicate HasResponse()
      reads this
    {
      response.Some? && response.value != []
    }

    predicate IsPending()
      reads this
    {
      moderationStatus == Some("Pending")
    }

    predicate IsApproved()
      reads this
    {
      moderationStatus == Some("Approved")
    }

    predicate IsRejected()
      reads this
    {
      moderationStatus == Some("Rejected")
    }

    /** `toString`: the rating, "/5 - ", then the comment preview. */
    function ToString(): string
      reads this
    {
      IntToString(rating) + "/5 - " + CommentPreview(comment)
    }
  }

  /** The comment part of `toString`: "No comment" when there is none, the
      whole comment up to 30 characters, else its first 30 characters and
      "...". Java counts UTF-16 units; a character here is one unit. */
  function CommentPreview(comment: Option<string>): (r: string)
    ensures comment.None? ==> r == "No comment"
    ensures comment.Some? && |comment.value| <= 30 ==> r == comment.value
    ensures comment.Some? && |comment.value| > 30 ==>
              |r| == 33 && r[..30] == comment.value[..30] && r[30..] == "..."
  {
    if comment.None? then "No comment"
    else if |comment.value| > 30 then comment.value[..30] + "..."
    else comment.value
  }

  /** The preview never exceeds 33 characters, always starts with the
      comment's own first characters, and is shorter than the comment exactly
      when the comment is longer than 33 characters. */
  lemma CommentPreviewBounds(comment: string)
    ensures var r := CommentPreview(Some(comment));
            && |r| <= 33
            && (var n := if |comment| < 30 then |comment| else 30; r[..n] == comment[..n])
            && (|r| < |comment| <==> |comment| > 33)
  {
  }

  /** At most one moderation predicate holds, and a status outside the three
      names satisfies none of them. */
  lemma ModerationExclusive(review: Review)
    ensures !(review.IsPending() && review.IsApproved())
    ensures !(review.IsPending() && review.IsRejected())
    ensures !(review.IsApproved() && review.IsRejected())
    ensures review.moderationStatus !in {Some("Pending"), Some("Approved"), Some("Rejected")} ==>
              !review.IsPending() && !review.IsApproved() && !review.IsRejected()
  {
  }

  /** A run of digits ends where the "/" separator starts, so two texts that
      agree and each have digits followed by "/" agree on the digits. */
  lemma DigitsEndAtSeparator(x: string, y: string, tx: string, ty: string)
    requires forall i :: 0 <= i < |x| ==> IsDigit(x[i])
    requires forall i :: 0 <= i < |y| ==> IsDigit(y[i])
    requires tx != [] && tx[0] == '/' && ty != [] && ty[0] == '/'
    requires x + tx == y + ty
    ensures x == y
  {
    var s := x + tx;
    assert s[|x|] == '/';
    assert s[|y|] == '/';
    assert |x| == |y|;
    assert x == s[..|x|] == s[..|y|] == y;
  }

  /** The summary starts with the rating in decimal and the "/5 - "
      separator, so two reviews with different non-negative ratings never
      print alike. */
  lemma ToStringLeadsWithRating(a: Review, b: Review)
    requires a.rating >= 0 && b.rating >= 0 && a.rating != b.rating
    ensures a.ToString() != b.ToString()
  {
    var na, nb := NatToString(a.rating), NatToString(b.rating);
    var ta, tb := "/5 - " + CommentPreview(a.comment), "/5 - " + CommentPreview(b.comment);
    assert a.ToString() == na + ta;
    assert b.ToString() == nb + tb;
    if a.ToString() == b.ToString() {
      DigitsEndAtSeparator(na, nb, ta, tb);
      NatToStringInjective(a.rating, b.rating);
    }
  }
}
