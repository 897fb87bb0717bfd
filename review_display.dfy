/** The review entity of the DAO-backed tree (src/model/Review.java): the
    five-star rendering, the month-and-year date and the response test. The
    clock read by the constructor is a parameter. */
module ReviewDisplay {
  import opened Common

  datatype ModerationStatus = Pending | Approved | Rejected

  /** The parts of a `LocalDateTime` the display uses. */
  type MonthNumber = m: int | 1 <= m <= 12 witness 1
  datatype DateTime = DateTime(year: int, month: MonthNumber, day: int, hour: int, minute: int, second: int)

  const FilledStar: char := '\U{2605}'
  const EmptyStar: char := '\U{2606}'

  /** The names `Month.toString()` gives, in capitals. */
  const MonthConstants: seq<string> := ["JANUARY", "FEBRUARY", "MARCH", "APRIL", "MAY", "JUNE", "JULY",
                                        "AUGUST", "SEPTEMBER", "OCTOBER", "NOVEMBER", "DECEMBER"]

  /** The month names as a reader writes them. */
  const MonthNames: seq<string> := ["January", "February", "March", "April", "May", "June", "July",
                                    "August", "September", "October", "November", "December"]

  class Review {
    var reviewId: int
    var bookingId: int
    var userId: int
    var accommodationId: int
    var rating: int
    var comment: Option<string>
    var response: Option<string>
    var responseByUserId: Option<int>
    var moderationStatus: Option<ModerationStatus>
    var reviewDate: Option<DateTime>
    var isVerified: bool

    /** The five-argument constructor: PENDING, verified, dated `now`. */
    constructor (reviewId: int, bookingId: int, userId: int, accommodationId: int, rating: int, now: DateTime)
      ensures this.reviewId == reviewId && this.bookingId == bookingId && this.userId == userId
      ensures this.accommodationId == accommodationId && this.rating == rating
      ensures moderationStatus == Some(Pending) && isVerified && reviewDate == Some(now)
      ensures comment == None && response == None && responseByUserId == None
    {
      this.reviewId, this.bookingId, this.userId := reviewId, bookingId, userId;
      this.accommodationId, this.rating := accommodationId, rating;
      comment, response, responseByUserId := None, None, None;
      moderationStatus, isVerified, reviewDate := Some(Pending), true, Some(now);
    }

    method SetResponse(text: Option<string>, byUserId: Option<int>)
      modifies this`response, this`responseByUserId
      ensures response == text && responseByUserId == byUserId
    {
      response, responseByUserId := text, byUserId;
    }

    method SetReviewDate(date: Option<DateTime>)
      modifies this`reviewDate
      ensures reviewDate == date
    {
      reviewDate := date;
    }

    /** `hasResponse`: a non-empty response and a known responder. */
    predicate HasResponse()
      reads this
    {
      response.Some? && response.value != [] && responseByUserId.Some?
    }

    /** `getFormattedReviewDate` */
    function FormattedReviewDate(): (r: string)
      reads this
      ensures reviewDate.None? ==> r == "Date unknown"
      ensures reviewDate.Some? ==>
                r == MonthNames[reviewDate.value.month - 1] + " " + IntToString(reviewDate.value.year)
    {
      if reviewDate.None? then "Date unknown"
      else
        MonthYearSpelledOut(reviewDate.value);
        MonthYear(reviewDate.value)
    }

    /** `getStarRating`: five rounds, each appending a filled star while the
        round number is below the rating and an empty one after. */
    method GetStarRating() returns (stars: string)
      ensures stars == Stars(rating)
    {
      stars := "";
      var i := 0;
      while i < 5
        invariant 0 <= i <= 5
        invariant stars == Stars(rating)[..i]
      {
        if i < rating {
          stars := stars + [FilledStar];
        } else {
          stars := stars + [EmptyStar];
        }
        i := i + 1;
      }
    }
  }

  /** The string `getStarRating` builds. */
  function Stars(rating: int): (s: string)
    ensures |s| == 5
    ensures forall i :: 0 <= i < 5 ==> s[i] == if i < rating then FilledStar else EmptyStar
  {
    seq(5, i requires 0 <= i < 5 => if i < rating then FilledStar else EmptyStar)
  }

  /** How often `c` occurs in `s`. */
  function Count(s: string, c: char): nat {
    if s == [] then 0 else Count(s[..|s| - 1], c) + (if s[|s| - 1] == c then 1 else 0)
  }

  /** The rating limited to 0..5. */
  function Clamp(rating: int): int {
    if rating < 0 then 0 else if rating > 5 then 5 else rating
  }

  lemma {:induction false} CountFilledPrefix(rating: int, k: nat)
    requires k <= 5
    ensures Count(Stars(rating)[..k], FilledStar) == if rating < 0 then 0 else if rating > k then k else rating
  {
    if k > 0 {
      CountFilledPrefix(rating, k - 1);
      assert Stars(rating)[..k][..k - 1] == Stars(rating)[..k - 1];
    }
  }

  /** The star string shows the rating, limited to 0..5, as filled stars and
      the rest of the five as empty stars: filled ones first, more than five
      never, and none at all for a negative rating. */
  lemma StarsShowRating(rating: int)
    ensures Count(Stars(rating), FilledStar) == Clamp(rating)
    ensures Count(Stars(rating), EmptyStar) == 5 - Clamp(rating)
    ensures forall i :: 0 <= i < Clamp(rating) ==> Stars(rating)[i] == FilledStar
    ensures forall i :: Clamp(rating) <= i < 5 ==> Stars(rating)[i] == EmptyStar
    ensures rating <= 0 ==> Stars(rating) == [EmptyStar, EmptyStar, EmptyStar, EmptyStar, EmptyStar]
  {
    CountFilledPrefix(rating, 5);
    assert Stars(rating)[..5] == Stars(rating);
    CountSplit(Stars(rating));
  }

  /** Every star is filled or empty, so the two counts add up to five. */
  lemma {:induction false} CountSplit(s: string)
    requires forall i :: 0 <= i < |s| ==> s[i] == FilledStar || s[i] == EmptyStar
    ensures Count(s, FilledStar) + Count(s, EmptyStar) == |s|
  {
    if s != [] {
      CountSplit(s[..|s| - 1]);
    }
  }

  /** The month part: the first letter of the capitalised constant, then the
      rest in lower case, then a space and the year. */
  function MonthYear(d: DateTime): string {
    var m := MonthConstants[d.month - 1];
    [m[0]] + ToLower(m[1..]) + " " + IntToString(d.year)
  }

  /** Lower-casing all but the first letter of each constant gives the month
      name as written, so a date shows as that name, a space and the year. */
  lemma MonthYearSpelledOut(d: DateTime)
    ensures MonthYear(d) == MonthNames[d.month - 1] + " " + IntToString(d.year)
  {
    var m := MonthConstants[d.month - 1];
    assert [m[0]] + ToLower(m[1..]) == MonthNames[d.month - 1] by {
      var n := MonthNames[d.month - 1];
      assert |m| == |n|;
      forall i | 1 <= i < |m| ensures LowerChar(m[i]) == n[i] {
      }
    }
  }

  /** A missing date prints as "Date unknown", and a present one never does:
      the text before its first space is a month name, never "Date". */
  lemma FormattedDateDistinguishesMissing(r: Review)
    ensures r.reviewDate.None? <==> r.FormattedReviewDate() == "Date unknown"
  {
    if r.reviewDate.Some? {
      var d := r.reviewDate.value;
      MonthYearSpelledOut(d);
      var n := MonthNames[d.month - 1];
      var s := r.FormattedReviewDate();
      assert s[..|n|] == n;
      assert s[|n|] == ' ' && s[0] == n[0];
      assert |n| != 4 || n[0] == 'J';
    }
  }
}
