/** The review form on an instructor's profile (components/InstructorProfileScreen.tsx). */
module InstructorProfileScreen {
  import opened Types

  class ReviewForm {
    var newRating: int
    var hoverRating: int
    var newComment: string
    var submitted: bool

    ghost predicate Valid()
      reads this
    {
      0 <= newRating <= 5 && 0 <= hoverRating <= 5
    }

    constructor ()
      ensures newRating == 0 && hoverRating == 0 && newComment == [] && !submitted && Valid()
    {
      newRating, hoverRating, newComment, submitted := 0, 0, [], false;
    }

    /** A click on one of the five stars. */
    method SetRating(star: int)
      requires Valid() && 1 <= star <= 5
      modifies this
      ensures Valid() && newRating == star
      ensures hoverRating == old(hoverRating) && newComment == old(newComment) && submitted == old(submitted)
    {
      newRating := star;
    }

    /** Entering a star (1 to 5) or leaving the row (0). */
    method SetHover(star: int)
      requires Valid() && 0 <= star <= 5
      modifies this
      ensures Valid() && hoverRating == star
      ensures newRating == old(newRating) && newComment == old(newComment) && submitted == old(submitted)
    {
      hoverRating := star;
    }

    method SetComment(comment: string)
      modifies this
      ensures newComment == comment
      ensures newRating == old(newRating) && hoverRating == old(hoverRating) && submitted == old(submitted)
    {
      newComment := comment;
    }

    /** `handleSubmitReview`: without a rating nothing happens; otherwise the review by
        `userName` goes to `onSubmitReview` with the instructor's id, carrying a rating
        of 1 to 5 stars, and the thank-you note is shown. */
    method Submit(instructorId: string, userName: string) returns (submission: Option<(string, Review)>)
      requires Valid()
      modifies this
      ensures Valid() && newRating == old(newRating) && newComment == old(newComment)
      ensures hoverRating == old(hoverRating)
      ensures submission.None? <==> old(newRating) == 0
      ensures submission.None? ==> submitted == old(submitted)
      ensures submission.Some? ==>
        submission.value == (instructorId, Review(userName, newRating, newComment)) &&
        1 <= submission.value.1.rating <= 5 && submitted
    {
      if newRating == 0 {
        return None;
      }
      var review := Review(userName, newRating, newComment);
      submission := Some((instructorId, review));
      submitted := true;
    }

    /** The three-second timer after a submission: the form is cleared. */
    method ResetTimerFired()
      modifies this
      ensures newRating == 0 && newComment == [] && hoverRating == 0 && !submitted && Valid()
    {
      newRating, newComment, hoverRating, submitted := 0, [], 0, false;
    }
  }
}
