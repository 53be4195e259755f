/** The student dashboard: upcoming and past sessions, the buttons each
    session row offers, the two counters derived from past sessions, the
    review dialog and its request, and the per-user socket on which
    incoming calls arrive. */
module StudentDashboard {
  import opened Common
  import opened Domain

  // ---------------------------------------------------------------------------
  // Upcoming and past

  function IsUpcoming(): Booking -> bool
  {
    (b: Booking) => b.status == Confirmed || b.status == Pending
  }

  function IsPast(): Booking -> bool
  {
    (b: Booking) => b.status == Completed || b.status == Cancelled
  }

  /** `upcomingBookings`. */
  function Upcoming(bs: seq<Booking>): seq<Booking>
  {
    Filter(bs, IsUpcoming())
  }

  /** `pastBookings`. */
  function Past(bs: seq<Booking>): seq<Booking>
  {
    Filter(bs, IsPast())
  }

  /** Both lists keep the fetched order; the upcoming one holds exactly the
      confirmed and pending bookings, the past one the completed and
      cancelled ones, and each is as long as its two status lists together. */
  lemma UpcomingAndPast(bs: seq<Booking>)
    ensures IsSubsequence(Upcoming(bs), bs) && IsSubsequence(Past(bs), bs)
    ensures forall b :: b in Upcoming(bs) <==> b in bs && (b.status == Confirmed || b.status == Pending)
    ensures forall b :: b in Past(bs) <==> b in bs && (b.status == Completed || b.status == Cancelled)
    ensures |Upcoming(bs)| == |OfStatus(bs, Confirmed)| + |OfStatus(bs, Pending)|
    ensures |Past(bs)| == |OfStatus(bs, Completed)| + |OfStatus(bs, Cancelled)|
    ensures forall b :: !(b in Upcoming(bs) && b in Past(bs))
  {
    FilterIsSubsequence(bs, IsUpcoming());
    FilterIsSubsequence(bs, IsPast());
    forall b ensures b in Upcoming(bs) <==> b in bs && (b.status == Confirmed || b.status == Pending) {
      FilterIn(bs, IsUpcoming(), b);
    }
    forall b ensures b in Past(bs) <==> b in bs && (b.status == Completed || b.status == Cancelled) {
      FilterIn(bs, IsPast(), b);
    }
    FilterDisjointCount(bs, HasStatus(Confirmed), HasStatus(Pending), IsUpcoming());
    FilterDisjointCount(bs, HasStatus(Completed), HasStatus(Cancelled), IsPast());
  }

  // ---------------------------------------------------------------------------
  // Row buttons

  datatype Button = Chat | StartVideoCall | LeaveReview

  /** The buttons a session row shows: chat and video call on a confirmed
      session, "Leave Review" on a completed one not yet reviewed. */
  function Buttons(b: Booking): set<Button>
  {
    (if b.status == Confirmed then {Chat, StartVideoCall} else {}) +
    (if b.status == Completed && b.review.None? then {LeaveReview} else {})
  }

  /** Chat and calling are offered only on confirmed sessions, which are
      upcoming, and a review only on unreviewed completed ones, which are
      past; no row offers both. */
  lemma ButtonsByStatus(bs: seq<Booking>, b: Booking)
    requires b in bs
    ensures Chat in Buttons(b) <==> b.status == Confirmed
    ensures StartVideoCall in Buttons(b) <==> b.status == Confirmed
    ensures LeaveReview in Buttons(b) <==> b.status == Completed && b.review.None?
    ensures Chat in Buttons(b) ==> b in Upcoming(bs) && LeaveReview !in Buttons(b)
    ensures LeaveReview in Buttons(b) ==> b in Past(bs)
    ensures b.status == Pending || b.status == Cancelled ==> Buttons(b) == {}
  {
    UpcomingAndPast(bs);
  }

  // ---------------------------------------------------------------------------
  // Counters

  function IsCompleted(): Booking -> bool
  {
    (b: Booking) => b.status == Completed
  }

  function IsReviewed(): Booking -> bool
  {
    (b: Booking) => b.review.Some?
  }

  /** The "Completed" counter. */
  function CompletedCount(bs: seq<Booking>): nat
  {
    |Filter(Past(bs), IsCompleted())|
  }

  /** The "Reviews" counter. */
  function ReviewsCount(bs: seq<Booking>): nat
  {
    |Filter(Past(bs), IsReviewed())|
  }

  /** "Completed" counts every completed booking; "Reviews" counts the
      reviewed past ones, so neither exceeds the past list. */
  lemma Counters(bs: seq<Booking>)
    ensures CompletedCount(bs) == |OfStatus(bs, Completed)|
    ensures CompletedCount(bs) <= |Past(bs)| && ReviewsCount(bs) <= |Past(bs)|
    ensures forall b :: b in Filter(Past(bs), IsReviewed()) <==>
                        b in bs && b.review.Some? && (b.status == Completed || b.status == Cancelled)
  {
    FilterFilter(bs, IsPast(), IsCompleted(), HasStatus(Completed));
    UpcomingAndPast(bs);
    forall b ensures b in Filter(Past(bs), IsReviewed()) <==> b in Past(bs) && b.review.Some? {
      FilterIn(Past(bs), IsReviewed(), b);
    }
  }

  // ---------------------------------------------------------------------------
  // Reviews

  /** The dialog's fields: the star rating and the comment. */
  datatype ReviewData = ReviewData(rating: nat, comment: string)

  const DefaultReview: ReviewData := ReviewData(5, "")

  /** The dialog, holding the booking being reviewed. */
  datatype ReviewModal = ReviewModal(open: bool, booking: Option<Booking>)

  const ClosedReview: ReviewModal := ReviewModal(false, None)

  datatype ReviewPost = ReviewPost(bookingId: string, rating: nat, comment: string)

  /** Why `submitReview` sends nothing: a blank comment, or no booking held
      (reading its id fails and the error is reported). */
  datatype ReviewRefusal = BlankComment | NoBooking

  /** `submitReview`'s request. */
  function ReviewRequestFor(modal: ReviewModal, data: ReviewData): (r: Result<ReviewPost, ReviewRefusal>)
    ensures r == Err(BlankComment) <==> Trim(data.comment) == ""
    ensures r.Ok? <==> Trim(data.comment) != "" && modal.booking.Some?
    ensures r.Ok? ==> r.value == ReviewPost(modal.booking.value.bookingId, data.rating, data.comment)
  {
    if Trim(data.comment) == "" then Err(BlankComment)
    else if modal.booking.None? then Err(NoBooking)
    else Ok(ReviewPost(modal.booking.value.bookingId, data.rating, data.comment))
  }

  /** A comment of whitespace alone is refused, and one with any visible
      character is sent untrimmed for the booking the dialog was opened on. */
  lemma ReviewNeedsText(b: Booking, data: ReviewData)
    ensures IsBlank(data.comment) ==> ReviewRequestFor(ReviewModal(true, Some(b)), data) == Err(BlankComment)
    ensures !IsBlank(data.comment) ==>
              ReviewRequestFor(ReviewModal(true, Some(b)), data) == Ok(ReviewPost(b.bookingId, data.rating, data.comment))
  {
    TrimEmptyIffBlank(data.comment);
  }

  // ---------------------------------------------------------------------------
  // The page object

  datatype Request = FetchAll | PostReview(post: ReviewPost)

  class DashboardPage {
    var loading: bool
    var bookings: seq<Booking>
    var savedCounselors: seq<string>
    /** The socket to `/ws/<user_id>`, when one was opened. */
    var socketUser: Option<string>
    var reviewModal: ReviewModal
    var reviewData: ReviewData
    var incomingCall: Option<IncomingCallView>
    var requests: seq<Request>

    /** Mounting: the data is requested, and a socket is opened only for a
        signed-in user. */
    constructor (user: Option<User>)
      ensures socketUser == if user.Some? then Some(user.value.userId) else None
      ensures loading && bookings == [] && savedCounselors == [] && requests == [FetchAll]
      ensures reviewModal == ClosedReview && reviewData == DefaultReview && incomingCall.None?
    {
      loading := true;
      bookings := [];
      savedCounselors := [];
      socketUser := if user.Some? then Some(user.value.userId) else None;
      reviewModal := ClosedReview;
      reviewData := DefaultReview;
      incomingCall := None;
      requests := [FetchAll];
    }

    /** `fetchData` completing: both lists on success, nothing on failure;
        loading ends either way. */
    method Fetched(result: Option<(seq<Booking>, seq<string>)>)
      modifies this
      ensures !loading
      ensures result.Some? ==> bookings == result.value.0 && savedCounselors == result.value.1
      ensures result.None? ==> bookings == old(bookings) && savedCounselors == old(savedCounselors)
      ensures socketUser == old(socketUser) && reviewModal == old(reviewModal) && reviewData == old(reviewData)
      ensures incomingCall == old(incomingCall) && requests == old(requests)
    {
      loading := false;
      if result.Some? {
        bookings := result.value.0;
        savedCounselors := result.value.1;
      }
    }

    /** `ws.onmessage`: only an incoming call changes the page. */
    method OnFrame(f: InFrame)
      requires socketUser.Some?
      modifies this
      ensures f.IncomingCall? ==> incomingCall == Some(IncomingView(f.call, f.caller))
      ensures !f.IncomingCall? ==> incomingCall == old(incomingCall)
      ensures loading == old(loading) && bookings == old(bookings) && savedCounselors == old(savedCounselors)
      ensures socketUser == old(socketUser) && reviewModal == old(reviewModal) && reviewData == old(reviewData)
      ensures requests == old(requests)
    {
      if f.IncomingCall? {
        incomingCall := Some(IncomingView(f.call, f.caller));
      }
    }

    /** The incoming call's `onEnd`. */
    method IncomingCallEnded()
      modifies this
      ensures incomingCall.None?
      ensures loading == old(loading) && bookings == old(bookings) && savedCounselors == old(savedCounselors)
      ensures socketUser == old(socketUser) && reviewModal == old(reviewModal) && reviewData == old(reviewData)
      ensures requests == old(requests)
    {
      incomingCall := None;
    }

    /** "Leave Review" on a row. */
    method OpenReview(b: Booking)
      modifies this
      ensures reviewModal == ReviewModal(true, Some(b)) && reviewData == old(reviewData)
      ensures loading == old(loading) && bookings == old(bookings) && savedCounselors == old(savedCounselors)
      ensures socketUser == old(socketUser) && incomingCall == old(incomingCall) && requests == old(requests)
    {
      reviewModal := ReviewModal(true, Some(b));
    }

    /** A star click. */
    method SetRating(star: nat)
      requires 1 <= star <= 5
      modifies this
      ensures reviewData == old(reviewData).(rating := star) && reviewModal == old(reviewModal)
      ensures loading == old(loading) && bookings == old(bookings) && savedCounselors == old(savedCounselors)
      ensures socketUser == old(socketUser) && incomingCall == old(incomingCall) && requests == old(requests)
    {
      reviewData := reviewData.(rating := star);
    }

    /** Typing in the comment box. */
    method SetComment(text: string)
      modifies this
      ensures reviewData == old(reviewData).(comment := text) && reviewModal == old(reviewModal)
      ensures loading == old(loading) && bookings == old(bookings) && savedCounselors == old(savedCounselors)
      ensures socketUser == old(socketUser) && incomingCall == old(incomingCall) && requests == old(requests)
    {
      reviewData := reviewData.(comment := text);
    }

    /** "Cancel" in the dialog: it closes, and the rating and comment stay. */
    method CloseReview()
      modifies this
      ensures reviewModal == ClosedReview && reviewData == old(reviewData)
      ensures loading == old(loading) && bookings == old(bookings) && savedCounselors == old(savedCounselors)
      ensures socketUser == old(socketUser) && incomingCall == old(incomingCall) && requests == old(requests)
    {
      reviewModal := ClosedReview;
    }

    /** `submitReview` with the outcome of the POST: nothing is sent when
        the request cannot be formed; success closes the dialog, resets the
        rating to 5 and the comment to empty and reloads; failure keeps the
        dialog and its fields. */
    method SubmitReview(ok: bool)
      modifies this
      ensures ReviewRequestFor(old(reviewModal), old(reviewData)).Err? ==>
                requests == old(requests) && reviewModal == old(reviewModal) && reviewData == old(reviewData)
      ensures ReviewRequestFor(old(reviewModal), old(reviewData)).Ok? && ok ==>
                requests == old(requests) + [PostReview(ReviewRequestFor(old(reviewModal), old(reviewData)).value), FetchAll] &&
                reviewModal == ClosedReview && reviewData == DefaultReview
      ensures ReviewRequestFor(old(reviewModal), old(reviewData)).Ok? && !ok ==>
                requests == old(requests) + [PostReview(ReviewRequestFor(old(reviewModal), old(reviewData)).value)] &&
                reviewModal == old(reviewModal) && reviewData == old(reviewData)
      ensures loading == old(loading) && bookings == old(bookings) && savedCounselors == old(savedCounselors)
      ensures socketUser == old(socketUser) && incomingCall == old(incomingCall)
    {
      var req := ReviewRequestFor(reviewModal, reviewData);
      if req.Err? {
        return;
      }
      requests := requests + [PostReview(req.value)];
      if ok {
        reviewModal := ClosedReview;
        reviewData := DefaultReview;
        requests := requests + [FetchAll];
      }
    }
  }
}
