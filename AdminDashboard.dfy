/** The admin dashboard: the pending applications with approve and reject,
    the table of all counselors with suspend and reactivate, the review
    dialog with its feedback box, and the status update request. */
module AdminDashboard {
  import opened Common

  /** A counselor's application status; any other string the server sends
      is `OtherStatus`. */
  datatype CounselorStatus = Pending | Approved | Rejected | Suspended | OtherStatus(name: string)

  datatype Counselor = Counselor(counselorId: string, status: CounselorStatus)

  /** The buttons of a row of the pending list: "Approve" and "Reject". */
  const PendingRowActions: seq<CounselorStatus> := [Approved, Rejected]

  /** The button of a row of the all-counselors table: "Suspend" on an
      approved counselor, "Reactivate" on a suspended one, none otherwise. */
  function TableAction(s: CounselorStatus): (r: Option<CounselorStatus>)
    ensures r.Some? <==> s == Approved || s == Suspended
    ensures r.Some? ==> r.value != s
  {
    match s
    case Approved => Some(Suspended)
    case Suspended => Some(Approved)
    case _ => None
  }

  /** Reactivating undoes suspending and the other way round; a pending,
      rejected or unknown counselor gets no action in the table. */
  lemma TableActionsUndo(s: CounselorStatus)
    ensures TableAction(s).Some? ==> TableAction(TableAction(s).value) == Some(s)
    ensures TableAction(s).Some? ==> TableAction(s).value in {Approved, Suspended}
    ensures TableAction(s).None? <==> s == Pending || s == Rejected || s.OtherStatus?
  {
  }

  /** The tab badge: the number of pending applications, shown only when
      there is at least one. */
  function PendingBadge(pending: seq<Counselor>): (r: Option<nat>)
    ensures r.Some? <==> |pending| > 0
    ensures r.Some? ==> r.value == |pending| && r.value >= 1
  {
    if |pending| > 0 then Some(|pending|) else None
  }

  /** The review dialog, holding the counselor being reviewed. */
  datatype ReviewModal = ReviewModal(open: bool, counselor: Option<Counselor>)

  const ClosedReview: ReviewModal := ReviewModal(false, None)

  /** The id the dialog's buttons send (`reviewModal.counselor?.counselor_id`). */
  function DialogCounselorId(m: ReviewModal): (r: Option<string>)
    ensures r.Some? <==> m.counselor.Some?
    ensures r.Some? ==> r.value == m.counselor.value.counselorId
  {
    if m.counselor.Some? then Some(m.counselor.value.counselorId) else None
  }

  /** The requests the page issues; `counselorId` is `None` when the dialog
      had no counselor. */
  datatype Request =
    | FetchAll
    | PutStatus(counselorId: Option<string>, status: CounselorStatus, feedback: string)

  class AdminPage {
    var loading: bool
    var pending: seq<Counselor>
    var all: seq<Counselor>
    var reviewModal: ReviewModal
    var feedback: string
    var requests: seq<Request>

    constructor ()
      ensures loading && pending == [] && all == []
      ensures reviewModal == ClosedReview && feedback == "" && requests == [FetchAll]
    {
      loading := true;
      pending := [];
      all := [];
      reviewModal := ClosedReview;
      feedback := "";
      requests := [FetchAll];
    }

    /** `fetchData` completing: both lists on success, nothing on failure;
        loading ends either way. */
    method Fetched(result: Option<(seq<Counselor>, seq<Counselor>)>)
      modifies this
      ensures !loading
      ensures result.Some? ==> pending == result.value.0 && all == result.value.1
      ensures result.None? ==> pending == old(pending) && all == old(all)
      ensures reviewModal == old(reviewModal) && feedback == old(feedback) && requests == old(requests)
    {
      loading := false;
      if result.Some? {
        pending := result.value.0;
        all := result.value.1;
      }
    }

    /** "Review" on a pending row. */
    method OpenReview(c: Counselor)
      modifies this
      ensures reviewModal == ReviewModal(true, Some(c)) && feedback == old(feedback)
      ensures loading == old(loading) && pending == old(pending) && all == old(all) && requests == old(requests)
    {
      reviewModal := ReviewModal(true, Some(c));
    }

    /** Typing in the feedback box. */
    method SetFeedback(text: string)
      modifies this
      ensures feedback == text && reviewModal == old(reviewModal)
      ensures loading == old(loading) && pending == old(pending) && all == old(all) && requests == old(requests)
    {
      feedback := text;
    }

    /** "Cancel" in the dialog: it closes, the feedback stays. */
    method CloseReview()
      modifies this
      ensures reviewModal == ClosedReview && feedback == old(feedback)
      ensures loading == old(loading) && pending == old(pending) && all == old(all) && requests == old(requests)
    {
      reviewModal := ClosedReview;
    }

    /** `updateCounselorStatus` with the outcome of the PUT: the chosen
        status travels with the current feedback; success closes the dialog,
        clears the feedback and reloads, failure keeps both. */
    method UpdateCounselorStatus(counselorId: Option<string>, status: CounselorStatus, ok: bool)
      modifies this
      ensures ok ==> requests == old(requests) + [PutStatus(counselorId, status, old(feedback)), FetchAll]
      ensures ok ==> reviewModal == ClosedReview && feedback == ""
      ensures !ok ==> requests == old(requests) + [PutStatus(counselorId, status, old(feedback))]
      ensures !ok ==> reviewModal == old(reviewModal) && feedback == old(feedback)
      ensures loading == old(loading) && pending == old(pending) && all == old(all)
    {
      requests := requests + [PutStatus(counselorId, status, feedback)];
      if ok {
        reviewModal := ClosedReview;
        feedback := "";
        requests := requests + [FetchAll];
      }
    }
  }
}
