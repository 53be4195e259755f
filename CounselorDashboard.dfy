/** The counselor dashboard: the booking lists by status and the status
    moves a counselor may make, the service editor and the request it
    sends, and the per-user socket on which incoming calls arrive. */
module CounselorDashboard {
  import opened Common
  import opened Domain

  /** Where a counselor without a profile is sent. */
  const ApplyPath: string := "/counselor/apply"

  const ServiceCategories: seq<string> :=
    ["Consultation", "Application Guidance", "Interview Prep", "Visa Support", "Scholarship", "Test Prep"]

  // ---------------------------------------------------------------------------
  // Booking lists

  function IsOther(): Booking -> bool
  {
    (b: Booking) => b.status.OtherStatus?
  }

  /** Every booking falls in exactly one of the four status lists or has a
      status the page does not know: the pending, confirmed and completed
      tabs together with the cancelled bookings account for the rest. */
  lemma {:induction false} StatusCounts(bs: seq<Booking>)
    ensures |OfStatus(bs, Pending)| + |OfStatus(bs, Confirmed)| + |OfStatus(bs, Completed)| +
            |OfStatus(bs, Cancelled)| + |Filter(bs, IsOther())| == |bs|
  {
    if bs != [] {
      StatusCounts(bs[1..]);
    }
  }

  /** The three tabs are disjoint, and a cancelled booking is in none. */
  lemma TabsDisjoint(bs: seq<Booking>, b: Booking)
    ensures !(b in OfStatus(bs, Pending) && b in OfStatus(bs, Confirmed))
    ensures !(b in OfStatus(bs, Pending) && b in OfStatus(bs, Completed))
    ensures !(b in OfStatus(bs, Confirmed) && b in OfStatus(bs, Completed))
    ensures b.status == Cancelled ==>
              b !in OfStatus(bs, Pending) && b !in OfStatus(bs, Confirmed) && b !in OfStatus(bs, Completed)
  {
    OfStatusSpec(bs, Pending);
    OfStatusSpec(bs, Confirmed);
    OfStatusSpec(bs, Completed);
  }

  // ---------------------------------------------------------------------------
  // Status moves

  /** The status buttons a booking row offers: "Accept" and "Decline" on a
      pending request, "Mark Complete" on a confirmed session, none
      otherwise. */
  function Actions(s: BookingStatus): (r: seq<BookingStatus>)
    ensures Pending !in r && s !in r
    ensures r != [] <==> s == Pending || s == Confirmed
  {
    match s
    case Pending => [Confirmed, Cancelled]
    case Confirmed => [Completed]
    case _ => []
  }

  predicate Allowed(from: BookingStatus, to: BookingStatus)
  {
    to in Actions(from)
  }

  /** How far along its life a booking is. */
  function Stage(s: BookingStatus): nat
  {
    match s
    case Pending => 0
    case Confirmed => 1
    case _ => 2
  }

  /** Exactly the three moves the dashboard offers, each moving a booking
      forward. */
  lemma AllowedMoves(from: BookingStatus, to: BookingStatus)
    ensures Allowed(from, to) <==>
              (from == Pending && (to == Confirmed || to == Cancelled)) || (from == Confirmed && to == Completed)
    ensures Allowed(from, to) ==> Stage(from) < Stage(to)
  {
  }

  /** Statuses reached one button at a time. */
  predicate Chain(ss: seq<BookingStatus>)
  {
    forall i :: 0 <= i < |ss| - 1 ==> Allowed(ss[i], ss[i + 1])
  }

  /** A booking takes at most two status moves and never returns to a
      status it has left. */
  lemma {:induction false} ChainIsShort(ss: seq<BookingStatus>)
    requires Chain(ss)
    ensures |ss| <= 3
    ensures forall i, j :: 0 <= i < j < |ss| ==> ss[i] != ss[j]
  {
    forall j | 0 <= j < |ss|
      ensures forall i :: 0 <= i <= j ==> Stage(ss[i]) + (j - i) <= Stage(ss[j])
    {
      StagesRise(ss, j);
    }
    if ss != [] {
      assert Stage(ss[0]) + (|ss| - 1) <= Stage(ss[|ss| - 1]);
    }
  }

  lemma {:induction false} StagesRise(ss: seq<BookingStatus>, j: nat)
    requires Chain(ss) && j < |ss|
    ensures forall i :: 0 <= i <= j ==> Stage(ss[i]) + (j - i) <= Stage(ss[j])
  {
    if j > 0 {
      StagesRise(ss, j - 1);
      AllowedMoves(ss[j - 1], ss[j]);
    }
  }

  // ---------------------------------------------------------------------------
  // The service editor

  /** The editor's fields; `duration` is the parse of the number box (`None`
      is NaN). */
  datatype ServiceForm = ServiceForm(name: string, description: string, duration: Option<int>, price: int, category: string)

  datatype Service = Service(serviceId: string, form: ServiceForm)

  const DefaultServiceForm: ServiceForm := ServiceForm("", "", Some(60), 100, "Consultation")

  /** The dialog; `editing` holds the id of the service being edited. */
  datatype ServiceModal = ServiceModal(open: bool, editing: Option<string>)

  const ClosedModal: ServiceModal := ServiceModal(false, None)

  datatype ServiceRequest = PutService(serviceId: string, body: ServiceForm) | PostService(body: ServiceForm)

  /** `handleServiceSubmit`'s request: nothing when the name or description
      is empty, a PUT to the edited id when that id is set (a non-empty
      string), a POST otherwise; the body is the form as typed. */
  function ServiceRequestFor(modal: ServiceModal, form: ServiceForm): (r: Option<ServiceRequest>)
    ensures r.None? <==> form.name == "" || form.description == ""
    ensures r.Some? ==> r.value.body == form
    ensures r.Some? ==> (r.value.PutService? <==> modal.editing.Some? && modal.editing.value != "")
    ensures r.Some? && r.value.PutService? ==> r.value.serviceId == modal.editing.value
  {
    if form.name == "" || form.description == "" then None
    else if modal.editing.Some? && modal.editing.value != "" then Some(PutService(modal.editing.value, form))
    else Some(PostService(form))
  }

  /** "Add Service" always leads to a POST, and "Edit" on a service with an
      id to a PUT of that id, once the name and description are filled. */
  lemma NewPostsEditPuts(svc: Service, form: ServiceForm)
    requires form.name != "" && form.description != ""
    ensures ServiceRequestFor(ServiceModal(true, None), form) == Some(PostService(form))
    ensures svc.serviceId != "" ==>
              ServiceRequestFor(ServiceModal(true, Some(svc.serviceId)), form) == Some(PutService(svc.serviceId, form))
  {
  }

  /** The default form cannot be submitted as it stands. */
  lemma DefaultFormRefused(modal: ServiceModal)
    ensures ServiceRequestFor(modal, DefaultServiceForm).None?
  {
  }

  // ---------------------------------------------------------------------------
  // The page object

  /** What `fetchData` learns: the profile and bookings, or the HTTP status
      of the failure (`0` when there was no response). */
  datatype FetchOutcome = Loaded(bookings: seq<Booking>) | FetchFailed(httpStatus: int)

  datatype Request =
    | FetchAll
    | SetBookingStatus(bookingId: string, status: BookingStatus)
    | SaveService(request: ServiceRequest)
    | RemoveService(serviceId: string)

  class DashboardPage {
    var loading: bool
    var profileFound: bool
    var bookings: seq<Booking>
    var navigateTo: Option<string>
    /** The socket to `/ws/<user_id>`, when one was opened. */
    var socketUser: Option<string>
    var modal: ServiceModal
    var form: ServiceForm
    var incomingCall: Option<IncomingCallView>
    var requests: seq<Request>

    /** Mounting: the data is requested, and a socket is opened only for a
        signed-in user. */
    constructor (user: Option<User>)
      ensures socketUser == if user.Some? then Some(user.value.userId) else None
      ensures requests == [FetchAll] && loading && !profileFound && bookings == []
      ensures navigateTo.None? && incomingCall.None?
      ensures modal == ClosedModal && form == DefaultServiceForm
    {
      loading := true;
      profileFound := false;
      bookings := [];
      navigateTo := None;
      socketUser := if user.Some? then Some(user.value.userId) else None;
      modal := ClosedModal;
      form := DefaultServiceForm;
      incomingCall := None;
      requests := [FetchAll];
    }

    /** `fetchData` completing: loading ends; a 404 sends the counselor to
        the application form; any other failure changes nothing else. */
    method Fetched(outcome: FetchOutcome)
      modifies this
      ensures !loading
      ensures outcome.Loaded? ==> profileFound && bookings == outcome.bookings && navigateTo == old(navigateTo)
      ensures outcome.FetchFailed? ==> profileFound == old(profileFound) && bookings == old(bookings)
      ensures outcome.FetchFailed? && outcome.httpStatus == 404 ==> navigateTo == Some(ApplyPath)
      ensures outcome.FetchFailed? && outcome.httpStatus != 404 ==> navigateTo == old(navigateTo)
      ensures socketUser == old(socketUser) && modal == old(modal) && form == old(form)
      ensures incomingCall == old(incomingCall) && requests == old(requests)
    {
      loading := false;
      match outcome
      case Loaded(bs) =>
        profileFound := true;
        bookings := bs;
      case FetchFailed(status) =>
        if status == 404 {
          navigateTo := Some(ApplyPath);
        }
    }

    /** `ws.onmessage`: an incoming call opens the popup with the caller's
        full name; every other frame, a new chat message included, leaves
        the page as it is (a message only raises a toast). */
    method OnFrame(f: InFrame)
      requires socketUser.Some?
      modifies this
      ensures f.IncomingCall? ==> incomingCall == Some(IncomingView(f.call, f.caller))
      ensures !f.IncomingCall? ==> incomingCall == old(incomingCall)
      ensures loading == old(loading) && profileFound == old(profileFound) && bookings == old(bookings)
      ensures navigateTo == old(navigateTo) && socketUser == old(socketUser)
      ensures modal == old(modal) && form == old(form) && requests == old(requests)
    {
      if f.IncomingCall? {
        incomingCall := Some(IncomingView(f.call, f.caller));
      }
    }

    /** The incoming call's `onEnd`. */
    method IncomingCallEnded()
      modifies this
      ensures incomingCall.None?
      ensures loading == old(loading) && profileFound == old(profileFound) && bookings == old(bookings)
      ensures navigateTo == old(navigateTo) && socketUser == old(socketUser)
      ensures modal == old(modal) && form == old(form) && requests == old(requests)
    {
      incomingCall := None;
    }

    /** A status button with the outcome of the PUT; success reloads. */
    method UpdateBookingStatus(bookingId: string, status: BookingStatus, ok: bool)
      modifies this
      ensures requests == old(requests) + [SetBookingStatus(bookingId, status)] + (if ok then [FetchAll] else [])
      ensures loading == old(loading) && profileFound == old(profileFound) && bookings == old(bookings)
      ensures navigateTo == old(navigateTo) && socketUser == old(socketUser)
      ensures modal == old(modal) && form == old(form) && incomingCall == old(incomingCall)
    {
      requests := requests + [SetBookingStatus(bookingId, status)];
      if ok {
        requests := requests + [FetchAll];
      }
    }

    /** "Add Service": an empty form in a dialog that creates. */
    method OpenNewService()
      modifies this
      ensures modal == ServiceModal(true, None) && form == DefaultServiceForm
      ensures loading == old(loading) && profileFound == old(profileFound) && bookings == old(bookings)
      ensures navigateTo == old(navigateTo) && socketUser == old(socketUser)
      ensures incomingCall == old(incomingCall) && requests == old(requests)
    {
      form := DefaultServiceForm;
      modal := ServiceModal(true, None);
    }

    /** "Create your first service", shown when there are none: a dialog
        that creates, holding whatever the form last held. */
    method CreateFirstService()
      modifies this
      ensures modal == ServiceModal(true, None) && form == old(form)
      ensures loading == old(loading) && profileFound == old(profileFound) && bookings == old(bookings)
      ensures navigateTo == old(navigateTo) && socketUser == old(socketUser)
      ensures incomingCall == old(incomingCall) && requests == old(requests)
    {
      modal := ServiceModal(true, None);
    }

    /** "Edit" on a service: its fields in a dialog that updates it. */
    method EditService(svc: Service)
      modifies this
      ensures modal == ServiceModal(true, Some(svc.serviceId)) && form == svc.form
      ensures loading == old(loading) && profileFound == old(profileFound) && bookings == old(bookings)
      ensures navigateTo == old(navigateTo) && socketUser == old(socketUser)
      ensures incomingCall == old(incomingCall) && requests == old(requests)
    {
      form := svc.form;
      modal := ServiceModal(true, Some(svc.serviceId));
    }

    /** Typing in the dialog: name, category, description, duration (the
        parse of its box) and price, each replacing its own field. */
    method SetForm(f: ServiceForm)
      modifies this
      ensures form == f && modal == old(modal)
      ensures loading == old(loading) && profileFound == old(profileFound) && bookings == old(bookings)
      ensures navigateTo == old(navigateTo) && socketUser == old(socketUser)
      ensures incomingCall == old(incomingCall) && requests == old(requests)
    {
      form := f;
    }

    /** "Cancel" in the dialog: it closes and forgets the edited id; the
        form keeps what was typed. */
    method CloseService()
      modifies this
      ensures modal == ClosedModal && form == old(form)
      ensures loading == old(loading) && profileFound == old(profileFound) && bookings == old(bookings)
      ensures navigateTo == old(navigateTo) && socketUser == old(socketUser)
      ensures incomingCall == old(incomingCall) && requests == old(requests)
    {
      modal := ClosedModal;
    }

    /** `handleServiceSubmit` with the outcome of its request: an incomplete
        form sends nothing; a successful save closes the dialog, resets the
        form and reloads; a failed one keeps both. */
    method SubmitService(ok: bool)
      modifies this
      ensures ServiceRequestFor(old(modal), old(form)).None? ==>
                requests == old(requests) && modal == old(modal) && form == old(form)
      ensures ServiceRequestFor(old(modal), old(form)).Some? && ok ==>
                requests == old(requests) + [SaveService(ServiceRequestFor(old(modal), old(form)).value), FetchAll] &&
                modal == ClosedModal && form == DefaultServiceForm
      ensures ServiceRequestFor(old(modal), old(form)).Some? && !ok ==>
                requests == old(requests) + [SaveService(ServiceRequestFor(old(modal), old(form)).value)] &&
                modal == old(modal) && form == old(form)
      ensures loading == old(loading) && profileFound == old(profileFound) && bookings == old(bookings)
      ensures navigateTo == old(navigateTo) && socketUser == old(socketUser) && incomingCall == old(incomingCall)
    {
      var req := ServiceRequestFor(modal, form);
      if req.None? {
        return;
      }
      requests := requests + [SaveService(req.value)];
      if ok {
        modal := ClosedModal;
        form := DefaultServiceForm;
        requests := requests + [FetchAll];
      }
    }

    /** `deleteService`: nothing unless the browser prompt is confirmed;
        success reloads. */
    method DeleteService(serviceId: string, confirmed: bool, ok: bool)
      modifies this
      ensures !confirmed ==> requests == old(requests)
      ensures confirmed ==>
                requests == old(requests) + [RemoveService(serviceId)] + (if ok then [FetchAll] else [])
      ensures loading == old(loading) && profileFound == old(profileFound) && bookings == old(bookings)
      ensures navigateTo == old(navigateTo) && socketUser == old(socketUser)
      ensures modal == old(modal) && form == old(form) && incomingCall == old(incomingCall)
    {
      if !confirmed {
        return;
      }
      requests := requests + [RemoveService(serviceId)];
      if ok {
        requests := requests + [FetchAll];
      }
    }
  }
}
