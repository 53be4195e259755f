/** Entities shared by the pages and widgets: the signed-in user, chat
    messages, bookings, and the realtime frames the server pushes over the
    per-user socket. */
module Domain {
  import opened Common

  /** The signed-in identity. `userType` is the server's free-form string
      ("student", "counselor", "admin", or anything else). */
  datatype User = User(userId: string, userType: string, firstName: string, lastName: string)

  datatype MessageType = Text | Image | File

  /** The descriptor the upload endpoint returns for a stored attachment. */
  datatype FileData = FileData(fileId: string, filename: string, url: string, size: nat, contentType: string)

  datatype Message = Message(
    messageId: string,
    senderId: string,
    receiverId: string,
    messageType: MessageType,
    content: string,
    fileData: Option<FileData>)

  /** A booking's status; any string the server sends besides the four known
      ones is `OtherStatus`. */
  datatype BookingStatus = Pending | Confirmed | Completed | Cancelled | OtherStatus(name: string)

  datatype Review = Review(rating: nat, comment: string)

  datatype Booking = Booking(bookingId: string, status: BookingStatus, review: Option<Review>)

  function HasStatus(s: BookingStatus): Booking -> bool
  {
    (b: Booking) => b.status == s
  }

  /** `bookings.filter(b => b.status === s)`. */
  function OfStatus(bs: seq<Booking>, s: BookingStatus): seq<Booking>
  {
    Filter(bs, HasStatus(s))
  }

  /** A status list keeps the fetched order and holds exactly the bookings
      with that status. */
  lemma OfStatusSpec(bs: seq<Booking>, s: BookingStatus)
    ensures IsSubsequence(OfStatus(bs, s), bs)
    ensures forall b :: b in OfStatus(bs, s) <==> b in bs && b.status == s
  {
    FilterIsSubsequence(bs, HasStatus(s));
    forall b ensures b in OfStatus(bs, s) <==> b in bs && b.status == s {
      FilterIn(bs, HasStatus(s), b);
    }
  }

  /** `call_type`: "video" selects camera and microphone; every other value
      behaves as a voice call. */
  datatype CallType = Video | Voice

  datatype CallInfo = CallInfo(callId: string, bookingId: string, callType: CallType)

  datatype Caller = Caller(firstName: string, lastName: string, picture: string)

  datatype SignalType = Offer | Answer | IceCandidate | OtherSignal

  /** An inbound frame, dispatched on its `type` field; any other `type` is
      `Unrecognised` and every consumer ignores it. */
  datatype InFrame =
    | NewMessage(message: Message)
    | UserTyping(userId: string)
    | UserStopTyping(userId: string)
    | IncomingCall(call: CallInfo, caller: Caller)
    | CallAnswered
    | CallRejected
    | CallEnded
    | WebrtcSignal(signalType: SignalType)
    | Unrecognised(frameType: string)

  /** The incoming-call popup's data, built from an `incoming_call` frame. */
  datatype IncomingCallView = IncomingCallView(callId: string, bookingId: string, callType: CallType, callerName: string, callerPhoto: string)

  /** `${first_name} ${last_name}`. */
  function CallerName(c: Caller): (r: string)
    ensures |r| == |c.firstName| + 1 + |c.lastName|
    ensures r[..|c.firstName|] == c.firstName && r[|c.firstName|] == ' '
    ensures r[|c.firstName| + 1..] == c.lastName
  {
    c.firstName + " " + c.lastName
  }

  function IncomingView(call: CallInfo, caller: Caller): IncomingCallView
  {
    IncomingCallView(call.callId, call.bookingId, call.callType, CallerName(caller), caller.picture)
  }

  // ---------------------------------------------------------------------------
  // Role-based destinations

  const LoginPath: string := "/login"

  const AdminPath: string := "/admin"

  const CounselorHome: string := "/counselor/dashboard"

  const StudentHome: string := "/student/dashboard"

  /** Where a signed-in user of a given type belongs: admins to the admin
      page, counselors to their dashboard, any other type to `other`. */
  function RoleHome(userType: string, other: string): (r: string)
    ensures userType == "admin" ==> r == AdminPath
    ensures userType == "counselor" ==> r == CounselorHome
    ensures userType != "admin" && userType != "counselor" ==> r == other
  {
    if userType == "admin" then AdminPath
    else if userType == "counselor" then CounselorHome
    else other
  }

  /** The body `register` posts. */
  datatype RegisterBody = RegisterBody(email: string, password: string, firstName: string, lastName: string, phone: string, userType: string)
}
