/** The chat widget's controller: attachment checks before upload, the
    text/file send paths, dispatch of inbound socket frames for the open
    peer, and the typing indicator debounce (a flag plus one re-armable
    2000 ms timer). Socket, HTTP and timer outcomes arrive as event
    parameters; what the widget sends is appended to `outbox` (socket
    frames) and `requests` (HTTP calls). */
module ChatWidget {
  import opened Common
  import opened Domain

  /** 10 MiB: the largest attachment accepted before upload. */
  const MaxFileSize: nat := 10 * 1024 * 1024

  /** The inactivity delay after which the typing indicator is withdrawn. */
  const TypingTimeoutMs: nat := 2000

  const AllowedExtensions: seq<string> :=
    [".pdf", ".doc", ".docx", ".jpg", ".jpeg", ".png", ".gif", ".txt", ".xlsx", ".xls"]

  /** The browser `File` the user picked: its name, byte size and MIME type. */
  datatype SelectedFile = SelectedFile(name: string, size: nat, mimeType: string)

  datatype FileRejection = TooLarge | TypeNotAllowed

  // ---------------------------------------------------------------------------
  // Attachment checks

  /** `'.' + name.split('.').pop().toLowerCase()`. */
  function Extension(name: string): (ext: string)
    ensures |ext| >= 1 && ext[0] == '.' && '.' !in ext[1..]
  {
    var seg := LastSegment(name, '.');
    var low := ToLower(seg);
    assert forall i :: 0 <= i < |low| ==> low[i] != '.' by {
      forall i | 0 <= i < |low| ensures low[i] != '.' {
        assert seg[i] != '.';
      }
    }
    "." + low
  }

  /** The pre-upload check: the size limit is checked first, then the
      extension allow-list. `None` means the file may be uploaded. */
  function CheckFile(f: SelectedFile): (r: Option<FileRejection>)
    ensures r == Some(TooLarge) <==> f.size > MaxFileSize
    ensures r == None <==> f.size <= MaxFileSize && Extension(f.name) in AllowedExtensions
  {
    if f.size > MaxFileSize then Some(TooLarge)
    else if Extension(f.name) !in AllowedExtensions then Some(TypeNotAllowed)
    else None
  }

  /** The extension comes from the text after the last dot only. */
  lemma {:induction false} ExtensionIsLastSegment(prefix: string, seg: string)
    requires '.' !in seg
    ensures Extension(prefix + "." + seg) == Extension(seg)
  {
    LastSegmentOfSuffix(prefix + ".", seg);
    assert prefix + "." + seg == (prefix + ".") + seg;
    assert LastSegment(seg, '.') == seg by {
      LastSegmentOfSuffix([], seg);
      assert [] + seg == seg;
    }
  }

  /** Appending dot-free text after a string ending in a dot (or after
      nothing) makes that text the last segment. */
  lemma {:induction false} LastSegmentOfSuffix(head: string, seg: string)
    requires '.' !in seg
    requires head == [] || head[|head| - 1] == '.'
    ensures LastSegment(head + seg, '.') == seg
    decreases |seg|
  {
    if seg == [] {
      assert head + seg == head;
    } else {
      var s := head + seg;
      var init := seg[..|seg| - 1];
      var last := seg[|seg| - 1];
      assert last != '.' by {
        assert last in seg;
      }
      assert '.' !in init by {
        assert forall k :: 0 <= k < |init| ==> init[k] == seg[k];
      }
      assert s[|s| - 1] == last;
      assert s[..|s| - 1] == head + init;
      LastSegmentOfSuffix(head, init);
      assert LastSegment(s, '.') == LastSegment(s[..|s| - 1], '.') + [last];
      assert init + [last] == seg;
    }
  }

  /** A name without a dot is its own extension: "pdf" counts as ".pdf". */
  lemma DotlessName(name: string)
    requires '.' !in name
    ensures Extension(name) == "." + ToLower(name)
  {
    LastSegmentOfSuffix([], name);
    assert [] + name == name;
  }

  /** Lower-casing leaves text without upper-case letters as it is. */
  lemma ToLowerNoUpper(s: string)
    requires forall i :: 0 <= i < |s| ==> !('A' <= s[i] <= 'Z')
    ensures ToLower(s) == s
  {
  }

  /** A file of exactly 10 MiB passes; one byte more does not. */
  lemma SizeBoundary()
    ensures CheckFile(SelectedFile("photo.png", MaxFileSize, "image/png")) == None
    ensures CheckFile(SelectedFile("photo.png", MaxFileSize + 1, "image/png")) == Some(TooLarge)
  {
    ExtensionIsLastSegment("photo", "png");
    DotlessName("png");
    ToLowerNoUpper("png");
    assert "photo" + "." + "png" == "photo.png";
    assert Extension("photo.png") == ".png";
  }

  /** Only the last dot counts, and its text is compared case-insensitively. */
  lemma UpperCaseExtension()
    ensures CheckFile(SelectedFile("notes.final.PDF", 10, "application/pdf")) == None
  {
    ExtensionIsLastSegment("notes.final", "PDF");
    DotlessName("PDF");
    assert "notes.final" + "." + "PDF" == "notes.final.PDF";
    var low := ToLower("PDF");
    assert low[0] == LowerChar('P') == 'p';
    assert low[1] == LowerChar('D') == 'd';
    assert low[2] == LowerChar('F') == 'f';
    assert low == "pdf";
    assert Extension("notes.final.PDF") == ".pdf";
  }

  /** A name without a dot is checked whole, so "pdf" passes. */
  lemma DotlessPasses()
    ensures CheckFile(SelectedFile("pdf", 10, "application/pdf")) == None
  {
    DotlessName("pdf");
    ToLowerNoUpper("pdf");
    assert "." + "pdf" == ".pdf";
    assert AllowedExtensions[0] == ".pdf";
  }

  /** An extension outside the allow-list is refused. */
  lemma ExecutableRefused()
    ensures CheckFile(SelectedFile("setup.exe", 10, "application/octet-stream")) == Some(TypeNotAllowed)
  {
    ExtensionIsLastSegment("setup", "exe");
    DotlessName("exe");
    ToLowerNoUpper("exe");
    assert "setup" + "." + "exe" == "setup.exe";
    assert Extension("setup.exe") == ".exe";
    assert ".exe" !in AllowedExtensions;
  }

  /** An uploaded file is sent as an image exactly when its MIME type starts
      with "image/", whatever its extension; never as text. */
  function KindForMime(mimeType: string): (k: MessageType)
    ensures k == Image <==> StartsWith(mimeType, "image/")
    ensures k != Text
  {
    if StartsWith(mimeType, "image/") then Image else File
  }

  /** `getFileUrl`: "" for an empty url, an absolute `http…` url unchanged,
      otherwise the url appended to the backend origin. */
  function FileUrl(url: string, backendUrl: string): (r: string)
    ensures r == "" <==> url == ""
    ensures StartsWith(url, "http") ==> r == url
    ensures url != "" && !StartsWith(url, "http") ==> r == backendUrl + url
    ensures url != "" ==> |r| >= |url| && r[|r| - |url|..] == url
    ensures url != "" && StartsWith(backendUrl, "http") ==> StartsWith(r, "http")
  {
    if url == "" then ""
    else if StartsWith(url, "http") then url
    else backendUrl + url
  }

  /** Resolving an already resolved url changes nothing when the backend
      origin is itself absolute. */
  lemma FileUrlIdempotent(url: string, backendUrl: string)
    requires StartsWith(backendUrl, "http")
    ensures FileUrl(FileUrl(url, backendUrl), backendUrl) == FileUrl(url, backendUrl)
  {
  }

  datatype SizeUnit = Bytes | Kilobytes | Megabytes

  /** The unit `formatFileSize` prints a size in. */
  function SizeUnitFor(bytes: nat): (u: SizeUnit)
    ensures u == Bytes <==> bytes < 1024
    ensures u == Megabytes <==> bytes >= 1024 * 1024
  {
    if bytes < 1024 then Bytes else if bytes < 1024 * 1024 then Kilobytes else Megabytes
  }

  // ---------------------------------------------------------------------------
  // Controller state

  /** Frames the widget writes to its socket. */
  datatype OutFrame =
    | JoinConversation(conversationId: Option<string>)
    | Typing(conversationId: Option<string>)
    | StopTyping(conversationId: Option<string>)

  /** HTTP requests the widget issues. */
  datatype Request =
    | GetConversation(otherUserId: string)
    | GetMessages(conversationId: string)
    | PostText(receiverId: string, content: string)
    | Upload(fileName: string)
    | PostFile(receiverId: string, content: string, messageType: MessageType, fileData: FileData)

  datatype ChatState = ChatState(
    peer: string,
    conversationId: Option<string>,
    socketOpen: bool,
    messages: seq<Message>,
    newMessage: string,
    isTyping: bool,
    timerArmed: bool,
    otherUserTyping: bool,
    outbox: seq<OutFrame>,
    requests: seq<Request>)

  /** What the user is told after picking a file. */
  datatype FileOutcome = NothingPicked | Rejected(reason: FileRejection) | UploadFailed | Sent

  /** One event handled to completion. Outcomes of requests are part of the
      event: `None` stands for a failed request. */
  datatype ChatEvent =
    | Loaded(conversation: Option<string>, history: Option<seq<Message>>)
    | SocketOpened
    | SocketClosed
    | Inbound(frame: InFrame)
    | Keystroke(text: string)
    | TypingTimerFired
    | SendText(reply: Option<Message>)
    | PickFile(file: Option<SelectedFile>, uploaded: Option<FileData>, reply: Option<Message>)

  function Initial(peer: string): ChatState
  {
    ChatState(peer, None, false, [], "", false, false, false, [], [])
  }

  /** JavaScript truthiness of a possibly-null string. */
  predicate Truthy(o: Option<string>)
  {
    o.Some? && o.value != ""
  }

  /** The socket is open and a conversation is known: typing is reported. */
  predicate Live(s: ChatState)
  {
    s.socketOpen && Truthy(s.conversationId)
  }

  /** The indicator flag and the pending timer go together. */
  predicate Inv(s: ChatState)
  {
    s.isTyping == s.timerArmed
  }

  /** `initializeChat`: fetch-or-create the conversation, then load its history. */
  function Load(s: ChatState, conversation: Option<string>, history: Option<seq<Message>>): ChatState
  {
    var s1 := s.(requests := s.requests + [GetConversation(s.peer)]);
    match conversation
    case None => s1
    case Some(c) =>
      var s2 := s1.(conversationId := Some(c), requests := s1.requests + [GetMessages(c)]);
      if history.Some? then s2.(messages := history.value) else s2
  }

  /** `ws.onmessage`: only frames about the open peer change anything. */
  function Receive(s: ChatState, f: InFrame): (r: ChatState)
    ensures r.messages == s.messages || (f.NewMessage? && f.message.senderId == s.peer)
    ensures r.otherUserTyping != s.otherUserTyping ==> (f.UserTyping? || f.UserStopTyping?) && f.userId == s.peer
    ensures f.NewMessage? && f.message.senderId == s.peer ==> r.messages == s.messages + [f.message]
    ensures f.UserTyping? && f.userId == s.peer ==> r.otherUserTyping
    ensures f.UserStopTyping? && f.userId == s.peer ==> !r.otherUserTyping
    ensures r.(messages := s.messages, otherUserTyping := s.otherUserTyping) == s
  {
    match f
    case NewMessage(m) => if m.senderId == s.peer then s.(messages := s.messages + [m]) else s
    case UserTyping(u) => if u == s.peer then s.(otherUserTyping := true) else s
    case UserStopTyping(u) => if u == s.peer then s.(otherUserTyping := false) else s
    case _ => s
  }

  /** `handleTyping`: the draft always follows the input; when live, the first
      keystroke since idle emits `typing` and every keystroke re-arms the timer. */
  function OnKeystroke(s: ChatState, text: string): (r: ChatState)
    ensures r.newMessage == text && r.messages == s.messages
    ensures !Live(s) ==> r == s.(newMessage := text)
    ensures Live(s) ==> r.isTyping && r.timerArmed
    ensures Live(s) ==> r.outbox == s.outbox + (if s.isTyping then [] else [Typing(s.conversationId)])
  {
    var s1 := s.(newMessage := text);
    if !Live(s) then s1
    else
      s1.(isTyping := true, timerArmed := true,
          outbox := if s.isTyping then s.outbox else s.outbox + [Typing(s.conversationId)])
  }

  /** The 2000 ms timer expires: the flag drops and `stop_typing` goes out if
      the socket is still open. */
  function OnTimer(s: ChatState): (r: ChatState)
    ensures !s.timerArmed ==> r == s
    ensures s.timerArmed ==> !r.isTyping && !r.timerArmed
    ensures s.timerArmed ==> r.outbox == s.outbox + (if s.socketOpen then [StopTyping(s.conversationId)] else [])
  {
    if !s.timerArmed then s
    else
      s.(isTyping := false, timerArmed := false,
         outbox := if s.socketOpen then s.outbox + [StopTyping(s.conversationId)] else s.outbox)
  }

  /** `sendMessage`, with the outcome of its POST. */
  function Send(s: ChatState, reply: Option<Message>): ChatState
  {
    if Trim(s.newMessage) == "" then s
    else
      var s1 := s.(requests := s.requests + [PostText(s.peer, s.newMessage)]);
      match reply
      case None => s1
      case Some(m) =>
        s1.(messages := s.messages + [m], newMessage := "",
            outbox := if s.socketOpen then s.outbox + [StopTyping(s.conversationId)] else s.outbox)
  }

  /** A blank draft sends nothing; otherwise the text is posted, and success
      appends the server's message, clears the draft and emits `stop_typing`
      while failure keeps the history and the draft. The debounce flag and
      timer are never touched. */
  lemma SendEffects(s: ChatState, reply: Option<Message>)
    ensures var r := Send(s, reply);
            r.isTyping == s.isTyping && r.timerArmed == s.timerArmed &&
            (IsBlank(s.newMessage) ==> r == s) &&
            (!IsBlank(s.newMessage) ==> r.requests == s.requests + [PostText(s.peer, s.newMessage)]) &&
            (reply.None? ==> r.messages == s.messages && r.newMessage == s.newMessage && r.outbox == s.outbox) &&
            (!IsBlank(s.newMessage) && reply.Some? ==>
               r.messages == s.messages + [reply.value] && r.newMessage == "" &&
               r.outbox == s.outbox + (if s.socketOpen then [StopTyping(s.conversationId)] else []))
  {
    TrimEmptyIffBlank(s.newMessage);
  }

  /** `handleFileSelect`: check, upload, then post a message referencing the
      stored file, typed by MIME prefix. */
  function Pick(s: ChatState, file: Option<SelectedFile>, uploaded: Option<FileData>, reply: Option<Message>): (r: ChatState)
    ensures file.None? || CheckFile(file.value).Some? ==> r == s
    ensures file.Some? && CheckFile(file.value).None? ==>
              |r.requests| > |s.requests| && r.requests[..|s.requests|] == s.requests &&
              r.requests[|s.requests|] == Upload(file.value.name)
    ensures file.Some? && CheckFile(file.value).None? ==>
              r.requests == s.requests + [Upload(file.value.name)] +
                (if uploaded.Some? then [PostFile(s.peer, file.value.name, KindForMime(file.value.mimeType), uploaded.value)] else [])
    ensures r.messages == s.messages ||
              (uploaded.Some? && reply.Some? && r.messages == s.messages + [reply.value])
    ensures file.Some? && CheckFile(file.value).None? ==>
              r.messages == s.messages + (if uploaded.Some? && reply.Some? then [reply.value] else [])
    ensures r.(messages := s.messages, requests := s.requests) == s
  {
    match file
    case None => s
    case Some(f) =>
      if CheckFile(f).Some? then s
      else
        var s1 := s.(requests := s.requests + [Upload(f.name)]);
        match uploaded
        case None => s1
        case Some(d) =>
          var s2 := s1.(requests := s1.requests + [PostFile(s.peer, f.name, KindForMime(f.mimeType), d)]);
          if reply.Some? then s2.(messages := s2.messages + [reply.value]) else s2
  }

  /** The notice shown after picking a file. */
  function PickOutcome(file: Option<SelectedFile>, uploaded: Option<FileData>, reply: Option<Message>): (o: FileOutcome)
    ensures o == Sent <==> file.Some? && CheckFile(file.value).None? && uploaded.Some? && reply.Some?
  {
    match file
    case None => NothingPicked
    case Some(f) =>
      if CheckFile(f).Some? then Rejected(CheckFile(f).value)
      else if uploaded.Some? && reply.Some? then Sent
      else UploadFailed
  }

  function Step(s: ChatState, e: ChatEvent): ChatState
  {
    match e
    case Loaded(c, h) => Load(s, c, h)
    case SocketOpened =>
      s.(socketOpen := true,
         outbox := if Truthy(s.conversationId) then s.outbox + [JoinConversation(s.conversationId)] else s.outbox)
    case SocketClosed => s.(socketOpen := false)
    case Inbound(f) => if s.socketOpen then Receive(s, f) else s
    case Keystroke(t) => OnKeystroke(s, t)
    case TypingTimerFired => OnTimer(s)
    case SendText(reply) => Send(s, reply)
    case PickFile(f, u, reply) => Pick(s, f, u, reply)
  }

  function Run(s: ChatState, es: seq<ChatEvent>): ChatState
    decreases |es|
  {
    if es == [] then s else Run(Step(s, es[0]), es[1..])
  }

  // ---------------------------------------------------------------------------
  // Properties over event sequences

  /** Every handler keeps the flag and the timer together. */
  lemma {:induction false} RunKeepsInv(s: ChatState, es: seq<ChatEvent>)
    requires Inv(s)
    ensures Inv(Run(s, es))
    decreases |es|
  {
    if es != [] {
      StepKeepsInv(s, es[0]);
      RunKeepsInv(Step(s, es[0]), es[1..]);
    }
  }

  /** One handler keeps the flag and the timer together. */
  lemma StepKeepsInv(s: ChatState, e: ChatEvent)
    requires Inv(s)
    ensures Inv(Step(s, e))
  {
    match e {
      case Loaded(c, h) =>
      case SocketOpened =>
      case SocketClosed =>
      case Inbound(f) =>
      case Keystroke(t) =>
      case TypingTimerFired =>
      case SendText(reply) =>
      case PickFile(f, u, reply) =>
    }
  }

  function Keystrokes(texts: seq<string>): seq<ChatEvent>
  {
    if texts == [] then [] else [Keystroke(texts[0])] + Keystrokes(texts[1..])
  }

  /** A burst of keystrokes from idle, on a live socket, emits exactly one
      `typing` frame and leaves the timer armed with the last text as draft. */
  lemma {:induction false} BurstEmitsOneTyping(s: ChatState, texts: seq<string>)
    requires Live(s) && !s.isTyping && texts != []
    ensures var r := Run(s, Keystrokes(texts));
            r.outbox == s.outbox + [Typing(s.conversationId)] &&
            r.isTyping && r.timerArmed && r.newMessage == texts[|texts| - 1] &&
            r.messages == s.messages && r.socketOpen && r.conversationId == s.conversationId
  {
    var s1 := Step(s, Keystroke(texts[0]));
    assert Keystrokes(texts)[1..] == Keystrokes(texts[1..]);
    if |texts| > 1 {
      BurstContinues(s1, texts[1..]);
    }
  }

  /** Further keystrokes while already typing emit nothing more. */
  lemma {:induction false} BurstContinues(s: ChatState, texts: seq<string>)
    requires Live(s) && s.isTyping && texts != []
    ensures var r := Run(s, Keystrokes(texts));
            r.outbox == s.outbox && r.isTyping && r.timerArmed &&
            r.newMessage == texts[|texts| - 1] && r.messages == s.messages &&
            r.socketOpen && r.conversationId == s.conversationId
    decreases |texts|
  {
    var s1 := Step(s, Keystroke(texts[0]));
    assert Keystrokes(texts)[1..] == Keystrokes(texts[1..]);
    if |texts| > 1 {
      BurstContinues(s1, texts[1..]);
    }
  }

  /** After the burst, silence until the timer fires emits exactly one
      `stop_typing`, and the debounce is idle again. */
  lemma BurstThenSilence(s: ChatState, texts: seq<string>)
    requires Live(s) && !s.isTyping && texts != []
    ensures var r := Step(Run(s, Keystrokes(texts)), TypingTimerFired);
            r.outbox == s.outbox + [Typing(s.conversationId), StopTyping(s.conversationId)] &&
            !r.isTyping && !r.timerArmed
  {
    BurstEmitsOneTyping(s, texts);
  }

  /** The messages that inbound frames from `peer` contribute, in order. */
  function PeerMessages(frames: seq<InFrame>, peer: string): seq<Message>
  {
    if frames == [] then []
    else (if frames[0].NewMessage? && frames[0].message.senderId == peer then [frames[0].message] else [])
         + PeerMessages(frames[1..], peer)
  }

  function InboundAll(frames: seq<InFrame>): seq<ChatEvent>
  {
    if frames == [] then [] else [Inbound(frames[0])] + InboundAll(frames[1..])
  }

  /** While the socket is open, the visible history grows by exactly the
      `new_message` payloads sent by the open peer, in arrival order. */
  lemma {:induction false} HistoryFromPeerOnly(s: ChatState, frames: seq<InFrame>)
    requires s.socketOpen
    ensures Run(s, InboundAll(frames)).messages == s.messages + PeerMessages(frames, s.peer)
    ensures Run(s, InboundAll(frames)).peer == s.peer
    decreases |frames|
  {
    if frames != [] {
      var s1 := Step(s, Inbound(frames[0]));
      assert InboundAll(frames)[0] == Inbound(frames[0]);
      assert InboundAll(frames)[1..] == InboundAll(frames[1..]);
      HistoryFromPeerOnly(s1, frames[1..]);
    }
  }

  // ---------------------------------------------------------------------------
  // The widget object

  class ChatController {
    const peer: string
    var conversationId: Option<string>
    var socketOpen: bool
    var messages: seq<Message>
    var newMessage: string
    var isTyping: bool
    var timerArmed: bool
    var otherUserTyping: bool
    var outbox: seq<OutFrame>
    var requests: seq<Request>

    function State(): ChatState
      reads this
    {
      ChatState(peer, conversationId, socketOpen, messages, newMessage,
                isTyping, timerArmed, otherUserTyping, outbox, requests)
    }

    constructor (otherUserId: string)
      ensures State() == Initial(otherUserId)
    {
      peer := otherUserId;
      conversationId := None;
      socketOpen := false;
      messages := [];
      newMessage := "";
      isTyping := false;
      timerArmed := false;
      otherUserTyping := false;
      outbox := [];
      requests := [];
    }

    /** `initializeChat` with the outcomes of its two requests. */
    method Initialize(conversation: Option<string>, history: Option<seq<Message>>)
      modifies this
      ensures State() == Step(old(State()), Loaded(conversation, history))
    {
      requests := requests + [GetConversation(peer)];
      if conversation.Some? {
        conversationId := conversation;
        requests := requests + [GetMessages(conversation.value)];
        if history.Some? {
          messages := history.value;
        }
      }
    }

    /** `ws.onopen`. */
    method OnOpen()
      modifies this
      ensures State() == Step(old(State()), SocketOpened)
    {
      socketOpen := true;
      if conversationId.Some? && conversationId.value != "" {
        outbox := outbox + [JoinConversation(conversationId)];
      }
    }

    /** The socket closes. */
    method OnClose()
      modifies this
      ensures State() == Step(old(State()), SocketClosed)
    {
      socketOpen := false;
    }

    /** `ws.onmessage`. */
    method OnMessage(frame: InFrame)
      modifies this
      ensures State() == Step(old(State()), Inbound(frame))
    {
      if !socketOpen {
        return;
      }
      match frame {
        case NewMessage(m) =>
          if m.senderId == peer { messages := messages + [m]; }
        case UserTyping(u) =>
          if u == peer { otherUserTyping := true; }
        case UserStopTyping(u) =>
          if u == peer { otherUserTyping := false; }
        case _ =>
      }
    }

    /** `handleTyping`. */
    method HandleTyping(text: string)
      modifies this
      ensures State() == Step(old(State()), Keystroke(text))
    {
      newMessage := text;
      if socketOpen && conversationId.Some? && conversationId.value != "" {
        if !isTyping {
          isTyping := true;
          outbox := outbox + [Typing(conversationId)];
        }
        timerArmed := true;
      }
    }

    /** The typing timer's callback. */
    method OnTypingTimeout()
      modifies this
      ensures State() == Step(old(State()), TypingTimerFired)
    {
      if timerArmed {
        timerArmed := false;
        isTyping := false;
        if socketOpen {
          outbox := outbox + [StopTyping(conversationId)];
        }
      }
    }

    /** `sendMessage` with the outcome of the POST. */
    method SendMessage(reply: Option<Message>)
      modifies this
      ensures State() == Send(old(State()), reply)
    {
      ghost var s0 := State();
      if Trim(newMessage) == "" {
        return;
      }
      requests := requests + [PostText(peer, newMessage)];
      assert State() == s0.(requests := s0.requests + [PostText(s0.peer, s0.newMessage)]);
      if reply.Some? {
        messages := messages + [reply.value];
        newMessage := "";
        if socketOpen {
          outbox := outbox + [StopTyping(conversationId)];
        }
      }
    }

    /** `handleFileSelect` with the outcomes of the upload and of the POST. */
    method HandleFileSelect(file: Option<SelectedFile>, uploaded: Option<FileData>, reply: Option<Message>)
      returns (outcome: FileOutcome)
      modifies this
      ensures State() == Pick(old(State()), file, uploaded, reply)
      ensures outcome == PickOutcome(file, uploaded, reply)
    {
      ghost var s0 := State();
      if file.None? {
        return NothingPicked;
      }
      var f := file.value;
      var rejection := CheckFile(f);
      if rejection.Some? {
        return Rejected(rejection.value);
      }
      requests := requests + [Upload(f.name)];
      if uploaded.None? {
        assert State() == s0.(requests := s0.requests + [Upload(f.name)]);
        return UploadFailed;
      }
      requests := requests + [PostFile(peer, f.name, KindForMime(f.mimeType), uploaded.value)];
      ghost var s2 := s0.(requests := s0.requests + [Upload(f.name)] + [PostFile(s0.peer, f.name, KindForMime(f.mimeType), uploaded.value)]);
      if reply.None? {
        assert State() == s2;
        return UploadFailed;
      }
      messages := messages + [reply.value];
      assert State() == s2.(messages := s0.messages + [reply.value]);
      outcome := Sent;
    }
  }
}
