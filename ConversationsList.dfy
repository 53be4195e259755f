/** The conversations list: how old the last message is decides which of
    three time formats a row shows, and each row's highlight, photo, preview
    text and unread badge follow from the conversation record. Nullable
    server fields are `Option`s; a string counts as set only when it is
    non-empty, as JavaScript truthiness has it. */
module ConversationsList {
  import opened Common

  const DayMs: int := 86400000

  const WeekMs: int := 604800000

  const NoMessagesText: string := "No messages yet"

  /** Which locale format `formatTime` uses. */
  datatype TimeFormat = NoTime | TimeOfDay | Weekday | MonthDay

  /** A nullable string that is set and non-empty. */
  predicate Truthy(s: Option<string>)
  {
    s.Some? && s.value != ""
  }

  /** `formatTime`: nothing for a missing time; otherwise by the age of the
      message in milliseconds (`None` when the time does not parse, which
      makes every comparison false). */
  function FormatTime(time: Option<string>, ageMs: Option<int>): (r: TimeFormat)
    ensures r == NoTime <==> !Truthy(time)
    ensures r == TimeOfDay <==> Truthy(time) && ageMs.Some? && ageMs.value < DayMs
    ensures r == Weekday <==> Truthy(time) && ageMs.Some? && DayMs <= ageMs.value < WeekMs
    ensures r == MonthDay <==> Truthy(time) && (ageMs.None? || ageMs.value >= WeekMs)
  {
    if !Truthy(time) then NoTime
    else if ageMs.Some? && ageMs.value < DayMs then TimeOfDay
    else if ageMs.Some? && ageMs.value < WeekMs then Weekday
    else MonthDay
  }

  /** How coarse a format is. */
  function Coarseness(f: TimeFormat): nat
  {
    match f
    case NoTime => 0
    case TimeOfDay => 1
    case Weekday => 2
    case MonthDay => 3
  }

  /** An older message never gets a finer format than a newer one. */
  lemma OlderIsCoarser(time: Option<string>, a: int, b: int)
    requires Truthy(time) && a <= b
    ensures Coarseness(FormatTime(time, Some(a))) <= Coarseness(FormatTime(time, Some(b)))
  {
  }

  datatype Conversation = Conversation(
    conversationId: string,
    otherPicture: Option<string>,
    counselorPhoto: Option<string>,
    lastMessage: Option<string>,
    lastMessageTime: Option<string>,
    ageMs: Option<int>,
    unreadCount: int)

  /** What a row shows. `photo` is `None` when the placeholder icon is drawn. */
  datatype Row = Row(selected: bool, photo: Option<string>, time: TimeFormat, preview: string, unread: Option<int>)

  /** One row of the list. */
  function RowFor(c: Conversation, selectedId: Option<string>): (r: Row)
    ensures r.selected <==> selectedId == Some(c.conversationId)
    ensures r.photo == if Truthy(c.otherPicture) then c.otherPicture
                       else if Truthy(c.counselorPhoto) then c.counselorPhoto else None
    ensures r.photo.Some? ==> r.photo.value != ""
    ensures r.preview == if Truthy(c.lastMessage) then c.lastMessage.value else NoMessagesText
    ensures r.unread.Some? <==> c.unreadCount > 0
    ensures r.unread.Some? ==> r.unread.value == c.unreadCount
    ensures r.time == FormatTime(c.lastMessageTime, c.ageMs)
  {
    Row(selectedId == Some(c.conversationId),
        if Truthy(c.otherPicture) then c.otherPicture else if Truthy(c.counselorPhoto) then c.counselorPhoto else None,
        FormatTime(c.lastMessageTime, c.ageMs),
        if Truthy(c.lastMessage) then c.lastMessage.value else NoMessagesText,
        if c.unreadCount > 0 then Some(c.unreadCount) else None)
  }

  /** The list's rows, one per conversation in order. */
  function Rows(cs: seq<Conversation>, selectedId: Option<string>): (r: seq<Row>)
    ensures |r| == |cs|
    ensures forall i :: 0 <= i < |cs| ==> r[i] == RowFor(cs[i], selectedId)
  {
    seq(|cs|, i requires 0 <= i < |cs| => RowFor(cs[i], selectedId))
  }

  /** With distinct conversation ids at most one row is highlighted, and
      none when no conversation is selected. */
  lemma AtMostOneSelected(cs: seq<Conversation>, selectedId: Option<string>)
    requires forall i, j :: 0 <= i < j < |cs| ==> cs[i].conversationId != cs[j].conversationId
    ensures forall i, j ::
              0 <= i < |cs| && 0 <= j < |cs| && Rows(cs, selectedId)[i].selected && Rows(cs, selectedId)[j].selected
              ==> i == j
    ensures selectedId.None? ==> forall i :: 0 <= i < |cs| ==> !Rows(cs, selectedId)[i].selected
  {
  }

  /** What the component renders. */
  datatype View = Loading | NoConversations | List(rows: seq<Row>)

  function ViewFor(loading: bool, cs: seq<Conversation>, selectedId: Option<string>): (v: View)
    ensures v == Loading <==> loading
    ensures v == NoConversations <==> !loading && cs == []
    ensures v.List? ==> |v.rows| == |cs| > 0
  {
    if loading then Loading
    else if cs == [] then NoConversations
    else List(Rows(cs, selectedId))
  }
}
