/** The records shared by the chat page and its view components:
    regions, languages, messages and sessions. Dates are integer
    timestamps (milliseconds) and identifiers are plain strings. */
module ChatTypes {

  datatype Option<+T> = None | Some(value: T)

  /** The four regions a conversation may be tied to. */
  datatype Region = West | Ontario | Atlantic | Quebec

  /** A session's region: one of the four, or 'none' when the header had no region selected. */
  datatype RegionOrNone = InRegion(region: Region) | NoRegion

  datatype Language = En | Fr

  datatype Sender = User | Bot

  /** Session and message identifiers: a client-generated UUID or a server-assigned id. */
  type Id = string

  /** Milliseconds since the epoch, standing in for a `Date`. */
  type Timestamp = int

  /** One chat message. A user message's id is a client UUID; a bot message's id is the
      server's `question_id`, or a client UUID when the server gave none. */
  datatype Message = Message(id: Id, sender: Sender, text: string, timestamp: Timestamp)

  /** One conversation. Its id starts as a client UUID and is later replaced by the
      server's `conversation_id`. */
  datatype Session = Session(
    id: Id,
    startTime: Timestamp,
    region: RegionOrNone,
    language: Language,
    messages: seq<Message>,
    title: string)

  /** The string a region carries on the wire and in the header's select widget. */
  function RegionTag(r: RegionOrNone): string {
    match r
    case NoRegion => "none"
    case InRegion(West) => "West"
    case InRegion(Ontario) => "Ontario"
    case InRegion(Atlantic) => "Atlantic"
    case InRegion(Quebec) => "Quebec"
  }

  /** Reads a region tag back; exactly the five tags are accepted. */
  function ParseRegionTag(t: string): (r: Option<RegionOrNone>)
    ensures r.Some? ==> RegionTag(r.value) == t
    ensures r.None? ==> forall x :: RegionTag(x) != t
  {
    if t == "none" then Some(NoRegion)
    else if t == "West" then Some(InRegion(West))
    else if t == "Ontario" then Some(InRegion(Ontario))
    else if t == "Atlantic" then Some(InRegion(Atlantic))
    else if t == "Quebec" then Some(InRegion(Quebec))
    else None
  }

  function LanguageTag(l: Language): string {
    match l
    case En => "en"
    case Fr => "fr"
  }

  /** Reads a language tag back; exactly "en" and "fr" are accepted. */
  function ParseLanguageTag(t: string): (r: Option<Language>)
    ensures r.Some? ==> LanguageTag(r.value) == t
    ensures r.None? ==> forall x :: LanguageTag(x) != t
  {
    if t == "en" then Some(En) else if t == "fr" then Some(Fr) else None
  }

  function SenderTag(s: Sender): string {
    match s
    case User => "user"
    case Bot => "bot"
  }

  /** Reads a sender tag back; exactly "user" and "bot" are accepted. */
  function ParseSenderTag(t: string): (r: Option<Sender>)
    ensures r.Some? ==> SenderTag(r.value) == t
    ensures r.None? ==> forall x :: SenderTag(x) != t
  {
    if t == "user" then Some(User) else if t == "bot" then Some(Bot) else None
  }

  /** Every tag reads back as the value it was written from. */
  lemma TagsRoundTrip(r: RegionOrNone, l: Language, s: Sender)
    ensures ParseRegionTag(RegionTag(r)) == Some(r)
    ensures ParseLanguageTag(LanguageTag(l)) == Some(l)
    ensures ParseSenderTag(SenderTag(s)) == Some(s)
  {
  }

  /** The id of a bot message: the server's `question_id` when it is present and
      non-empty (a truthy string), otherwise a freshly generated client id. */
  function BotMessageId(questionId: Option<string>, freshId: Id): (r: Id)
    ensures r == freshId || (questionId.Some? && r == questionId.value)
    ensures freshId != "" ==> r != ""
    ensures r != freshId ==> questionId == Some(r)
    ensures questionId.Some? && questionId.value != "" ==> r == questionId.value
  {
    match questionId
    case Some(q) => if q != "" then q else freshId
    case None => freshId
  }
}
