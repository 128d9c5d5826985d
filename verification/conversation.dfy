/** The conversation of the intake bot: the handlers `start`, `fio`,
    `birthdate`, `inn`, `delivery`, `email`, `receipts` and `cancel`,
    dispatched the way the `ConversationHandler` assembled in `main` does it
    (entry point `/start`, one message handler per state, fallback
    `/cancel`, no re-entry while a conversation is running). One inbound
    message is one `Step` from a session to the next session plus the
    effects the handlers perform. */
module Conversation {
  import opened Wrappers
  import opened Text
  import opened DateFormat
  import opened Summary

  /** The conversation states. `Idle` is `ConversationHandler.END`: once a
      handler returns END the user has no conversation, exactly as before
      the first `/start`. */
  datatype State = Idle | Fio | Birthdate | Inn | Delivery | Email | Receipts

  /** The commands the handlers name; every other bot command is `OtherCommand`. */
  datatype Command = Start | Cancel | OtherCommand(name: string)

  /** One inbound message of the user. */
  datatype Event =
    | Message(text: string)                           // text that is not a bot command
    | CommandMessage(command: Command, text: string)  // text whose first entity is a bot command at offset 0
    // An empty `text` stands for a message without text: `filters.TEXT` and
    // `filters.COMMAND` test `bool(message.text)` first.
    | Photo(fileIds: seq<string>)                     // the file ids of every size of one photo
    | OtherMessage                                    // neither text nor photo (sticker, voice, document, ...)

  /** The replies to the user; their wording is not modelled. */
  datatype Prompt =
    | AskFio | AskBirthdate | DateFormatHint | AskInn | AskDelivery
    | AskEmail | AskReceipts | Thanks | Cancelled

  /** What a reply does to the user's reply keyboard. */
  datatype Markup = KeepKeyboard | Keyboard(rows: seq<seq<string>>) | RemoveKeyboard

  /** What a step does to the outside world, in order. */
  datatype Effect =
    | Reply(prompt: Prompt, markup: Markup)  // message to the user
    | SendSummary(summary: Summary)          // request summary to the administrator chat
    | ForwardPhoto(fileId: string)           // photo to the administrator chat
    | AdminNote(text: string)                // plain message to the administrator chat

  datatype Session = Session(state: State, data: UserData)

  datatype Outcome = Outcome(next: Session, effects: seq<Effect>)

  const PaperOption := "Оригинал на бумаге"
  const EmailOption := "На email"

  /** The one-time keyboard offered with the delivery question. The options
      are a suggestion: any text is accepted as the delivery method. */
  const DeliveryKeyboard := Keyboard([[PaperOption], [EmailOption]])

  const ReceiptsLabel := "🧾 Чеки: "
  const PhotoWord := "фото"

  // ---- message filters ----

  /** `filters.TEXT`: the message has a non-empty text. */
  predicate IsText(ev: Event) {
    (ev.Message? || ev.CommandMessage?) && |ev.text| > 0
  }

  /** `filters.COMMAND`: the text starts with a bot command, so it is not empty. */
  predicate IsCommand(ev: Event) {
    ev.CommandMessage? && |ev.text| > 0
  }

  /** The sizes of the message's photo, empty when it carries none. */
  function PhotoSizes(ev: Event): seq<string> {
    if ev.Photo? then ev.fileIds else []
  }

  /** `filters.PHOTO`. */
  predicate IsPhoto(ev: Event) {
    |PhotoSizes(ev)| > 0
  }

  /** `CommandHandler(name)` for the command `c`. */
  predicate IsCommandFor(ev: Event, c: Command) {
    IsCommand(ev) && ev.command == c
  }

  /** The filter of the one message handler of a state: `TEXT | PHOTO` in
      RECEIPTS, `TEXT & ~COMMAND` in the other five. */
  predicate Accepts(state: State, ev: Event) {
    if state == Receipts then IsText(ev) || IsPhoto(ev) else IsText(ev) && !IsCommand(ev)
  }

  // ---- handlers ----

  /** `start`: clears the data map and asks for the full name. */
  function HandleStart(s: Session): Outcome {
    Outcome(Session(Fio, map[]), [Reply(AskFio, KeepKeyboard)])
  }

  /** `fio`: stores the stripped text as the full name. */
  function HandleFio(s: Session, text: string): Outcome {
    Outcome(Session(Birthdate, s.data[FioKey := Strip(text)]), [Reply(AskBirthdate, KeepKeyboard)])
  }

  /** `birthdate`: stores the text as received if `strptime` accepts it,
      otherwise repeats the format hint and stays. */
  function HandleBirthdate(s: Session, text: string): Outcome {
    if IsValidBirthdate(text) then
      Outcome(Session(Inn, s.data[BirthdateKey := text]), [Reply(AskInn, KeepKeyboard)])
    else
      Outcome(Session(Birthdate, s.data), [Reply(DateFormatHint, KeepKeyboard)])
  }

  /** `inn`: stores the stripped text, unchecked, and offers the delivery keyboard. */
  function HandleInn(s: Session, text: string): Outcome {
    Outcome(Session(Delivery, s.data[InnKey := Strip(text)]), [Reply(AskDelivery, DeliveryKeyboard)])
  }

  /** `delivery`: stores the text as received; the e-mail option asks for an
      address, anything else stands the placeholder in for it. */
  function HandleDelivery(s: Session, text: string): Outcome {
    var data := s.data[DeliveryKey := text];
    if text == EmailOption then
      Outcome(Session(Email, data), [Reply(AskEmail, RemoveKeyboard)])
    else
      Outcome(Session(Receipts, data[EmailKey := Placeholder]), [Reply(AskReceipts, RemoveKeyboard)])
  }

  /** `email`: stores the stripped text, unchecked. */
  function HandleEmail(s: Session, text: string): Outcome {
    Outcome(Session(Receipts, s.data[EmailKey := Strip(text)]), [Reply(AskReceipts, KeepKeyboard)])
  }

  /** One `ForwardPhoto` per photo size, in order. */
  function Forwards(ids: seq<string>): (r: seq<Effect>)
    ensures |r| == |ids|
    ensures forall k :: 0 <= k < |ids| ==> r[k] == ForwardPhoto(ids[k])
  {
    if |ids| == 0 then [] else [ForwardPhoto(ids[0])] + Forwards(ids[1..])
  }

  /** What `receipts` relays after the summary: every photo size and the
      photo note, or the text echoed. */
  function Relay(ev: Event): seq<Effect>
    requires IsText(ev) || IsPhoto(ev)
  {
    if IsPhoto(ev) then Forwards(ev.fileIds) + [AdminNote(ReceiptsLabel + PhotoWord)]
    else [AdminNote(ReceiptsLabel + ev.text)]
  }

  /** `receipts`: sends the summary, then the photo sizes and the photo note
      or the echoed text, thanks the user and ends the conversation. A
      missing field raises `KeyError` before anything is sent, and the
      conversation then keeps its state. */
  function HandleReceipts(s: Session, userId: int, ev: Event): (o: Outcome)
    requires Accepts(Receipts, ev)
    ensures !HasRequiredFields(s.data) ==> o == Outcome(s, [])
    ensures HasRequiredFields(s.data) ==>
      && o.next == Session(Idle, s.data)
      && |o.effects| == |Relay(ev)| + 2
      && o.effects[0] == SendSummary(BuildSummary(s.data, userId).value)
      && o.effects[1..|o.effects| - 1] == Relay(ev)
      && o.effects[|o.effects| - 1] == Reply(Thanks, KeepKeyboard)
  {
    match BuildSummary(s.data, userId)
    case None => Outcome(s, [])
    case Some(summary) =>
      Outcome(Session(Idle, s.data), [SendSummary(summary)] + Relay(ev) + [Reply(Thanks, KeepKeyboard)])
  }

  /** `cancel`: ends the conversation; the data map is kept. */
  function HandleCancel(s: Session): Outcome {
    Outcome(Session(Idle, s.data), [Reply(Cancelled, KeepKeyboard)])
  }

  /** The handler of a state, for a message its filter accepts. */
  function HandleInState(s: Session, userId: int, ev: Event): Outcome
    requires s.state != Idle && Accepts(s.state, ev)
  {
    match s.state
    case Fio => HandleFio(s, ev.text)
    case Birthdate => HandleBirthdate(s, ev.text)
    case Inn => HandleInn(s, ev.text)
    case Delivery => HandleDelivery(s, ev.text)
    case Email => HandleEmail(s, ev.text)
    case Receipts => HandleReceipts(s, userId, ev)
  }

  /** The transition graph of the form: forward through the fields, the
      delivery branch that may skip the e-mail, and END from every state. */
  predicate Edge(from: State, to: State) {
    match from
    case Idle => to == Fio
    case Fio => to in {Birthdate, Idle}
    case Birthdate => to in {Inn, Idle}
    case Inn => to in {Delivery, Idle}
    case Delivery => to in {Email, Receipts, Idle}
    case Email => to in {Receipts, Idle}
    case Receipts => to == Idle
  }

  /** One inbound message, dispatched as the `ConversationHandler` does:
      outside a conversation only `/start` is heard; inside, the state's
      handler if its filter accepts the message, else the `/cancel`
      fallback, else nothing happens. */
  function Step(s: Session, userId: int, ev: Event): (o: Outcome)
    ensures o.next.state == s.state || Edge(s.state, o.next.state)
    ensures o.next.state == s.state ==> o.next.data == s.data
    ensures s.state == Idle && o.next.state != Idle ==> IsCommandFor(ev, Start) && o.next == Session(Fio, map[])
    ensures o.next.state == Idle && s.state != Idle ==> IsCommandFor(ev, Cancel) || s.state == Receipts
  {
    if s.state == Idle then
      if IsCommandFor(ev, Start) then HandleStart(s) else Outcome(s, [])
    else if Accepts(s.state, ev) then
      HandleInState(s, userId, ev)
    else if IsCommandFor(ev, Cancel) then
      HandleCancel(s)
    else
      Outcome(s, [])
  }

  /** A sequence of inbound messages from one user, effects concatenated. */
  function Run(s: Session, userId: int, evs: seq<Event>): (o: Outcome)
    decreases |evs|
  {
    if |evs| == 0 then Outcome(s, [])
    else
      var first := Step(s, userId, evs[0]);
      var rest := Run(first.next, userId, evs[1..]);
      Outcome(rest.next, first.effects + rest.effects)
  }

  /** No conversation and an empty data map. */
  const Init := Session(Idle, map[])
}
