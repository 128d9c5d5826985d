/** What holds of every conversation the bot can have: the fields a state
    can rely on, the shape of each transition, and what `receipts` and
    `cancel` send. */
module ConversationProperties {
  import opened Text
  import opened DateFormat
  import opened Summary
  import opened Conversation

  /** The five states of the form before the receipts. */
  predicate IsFormState(state: State) {
    state in {Fio, Birthdate, Inn, Delivery, Email}
  }

  /** The keys the data map holds while the conversation waits in `state`:
      one per field asked before it, and no other. */
  function KeysBefore(state: State): set<string> {
    match state
    case Idle => {}
    case Fio => {}
    case Birthdate => {FioKey}
    case Inn => {FioKey, BirthdateKey}
    case Delivery => {FioKey, BirthdateKey, InnKey}
    case Email => {FioKey, BirthdateKey, InnKey, DeliveryKey}
    case Receipts => {FioKey, BirthdateKey, InnKey, DeliveryKey, EmailKey}
  }

  /** What every stored value satisfies, in any state: a birth date is a
      date `strptime` accepts, and the full name, tax number and e-mail are
      stripped. */
  predicate ValuesOk(d: UserData) {
    && (BirthdateKey in d ==> IsValidBirthdate(d[BirthdateKey]))
    && (FioKey in d ==> IsStripped(d[FioKey]))
    && (InnKey in d ==> IsStripped(d[InnKey]))
    && (EmailKey in d ==> IsStripped(d[EmailKey]))
  }

  /** Which fields a state holds, and how the e-mail follows the delivery choice. */
  predicate ShapeOk(s: Session) {
    var d := s.data;
    && (s.state != Idle ==> d.Keys == KeysBefore(s.state))
    && (s.state == Email && DeliveryKey in d ==> d[DeliveryKey] == EmailOption)
    && (s.state == Receipts && DeliveryKey in d && EmailKey in d ==>
          (d[DeliveryKey] != EmailOption ==> d[EmailKey] == Placeholder))
  }

  /** The consistency of a session the bot can reach. */
  predicate Inv(s: Session) {
    ShapeOk(s) && ValuesOk(s.data)
  }

  lemma InitConsistent()
    ensures Inv(Init)
  {
  }

  /** Storing a value of the right kind keeps the values consistent. */
  lemma StoreKeepsValues(d: UserData, k: string, v: string)
    requires ValuesOk(d)
    requires k == BirthdateKey ==> IsValidBirthdate(v)
    requires k == FioKey || k == InnKey || k == EmailKey ==> IsStripped(v)
    ensures ValuesOk(d[k := v])
  {
    var d' := d[k := v];
    if k != BirthdateKey && BirthdateKey in d {
      assert d'[BirthdateKey] == d[BirthdateKey];
    }
  }

  lemma FioKeepsInv(s: Session, t: string)
    requires Inv(s) && s.state == Fio
    ensures Inv(HandleFio(s, t).next)
  {
    StoreKeepsValues(s.data, FioKey, Strip(t));
  }

  lemma BirthdateKeepsInv(s: Session, t: string)
    requires Inv(s) && s.state == Birthdate
    ensures Inv(HandleBirthdate(s, t).next)
  {
    if IsValidBirthdate(t) {
      StoreKeepsValues(s.data, BirthdateKey, t);
    }
  }

  lemma InnKeepsInv(s: Session, t: string)
    requires Inv(s) && s.state == Inn
    ensures Inv(HandleInn(s, t).next)
  {
    InnKeepsShape(s, t);
    StoreKeepsValues(s.data, InnKey, Strip(t));
  }

  lemma InnKeepsShape(s: Session, t: string)
    requires ShapeOk(s) && s.state == Inn
    ensures ShapeOk(HandleInn(s, t).next)
  {
  }

  lemma DeliveryKeepsInv(s: Session, t: string)
    requires Inv(s) && s.state == Delivery
    ensures Inv(HandleDelivery(s, t).next)
  {
    StoreKeepsValues(s.data, DeliveryKey, t);
    assert IsStripped(Placeholder);
    StoreKeepsValues(s.data[DeliveryKey := t], EmailKey, Placeholder);
  }

  lemma EmailKeepsInv(s: Session, t: string)
    requires Inv(s) && s.state == Email
    ensures Inv(HandleEmail(s, t).next)
  {
    EmailKeepsShape(s, Strip(t));
    StoreKeepsValues(s.data, EmailKey, Strip(t));
  }

  lemma EmailKeepsShape(s: Session, v: string)
    requires ShapeOk(s) && s.state == Email
    ensures ShapeOk(Session(Receipts, s.data[EmailKey := v]))
  {
    var d := s.data[EmailKey := v];
    assert |DeliveryKey| != |EmailKey|;
    assert d[DeliveryKey] == s.data[DeliveryKey];
  }

  /** Every step keeps a session consistent. */
  lemma StepPreservesInv(s: Session, userId: int, ev: Event)
    requires Inv(s)
    ensures Inv(Step(s, userId, ev).next)
  {
    if s.state != Idle && Accepts(s.state, ev) {
      match s.state
      case Fio => FioKeepsInv(s, ev.text);
      case Birthdate => BirthdateKeepsInv(s, ev.text);
      case Inn => InnKeepsInv(s, ev.text);
      case Delivery => DeliveryKeepsInv(s, ev.text);
      case Email => EmailKeepsInv(s, ev.text);
      case Receipts =>
    }
  }

  /** Every sequence of messages keeps a session consistent. */
  lemma {:induction false} RunPreservesInv(s: Session, userId: int, evs: seq<Event>)
    requires Inv(s)
    ensures Inv(Run(s, userId, evs).next)
    decreases |evs|
  {
    if |evs| > 0 {
      StepPreservesInv(s, userId, evs[0]);
      RunPreservesInv(Step(s, userId, evs[0]).next, userId, evs[1..]);
    }
  }

  /** Every session the bot reaches from its initial state is consistent:
      a stored birth date is a real date, the full name, tax number and
      e-mail are stripped, and each state holds exactly the fields asked
      before it. */
  lemma ReachableIsConsistent(userId: int, evs: seq<Event>)
    ensures Inv(Run(Init, userId, evs).next)
  {
    InitConsistent();
    RunPreservesInv(Init, userId, evs);
  }

  /** Every entry into RECEIPTS carries all five fields. */
  lemma EnteringReceiptsHasAllFields(s: Session, userId: int, ev: Event)
    requires Inv(s)
    requires s.state != Receipts && Step(s, userId, ev).next.state == Receipts
    ensures var d := Step(s, userId, ev).next.data;
      FioKey in d && BirthdateKey in d && InnKey in d && DeliveryKey in d && EmailKey in d
  {
    StepPreservesInv(s, userId, ev);
  }

  /** In every reachable RECEIPTS session the summary lookups succeed. */
  lemma ReachableSummaryBuilds(userId: int, evs: seq<Event>)
    ensures var s := Run(Init, userId, evs).next;
      s.state == Receipts ==> BuildSummary(s.data, userId).Some?
  {
    ReachableIsConsistent(userId, evs);
  }

  // ---- entering the conversation ----

  /** Outside a conversation `/start` clears the data map and asks for the
      full name; every other message is ignored. */
  lemma IdleHearsOnlyStart(s: Session, userId: int, ev: Event)
    requires s.state == Idle
    ensures IsCommandFor(ev, Start) ==> Step(s, userId, ev) == Outcome(Session(Fio, map[]), [Reply(AskFio, KeepKeyboard)])
    ensures !IsCommandFor(ev, Start) ==> Step(s, userId, ev) == Outcome(s, [])
  {
  }

  /** Inside the form, `/start` is neither text for the state's handler nor
      the fallback, so it changes nothing: a running conversation cannot be
      restarted before it ends. */
  lemma NoRestartInForm(s: Session, userId: int, t: string)
    requires IsFormState(s.state)
    ensures Step(s, userId, CommandMessage(Start, t)) == Outcome(s, [])
  {
  }

  // ---- the form ----

  /** The full-name step always advances on text and stores it stripped. */
  lemma FioAdvances(s: Session, userId: int, t: string)
    requires s.state == Fio && t != ""
    ensures Step(s, userId, Message(t)).next.state == Birthdate
    ensures Step(s, userId, Message(t)).next.data == s.data[FioKey := Strip(t)]
  {
  }

  /** The tax-number step always advances on text, unchecked, and stores it
      stripped. */
  lemma InnAdvances(s: Session, userId: int, t: string)
    requires s.state == Inn && t != ""
    ensures Step(s, userId, Message(t)).next.state == Delivery
    ensures Step(s, userId, Message(t)).next.data == s.data[InnKey := Strip(t)]
  {
  }

  /** The e-mail step always advances on text, unchecked, and stores it
      stripped. */
  lemma EmailAdvances(s: Session, userId: int, t: string)
    requires s.state == Email && t != ""
    ensures Step(s, userId, Message(t)).next.state == Receipts
    ensures Step(s, userId, Message(t)).next.data == s.data[EmailKey := Strip(t)]
  {
  }

  /** The birth-date step advances exactly on a date `strptime` accepts and
      then stores the text as received; otherwise nothing but the format
      hint happens. */
  lemma BirthdateStep(s: Session, userId: int, t: string)
    requires s.state == Birthdate && t != ""
    ensures var o := Step(s, userId, Message(t));
      && (o.next.state == Inn <==> IsValidBirthdate(t))
      && (IsValidBirthdate(t) ==> o.next.data == s.data[BirthdateKey := t])
      && (!IsValidBirthdate(t) ==> o == Outcome(s, [Reply(DateFormatHint, KeepKeyboard)]))
  {
  }

  /** Text moves every form state forward except a rejected birth date,
      which is the only way to stay. */
  lemma OnlyBirthdateStays(s: Session, userId: int, t: string)
    requires IsFormState(s.state) && t != ""
    ensures var o := Step(s, userId, Message(t));
      o.next.state == s.state <==> s.state == Birthdate && !IsValidBirthdate(t)
  {
  }

  /** Sending the same malformed date twice leaves the form waiting for the
      birth date, with no birth date stored. */
  lemma RepeatedInvalidDate(s: Session, userId: int)
    requires Inv(s) && s.state == Birthdate
    ensures var o := Run(s, userId, [Message("31-12-2000"), Message("31-12-2000")]);
      o.next == s && BirthdateKey !in o.next.data
  {
    DashExample();
    var evs := [Message("31-12-2000"), Message("31-12-2000")];
    assert evs[1..] == [Message("31-12-2000")];
    assert evs[1..][1..] == [];
  }

  /** The delivery step stores the text as received; exactly the e-mail
      option leads to the e-mail question with no address stored yet, any
      other text skips it with the placeholder as address. */
  lemma DeliveryBranch(s: Session, userId: int, t: string)
    requires Inv(s) && s.state == Delivery && t != ""
    ensures var o := Step(s, userId, Message(t));
      && DeliveryKey in o.next.data && o.next.data[DeliveryKey] == t
      && (t == EmailOption ==> o.next.state == Email && EmailKey !in o.next.data)
      && (t != EmailOption ==> o.next.state == Receipts && EmailKey in o.next.data
                                && o.next.data[EmailKey] == Placeholder)
  {
  }

  /** In the five form states only text that is not a command is handled:
      photos, other messages and commands other than `/cancel` change
      nothing. */
  lemma FormIgnoresNonText(s: Session, userId: int, ev: Event)
    requires IsFormState(s.state)
    requires !ev.Message? && !IsCommandFor(ev, Cancel)
    ensures Step(s, userId, ev) == Outcome(s, [])
  {
  }

  /** An empty text is not `filters.TEXT`: no state's handler takes it, it
      is not `/cancel`, and no state changes. */
  lemma EmptyTextIgnored(s: Session, userId: int)
    ensures Step(s, userId, Message("")) == Outcome(s, [])
  {
  }

  // ---- cancelling ----

  /** The number of summaries among some effects. */
  function SummaryCount(effects: seq<Effect>): (n: nat)
    ensures n <= |effects|
  {
    if |effects| == 0 then 0
    else (if effects[0].SendSummary? then 1 else 0) + SummaryCount(effects[1..])
  }

  lemma {:induction false} SummaryCountAppend(a: seq<Effect>, b: seq<Effect>)
    ensures SummaryCount(a + b) == SummaryCount(a) + SummaryCount(b)
    decreases |a|
  {
    if |a| > 0 {
      assert (a + b)[1..] == a[1..] + b;
      SummaryCountAppend(a[1..], b);
    } else {
      assert a + b == b;
    }
  }

  /** Photo forwards are not summaries. */
  lemma {:induction false} ForwardsHaveNoSummary(ids: seq<string>)
    ensures SummaryCount(Forwards(ids)) == 0
    decreases |ids|
  {
    if |ids| > 0 {
      ForwardsHaveNoSummary(ids[1..]);
    }
  }

  /** `/cancel` in a form state ends the conversation, keeps the data map
      and sends no summary. */
  lemma CancelInForm(s: Session, userId: int, t: string)
    requires IsFormState(s.state) && t != ""
    ensures Step(s, userId, CommandMessage(Cancel, t)) == Outcome(Session(Idle, s.data), [Reply(Cancelled, KeepKeyboard)])
    ensures SummaryCount(Step(s, userId, CommandMessage(Cancel, t)).effects) == 0
  {
  }

  // ---- receipts ----

  /** RECEIPTS ends on the first text or photo: the summary of the stored
      fields first, then the relay, then the thanks, and the conversation is
      over with the data map kept. */
  lemma ReceiptsIsTerminal(s: Session, userId: int, ev: Event)
    requires Inv(s) && s.state == Receipts
    requires IsText(ev) || IsPhoto(ev)
    ensures var d := s.data;
      Step(s, userId, ev) == Outcome(
        Session(Idle, d),
        [SendSummary(Summary(d[FioKey], d[BirthdateKey], d[InnKey], d[DeliveryKey], d[EmailKey], userId))]
        + Relay(ev) + [Reply(Thanks, KeepKeyboard)])
  {
  }

  /** A photo in RECEIPTS is forwarded size by size, in order, after the
      summary and before the photo note. */
  lemma PhotoForwarded(s: Session, userId: int, ids: seq<string>)
    requires Inv(s) && s.state == Receipts && |ids| > 0
    ensures var e := Step(s, userId, Photo(ids)).effects;
      && |e| == |ids| + 3
      && e[0].SendSummary?
      && (forall k :: 0 <= k < |ids| ==> e[k + 1] == ForwardPhoto(ids[k]))
      && e[|ids| + 1] == AdminNote(ReceiptsLabel + PhotoWord)
      && e[|ids| + 2] == Reply(Thanks, KeepKeyboard)
  {
    ReceiptsIsTerminal(s, userId, Photo(ids));
  }

  /** The RECEIPTS filter has no `~COMMAND`, so `/cancel` there is taken
      as the receipts text: the summary is sent and the command echoed. */
  lemma CancelInReceiptsSendsSummary(s: Session, userId: int, t: string)
    requires Inv(s) && s.state == Receipts && t != ""
    ensures var o := Step(s, userId, CommandMessage(Cancel, t));
      && o.next.state == Idle
      && o.effects[0].SendSummary?
      && o.effects[1] == AdminNote(ReceiptsLabel + t)
  {
    ReceiptsIsTerminal(s, userId, CommandMessage(Cancel, t));
  }

  /** Messages that are neither text nor a photo leave RECEIPTS as it is. */
  lemma ReceiptsIgnoresOthers(s: Session, userId: int, ev: Event)
    requires s.state == Receipts
    requires !IsText(ev) && !IsPhoto(ev)
    ensures Step(s, userId, ev) == Outcome(s, [])
  {
  }

  /** A consistent step sends a summary exactly when it completes RECEIPTS,
      and then exactly one. */
  lemma SummaryExactlyOnCompletion(s: Session, userId: int, ev: Event)
    requires Inv(s)
    ensures var o := Step(s, userId, ev);
      SummaryCount(o.effects) == if s.state == Receipts && o.next.state == Idle then 1 else 0
  {
    var o := Step(s, userId, ev);
    if s.state == Receipts && (IsText(ev) || IsPhoto(ev)) {
      ReceiptsIsTerminal(s, userId, ev);
      var d := s.data;
      var sum := Summary(d[FioKey], d[BirthdateKey], d[InnKey], d[DeliveryKey], d[EmailKey], userId);
      var tail := [Reply(Thanks, KeepKeyboard)];
      SummaryCountAppend([SendSummary(sum)] + Relay(ev), tail);
      SummaryCountAppend([SendSummary(sum)], Relay(ev));
      if IsPhoto(ev) {
        SummaryCountAppend(Forwards(ev.fileIds), [AdminNote(ReceiptsLabel + PhotoWord)]);
        ForwardsHaveNoSummary(ev.fileIds);
      }
    }
  }

  // ---- the transition graph ----

  /** Every edge of the transition graph is taken by some message from
      every consistent session in its source state. */
  lemma EdgesAreTaken(s: Session, userId: int, to: State)
    requires Inv(s) && Edge(s.state, to)
    ensures exists ev :: Step(s, userId, ev).next.state == to
  {
    if s.state == Idle {
      IdleHearsOnlyStart(s, userId, CommandMessage(Start, "/start"));
      TakenBy(s, userId, CommandMessage(Start, "/start"), to);
    } else if s.state == Receipts {
      ReceiptsIsTerminal(s, userId, Message("x"));
      TakenBy(s, userId, Message("x"), to);
    } else if to == Idle {
      CancelInForm(s, userId, "/cancel");
      TakenBy(s, userId, CommandMessage(Cancel, "/cancel"), to);
    } else if s.state == Birthdate {
      LeapCenturyExample();
      BirthdateStep(s, userId, "29.02.2000");
      TakenBy(s, userId, Message("29.02.2000"), to);
    } else if s.state == Delivery {
      var t := if to == Email then EmailOption else PaperOption;
      DeliveryBranch(s, userId, t);
      TakenBy(s, userId, Message(t), to);
    } else {
      TextTakesEdge(s, userId, to);
    }
  }

  lemma TextTakesEdge(s: Session, userId: int, to: State)
    requires s.state in {Fio, Inn, Email} && Edge(s.state, to) && to != Idle
    ensures exists ev :: Step(s, userId, ev).next.state == to
  {
    if s.state == Fio {
      FioAdvances(s, userId, "x");
    } else if s.state == Inn {
      InnAdvances(s, userId, "x");
    } else {
      EmailAdvances(s, userId, "x");
    }
    TakenBy(s, userId, Message("x"), to);
  }

  lemma TakenBy(s: Session, userId: int, ev: Event, to: State)
    requires Step(s, userId, ev).next.state == to
    ensures exists e :: Step(s, userId, e).next.state == to
  {
  }

  // ---- a whole conversation ----

  /** The five keys are different strings. */
  lemma KeysDistinct()
    ensures FioKey != BirthdateKey && FioKey != InnKey && FioKey != DeliveryKey && FioKey != EmailKey
    ensures BirthdateKey != InnKey && BirthdateKey != DeliveryKey && BirthdateKey != EmailKey
    ensures InnKey != DeliveryKey && InnKey != EmailKey && DeliveryKey != EmailKey
  {
    assert FioKey[0] != InnKey[0];
  }

  lemma RunCons(s: Session, userId: int, ev: Event, rest: seq<Event>)
    ensures var first := Step(s, userId, ev);
      var tail := Run(first.next, userId, rest);
      Run(s, userId, [ev] + rest) == Outcome(tail.next, first.effects + tail.effects)
  {
    assert ([ev] + rest)[1..] == rest;
  }

  /** Five single replies in front of a tail, however the appends nest. */
  lemma FiveThenTail(p1: Effect, p2: Effect, p3: Effect, p4: Effect, p5: Effect, tail: seq<Effect>)
    ensures [p1] + ([p2] + ([p3] + ([p4] + ([p5] + tail)))) == [p1, p2, p3, p4, p5] + tail
  {
  }

  /** Six events, split off one at a time. */
  lemma SixEvents(e1: Event, e2: Event, e3: Event, e4: Event, e5: Event, e6: Event)
    ensures [e1, e2, e3, e4, e5, e6] == [e1] + [e2, e3, e4, e5, e6]
    ensures [e2, e3, e4, e5, e6] == [e2] + [e3, e4, e5, e6]
    ensures [e3, e4, e5, e6] == [e3] + [e4, e5, e6]
    ensures [e4, e5, e6] == [e4] + [e5, e6]
    ensures [e5, e6] == [e5] + [e6]
    ensures [e6] == [e6] + []
  {
  }

  /** The sessions of the paper request below, one per message. */
  function PaperSession(k: nat): Session
    requires 1 <= k <= 5
  {
    var d1: UserData := map[];
    var d2 := d1[FioKey := "Ivan Petrov"];
    var d3 := d2[BirthdateKey := "15.03.1990"];
    var d4 := d3[InnKey := "123456789012"];
    var d5 := d4[DeliveryKey := PaperOption][EmailKey := Placeholder];
    if k == 1 then Session(Fio, d1)
    else if k == 2 then Session(Birthdate, d2)
    else if k == 3 then Session(Inn, d3)
    else if k == 4 then Session(Delivery, d4)
    else Session(Receipts, d5)
  }

  lemma PaperStartStep(userId: int)
    ensures Step(Init, userId, CommandMessage(Start, "/start")) == Outcome(PaperSession(1), [Reply(AskFio, KeepKeyboard)])
  {
  }

  lemma PaperFioStep(userId: int)
    ensures Step(PaperSession(1), userId, Message(" Ivan Petrov ")) == Outcome(PaperSession(2), [Reply(AskBirthdate, KeepKeyboard)])
  {
    var r := "Ivan Petrov";
    assert " Ivan Petrov "[1..12] == r;
    assert " Ivan Petrov "[..1] == [' '] && " Ivan Petrov "[12..] == [' '];
    assert StripsAt(r, " Ivan Petrov ", 1, 12);
    StripIsTheStripOf(r, " Ivan Petrov ");
  }

  lemma PaperBirthdateStep(userId: int)
    ensures Step(PaperSession(2), userId, Message("15.03.1990")) == Outcome(PaperSession(3), [Reply(AskInn, KeepKeyboard)])
  {
    ParseSplit("15.03.1990", 2, 5);
  }

  lemma PaperInnStep(userId: int)
    ensures Step(PaperSession(3), userId, Message("123456789012")) == Outcome(PaperSession(4), [Reply(AskDelivery, DeliveryKeyboard)])
  {
    StripFixesStripped("123456789012");
  }

  lemma PaperDeliveryStep(userId: int)
    ensures Step(PaperSession(4), userId, Message(PaperOption)) == Outcome(PaperSession(5), [Reply(AskReceipts, RemoveKeyboard)])
  {
  }

  lemma PaperRequestReceiptsStep(userId: int)
    ensures Step(PaperSession(5), userId, Photo(["A"])) == Outcome(Session(Idle, PaperSession(5).data),
      [SendSummary(Summary("Ivan Petrov", "15.03.1990", "123456789012", PaperOption, Placeholder, userId)),
       ForwardPhoto("A"), AdminNote(ReceiptsLabel + PhotoWord), Reply(Thanks, KeepKeyboard)])
  {
    assert Forwards(["A"]) == [ForwardPhoto("A")];
    KeysDistinct();
    var d := PaperSession(5).data;
    assert d[FioKey] == "Ivan Petrov" && d[BirthdateKey] == "15.03.1990" && d[InnKey] == "123456789012";
    assert d[DeliveryKey] == PaperOption && d[EmailKey] == Placeholder;
  }

  /** A paper request with one photo of the receipts: the five replies in
      order, then one summary of the stored fields with the placeholder
      e-mail, the forwarded photo, the note and the thanks; the conversation
      is over and the data map keeps the fields. */
  lemma PaperRequestExample(userId: int)
    ensures var o := Run(Init, userId, [CommandMessage(Start, "/start"), Message(" Ivan Petrov "),
                                        Message("15.03.1990"), Message("123456789012"),
                                        Message(PaperOption), Photo(["A"])]);
      && o.next == Session(Idle, PaperSession(5).data)
      && o.effects ==
           [Reply(AskFio, KeepKeyboard), Reply(AskBirthdate, KeepKeyboard), Reply(AskInn, KeepKeyboard),
            Reply(AskDelivery, DeliveryKeyboard), Reply(AskReceipts, RemoveKeyboard)]
           + [SendSummary(Summary("Ivan Petrov", "15.03.1990", "123456789012", PaperOption, Placeholder, userId)),
              ForwardPhoto("A"), AdminNote(ReceiptsLabel + PhotoWord), Reply(Thanks, KeepKeyboard)]
  {
    var e1, e2, e3 := CommandMessage(Start, "/start"), Message(" Ivan Petrov "), Message("15.03.1990");
    var e4, e5, e6 := Message("123456789012"), Message(PaperOption), Photo(["A"]);
    var tail := [SendSummary(Summary("Ivan Petrov", "15.03.1990", "123456789012", PaperOption, Placeholder, userId)),
                 ForwardPhoto("A"), AdminNote(ReceiptsLabel + PhotoWord), Reply(Thanks, KeepKeyboard)];
    var fin := Session(Idle, PaperSession(5).data);
    SixEvents(e1, e2, e3, e4, e5, e6);
    PaperRequestReceiptsStep(userId);
    RunCons(PaperSession(5), userId, e6, []);
    assert tail + [] == tail;
    var r5 := Run(PaperSession(5), userId, [e6]);
    assert r5 == Outcome(fin, tail);
    PaperDeliveryStep(userId);
    RunCons(PaperSession(4), userId, e5, [e6]);
    var r4 := Run(PaperSession(4), userId, [e5, e6]);
    assert r4 == Outcome(fin, [Reply(AskReceipts, RemoveKeyboard)] + r5.effects);
    PaperInnStep(userId);
    RunCons(PaperSession(3), userId, e4, [e5, e6]);
    var r3 := Run(PaperSession(3), userId, [e4, e5, e6]);
    assert r3 == Outcome(fin, [Reply(AskDelivery, DeliveryKeyboard)] + r4.effects);
    PaperBirthdateStep(userId);
    RunCons(PaperSession(2), userId, e3, [e4, e5, e6]);
    var r2 := Run(PaperSession(2), userId, [e3, e4, e5, e6]);
    assert r2 == Outcome(fin, [Reply(AskInn, KeepKeyboard)] + r3.effects);
    PaperFioStep(userId);
    RunCons(PaperSession(1), userId, e2, [e3, e4, e5, e6]);
    var r1 := Run(PaperSession(1), userId, [e2, e3, e4, e5, e6]);
    assert r1 == Outcome(fin, [Reply(AskBirthdate, KeepKeyboard)] + r2.effects);
    PaperStartStep(userId);
    RunCons(Init, userId, e1, [e2, e3, e4, e5, e6]);
    FiveThenTail(Reply(AskFio, KeepKeyboard), Reply(AskBirthdate, KeepKeyboard), Reply(AskInn, KeepKeyboard),
                 Reply(AskDelivery, DeliveryKeyboard), Reply(AskReceipts, RemoveKeyboard), tail);
  }
}
