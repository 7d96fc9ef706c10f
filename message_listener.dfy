/**
 * The message listener of one WhatsApp session: what it does with each
 * created message (filters, agent commands, persistence, the queue menu, the
 * automatic responder, contact cards) and with each delivery acknowledgement.
 *
 * The database is a `Backend` object holding the ticket table, the message
 * store and the order messages were first stored in; every write the
 * services make and every message sent goes to one effect log, and the ticket
 * table is always the replay of that log. What the WhatsApp client, the
 * template engine, the clock, the random source and the responder return is
 * passed in.
 */
module MessageListener {
  import opened Strings
  import opened Records
  import opened MessageFormat

  /** A message as the WhatsApp client hands it over; only `body` is ever reassigned. */
  class WbotMessage {
    const id: string
    const from: string
    const to: string
    const fromMe: bool
    const hasMedia: bool
    const msgType: string
    const location: Location
    /** The id of the quoted message, when there is one. */
    const quotedId: Option<string>
    var body: string

    constructor (id: string, from: string, to: string, fromMe: bool, hasMedia: bool, msgType: string,
                 location: Location, quotedId: Option<string>, body: string)
      ensures this.id == id && this.from == from && this.to == to && this.fromMe == fromMe
      ensures this.hasMedia == hasMedia && this.msgType == msgType && this.location == location
      ensures this.quotedId == quotedId && this.body == body
    {
      this.id := id;
      this.from := from;
      this.to := to;
      this.fromMe := fromMe;
      this.hasMedia := hasMedia;
      this.msgType := msgType;
      this.location := location;
      this.quotedId := quotedId;
      this.body := body;
    }
  }

  /** The conversation phase handed to the responder; the listener always uses `Sales`. */
  datatype Phase = Sales | Ritual | Personal

  /** What the responder answers: a reply text and an action name. */
  datatype Answer = Answer(response: string, action: string)

  /** The environment variables of the automatic responder and whether the responder is configured. */
  datatype Config = Config(testModeVar: Option<string>, testNumberVar: Option<string>, agentUserId: int, responderConfigured: bool)

  /** The account record `ShowWhatsAppService` returns. */
  datatype Account = Account(greetingMessage: string, farewellMessage: string, queues: seq<Queue>)

  /** A send waiting in the debouncer. */
  datatype Outgoing = Outgoing(to: string, body: string)

  /** Everything the services write and the client sends, in order. */
  datatype Effect =
    | TicketFound(ticket: Ticket)
    | TicketWritten(ticketId: int, patch: Patch)
    | FileWritten(filename: string)
    | Sent(to: string, body: string)
    | ResponderAsked(body: string, history: string, phase: Phase)
    | ContactCreated(name: Option<string>, number: string)
    | Published(room: int, message: Message)

  const DownloadFailed: string := "ERR_WAPP_DOWNLOAD_MEDIA"
  const NoMimeSubtype: string := "TypeError"
  const DefaultTestNumber: string := "51986848215"
  const EscalationActions: set<string> := {"ASSIGN_TO_AGENT", "PAYMENT_DETECTED", "RITUAL_INSTRUCTIONS_COMPLETE"}
  const RitualConfirmation: string :=
    [Lrm] + "\U{2705} Fase de ritual activada. El bot comenzar\U{E1} a dar instrucciones."

  // ---------------------------------------------------------------- ticket table

  function LastMessage(text: string): Patch {
    Patch(None, None, None, Some(text))
  }

  function QueuePatch(queueId: int): Patch {
    Patch(None, None, Some(Some(queueId)), None)
  }

  const ReopenPatch: Patch := Patch(Some("pending"), None, None, None)

  /** `{userId: undefined, status: "pending"}`: the undefined field is left alone. */
  const RitualPatch: Patch := Patch(Some("pending"), None, None, None)

  function EscalationPatch(agentUserId: int): Patch {
    Patch(Some("open"), Some(Some(agentUserId)), None, None)
  }

  /** What one logged effect does to the ticket table. */
  function Step(tickets: map<int, Ticket>, e: Effect): map<int, Ticket> {
    match e
    case TicketFound(t) => tickets[t.id := t]
    case TicketWritten(id, p) => if id in tickets then tickets[id := Apply(tickets[id], p)] else tickets
    case _ => tickets
  }

  /** The ticket table after a log of effects. */
  function Replay(tickets: map<int, Ticket>, log: seq<Effect>): map<int, Ticket>
    decreases |log|
  {
    if |log| == 0 then tickets else Step(Replay(tickets, log[..|log| - 1]), log[|log| - 1])
  }

  lemma ReplaySnoc(tickets: map<int, Ticket>, log: seq<Effect>, e: Effect)
    ensures Replay(tickets, log + [e]) == Step(Replay(tickets, log), e)
  {
    assert (log + [e])[..|log|] == log;
  }

  /** Replaying two logs one after the other is replaying their concatenation. */
  lemma {:induction false} ReplayConcat(tickets: map<int, Ticket>, a: seq<Effect>, b: seq<Effect>)
    ensures Replay(tickets, a + b) == Replay(Replay(tickets, a), b)
    decreases |b|
  {
    if |b| == 0 {
      assert a + b == a;
    } else {
      var front := b[..|b| - 1];
      assert (a + b)[..|a + b| - 1] == a + front;
      ReplayConcat(tickets, a, front);
    }
  }

  lemma AppendAssociates(a: seq<Effect>, b: seq<Effect>, c: seq<Effect>)
    ensures a + b + c == a + (b + c)
  {
  }

  predicate TouchesTickets(e: Effect) {
    e.TicketFound? || e.TicketWritten?
  }

  /** Sends, file writes, responder calls, contact creations and publications leave the ticket table alone. */
  lemma {:induction false} ReplayWithoutTicketEffects(tickets: map<int, Ticket>, log: seq<Effect>)
    requires forall i | 0 <= i < |log| :: !TouchesTickets(log[i])
    ensures Replay(tickets, log) == tickets
    decreases |log|
  {
    if |log| > 0 {
      ReplayWithoutTicketEffects(tickets, log[..|log| - 1]);
    }
  }

  // ---------------------------------------------------------------- message store

  /** The record an upsert leaves: the new fields, with the stored ack kept (0 for a new message). */
  function Stored(store: map<string, Message>, m: Message): Message {
    if m.id in store then m.(ack := store[m.id].ack) else m.(ack := 0)
  }

  /** `CreateMessageService`: store the record under its message id. */
  function Upsert(store: map<string, Message>, m: Message): (r: map<string, Message>)
    ensures r.Keys == store.Keys + {m.id}
    ensures r[m.id].(ack := m.ack) == m
    ensures r[m.id].ack == (if m.id in store then store[m.id].ack else 0)
    ensures forall k | k in store && k != m.id :: r[k] == store[k]
  {
    store[m.id := Stored(store, m)]
  }

  /** Storing the same record twice is storing it once. */
  lemma UpsertIdempotent(store: map<string, Message>, m: Message)
    ensures Upsert(Upsert(store, m), m) == Upsert(store, m)
  {
  }

  /** The ids in first-stored order after storing `id`. */
  function Arrived(arrival: seq<string>, store: map<string, Message>, id: string): seq<string> {
    if id in store then arrival else arrival + [id]
  }

  /** `Message.update({ack})` on the record with that id, if there is one. */
  function SetAck(store: map<string, Message>, id: string, ack: int): (r: map<string, Message>)
    ensures id !in store ==> r == store
    ensures r.Keys == store.Keys
    ensures id in store ==> r[id].ack == ack && r[id].(ack := store[id].ack) == store[id]
    ensures forall k | k in store && k != id :: r[k] == store[k]
  {
    if id in store then store[id := store[id].(ack := ack)] else store
  }

  /** `verifyQuotedMessage`: the quoted id, when the quoted message is stored. */
  function QuotedRef(quotedId: Option<string>, store: map<string, Message>): (r: Option<string>)
    ensures r.Some? <==> quotedId.Some? && quotedId.value in store
    ensures r.Some? ==> r == quotedId
  {
    if quotedId.Some? && quotedId.value in store then quotedId else None
  }

  /** `contactId: msg.fromMe ? undefined : contact.id` */
  function Authored(fromMe: bool, contact: Contact): Option<int> {
    if fromMe then None else Some(contact.id)
  }

  /** The record of a message the session sent itself as text. */
  function SentRecord(id: string, ticketId: int, body: string): Message {
    Message(id, ticketId, None, body, true, true, "chat", None, None, 0)
  }

  /** The ticket's stored messages, newest first. */
  function NewestFirst(arrival: seq<string>, store: map<string, Message>, ticketId: int): (r: seq<Message>)
    ensures |r| <= |arrival|
    ensures forall i | 0 <= i < |r| :: r[i].ticketId == ticketId && r[i] in store.Values
    decreases |arrival|
  {
    if |arrival| == 0 then []
    else
      var id := arrival[|arrival| - 1];
      var older := NewestFirst(arrival[..|arrival| - 1], store, ticketId);
      if id in store && store[id].ticketId == ticketId then [store[id]] + older else older
  }

  /** Every stored message of the ticket that is in the arrival order is in its history. */
  lemma {:induction false} NewestFirstComplete(arrival: seq<string>, store: map<string, Message>, ticketId: int)
    ensures forall k | 0 <= k < |arrival| && arrival[k] in store && store[arrival[k]].ticketId == ticketId ::
              store[arrival[k]] in NewestFirst(arrival, store, ticketId)
    decreases |arrival|
  {
    if |arrival| > 0 {
      var older := arrival[..|arrival| - 1];
      NewestFirstComplete(older, store, ticketId);
      forall k | 0 <= k < |arrival| && arrival[k] in store && store[arrival[k]].ticketId == ticketId
        ensures store[arrival[k]] in NewestFirst(arrival, store, ticketId)
      {
        if k < |older| {
          assert arrival[k] == older[k];
        }
      }
    }
  }

  /** Storing a record under an id not yet in the arrival order changes no older entry of any history. */
  lemma {:induction false} NewestFirstIgnoresNewId(arrival: seq<string>, store: map<string, Message>, m: Message, ticketId: int)
    requires m.id !in arrival
    ensures NewestFirst(arrival, Upsert(store, m), ticketId) == NewestFirst(arrival, store, ticketId)
    decreases |arrival|
  {
    if |arrival| > 0 {
      assert m.id !in arrival[..|arrival| - 1];
      NewestFirstIgnoresNewId(arrival[..|arrival| - 1], store, m, ticketId);
    }
  }

  /** A newly stored message of the ticket heads its history, followed by the history as it was. */
  lemma NewMessageHeadsHistory(arrival: seq<string>, store: map<string, Message>, m: Message)
    requires m.id !in store && m.id !in arrival
    ensures NewestFirst(Arrived(arrival, store, m.id), Upsert(store, m), m.ticketId) ==
            [m.(ack := 0)] + NewestFirst(arrival, store, m.ticketId)
  {
    var after := arrival + [m.id];
    assert after[..|after| - 1] == arrival;
    NewestFirstIgnoresNewId(arrival, store, m, m.ticketId);
  }

  /**
   * With one-line bodies, the transcript the responder gets right after a new
   * message is stored ends with that message's line.
   */
  lemma HistoryEndsWithNewMessage(arrival: seq<string>, store: map<string, Message>, m: Message)
    requires m.id !in store && m.id !in arrival
    requires '\n' !in m.body
    requires forall k | k in store :: '\n' !in store[k].body
    ensures var lines := Split(Transcript(NewestFirst(Arrived(arrival, store, m.id), Upsert(store, m), m.ticketId)), '\n');
            |lines| > 0 && lines[|lines| - 1] == Speaker(m.fromMe) + ": " + m.body
  {
    var after := Upsert(store, m);
    var history := NewestFirst(Arrived(arrival, store, m.id), after, m.ticketId);
    NewMessageHeadsHistory(arrival, store, m);
    assert history[0] == m.(ack := 0);
    forall i | 0 <= i < |history|
      ensures '\n' !in history[i].body
    {
      assert history[i] in after.Values;
    }
    var n := if |history| <= HistoryLimit then |history| else HistoryLimit;
    TranscriptLines(history, n);
  }

  // ---------------------------------------------------------------- decisions

  /** `GEMINI_TEST_MODE === "true"` */
  predicate TestMode(config: Config) {
    config.testModeVar == Some("true")
  }

  /** `GEMINI_TEST_NUMBER || "51986848215"` */
  function TestNumber(config: Config): (r: string)
    ensures r == DefaultTestNumber <==> config.testNumberVar.None? || config.testNumberVar.value in {"", DefaultTestNumber}
    ensures config.testNumberVar.Some? && config.testNumberVar.value != "" ==> r == config.testNumberVar.value
  {
    if config.testNumberVar.Some? && config.testNumberVar.value != "" then config.testNumberVar.value else DefaultTestNumber
  }

  /** In test mode only the test number, compared digit by digit, gets automatic replies. */
  predicate PassesTestGate(config: Config, contactNumber: string) {
    !TestMode(config) || DigitsOf(contactNumber) == DigitsOf(TestNumber(config))
  }

  /** Formatting the number does not matter to the test gate. */
  lemma TestGateIgnoresFormatting(config: Config, a: string, b: string)
    requires DigitsOf(a) == DigitsOf(b)
    ensures PassesTestGate(config, a) <==> PassesTestGate(config, b)
  {
  }

  /** The farewell skip: nothing unread, a farewell configured, and the body is the formatted farewell. */
  predicate FarewellEcho(unreadMessages: nat, farewell: string, formattedFarewell: string, body: string) {
    unreadMessages == 0 && farewell != "" && formattedFarewell == body
  }

  /** The guard in front of `verifyQueue`; a ticket has no queue row exactly when its `queueId` is NULL or 0. */
  predicate RoutesToQueue(ticket: Ticket, isGroup: bool, fromMe: bool, queues: seq<Queue>) {
    !Truthy(ticket.queueId) && !isGroup && !fromMe && !Truthy(ticket.userId) && |queues| >= 1
  }

  /** The guard in front of the automatic responder. */
  predicate AutoResponds(ticket: Ticket, isGroup: bool, fromMe: bool, msgType: string) {
    !fromMe && !isGroup && msgType == "chat" && Truthy(ticket.queueId)
  }

  /** The queue menu and the responder never both handle one message: one needs a queue, the other none. */
  lemma MenuOrResponder(ticket: Ticket, isGroup: bool, fromMe: bool, queues: seq<Queue>, msgType: string)
    ensures !(RoutesToQueue(ticket, isGroup, fromMe, queues) && AutoResponds(ticket, isGroup, fromMe, msgType))
  {
  }

  /** The chat id messages to a contact are sent to. */
  function ChatId(contact: Contact): string {
    contact.number + "@c.us"
  }

  /** The four lines of the `/info` text about the ticket as the handler holds it. */
  function InfoLines(t: Ticket): seq<string> {
    ["\U{1F4CA} Info del Ticket #" + IntToString(t.id),
     "\U{1F464} Usuario asignado: " + AssigneeText(t),
     "\U{1F4CB} Estado: " + t.status,
     "\U{1F3AF} Cola: " + QueueText(t)]
  }

  /** The `/info` text: its lines joined by line breaks, as the template literal spells them. */
  function InfoText(t: Ticket): string {
    Join(InfoLines(t), "\n")
  }

  /** `ticket.userId || "Ninguno (Bot activo)"` */
  function AssigneeText(t: Ticket): string {
    if Truthy(t.userId) then IntToString(t.userId.value) else "Ninguno (Bot activo)"
  }

  /** `ticket.queueId || "Sin cola"` */
  function QueueText(t: Ticket): string {
    if Truthy(t.queueId) then IntToString(t.queueId.value) else "Sin cola"
  }

  lemma IntToStringOneLine(i: int)
    ensures '\n' !in IntToString(i)
  {
    var s := IntToString(i);
    if i >= 0 {
      assert AllDigits(s);
    } else {
      assert s == "-" + NatToString(-i);
      assert AllDigits(NatToString(-i));
    }
  }

  /** A rendered number never reads as a word that starts with neither a digit nor a minus sign. */
  lemma NumberIsNotWord(i: int, word: string)
    requires |word| > 0 && word[0] != '-' && !IsDigit(word[0])
    ensures IntToString(i) != word
  {
    var s := IntToString(i);
    if i >= 0 {
      assert IsDigit(s[0]);
    } else {
      assert s[0] == '-';
    }
  }

  lemma DifferentTails(a: string, b: string, c: string)
    requires b != c
    ensures a + b != a + c
  {
    assert (a + b)[|a|..] == b;
    assert (a + c)[|a|..] == c;
  }

  /** The assignee line is one line, and it shows the default text exactly when no user is assigned. */
  lemma AssigneeLineReadsBack(t: Ticket)
    ensures '\n' !in InfoLines(t)[1]
    ensures Truthy(t.userId) <==> InfoLines(t)[1] != "\U{1F464} Usuario asignado: " + "Ninguno (Bot activo)"
  {
    var prefix := "\U{1F464} Usuario asignado: ";
    assert '\n' !in prefix && '\n' !in "Ninguno (Bot activo)";
    if Truthy(t.userId) {
      IntToStringOneLine(t.userId.value);
      NumberIsNotWord(t.userId.value, "Ninguno (Bot activo)");
      DifferentTails(prefix, AssigneeText(t), "Ninguno (Bot activo)");
    }
  }

  /** The queue line is one line, and it shows `Sin cola` exactly when there is no queue. */
  lemma QueueLineReadsBack(t: Ticket)
    ensures '\n' !in InfoLines(t)[3]
    ensures Truthy(t.queueId) <==> InfoLines(t)[3] != "\U{1F3AF} Cola: " + "Sin cola"
  {
    var prefix := "\U{1F3AF} Cola: ";
    assert '\n' !in prefix && '\n' !in "Sin cola";
    if Truthy(t.queueId) {
      IntToStringOneLine(t.queueId.value);
      NumberIsNotWord(t.queueId.value, "Sin cola");
      DifferentTails(prefix, QueueText(t), "Sin cola");
    }
  }

  /**
   * Read line by line, the `/info` text names the ticket, then the assigned
   * user or that the bot is active, then the status and the queue.
   */
  lemma InfoReadsBack(t: Ticket)
    requires '\n' !in t.status
    ensures var lines := Split(InfoText(t), '\n');
            |lines| == 4 &&
            lines[0] == "\U{1F4CA} Info del Ticket #" + IntToString(t.id) &&
            lines[2] == "\U{1F4CB} Estado: " + t.status &&
            (Truthy(t.userId) <==> lines[1] != "\U{1F464} Usuario asignado: " + "Ninguno (Bot activo)") &&
            (Truthy(t.queueId) <==> lines[3] != "\U{1F3AF} Cola: " + "Sin cola")
  {
    var lines := InfoLines(t);
    IntToStringOneLine(t.id);
    assert '\n' !in "\U{1F4CA} Info del Ticket #" && '\n' !in "\U{1F4CB} Estado: ";
    AssigneeLineReadsBack(t);
    QueueLineReadsBack(t);
    assert '\n' !in lines[0] && '\n' !in lines[2];
    SplitOfJoin(lines, '\n');
  }

  /**
   * The contacts the card branch creates from position `from` of the card's
   * numbers on: one per number, in order, stopping at the first number
   * already known.
   */
  function CardCreations(numbers: seq<string>, from: nat, name: Option<string>, known: set<string>): seq<Effect>
    requires from <= |numbers|
    decreases |numbers| - from
  {
    if from == |numbers| then []
    else
      var number := DigitsOf(numbers[from]);
      if number in known then [] else [ContactCreated(name, number)] + CardCreations(numbers, from + 1, name, known + {number})
  }

  /** At most one creation per number; each carries the card's name and a digit-only number not yet known. */
  lemma {:induction false} CardCreationsFields(numbers: seq<string>, from: nat, name: Option<string>, known: set<string>)
    requires from <= |numbers|
    ensures var r := CardCreations(numbers, from, name, known);
            |r| <= |numbers| - from &&
            forall i | 0 <= i < |r| :: r[i].ContactCreated? && r[i].name == name && AllDigits(r[i].number) && r[i].number !in known
    decreases |numbers| - from
  {
    if from < |numbers| {
      var number := DigitsOf(numbers[from]);
      if number !in known {
        CardCreationsFields(numbers, from + 1, name, known + {number});
        var rest := CardCreations(numbers, from + 1, name, known + {number});
        var r := [ContactCreated(name, number)] + rest;
        forall i | 0 <= i < |r|
          ensures r[i].ContactCreated? && r[i].name == name && AllDigits(r[i].number) && r[i].number !in known
        {
          if i > 0 {
            assert r[i] == rest[i - 1];
          }
        }
      }
    }
  }

  /** No two contact creations in the log are for the same number. */
  predicate DistinctNumbers(log: seq<Effect>) {
    forall i, j | 0 <= i < j < |log| && log[i].ContactCreated? && log[j].ContactCreated? :: log[i].number != log[j].number
  }

  /** No card creates the same number twice. */
  lemma {:induction false} CardCreationsDistinct(numbers: seq<string>, from: nat, name: Option<string>, known: set<string>)
    requires from <= |numbers|
    ensures DistinctNumbers(CardCreations(numbers, from, name, known))
    decreases |numbers| - from
  {
    if from < |numbers| {
      var number := DigitsOf(numbers[from]);
      if number !in known {
        var rest := CardCreations(numbers, from + 1, name, known + {number});
        CardCreationsDistinct(numbers, from + 1, name, known + {number});
        CardCreationsFields(numbers, from + 1, name, known + {number});
        var r := [ContactCreated(name, number)] + rest;
        forall i, j | 0 <= i < j < |r| && r[i].ContactCreated? && r[j].ContactCreated?
          ensures r[i].number != r[j].number
        {
          assert r[j] == rest[j - 1];
          assert rest[j - 1].number !in known + {number};
          if i > 0 {
            assert r[i] == rest[i - 1];
          }
        }
      }
    }
  }

  // ---------------------------------------------------------------- outcomes

  /** Which way `verifyQueue` went. */
  datatype Routing = AutoAssigned(queueId: int) | Selected(queue: Queue) | MenuPending(body: string)

  /** Where the automatic responder stopped. */
  datatype AutoOutcome = NotTestNumber | AgentAssigned | NoQueue | NotConfigured | EmptyResponse | Replied(escalated: bool)

  /** Where the handling of one message ended. */
  datatype Stage =
    | Invalid
    | OwnDropped
    | FarewellSkipped
    | RitualCommand
    | InfoCommand
    | MediaFailed(error: string)
    | Persisted(routing: Option<Routing>, reply: Option<AutoOutcome>, contactsCreated: nat)

  /** What the client, the services and the responder answer while one message is handled. */
  datatype Surroundings = Surroundings(
    isGroup: bool,
    unreadCount: nat,
    contact: Contact,
    account: Account,
    found: Ticket,
    media: Option<Media>,
    draws: seq<int>,
    now: nat,
    commandReplyId: string,
    menuReplyId: string,
    autoReplyId: string,
    answer: Answer,
    config: Config,
    knownNumbers: set<string>)

  // ---------------------------------------------------------------- handling, as values

  /** The backend's state apart from the ticket table, which is always the replay of `effects`. */
  datatype Db = Db(effects: seq<Effect>, messages: map<string, Message>, arrival: seq<string>, menus: map<int, Outgoing>)

  /** The effects of asking the responder and acting on its answer, given the ticket's history newest first. */
  function ConversationEffects(body: string, newestFirst: seq<Message>, ticketId: int, contact: Contact,
                               config: Config, answer: Answer): seq<Effect>
  {
    [ResponderAsked(body, Transcript(newestFirst), Sales)] +
    if answer.response == "" then []
    else EscalationEffects(ticketId, answer.action, config.agentUserId) + ReplyEffects(ticketId, contact, [Lrm] + answer.response)
  }

  function EscalationEffects(ticketId: int, action: string, agentUserId: int): seq<Effect> {
    if action in EscalationActions then [TicketWritten(ticketId, EscalationPatch(agentUserId))] else []
  }

  function ReplyEffects(ticketId: int, contact: Contact, reply: string): seq<Effect> {
    [Sent(ChatId(contact), reply), TicketWritten(ticketId, LastMessage(reply))]
  }

  /** The store after the session's own text, returned by the client under `sentId`, goes through `verifyMessage`. */
  function StoreSent(db: Db, sentId: string, ticketId: int, text: string): Db {
    db.(messages := Upsert(db.messages, SentRecord(sentId, ticketId, text)), arrival := Arrived(db.arrival, db.messages, sentId))
  }

  /** The agent command a message is, if any. */
  function AgentCommandOf(fromMe: bool, body: string): Option<Stage> {
    if fromMe && StartsWith(body, "/") && Lower(body) == "/activar-ritual" then Some(RitualCommand)
    else if fromMe && StartsWith(body, "/") && Lower(body) == "/info" then Some(InfoCommand)
    else None
  }

  /** The text an agent command answers with. */
  function CommandReply(stage: Stage, ticket: Ticket): string {
    if stage == RitualCommand then RitualConfirmation else [Lrm] + InfoText(ticket)
  }

  /**
   * The state after an agent command on `ticket`: `/activar-ritual` first writes the ticket back to the bot;
   * either command then sends its reply and stores it under `sentId`. The command message itself is not stored.
   */
  function AfterCommand(db: Db, stage: Stage, ticket: Ticket, contact: Contact, sentId: string): Db {
    var writes := if stage == RitualCommand then [TicketWritten(ticket.id, RitualPatch)] else [];
    var text := CommandReply(stage, ticket);
    StoreSent(db.(effects := db.effects + writes + ReplyEffects(ticket.id, contact, text)), sentId, ticket.id, text)
  }

  /** A message that gets past the validity filter, the self-echo filter and the farewell skip. */
  predicate Admitted(msg: WbotMessage, body: string, env: Surroundings, formatBody: (string, Contact) -> string) {
    IsValidMsg(msg.from, msg.msgType) && !(msg.fromMe && DropsOwnMessage(body, msg.hasMedia, msg.msgType)) &&
    !FarewellEcho(if msg.fromMe then 0 else env.unreadCount, env.account.farewellMessage,
                  formatBody(env.account.farewellMessage, env.contact), body)
  }

  /** `FindOrCreateTicketService` as seen in the log. */
  function Found(db: Db, ticket: Ticket): Db {
    db.(effects := db.effects + [TicketFound(ticket)])
  }

  /** Enough random draws for a five-character id, each an index into the alphabet. */
  predicate FairDraws(draws: seq<int>) {
    |draws| >= 5 && forall i | 0 <= i < |draws| :: 0 <= draws[i] < |Alphabet|
  }

  /** The body `verifyMessage` stores: a location becomes thumbnail, map link and label. */
  function PreparedBody(msgType: string, body: string, location: Location): string {
    if msgType == "location" then LocationBody(body, location) else body
  }

  /** What storing one message writes before the record, and the record. */
  datatype Storage = Storage(writes: seq<Effect>, record: Message)

  /**
   * `verifyMediaMessage` for a message with media, `verifyMessage` otherwise,
   * on a message whose body is `body`; `None` when the media path throws.
   */
  function Storing(msg: WbotMessage, body: string, env: Surroundings, store: map<string, Message>): Option<Storage>
    requires FairDraws(env.draws)
  {
    var quoted := QuotedRef(msg.quotedId, store);
    if msg.hasMedia then
      if env.media.None? then None
      else
        var name := StoredFilename(env.media.value, DrawnId(env.draws, 5), env.now);
        if name.None? then None
        else
          var text := if body != "" then body else name.value;
          Some(Storage([FileWritten(name.value), TicketWritten(env.found.id, LastMessage(text))],
                       Message(msg.id, env.found.id, Authored(msg.fromMe, env.contact), text, msg.fromMe, msg.fromMe,
                               MimeKind(env.media.value.mimetype), Some(name.value), quoted, 0)))
    else
      var text := PreparedBody(msg.msgType, body, msg.location);
      var preview := if msg.msgType == "location" then LocationPreview(msg.location) else text;
      Some(Storage([TicketWritten(env.found.id, LastMessage(preview))],
                   Message(msg.id, env.found.id, Authored(msg.fromMe, env.contact), text, msg.fromMe, msg.fromMe,
                           msg.msgType, None, quoted, 0)))
  }

  /** What a storage holds: the record's identity fields, and writes that only name files and set the last message. */
  lemma StoringFields(msg: WbotMessage, body: string, env: Surroundings, store: map<string, Message>)
    requires FairDraws(env.draws)
    ensures var r := Storing(msg, body, env, store);
            r.None? <==> msg.hasMedia && (env.media.None? || StoredFilename(env.media.value, DrawnId(env.draws, 5), env.now).None?)
    ensures var r := Storing(msg, body, env, store);
            r.Some? ==>
              var m := r.value.record;
              m.id == msg.id && m.ticketId == env.found.id && m.fromMe == msg.fromMe && m.read == msg.fromMe &&
              m.contactId == Authored(msg.fromMe, env.contact) && m.quotedMsgId == QuotedRef(msg.quotedId, store) &&
              m.ack == 0 && |r.value.writes| >= 1 &&
              r.value.writes[|r.value.writes| - 1].TicketWritten? && r.value.writes[|r.value.writes| - 1].ticketId == env.found.id &&
              forall i | 0 <= i < |r.value.writes| :: r.value.writes[i].FileWritten? || r.value.writes[i].TicketWritten?
    ensures var r := Storing(msg, body, env, store);
            r.Some? && msg.hasMedia ==>
              r.value.record.mediaUrl.Some? && r.value.record.mediaType == MimeKind(env.media.value.mimetype) &&
              r.value.writes[0] == FileWritten(r.value.record.mediaUrl.value) &&
              r.value.record.body == if body != "" then body else r.value.record.mediaUrl.value
    ensures var r := Storing(msg, body, env, store);
            !msg.hasMedia ==>
              r.Some? && r.value.record.mediaUrl.None? && r.value.record.mediaType == msg.msgType &&
              r.value.record.body == PreparedBody(msg.msgType, body, msg.location)
  {
  }

  /** The state after a storage: its writes logged, the record upserted, its id placed in the arrival order. */
  function AfterStoring(db: Db, storage: Storage): Db {
    Db(db.effects + storage.writes, Upsert(db.messages, storage.record),
       Arrived(db.arrival, db.messages, storage.record.id), db.menus)
  }

  /** Which way `verifyQueue` goes for a reply `body`. */
  function QueueRouting(account: Account, body: string, contact: Contact, formatBody: (string, Contact) -> string): Routing {
    if |account.queues| == 1 then AutoAssigned(account.queues[0].id)
    else if ChosenQueue(account.queues, body).Some? then Selected(ChosenQueue(account.queues, body).value)
    else MenuPending(formatBody([Lrm] + account.greetingMessage + "\n" + MenuOptions(account.queues), contact))
  }

  /** The state after `verifyQueue` went the way `routing` says on ticket `ticketId`. */
  function AfterRouting(db: Db, routing: Routing, ticketId: int, contact: Contact, sentId: string,
                       formatBody: (string, Contact) -> string): Db {
    match routing
    case AutoAssigned(queueId) => db.(effects := db.effects + [TicketWritten(ticketId, QueuePatch(queueId))])
    case Selected(queue) =>
      var body := formatBody([Lrm] + queue.greetingMessage, contact);
      StoreSent(db, sentId, ticketId, body).(effects :=
        db.effects + [TicketWritten(ticketId, QueuePatch(queue.id))] + ReplyEffects(ticketId, contact, body))
    case MenuPending(body) => db.(menus := db.menus[ticketId := Outgoing(ChatId(contact), body)])
  }

  /** Where `handleGeminiAutoResponse` stops for this ticket, contact, configuration and answer. */
  function AutoOutcomeOf(ticket: Ticket, contact: Contact, config: Config, answer: Answer): AutoOutcome {
    if !PassesTestGate(config, contact.number) then NotTestNumber
    else if Truthy(ticket.userId) then AgentAssigned
    else if !Truthy(ticket.queueId) then NoQueue
    else if !config.responderConfigured then NotConfigured
    else if answer.response == "" then EmptyResponse
    else Replied(answer.action in EscalationActions)
  }

  /** The effects of a responder run that stopped at `outcome`, given the ticket's history newest first. */
  function ResponderEffects(outcome: AutoOutcome, body: string, newestFirst: seq<Message>, ticket: Ticket, contact: Contact,
                            config: Config, answer: Answer): seq<Effect> {
    var reopen := if ticket.status == "closed" then [TicketWritten(ticket.id, ReopenPatch)] else [];
    if outcome == NotTestNumber then []
    else if outcome in {AgentAssigned, NoQueue, NotConfigured} then reopen
    else reopen + ConversationEffects(body, newestFirst, ticket.id, contact, config, answer)
  }

  /** The state after a responder run that stopped at `outcome`; the history it reads is the one before the run. */
  function AfterResponder(db: Db, outcome: AutoOutcome, body: string, ticket: Ticket, contact: Contact, config: Config,
                          answer: Answer, sentId: string): Db {
    var asked := db.(effects := db.effects +
      ResponderEffects(outcome, body, NewestFirst(db.arrival, db.messages, ticket.id), ticket, contact, config, answer));
    if outcome.Replied? then StoreSent(asked, sentId, ticket.id, [Lrm] + answer.response) else asked
  }

  /** A responder run described field by field is the run as a value. */
  lemma ResponderView(before: Db, after: Db, outcome: AutoOutcome, body: string, ticket: Ticket, contact: Contact,
                      config: Config, answer: Answer, sentId: string)
    requires after.effects == before.effects +
               ResponderEffects(outcome, body, NewestFirst(before.arrival, before.messages, ticket.id), ticket, contact, config, answer)
    requires outcome.Replied? ==>
               after.messages == Upsert(before.messages, SentRecord(sentId, ticket.id, [Lrm] + answer.response)) &&
               after.arrival == Arrived(before.arrival, before.messages, sentId)
    requires !outcome.Replied? ==> after.messages == before.messages && after.arrival == before.arrival
    requires after.menus == before.menus
    ensures after == AfterResponder(before, outcome, body, ticket, contact, config, answer, sentId)
  {
  }

  /** The contacts the card block creates. */
  function CardEffects(msgType: string, body: string, known: set<string>): seq<Effect> {
    if msgType == "vcard" then
      var card := Split(body, '\n');
      CardCreations(CardNumbers(card), 0, CardName(card), known)
    else []
  }

  /** The queue-menu block's way, when its guard holds. */
  function RoutingOf(fromMe: bool, body: string, env: Surroundings, formatBody: (string, Contact) -> string): Option<Routing> {
    if RoutesToQueue(env.found, env.isGroup, fromMe, env.account.queues) then
      Some(QueueRouting(env.account, body, env.contact, formatBody))
    else None
  }

  /** The responder block's outcome, when its guard holds. */
  function ReplyOf(fromMe: bool, msgType: string, env: Surroundings): Option<AutoOutcome> {
    if AutoResponds(env.found, env.isGroup, fromMe, msgType) then
      Some(AutoOutcomeOf(env.found, env.contact, env.config, env.answer))
    else None
  }

  /** The state after the three follow-up blocks, in order. */
  function FollowUpsOf(db: Db, fromMe: bool, msgType: string, body: string, env: Surroundings,
                       formatBody: (string, Contact) -> string): Db {
    var routing := RoutingOf(fromMe, body, env, formatBody);
    var routed := if routing.Some? then AfterRouting(db, routing.value, env.found.id, env.contact, env.menuReplyId, formatBody) else db;
    var reply := ReplyOf(fromMe, msgType, env);
    var replied := if reply.Some? then
                     AfterResponder(routed, reply.value, body, env.found, env.contact, env.config, env.answer, env.autoReplyId)
                   else routed;
    replied.(effects := replied.effects + CardEffects(msgType, body, env.knownNumbers))
  }

  /**
   * A ticket a user is assigned to gets no menu and no automatic reply: the
   * follow-ups send nothing, ask the responder nothing, store no message and
   * schedule no menu; at most the ticket is reopened and card contacts created.
   */
  lemma AssignedTicketGetsNoReply(db: Db, fromMe: bool, msgType: string, body: string, env: Surroundings,
                                  formatBody: (string, Contact) -> string)
    requires Truthy(env.found.userId)
    ensures var after := FollowUpsOf(db, fromMe, msgType, body, env, formatBody);
            after.messages == db.messages && after.arrival == db.arrival && after.menus == db.menus &&
            |after.effects| >= |db.effects| && after.effects[..|db.effects|] == db.effects &&
            forall i | |db.effects| <= i < |after.effects| :: !after.effects[i].Sent? && !after.effects[i].ResponderAsked?
  {
    var reopen := if env.found.status == "closed" then [TicketWritten(env.found.id, ReopenPatch)] else [];
    var card := CardEffects(msgType, body, env.knownNumbers);
    if msgType == "vcard" {
      var lines := Split(body, '\n');
      CardCreationsFields(CardNumbers(lines), 0, CardName(lines), env.knownNumbers);
    }
    var added := if ReplyOf(fromMe, msgType, env).Some? && ReplyOf(fromMe, msgType, env).value != NotTestNumber then reopen + card else card;
    assert FollowUpsOf(db, fromMe, msgType, body, env, formatBody).effects == db.effects + added;
    forall i | 0 <= i < |added|
      ensures !added[i].Sent? && !added[i].ResponderAsked?
    {
      if i >= |added| - |card| {
        assert added[i] == card[i - (|added| - |card|)];
      }
    }
  }

  /** From `before` to `after` one message, `id`, is stored, no menu is scheduled, and nothing is sent or asked of the responder. */
  ghost predicate StoresOnly(before: Db, after: Db, id: string) {
    after.messages.Keys == before.messages.Keys + {id} && after.menus == before.menus &&
    forall i | |before.effects| <= i < |after.effects| :: !after.effects[i].Sent? && !after.effects[i].ResponderAsked?
  }

  /**
   * On a ticket a user is assigned to, a stored message is the only message
   * stored: nothing is sent, the responder is not asked and no menu is
   * scheduled, from the ticket lookup to the card contacts.
   */
  lemma AssignedTicketStoresOnly(db: Db, msg: WbotMessage, body: string, storedBody: string, env: Surroundings,
                                 formatBody: (string, Contact) -> string)
    requires FairDraws(env.draws)
    requires Truthy(env.found.userId) && Storing(msg, body, env, db.messages).Some?
    ensures StoresOnly(db, FollowUpsOf(AfterStoring(Found(db, env.found), Storing(msg, body, env, db.messages).value),
                                      msg.fromMe, msg.msgType, storedBody, env, formatBody), msg.id)
  {
    var storage := Storing(msg, body, env, db.messages).value;
    var stored := AfterStoring(Found(db, env.found), storage);
    AssignedTicketGetsNoReply(stored, msg.fromMe, msg.msgType, storedBody, env, formatBody);
    var after := FollowUpsOf(stored, msg.fromMe, msg.msgType, storedBody, env, formatBody);
    assert stored.effects == db.effects + [TicketFound(env.found)] + storage.writes;
    forall i | |db.effects| <= i < |after.effects|
      ensures !after.effects[i].Sent? && !after.effects[i].ResponderAsked?
    {
      if i < |stored.effects| {
        assert after.effects[i] == stored.effects[i];
        if i > |db.effects| {
          assert stored.effects[i] == storage.writes[i - |db.effects| - 1];
        }
      }
    }
  }

  // ---------------------------------------------------------------- the backend

  class Backend {
    var tickets: map<int, Ticket>
    var messages: map<string, Message>
    /** Message ids in the order they were first stored (the `createdAt` order). */
    var arrival: seq<string>
    var effects: seq<Effect>
    /** The debounced menu sends, keyed by ticket id; a later one replaces an earlier one. */
    var menus: map<int, Outgoing>
    ghost const origin: map<int, Ticket>

    /** The ticket table is the replay of the effect log. */
    ghost predicate Consistent()
      reads this
    {
      tickets == Replay(origin, effects)
    }

    /** Everything but the ticket table, as a value. */
    ghost function View(): Db
      reads this
    {
      Db(effects, messages, arrival, menus)
    }

    constructor (tickets: map<int, Ticket>, messages: map<string, Message>, arrival: seq<string>)
      ensures Consistent()
      ensures this.tickets == tickets && this.messages == messages && this.arrival == arrival
      ensures effects == [] && menus == map[]
    {
      this.tickets := tickets;
      this.messages := messages;
      this.arrival := arrival;
      effects := [];
      menus := map[];
      origin := tickets;
    }

    /** Record an effect and apply it to the ticket table. */
    method Log(e: Effect)
      requires Consistent()
      modifies this
      ensures Consistent()
      ensures effects == old(effects) + [e]
      ensures tickets == Step(old(tickets), e)
      ensures messages == old(messages) && arrival == old(arrival) && menus == old(menus)
    {
      ReplaySnoc(origin, effects, e);
      effects := effects + [e];
      tickets := Step(tickets, e);
    }

    /** `CreateMessageService`: upsert the record and remember when its id was first stored. */
    method CreateMessage(m: Message)
      requires Consistent()
      modifies this
      ensures Consistent()
      ensures messages == Upsert(old(messages), m)
      ensures arrival == Arrived(old(arrival), old(messages), m.id)
      ensures tickets == old(tickets) && effects == old(effects) && menus == old(menus)
    {
      arrival := Arrived(arrival, messages, m.id);
      messages := Upsert(messages, m);
    }

    /** `wbot.sendMessage`: the client answers with a new outgoing text message. */
    method SendMessage(to: string, body: string, sentId: string) returns (sent: WbotMessage)
      requires Consistent()
      modifies this
      ensures Consistent()
      ensures fresh(sent)
      ensures sent.id == sentId && sent.to == to && sent.body == body && sent.fromMe && !sent.hasMedia
      ensures sent.msgType == "chat" && sent.quotedId.None?
      ensures effects == old(effects) + [Sent(to, body)]
      ensures tickets == old(tickets) && messages == old(messages) && arrival == old(arrival) && menus == old(menus)
    {
      Log(Sent(to, body));
      sent := new WbotMessage(sentId, "", to, true, false, "chat", Location("", "", ""), None, body);
    }

    /** `prepareLocation`: the body becomes thumbnail, map link and label. */
    static method PrepareLocation(msg: WbotMessage)
      modifies msg
      ensures msg.body == LocationBody(old(msg.body), msg.location)
    {
      var mapsUrl := MapsUrl(msg.location.latitude, msg.location.longitude);
      msg.body := "data:image/png;base64," + msg.body + "|" + mapsUrl;
      msg.body := msg.body + "|" + LocationLabel(msg.location);
    }

    /** `verifyMessage`: set the ticket's last message and store the message. */
    method VerifyMessage(msg: WbotMessage, ticket: Ticket, contact: Contact)
      requires Consistent()
      modifies this, msg
      ensures Consistent()
      ensures msg.body == if msg.msgType == "location" then LocationBody(old(msg.body), msg.location) else old(msg.body)
      ensures effects == old(effects) + [TicketWritten(ticket.id, LastMessage(
                if msg.msgType == "location" then LocationPreview(msg.location) else msg.body))]
      ensures messages == Upsert(old(messages), Message(msg.id, ticket.id, Authored(msg.fromMe, contact), msg.body,
                msg.fromMe, msg.fromMe, msg.msgType, None, QuotedRef(msg.quotedId, old(messages)), 0))
      ensures arrival == Arrived(old(arrival), old(messages), msg.id)
      ensures menus == old(menus)
    {
      if msg.msgType == "location" {
        PrepareLocation(msg);
      }
      var quoted := QuotedRef(msg.quotedId, messages);
      var data := Message(msg.id, ticket.id, Authored(msg.fromMe, contact), msg.body, msg.fromMe, msg.fromMe,
                          msg.msgType, None, quoted, 0);
      var preview := if msg.msgType == "location" then LocationPreview(msg.location) else msg.body;
      Log(TicketWritten(ticket.id, LastMessage(preview)));
      CreateMessage(data);
    }

    /** `verifyMediaMessage`: name and write the file, set the last message, store the message. */
    method VerifyMediaMessage(msg: WbotMessage, ticket: Ticket, contact: Contact, media: Option<Media>,
                              draws: seq<int>, now: nat) returns (failure: Option<string>)
      requires Consistent()
      requires |draws| >= 5 && forall i | 0 <= i < |draws| :: 0 <= draws[i] < |Alphabet|
      modifies this
      ensures Consistent()
      ensures media.None? ==> failure == Some(DownloadFailed)
      ensures media.Some? && StoredFilename(media.value, DrawnId(draws, 5), now).None? ==> failure == Some(NoMimeSubtype)
      ensures failure.None? <==> media.Some? && StoredFilename(media.value, DrawnId(draws, 5), now).Some?
      ensures failure.Some? ==> unchanged(this)
      ensures failure.None? ==>
                media.Some? && StoredFilename(media.value, DrawnId(draws, 5), now).Some? &&
                var name := StoredFilename(media.value, DrawnId(draws, 5), now).value;
                var body := if msg.body != "" then msg.body else name;
                effects == old(effects) + [FileWritten(name), TicketWritten(ticket.id, LastMessage(body))] &&
                messages == Upsert(old(messages), Message(msg.id, ticket.id, Authored(msg.fromMe, contact), body,
                  msg.fromMe, msg.fromMe, MimeKind(media.value.mimetype), Some(name), QuotedRef(msg.quotedId, old(messages)), 0)) &&
                arrival == Arrived(old(arrival), old(messages), msg.id) &&
                menus == old(menus)
      ensures failure.None? && media.value.filename != "" ==>
                Extension(StoredFilename(media.value, DrawnId(draws, 5), now).value) == Extension(media.value.filename)
    {
      var quoted := QuotedRef(msg.quotedId, messages);
      if media.None? {
        return Some(DownloadFailed);
      }
      var randomId := MakeRandomId(5, draws);
      RandomIdHasNoDot(draws, 5);
      var stored := StoredFilename(media.value, randomId, now);
      if stored.None? {
        return Some(NoMimeSubtype);
      }
      StoredFilenameExtension(media.value, randomId, now);
      RecordMedia(msg, ticket, contact, media.value.mimetype, stored.value, quoted);
      failure := None;
    }

    /** The rest of `verifyMediaMessage` once the file is named: write it, set the last message, store the message. */
    method RecordMedia(msg: WbotMessage, ticket: Ticket, contact: Contact, mimetype: string, name: string,
                       quoted: Option<string>)
      requires Consistent()
      modifies this
      ensures Consistent()
      ensures var body := if msg.body != "" then msg.body else name;
              effects == old(effects) + [FileWritten(name), TicketWritten(ticket.id, LastMessage(body))] &&
              messages == Upsert(old(messages), Message(msg.id, ticket.id, Authored(msg.fromMe, contact), body,
                msg.fromMe, msg.fromMe, MimeKind(mimetype), Some(name), quoted, 0)) &&
              arrival == Arrived(old(arrival), old(messages), msg.id) &&
              menus == old(menus)
    {
      Log(FileWritten(name));
      var body := if msg.body != "" then msg.body else name;
      var data := Message(msg.id, ticket.id, Authored(msg.fromMe, contact), body, msg.fromMe, msg.fromMe,
                          MimeKind(mimetype), Some(name), quoted, 0);
      Log(TicketWritten(ticket.id, LastMessage(body)));
      CreateMessage(data);
    }

    /** `verifyQueue`: assign the only queue, take a numbered choice, or schedule the menu. */
    method VerifyQueue(msg: WbotMessage, ticket: Ticket, contact: Contact, account: Account,
                       formatBody: (string, Contact) -> string, sentId: string) returns (routing: Routing)
      requires Consistent()
      modifies this
      ensures Consistent()
      ensures |account.queues| == 1 ==>
                routing == AutoAssigned(account.queues[0].id) &&
                effects == old(effects) + [TicketWritten(ticket.id, QueuePatch(account.queues[0].id))] &&
                messages == old(messages) && arrival == old(arrival) && menus == old(menus)
      ensures |account.queues| != 1 && ChosenQueue(account.queues, msg.body).Some? ==>
                var queue := ChosenQueue(account.queues, msg.body).value;
                var body := formatBody([Lrm] + queue.greetingMessage, contact);
                routing == Selected(queue) &&
                effects == old(effects) + [TicketWritten(ticket.id, QueuePatch(queue.id)), Sent(ChatId(contact), body),
                                           TicketWritten(ticket.id, LastMessage(body))] &&
                messages == Upsert(old(messages), SentRecord(sentId, ticket.id, body)) &&
                arrival == Arrived(old(arrival), old(messages), sentId) &&
                menus == old(menus)
      ensures |account.queues| != 1 && ChosenQueue(account.queues, msg.body).None? ==>
                var body := formatBody([Lrm] + account.greetingMessage + "\n" + MenuOptions(account.queues), contact);
                routing == MenuPending(body) &&
                menus == old(menus)[ticket.id := Outgoing(ChatId(contact), body)] &&
                effects == old(effects) && messages == old(messages) && arrival == old(arrival)
      ensures routing == QueueRouting(account, msg.body, contact, formatBody)
      ensures View() == AfterRouting(old(View()), routing, ticket.id, contact, sentId, formatBody)
    {
      var queues := account.queues;
      if |queues| == 1 {
        Log(TicketWritten(ticket.id, QueuePatch(queues[0].id)));
        return AutoAssigned(queues[0].id);
      }
      var chosen := ChosenQueue(queues, msg.body);
      if chosen.Some? {
        Log(TicketWritten(ticket.id, QueuePatch(chosen.value.id)));
        var body := formatBody([Lrm] + chosen.value.greetingMessage, contact);
        Reply(ticket, contact, body, sentId);
        routing := Selected(chosen.value);
      } else {
        var options := BuildOptions(queues);
        var body := formatBody([Lrm] + account.greetingMessage + "\n" + options, contact);
        menus := menus[ticket.id := Outgoing(ChatId(contact), body)];
        routing := MenuPending(body);
      }
    }

    /** `handleGeminiAutoResponse`: test gate, reopen, the three guards, then the conversation with the responder. */
    method AutoRespond(msg: WbotMessage, ticket: Ticket, contact: Contact, config: Config, answer: Answer,
                       sentId: string) returns (outcome: AutoOutcome)
      requires Consistent()
      modifies this
      ensures Consistent()
      ensures outcome == NotTestNumber <==> !PassesTestGate(config, contact.number)
      ensures outcome.Replied? <==>
                PassesTestGate(config, contact.number) && !Truthy(ticket.userId) && Truthy(ticket.queueId) &&
                config.responderConfigured && answer.response != ""
      ensures outcome == AutoOutcomeOf(ticket, contact, config, answer)
      ensures effects == old(effects) +
                ResponderEffects(outcome, msg.body, NewestFirst(old(arrival), old(messages), ticket.id), ticket, contact, config, answer)
      ensures var reopen := if ticket.status == "closed" then [TicketWritten(ticket.id, ReopenPatch)] else [];
              if outcome == NotTestNumber then effects == old(effects)
              else if outcome in {AgentAssigned, NoQueue, NotConfigured} then effects == old(effects) + reopen
              else effects == old(effects) + reopen +
                     ConversationEffects(msg.body, NewestFirst(old(arrival), old(messages), ticket.id), ticket.id, contact, config, answer)
      ensures outcome.Replied? ==>
                messages == Upsert(old(messages), SentRecord(sentId, ticket.id, [Lrm] + answer.response)) &&
                arrival == Arrived(old(arrival), old(messages), sentId)
      ensures !outcome.Replied? ==> messages == old(messages) && arrival == old(arrival)
      ensures menus == old(menus)
    {
      if TestMode(config) && DigitsOf(contact.number) != DigitsOf(TestNumber(config)) {
        return NotTestNumber;
      }
      ghost var reopen := if ticket.status == "closed" then [TicketWritten(ticket.id, ReopenPatch)] else [];
      if ticket.status == "closed" {
        Log(TicketWritten(ticket.id, ReopenPatch));
      }
      assert effects == old(effects) + reopen && messages == old(messages) && arrival == old(arrival);
      ghost var reopened := effects;
      outcome := GuardedConverse(msg, ticket, contact, config, answer, sentId);
      ghost var history := NewestFirst(old(arrival), old(messages), ticket.id);
      ghost var added := ResponderEffects(outcome, msg.body, history, ticket, contact, config, answer);
      if outcome in {AgentAssigned, NoQueue, NotConfigured} {
        assert added == reopen;
      } else {
        ghost var conversation := ConversationEffects(msg.body, history, ticket.id, contact, config, answer);
        assert added == reopen + conversation;
        assert effects == old(effects) + reopen + conversation;
        AppendAssociates(old(effects), reopen, conversation);
      }
    }

    /** The three guards after the reopen (an assigned user, no queue, no responder), then the conversation. */
    method GuardedConverse(msg: WbotMessage, ticket: Ticket, contact: Contact, config: Config, answer: Answer,
                           sentId: string) returns (outcome: AutoOutcome)
      requires Consistent()
      modifies this
      ensures Consistent()
      ensures PassesTestGate(config, contact.number) ==> outcome == AutoOutcomeOf(ticket, contact, config, answer)
      ensures outcome != NotTestNumber
      ensures outcome in {AgentAssigned, NoQueue, NotConfigured} ==> effects == old(effects)
      ensures outcome !in {AgentAssigned, NoQueue, NotConfigured} ==>
                effects == old(effects) +
                  ConversationEffects(msg.body, NewestFirst(old(arrival), old(messages), ticket.id), ticket.id, contact, config, answer)
      ensures outcome.Replied? ==>
                messages == Upsert(old(messages), SentRecord(sentId, ticket.id, [Lrm] + answer.response)) &&
                arrival == Arrived(old(arrival), old(messages), sentId)
      ensures !outcome.Replied? ==> messages == old(messages) && arrival == old(arrival)
      ensures menus == old(menus)
    {
      if Truthy(ticket.userId) {
        return AgentAssigned;
      }
      if !Truthy(ticket.queueId) {
        return NoQueue;
      }
      if !config.responderConfigured {
        return NotConfigured;
      }
      outcome := Converse(msg, ticket, contact, config, answer, sentId);
    }

    /** Ask the responder with the transcript; on a non-empty answer escalate when asked to and reply. */
    method Converse(msg: WbotMessage, ticket: Ticket, contact: Contact, config: Config, answer: Answer,
                    sentId: string) returns (outcome: AutoOutcome)
      requires Consistent()
      modifies this
      ensures Consistent()
      ensures outcome == if answer.response == "" then EmptyResponse else Replied(answer.action in EscalationActions)
      ensures effects == old(effects) +
                ConversationEffects(msg.body, NewestFirst(old(arrival), old(messages), ticket.id), ticket.id, contact, config, answer)
      ensures outcome.Replied? ==>
                messages == Upsert(old(messages), SentRecord(sentId, ticket.id, [Lrm] + answer.response)) &&
                arrival == Arrived(old(arrival), old(messages), sentId)
      ensures !outcome.Replied? ==> messages == old(messages) && arrival == old(arrival)
      ensures menus == old(menus)
    {
      var history := Transcript(NewestFirst(arrival, messages, ticket.id));
      Log(ResponderAsked(msg.body, history, Sales));
      if answer.response == "" {
        return EmptyResponse;
      }
      Escalate(ticket.id, answer.action, config.agentUserId);
      Reply(ticket, contact, [Lrm] + answer.response, sentId);
      outcome := Replied(answer.action in EscalationActions);
    }

    /** The three action tests: each of the escalation actions hands the ticket to the agent and opens it. */
    method Escalate(ticketId: int, action: string, agentUserId: int)
      requires Consistent()
      modifies this
      ensures Consistent()
      ensures effects == old(effects) + EscalationEffects(ticketId, action, agentUserId)
      ensures messages == old(messages) && arrival == old(arrival) && menus == old(menus)
    {
      // The three tests compare one string, so at most one of them holds.
      if action == "ASSIGN_TO_AGENT" {
        Log(TicketWritten(ticketId, EscalationPatch(agentUserId)));
      } else if action == "PAYMENT_DETECTED" {
        Log(TicketWritten(ticketId, EscalationPatch(agentUserId)));
      } else if action == "RITUAL_INSTRUCTIONS_COMPLETE" {
        Log(TicketWritten(ticketId, EscalationPatch(agentUserId)));
      }
    }

    /** Send a text to the contact and run `verifyMessage` on what the client returns. */
    method Reply(ticket: Ticket, contact: Contact, text: string, sentId: string)
      requires Consistent()
      modifies this
      ensures Consistent()
      ensures effects == old(effects) + ReplyEffects(ticket.id, contact, text)
      ensures messages == Upsert(old(messages), SentRecord(sentId, ticket.id, text))
      ensures arrival == Arrived(old(arrival), old(messages), sentId)
      ensures menus == old(menus)
    {
      var sent := SendMessage(ChatId(contact), text, sentId);
      VerifyMessage(sent, ticket, contact);
    }

    /** The `for await` over the card's numbers: create each contact until one already exists. */
    method CreateCardContacts(numbers: seq<string>, name: Option<string>, known: set<string>) returns (created: nat)
      modifies this
      ensures effects == old(effects) + CardCreations(numbers, 0, name, known)
      ensures created == |CardCreations(numbers, 0, name, known)|
      ensures tickets == old(tickets) && messages == old(messages) && arrival == old(arrival) && menus == old(menus)
    {
      var index := 0;
      var seen := known;
      created := 0;
      // A number that already exists makes the creation throw, which ends the loop.
      while index < |numbers| && DigitsOf(numbers[index]) !in seen
        invariant 0 <= index <= |numbers|
        invariant tickets == old(tickets) && messages == old(messages) && arrival == old(arrival) && menus == old(menus)
        invariant effects + CardCreations(numbers, index, name, seen) == old(effects) + CardCreations(numbers, 0, name, known)
        invariant created + |CardCreations(numbers, index, name, seen)| == |CardCreations(numbers, 0, name, known)|
      {
        var number := DigitsOf(numbers[index]);
        ghost var before := effects;
        CreateContact(name, number);
        ghost var rest := CardCreations(numbers, index + 1, name, seen + {number});
        assert before + ([ContactCreated(name, number)] + rest) == effects + rest;
        seen := seen + {number};
        created := created + 1;
        index := index + 1;
      }
    }

    /** Creating a card's contacts leaves the replayed ticket table as it was. */
    lemma ContactsKeepTickets(numbers: seq<string>, name: Option<string>, known: set<string>, log: seq<Effect>)
      ensures Replay(origin, log + CardCreations(numbers, 0, name, known)) == Replay(origin, log)
    {
      var made := CardCreations(numbers, 0, name, known);
      CardCreationsFields(numbers, 0, name, known);
      assert forall i | 0 <= i < |made| :: !TouchesTickets(made[i]);
      ReplayConcat(origin, log, made);
      ReplayWithoutTicketEffects(Replay(origin, log), made);
    }

    /** `CreateContactService` for one number of a card: a contact record, no ticket touched. */
    method CreateContact(name: Option<string>, number: string)
      modifies this
      ensures effects == old(effects) + [ContactCreated(name, number)]
      ensures tickets == old(tickets) && messages == old(messages) && arrival == old(arrival) && menus == old(menus)
    {
      effects := effects + [ContactCreated(name, number)];
    }

    /** `handleMsgAck`: set the ack of the stored message and publish it to its ticket's room. */
    method HandleMsgAck(id: string, ack: int) returns (found: bool)
      requires Consistent()
      modifies this
      ensures Consistent()
      ensures found <==> id in old(messages)
      ensures messages == SetAck(old(messages), id, ack)
      ensures found ==> effects == old(effects) + [Published(old(messages)[id].ticketId, messages[id])]
      ensures !found ==> effects == old(effects)
      ensures tickets == old(tickets) && arrival == old(arrival) && menus == old(menus)
    {
      if id !in messages {
        return false;
      }
      messages := SetAck(messages, id, ack);
      Log(Published(messages[id].ticketId, messages[id]));
      found := true;
    }

    /** `handleMessage`: the validity and self-echo filters, the farewell skip, then the ticket's part. */
    method HandleMessage(msg: WbotMessage, env: Surroundings, formatBody: (string, Contact) -> string)
      returns (stage: Stage)
      requires Consistent()
      requires FairDraws(env.draws)
      modifies this, msg
      ensures Consistent()
      ensures stage == Invalid <==> !IsValidMsg(msg.from, msg.msgType)
      ensures stage == OwnDropped <==>
                IsValidMsg(msg.from, msg.msgType) && msg.fromMe && DropsOwnMessage(old(msg.body), msg.hasMedia, msg.msgType)
      ensures stage == FarewellSkipped <==>
                IsValidMsg(msg.from, msg.msgType) && !(msg.fromMe && DropsOwnMessage(old(msg.body), msg.hasMedia, msg.msgType)) &&
                FarewellEcho(if msg.fromMe then 0 else env.unreadCount, env.account.farewellMessage,
                             formatBody(env.account.farewellMessage, env.contact), old(msg.body))
      ensures stage in {Invalid, OwnDropped, FarewellSkipped} ==> unchanged(this) && unchanged(msg)
      ensures stage !in {Invalid, OwnDropped, FarewellSkipped} ==>
                |effects| > |old(effects)| && effects[|old(effects)|] == TicketFound(env.found)
      ensures stage == RitualCommand ==>
                msg.fromMe && Lower(old(msg.body)) == "/activar-ritual" &&
                effects == old(effects) + [TicketFound(env.found)] + [TicketWritten(env.found.id, RitualPatch)] +
                           ReplyEffects(env.found.id, env.contact, RitualConfirmation)
      ensures stage == InfoCommand ==>
                msg.fromMe && Lower(old(msg.body)) == "/info" &&
                effects == old(effects) + [TicketFound(env.found)] + ReplyEffects(env.found.id, env.contact, [Lrm] + InfoText(env.found))
      ensures stage.MediaFailed? ==> msg.hasMedia && messages == old(messages) && effects == old(effects) + [TicketFound(env.found)]
      ensures stage.MediaFailed? ==> View() == Found(old(View()), env.found)
      ensures stage in {RitualCommand, InfoCommand} ==>
                View() == AfterCommand(Found(old(View()), env.found), stage, env.found, env.contact, env.commandReplyId) &&
                messages.Keys == old(messages).Keys + {env.commandReplyId}
      ensures stage.Persisted? ==>
                msg.id in messages &&
                (stage.routing.Some? <==> RoutesToQueue(env.found, env.isGroup, msg.fromMe, env.account.queues)) &&
                (stage.reply.Some? <==> AutoResponds(env.found, env.isGroup, msg.fromMe, msg.msgType))
      ensures stage == RitualCommand <==>
                Admitted(msg, old(msg.body), env, formatBody) && AgentCommandOf(msg.fromMe, old(msg.body)) == Some(RitualCommand)
      ensures stage == InfoCommand <==>
                Admitted(msg, old(msg.body), env, formatBody) && AgentCommandOf(msg.fromMe, old(msg.body)) == Some(InfoCommand)
      ensures stage.MediaFailed? <==>
                Admitted(msg, old(msg.body), env, formatBody) && AgentCommandOf(msg.fromMe, old(msg.body)).None? &&
                Storing(msg, old(msg.body), env, old(messages)).None?
      ensures stage.Persisted? <==>
                Admitted(msg, old(msg.body), env, formatBody) && AgentCommandOf(msg.fromMe, old(msg.body)).None? &&
                Storing(msg, old(msg.body), env, old(messages)).Some?
      ensures stage.MediaFailed? ==> stage.error == if env.media.None? then DownloadFailed else NoMimeSubtype
      ensures stage.Persisted? ==>
                msg.body == (if msg.hasMedia then old(msg.body) else PreparedBody(msg.msgType, old(msg.body), msg.location)) &&
                stage == Persisted(RoutingOf(msg.fromMe, msg.body, env, formatBody), ReplyOf(msg.fromMe, msg.msgType, env),
                                   |CardEffects(msg.msgType, msg.body, env.knownNumbers)|) &&
                View() == FollowUpsOf(AfterStoring(Found(old(View()), env.found), Storing(msg, old(msg.body), env, old(messages)).value),
                                      msg.fromMe, msg.msgType, msg.body, env, formatBody)
      ensures stage.Persisted? && Truthy(env.found.userId) ==> StoresOnly(old(View()), View(), msg.id)
    {
      var stop := Screen(msg, env, formatBody);
      if stop.Some? {
        return stop.value;
      }
      Log(TicketFound(env.found));
      ghost var found := effects;
      stage := HandleTicketMessage(msg, env, formatBody);
      assert effects[..|found|] == found;
      assert effects[|old(effects)|] == found[|old(effects)|];
      if stage.Persisted? && Truthy(env.found.userId) {
        AssignedTicketStoresOnly(old(View()), msg, old(msg.body), msg.body, env, formatBody);
      }
    }

    /** The early returns of `handleMessage`: invalid events, the session's own marked or content-less messages, farewell echoes. */
    method Screen(msg: WbotMessage, env: Surroundings, formatBody: (string, Contact) -> string) returns (stop: Option<Stage>)
      ensures stop.Some? ==> stop.value in {Invalid, OwnDropped, FarewellSkipped}
      ensures stop == Some(Invalid) <==> !IsValidMsg(msg.from, msg.msgType)
      ensures stop == Some(OwnDropped) <==>
                IsValidMsg(msg.from, msg.msgType) && msg.fromMe && DropsOwnMessage(msg.body, msg.hasMedia, msg.msgType)
      ensures stop == Some(FarewellSkipped) <==>
                IsValidMsg(msg.from, msg.msgType) && !(msg.fromMe && DropsOwnMessage(msg.body, msg.hasMedia, msg.msgType)) &&
                FarewellEcho(if msg.fromMe then 0 else env.unreadCount, env.account.farewellMessage,
                             formatBody(env.account.farewellMessage, env.contact), msg.body)
    {
      if !IsValidMsg(msg.from, msg.msgType) {
        return Some(Invalid);
      }
      if msg.fromMe {
        if IsMarked(msg.body) {
          return Some(OwnDropped);
        }
        if !msg.hasMedia && msg.msgType != "location" && msg.msgType != "chat" && msg.msgType != "vcard" {
          return Some(OwnDropped);
        }
      }
      var unreadMessages := if msg.fromMe then 0 else env.unreadCount;
      if unreadMessages == 0 && env.account.farewellMessage != "" &&
         formatBody(env.account.farewellMessage, env.contact) == msg.body {
        return Some(FarewellSkipped);
      }
      return None;
    }

    /** The part of `handleMessage` after `FindOrCreateTicketService`: commands, persistence, then the follow-ups. */
    method HandleTicketMessage(msg: WbotMessage, env: Surroundings, formatBody: (string, Contact) -> string)
      returns (stage: Stage)
      requires Consistent()
      requires FairDraws(env.draws)
      modifies this, msg
      ensures Consistent()
      ensures stage !in {Invalid, OwnDropped, FarewellSkipped}
      ensures |effects| >= |old(effects)| && effects[..|old(effects)|] == old(effects)
      ensures stage == RitualCommand ==>
                msg.fromMe && Lower(old(msg.body)) == "/activar-ritual" &&
                effects == old(effects) + [TicketWritten(env.found.id, RitualPatch)] +
                           ReplyEffects(env.found.id, env.contact, RitualConfirmation)
      ensures stage == InfoCommand ==>
                msg.fromMe && Lower(old(msg.body)) == "/info" &&
                effects == old(effects) + ReplyEffects(env.found.id, env.contact, [Lrm] + InfoText(env.found))
      ensures stage.MediaFailed? ==> msg.hasMedia && messages == old(messages) && effects == old(effects)
      ensures stage.MediaFailed? ==> View() == old(View())
      ensures stage in {RitualCommand, InfoCommand} ==>
                View() == AfterCommand(old(View()), stage, env.found, env.contact, env.commandReplyId) &&
                messages.Keys == old(messages).Keys + {env.commandReplyId}
      ensures stage.Persisted? ==>
                msg.id in messages &&
                (stage.routing.Some? <==> RoutesToQueue(env.found, env.isGroup, msg.fromMe, env.account.queues)) &&
                (stage.reply.Some? <==> AutoResponds(env.found, env.isGroup, msg.fromMe, msg.msgType))
      ensures stage == RitualCommand <==> AgentCommandOf(msg.fromMe, old(msg.body)) == Some(RitualCommand)
      ensures stage == InfoCommand <==> AgentCommandOf(msg.fromMe, old(msg.body)) == Some(InfoCommand)
      ensures stage.MediaFailed? <==>
                AgentCommandOf(msg.fromMe, old(msg.body)).None? && Storing(msg, old(msg.body), env, old(messages)).None?
      ensures stage.Persisted? <==>
                AgentCommandOf(msg.fromMe, old(msg.body)).None? && Storing(msg, old(msg.body), env, old(messages)).Some?
      ensures stage.MediaFailed? ==> stage.error == if env.media.None? then DownloadFailed else NoMimeSubtype
      ensures stage.Persisted? ==>
                msg.body == (if msg.hasMedia then old(msg.body) else PreparedBody(msg.msgType, old(msg.body), msg.location)) &&
                stage == Persisted(RoutingOf(msg.fromMe, msg.body, env, formatBody), ReplyOf(msg.fromMe, msg.msgType, env),
                                   |CardEffects(msg.msgType, msg.body, env.knownNumbers)|) &&
                View() == FollowUpsOf(AfterStoring(old(View()), Storing(msg, old(msg.body), env, old(messages)).value),
                                      msg.fromMe, msg.msgType, msg.body, env, formatBody)
    {
      var command := AgentCommand(msg, env.found, env.contact, env.commandReplyId);
      if command.Some? {
        return command.value;
      }
      stage := StoreAndFollowUp(msg, env, formatBody);
    }

    /** The part of `handleMessage` after the commands: store the message, then the follow-ups. */
    method StoreAndFollowUp(msg: WbotMessage, env: Surroundings, formatBody: (string, Contact) -> string)
      returns (stage: Stage)
      requires Consistent()
      requires FairDraws(env.draws)
      modifies this, msg
      ensures Consistent()
      ensures stage.MediaFailed? || stage.Persisted?
      ensures |effects| >= |old(effects)| && effects[..|old(effects)|] == old(effects)
      ensures stage.MediaFailed? <==> Storing(msg, old(msg.body), env, old(messages)).None?
      ensures stage.MediaFailed? ==>
                msg.hasMedia && unchanged(this) && stage.error == if env.media.None? then DownloadFailed else NoMimeSubtype
      ensures stage.Persisted? ==>
                msg.id in messages &&
                msg.body == (if msg.hasMedia then old(msg.body) else PreparedBody(msg.msgType, old(msg.body), msg.location)) &&
                stage == Persisted(RoutingOf(msg.fromMe, msg.body, env, formatBody), ReplyOf(msg.fromMe, msg.msgType, env),
                                   |CardEffects(msg.msgType, msg.body, env.knownNumbers)|) &&
                View() == FollowUpsOf(AfterStoring(old(View()), Storing(msg, old(msg.body), env, old(messages)).value),
                                      msg.fromMe, msg.msgType, msg.body, env, formatBody)
    {
      var failure := StoreMessage(msg, env);
      if failure.Some? {
        return MediaFailed(failure.value);
      }
      ghost var stored := effects;
      stage := FollowUps(msg, env, formatBody);
      assert effects[..|stored|] == stored;
    }

    /** The agent commands: `/activar-ritual` hands the ticket back to the bot, `/info` describes it. */
    method AgentCommand(msg: WbotMessage, ticket: Ticket, contact: Contact, sentId: string) returns (stage: Option<Stage>)
      requires Consistent()
      modifies this
      ensures Consistent()
      ensures stage == Some(RitualCommand) <==> msg.fromMe && StartsWith(msg.body, "/") && Lower(msg.body) == "/activar-ritual"
      ensures stage == Some(InfoCommand) <==> msg.fromMe && StartsWith(msg.body, "/") && Lower(msg.body) == "/info"
      ensures stage.Some? ==> stage.value in {RitualCommand, InfoCommand}
      ensures stage == AgentCommandOf(msg.fromMe, msg.body)
      ensures stage == Some(RitualCommand) ==>
                effects == old(effects) + [TicketWritten(ticket.id, RitualPatch)] + ReplyEffects(ticket.id, contact, RitualConfirmation)
      ensures stage == Some(InfoCommand) ==>
                effects == old(effects) + ReplyEffects(ticket.id, contact, [Lrm] + InfoText(ticket))
      ensures stage.Some? ==> View() == AfterCommand(old(View()), stage.value, ticket, contact, sentId)
      ensures stage.None? ==> unchanged(this)
    {
      if msg.fromMe && StartsWith(msg.body, "/") {
        var command := Lower(msg.body);
        if command == "/activar-ritual" {
          Log(TicketWritten(ticket.id, RitualPatch));
          Reply(ticket, contact, RitualConfirmation, sentId);
          return Some(RitualCommand);
        }
        if command == "/info" {
          Reply(ticket, contact, [Lrm] + InfoText(ticket), sentId);
          return Some(InfoCommand);
        }
      }
      return None;
    }

    /** `verifyMediaMessage` for a message with media, `verifyMessage` otherwise. */
    method StoreMessage(msg: WbotMessage, env: Surroundings) returns (failure: Option<string>)
      requires Consistent()
      requires FairDraws(env.draws)
      modifies this, msg
      ensures Consistent()
      ensures failure.Some? ==> msg.hasMedia && unchanged(this)
      ensures failure.None? ==> msg.id in messages
      ensures |effects| >= |old(effects)| && effects[..|old(effects)|] == old(effects)
      ensures failure.None? <==> Storing(msg, old(msg.body), env, old(messages)).Some?
      ensures failure.Some? ==> failure.value == if env.media.None? then DownloadFailed else NoMimeSubtype
      ensures failure.None? ==> View() == AfterStoring(old(View()), Storing(msg, old(msg.body), env, old(messages)).value)
      ensures msg.body == if msg.hasMedia then old(msg.body) else PreparedBody(msg.msgType, old(msg.body), msg.location)
    {
      if msg.hasMedia {
        failure := VerifyMediaMessage(msg, env.found, env.contact, env.media, env.draws, env.now);
      } else {
        VerifyMessage(msg, env.found, env.contact);
        failure := None;
      }
    }

    /** After the message is stored: the queue menu, the automatic responder and the contact card, each behind its guard. */
    method FollowUps(msg: WbotMessage, env: Surroundings, formatBody: (string, Contact) -> string) returns (stage: Stage)
      requires Consistent()
      modifies this
      ensures Consistent()
      ensures old(messages).Keys <= messages.Keys
      ensures |effects| >= |old(effects)| && effects[..|old(effects)|] == old(effects)
      ensures stage.Persisted?
      ensures stage.routing.Some? <==> RoutesToQueue(env.found, env.isGroup, msg.fromMe, env.account.queues)
      ensures stage.reply.Some? <==> AutoResponds(env.found, env.isGroup, msg.fromMe, msg.msgType)
      ensures msg.msgType != "vcard" ==> stage.contactsCreated == 0
      ensures stage == Persisted(RoutingOf(msg.fromMe, msg.body, env, formatBody), ReplyOf(msg.fromMe, msg.msgType, env),
                                 |CardEffects(msg.msgType, msg.body, env.knownNumbers)|)
      ensures View() == FollowUpsOf(old(View()), msg.fromMe, msg.msgType, msg.body, env, formatBody)
    {
      var routing := Route(msg, env, formatBody);
      ghost var routed := effects;
      var reply := Respond(msg, env);
      ghost var replied := effects;
      var created := CardContacts(msg, env);
      assert effects[..|replied|] == replied;
      assert effects[..|routed|] == routed;
      stage := Persisted(routing, reply, created);
    }

    /** The queue-menu block: `verifyQueue` for a ticket without queue or user, outside groups, from the contact. */
    method Route(msg: WbotMessage, env: Surroundings, formatBody: (string, Contact) -> string) returns (routing: Option<Routing>)
      requires Consistent()
      modifies this
      ensures Consistent()
      ensures old(messages).Keys <= messages.Keys
      ensures |effects| >= |old(effects)| && effects[..|old(effects)|] == old(effects)
      ensures routing.Some? <==> RoutesToQueue(env.found, env.isGroup, msg.fromMe, env.account.queues)
      ensures routing == RoutingOf(msg.fromMe, msg.body, env, formatBody)
      ensures routing.Some? ==> View() == AfterRouting(old(View()), routing.value, env.found.id, env.contact, env.menuReplyId, formatBody)
      ensures routing.None? ==> View() == old(View())
    {
      routing := None;
      if RoutesToQueue(env.found, env.isGroup, msg.fromMe, env.account.queues) {
        var r := VerifyQueue(msg, env.found, env.contact, env.account, formatBody, env.menuReplyId);
        routing := Some(r);
      }
    }

    /** The responder block: `handleGeminiAutoResponse` for a text from the contact on a ticket with a queue. */
    method Respond(msg: WbotMessage, env: Surroundings) returns (reply: Option<AutoOutcome>)
      requires Consistent()
      modifies this
      ensures Consistent()
      ensures old(messages).Keys <= messages.Keys
      ensures |effects| >= |old(effects)| && effects[..|old(effects)|] == old(effects)
      ensures reply.Some? <==> AutoResponds(env.found, env.isGroup, msg.fromMe, msg.msgType)
      ensures reply == ReplyOf(msg.fromMe, msg.msgType, env)
      ensures reply.Some? ==>
                View() == AfterResponder(old(View()), reply.value, msg.body, env.found, env.contact, env.config, env.answer, env.autoReplyId)
      ensures reply.None? ==> View() == old(View())
    {
      reply := None;
      if AutoResponds(env.found, env.isGroup, msg.fromMe, msg.msgType) {
        var o := AutoRespond(msg, env.found, env.contact, env.config, env.answer, env.autoReplyId);
        reply := Some(o);
        ResponderView(old(View()), View(), o, msg.body, env.found, env.contact, env.config, env.answer, env.autoReplyId);
      }
    }

    /** The contact-card block: scan a `vcard` body and create its contacts. */
    method CardContacts(msg: WbotMessage, env: Surroundings) returns (created: nat)
      requires Consistent()
      modifies this
      ensures Consistent()
      ensures messages == old(messages)
      ensures msg.msgType == "vcard" ==>
                var card := Split(msg.body, '\n');
                effects == old(effects) + CardCreations(CardNumbers(card), 0, CardName(card), env.knownNumbers)
      ensures msg.msgType != "vcard" ==> created == 0 && effects == old(effects)
      ensures created == |CardEffects(msg.msgType, msg.body, env.knownNumbers)|
      ensures View() == old(View()).(effects := old(effects) + CardEffects(msg.msgType, msg.body, env.knownNumbers))
    {
      created := 0;
      if msg.msgType == "vcard" {
        var numbers, name := ScanCard(msg.body);
        created := CreateCardContacts(numbers, name, env.knownNumbers);
        ContactsKeepTickets(numbers, name, env.knownNumbers, old(effects));
      }
    }
  }
}
