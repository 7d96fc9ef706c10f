/**
 * The database records the message listener reads and writes, as values:
 * queues and contacts as the services return them, tickets as the listener
 * holds them, and persisted messages as `CreateMessageService` stores them.
 */
module Records {
  import opened Strings

  datatype Queue = Queue(id: int, name: string, greetingMessage: string)

  datatype Contact = Contact(id: int, name: string, number: string)

  /** A ticket; an absent `userId` or `queueId` is SQL NULL. */
  datatype Ticket = Ticket(id: int, status: string, userId: Option<int>, queueId: Option<int>, lastMessage: string)

  /** A persisted message, keyed by the transport's own message id. */
  datatype Message = Message(
    id: string,
    ticketId: int,
    contactId: Option<int>,
    body: string,
    fromMe: bool,
    read: bool,
    mediaType: string,
    mediaUrl: Option<string>,
    quotedMsgId: Option<string>,
    ack: int)

  /** JavaScript truthiness of a nullable numeric id: NULL and 0 are falsy. */
  predicate Truthy(id: Option<int>) {
    id.Some? && id.value != 0
  }

  /** The fields an update writes; `None` leaves a field alone, `Some(None)` writes NULL. */
  datatype Patch = Patch(
    status: Option<string>,
    userId: Option<Option<int>>,
    queueId: Option<Option<int>>,
    lastMessage: Option<string>)

  const NoChange := Patch(None, None, None, None)

  function Apply(t: Ticket, p: Patch): Ticket {
    Ticket(
      t.id,
      if p.status.Some? then p.status.value else t.status,
      if p.userId.Some? then p.userId.value else t.userId,
      if p.queueId.Some? then p.queueId.value else t.queueId,
      if p.lastMessage.Some? then p.lastMessage.value else t.lastMessage)
  }
}
