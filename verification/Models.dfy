/** What peers send each other, and what the store keeps of it (src/models.ts). */
module Models {

  datatype Option<+T> = None | Some(value: T)

  /** An optional wire argument: left out, sent as null, or given. */
  datatype Field<+T> = Absent | Null | Given(value: T)

  type Id = nat
  type Time = int

  /** Where mail can go: the broker's own signature, the broadcast address, a directory, a peer. */
  datatype Address = Broker | Everyone | Project(path: string) | Peer(name: string)

  datatype Kind = Inform | Query | Request | Response
  datatype Status = Ok | Error
  datatype ErrorCode = Declined | OtherCode(code: string)
  datatype Via = Channel | Hook | Resume | Pull
  datatype DeliveryState = Queued | Delivered | Surfaced | Persisted | Consumed | Accepted | Refused
  datatype Reason = Responded | Cancelled | Parked
  datatype Conversation = Named(name: string) | ThreadOf(origin: Id)
  datatype ContextPtr = ContextPtr(sessionId: string, transcriptPath: string, cwd: string)

  /** The broker's own notices, by what they say rather than by their wording. */
  datatype Notice = Nudge | LastCall | NoReplyYet | StillParked | SteppedBack(member: Address) | Withdrawal
  datatype Body = Text(text: string) | Notice(notice: Notice)

  datatype Message = Message(
    id: Id,
    operationId: Option<string>,
    kind: Kind,
    from: Address,
    to: Address,
    body: Body,
    conversationId: Option<Conversation>,
    corrId: Option<Id>,
    status: Option<Status>,
    errorCode: Option<ErrorCode>,
    terminal: bool,
    contextPtr: Option<ContextPtr>,
    ttlS: Option<int>,
    replyByS: Option<int>,
    ts: Time)

  datatype Lease = Lease(id: string, until: Time)

  /** Delivery and consent of one message to one recipient. */
  datatype Delivery = Delivery(via: Option<Via>, state: DeliveryState, ts: Time, lease: Option<Lease>)
  datatype Key = Key(msg: Id, addr: Address)

  /** A sender's outstanding ask; `closed` is None while it is open. */
  datatype Awaiting = Awaiting(expiresAt: Option<Time>, closed: Option<Reason>, replyByS: Option<int>,
                               nudgedStage: nat, nudgeFrom: Time)

  datatype SendArgs = SendArgs(
    from: Address,
    to: Address,
    kind: Kind,
    body: string,
    conversationId: Field<Conversation>,
    ttlS: Option<int>,
    replyByS: Field<int>,
    contextPtr: Option<ContextPtr>,
    operationId: Option<string>,
    messageId: Option<Id>)

  /** A send waiting in the outbox for the broker to come back, with all its arguments. */
  datatype Intent = Intent(args: SendArgs, createdAt: Time)

  predicate IsAsk(kind: Kind) { kind.Query? || kind.Request? }

  /** A directed ask: the only kind of message that opens an awaiting. */
  predicate OpensThread(kind: Kind, to: Address) { IsAsk(kind) && !to.Everyone? }

  predicate IsPending(s: DeliveryState) { s.Queued? || s.Delivered? || s.Surfaced? }

  predicate IsSettled(s: DeliveryState) { s.Consumed? || s.Accepted? || s.Refused? }

  predicate Blank(body: string) {
    forall i | 0 <= i < |body| :: body[i] in {' ', '\t', '\n', '\r', '\U{000B}', '\U{000C}'}
  }
}
