/** What the reader makes of one text message (parseIncoming and decodeTransaction of websocket.go).
    JSON decoding is abstracted to what the code asks of it. */
module Incoming {
  import opened Basics

  const OK := 1
  const FAIL := 2

  datatype Block = Block(height: nat)

  datatype TxID = Text(id: string) | Other

  /** A JSON value read as a transaction: not one, or one with this "id". */
  datatype TxReading = NotATransaction | Transaction(id: TxID, rest: nat)

  /** The "data" field: absent or null, or a value with its readings as a block and as a transaction. */
  datatype Data = Absent | Null | Value(block: Option<Block>, tx: TxReading)

  /** One message: not a JSON object, or an object seen field by field. `typ` is None when the type is absent, null or
      not an integer; `hasID` says the "id" field is present and not null. */
  datatype Raw =
    | Malformed
    | Envelope(hasID: bool, whole: TxReading, typ: Option<int>, data: Data, state: Option<int>)

  datatype Problem =
    | InvalidJSON | InvalidTransactionJSON | InvalidTransactionID | InvalidMessageType | InvalidBlock
    | SubscriptionRejected | UnknownMessageType

  datatype Reaction =
    | Nothing
    | NotifyListen(block: Option<Block>, tx: Option<TxReading>)
    | NotifyError(problem: Problem)
    | RejectAndCancel   // error callbacks, then the session is canceled

  datatype Decoded = Decoded(tx: TxReading) | Undecodable(problem: Problem)

  function DecodeTransaction(reading: TxReading): (r: Decoded) {
    match reading
    case NotATransaction => Undecodable(InvalidTransactionJSON)
    case Transaction(Text(id), _) => if id == "" then Undecodable(InvalidTransactionID) else Decoded(reading)
    case Transaction(Other, _) => Undecodable(InvalidTransactionID)
  }

  /** decodeTransaction of the raw "data" bytes: empty bytes are not JSON, and null decodes to a transaction without
      an id. */
  function DecodeData(data: Data): (r: Decoded) {
    match data
    case Absent => Undecodable(InvalidTransactionJSON)
    case Null => Undecodable(InvalidTransactionID)
    case Value(_, tx) => DecodeTransaction(tx)
  }

  function NotifyTransaction(decoded: Decoded): (r: Reaction) {
    match decoded
    case Decoded(tx) => NotifyListen(None, Some(tx))
    case Undecodable(problem) => NotifyError(problem)
  }

  predicate IsAnswer(raw: Raw, typ: int) {
    raw.Envelope? && !raw.hasID && raw.typ == Some(typ)
  }

  predicate WithoutID(reading: TxReading) {
    reading.Transaction? && (reading.id.Other? || reading.id.id == "")
  }

  /** A listen callback is given exactly one of a block and a transaction, and the transaction has a non-empty text
      id. */
  predicate WellFormedEvent(r: Reaction)
    requires r.NotifyListen?
  {
    && r.block.Some? != r.tx.Some?
    && (r.tx.Some? ==> r.tx.value.Transaction? && r.tx.value.id.Text? && r.tx.value.id.id != "")
  }

  /** What a listen callback is given is what the message carries: the block of a type 0 message, the whole message as a
      transaction when it has an id, or the transaction of a type 1 message. */
  predicate IsPayloadOf(r: Reaction, raw: Raw)
    requires r.NotifyListen?
  {
    && raw.Envelope?
    && (r.block.Some? ==> !raw.hasID && raw.typ == Some(0) && raw.data.Value? && r.block == raw.data.block)
    && (r.tx.Some? ==>
          if raw.hasID then r.tx.value == raw.whole
          else raw.typ == Some(1) && raw.data.Value? && r.tx.value == raw.data.tx)
  }

  function ParseIncoming(raw: Raw): (r: Reaction)
    ensures r.NotifyListen? ==> WellFormedEvent(r) && IsPayloadOf(r, raw)
    // a present id makes the whole message a transaction, whatever its type says
    ensures raw.Envelope? && raw.hasID ==> r == NotifyTransaction(DecodeTransaction(raw.whole))
    // only a refused answer to listen cancels, and a missing state is a refusal
    ensures r.RejectAndCancel? <==> IsAnswer(raw, 3) && raw.state != Some(1)
    // silence: an accepted listen, or a subscription answer that is not a failure
    ensures r.Nothing? <==>
            (IsAnswer(raw, 3) && raw.state == Some(1)) || (IsAnswer(raw, 2) && raw.state != Some(2))
    // a block comes from type 0 and nowhere else
    ensures r.NotifyListen? && r.block.Some? <==> IsAnswer(raw, 0) && raw.data.Value? && raw.data.block.Some?
    // every other message without an id is an error or a type 1 transaction
    ensures r.NotifyListen? && r.tx.Some? ==> raw.Envelope? && (raw.hasID || IsAnswer(raw, 1))
    // which error is reported for which message
    ensures r == NotifyError(InvalidJSON) <==> raw.Malformed?
    ensures r == NotifyError(InvalidTransactionJSON) <==>
            || (raw.Envelope? && raw.hasID && raw.whole.NotATransaction?)
            || (IsAnswer(raw, 1) && raw.data.Value? && raw.data.tx.NotATransaction?)
            || (IsAnswer(raw, 1) && raw.data.Absent?)
    ensures r == NotifyError(InvalidTransactionID) <==>
            || (raw.Envelope? && raw.hasID && WithoutID(raw.whole))
            || (IsAnswer(raw, 1) && raw.data.Value? && WithoutID(raw.data.tx))
            || (IsAnswer(raw, 1) && raw.data.Null?)
    ensures r == NotifyError(InvalidMessageType) <==> raw.Envelope? && !raw.hasID && raw.typ.None?
    ensures r == NotifyError(InvalidBlock) <==> IsAnswer(raw, 0) && !(raw.data.Value? && raw.data.block.Some?)
    ensures r == NotifyError(SubscriptionRejected) <==> IsAnswer(raw, 2) && raw.state == Some(2)
    ensures r == NotifyError(UnknownMessageType) <==>
            raw.Envelope? && !raw.hasID && raw.typ.Some? && !(0 <= raw.typ.value <= 3)
  {
    match raw
    case Malformed => NotifyError(InvalidJSON)
    case Envelope(hasID, whole, typ, data, state) =>
      if hasID then NotifyTransaction(DecodeTransaction(whole))
      else if typ.None? then NotifyError(InvalidMessageType)
      else if typ.value == 0 then
        if data.Value? && data.block.Some? then NotifyListen(data.block, None) else NotifyError(InvalidBlock)
      else if typ.value == 1 then NotifyTransaction(DecodeData(data))
      else if typ.value == 3 then
        if state == Some(OK) then Nothing else RejectAndCancel
      else if typ.value == 2 then
        if state == Some(FAIL) then NotifyError(SubscriptionRejected) else Nothing
      else NotifyError(UnknownMessageType)
  }
}
