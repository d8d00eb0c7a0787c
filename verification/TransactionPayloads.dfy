/** The payload of a transaction update (`assemblePayload`). */
module TransactionPayloads {
  import opened Wrappers
  import opened Decimals

  datatype Status = Idle | Unapproved | Running | Aborted | Rejected | Failed | Succeeded

  predicate Terminal(status: Status) {
    status == Aborted || status == Failed || status == Rejected || status == Succeeded
  }

  /** No status follows: the transaction is not waiting for a signature and not being processed. */
  predicate Ended(status: Status) {
    status != Idle && status != Unapproved && status != Running
  }

  datatype Tags = Single(tag: string) | Batch(tags: seq<string>)

  /** What the SDK's transaction object holds at one moment; the SDK mutates it over time. */
  datatype Transaction = Transaction(
    status: Status, tags: Tags, txHash: Option<string>, blockHash: Option<string>, blockNumber: Option<nat>,
    error: Option<string>)

  datatype Field =
    | FStatus | FType | FTransactionTag | FTransactionTags | FTransactionHash
    | FBlockHash | FBlockNumber | FResult | FError

  datatype Datum =
    | StatusDatum(status: Status)
    | TypeDatum(single: bool)
    | TagsDatum(tags: seq<string>)
    | TextDatum(text: Option<string>)

  type Payload = map<Field, Datum>

  datatype TypeError = TypeError

  /** The statuses of a transaction that has been signed. */
  predicate Signed(status: Status) {
    status == Running || status == Aborted || status == Failed || status == Succeeded
  }

  predicate InBlock(status: Status) {
    status == Succeeded || status == Failed
  }

  predicate HasError(status: Status) {
    status == Aborted || status == Failed || status == Rejected
  }

  /** The fields the status relies on are there: a block for one in a block, an error for a failure. */
  predicate Assemblable(tx: Transaction) {
    (InBlock(tx.status) ==> tx.blockNumber.Some?) && (HasError(tx.status) ==> tx.error.Some?)
  }

  /** What each field holds for a transaction of a given status; `None` leaves the field out. */
  function FieldOf(tx: Transaction, f: Field): Option<Datum>
    requires Assemblable(tx)
  {
    match f
    case FStatus => Some(StatusDatum(tx.status))
    case FType => Some(TypeDatum(tx.tags.Single?))
    case FTransactionTag => if tx.tags.Single? then Some(TextDatum(Some(tx.tags.tag))) else None
    case FTransactionTags => if tx.tags.Batch? then Some(TagsDatum(tx.tags.tags)) else None
    case FTransactionHash => if Signed(tx.status) then Some(TextDatum(tx.txHash)) else None
    case FBlockHash => if InBlock(tx.status) then Some(TextDatum(tx.blockHash)) else None
    case FBlockNumber => if InBlock(tx.status) then Some(TextDatum(Some(Decimal(tx.blockNumber.value)))) else None
    case FResult => if tx.status == Succeeded then Some(TextDatum(Some("placeholder"))) else None
    case FError => if HasError(tx.status) then Some(TextDatum(tx.error)) else None
  }

  function PayloadOf(tx: Transaction): Payload
    requires Assemblable(tx)
  {
    map f: Field | FieldOf(tx, f).Some? :: FieldOf(tx, f).value
  }

  /** The field is there in the given case, with the given content, and only then. */
  predicate Holds(p: Payload, f: Field, present: bool, d: Datum) {
    if present then f in p && p[f] == d else f !in p
  }

  /** Which fields a status update has, and what they say. */
  predicate Describes(p: Payload, tx: Transaction) {
    var st := tx.status;
    && Holds(p, FStatus, true, StatusDatum(st))
    && Holds(p, FType, true, TypeDatum(tx.tags.Single?))
    && (match tx.tags
        case Single(tag) => Holds(p, FTransactionTag, true, TextDatum(Some(tag))) && FTransactionTags !in p
        case Batch(tags) => Holds(p, FTransactionTags, true, TagsDatum(tags)) && FTransactionTag !in p)
    && Holds(p, FTransactionHash, st != Idle && st != Unapproved && st != Rejected, TextDatum(tx.txHash))
    && Holds(p, FBlockHash, st == Succeeded || st == Failed, TextDatum(tx.blockHash))
    && (tx.blockNumber.Some? ==>
          Holds(p, FBlockNumber, st == Succeeded || st == Failed, TextDatum(Some(Decimal(tx.blockNumber.value)))))
    && Holds(p, FResult, st == Succeeded, TextDatum(Some("placeholder")))
    && Holds(p, FError, st == Aborted || st == Failed || st == Rejected, TextDatum(tx.error))
  }

  /** A payload can be assembled unless a block number or an error that the status calls for is missing. */
  lemma PayloadDescribes(tx: Transaction)
    ensures Assemblable(tx) <==>
      && !((tx.status == Succeeded || tx.status == Failed) && tx.blockNumber.None?)
      && !((tx.status == Aborted || tx.status == Failed || tx.status == Rejected) && tx.error.None?)
    ensures Assemblable(tx) ==> Describes(PayloadOf(tx), tx)
  {
    if Assemblable(tx) {
      var p := PayloadOf(tx);
      assert forall f: Field :: f in p <==> FieldOf(tx, f).Some?;
    }
  }

  /** The payload holds the field exactly as the status calls for. */
  ghost predicate Matches(tx: Transaction, payload: Payload, f: Field)
    requires Assemblable(tx)
  {
    FieldOf(tx, f) == if f in payload then Some(payload[f]) else None
  }

  lemma AllFieldsMatch(tx: Transaction, payload: Payload)
    requires Assemblable(tx)
    requires Matches(tx, payload, FStatus) && Matches(tx, payload, FType)
    requires Matches(tx, payload, FTransactionTag) && Matches(tx, payload, FTransactionTags)
    requires Matches(tx, payload, FTransactionHash) && Matches(tx, payload, FBlockHash)
    requires Matches(tx, payload, FBlockNumber) && Matches(tx, payload, FResult) && Matches(tx, payload, FError)
    ensures payload == PayloadOf(tx)
  {
    forall f: Field ensures Matches(tx, payload, f) {
      match f {
        case FStatus => case FType => case FTransactionTag => case FTransactionTags => case FTransactionHash =>
        case FBlockHash => case FBlockNumber => case FResult => case FError =>
      }
    }
  }

  /**
   `assemblePayload`: builds the payload step by step, throwing a `TypeError` when the block number
   or the error a status relies on is undefined.
   */
  method AssemblePayload(tx: Transaction) returns (r: Result<Payload, TypeError>)
    ensures r == if Assemblable(tx) then Success(PayloadOf(tx)) else Failure(TypeError)
    ensures r.Success? ==> Describes(r.value, tx)
    ensures r.Failure? <==>
      || ((tx.status == Succeeded || tx.status == Failed) && tx.blockNumber.None?)
      || ((tx.status == Aborted || tx.status == Failed || tx.status == Rejected) && tx.error.None?)
  {
    assert tx.status !in [Rejected, Unapproved, Idle] <==> Signed(tx.status);
    assert tx.status in [Succeeded, Failed] <==> InBlock(tx.status);
    assert tx.status in [Aborted, Failed, Rejected] <==> HasError(tx.status);
    var payload: Payload := map[FStatus := StatusDatum(tx.status)];
    match tx.tags {
      case Single(tag) =>
        payload := payload[FType := TypeDatum(true)][FTransactionTag := TextDatum(Some(tag))];
      case Batch(tags) =>
        payload := payload[FType := TypeDatum(false)][FTransactionTags := TagsDatum(tags)];
    }
    if tx.status !in [Rejected, Unapproved, Idle] {
      payload := payload[FTransactionHash := TextDatum(tx.txHash)];
    }
    if tx.status in [Succeeded, Failed] {
      if tx.blockNumber.None? {
        return Failure(TypeError);
      }
      var number := Decimal(tx.blockNumber.value);
      payload := payload[FBlockHash := TextDatum(tx.blockHash)][FBlockNumber := TextDatum(Some(number))];
      if tx.status == Succeeded {
        payload := payload[FResult := TextDatum(Some("placeholder"))];
      }
    }
    if tx.status in [Aborted, Failed, Rejected] {
      if tx.error.None? {
        return Failure(TypeError);
      }
      payload := payload[FError := TextDatum(tx.error)];
    }
    AllFieldsMatch(tx, payload);
    PayloadDescribes(tx);
    return Success(payload);
  }
}
