/** The reply correlator: the host delivers the completion of a forwarded call
    as a separate invocation tagged with the reply id the call was sent with. */
module Reply {
  import opened Types
  import opened Decimal
  import opened Events

  /** The one class of forwarded call, `ReplyCode::PassThrough = 1`. */
  datatype ReplyCode = PassThroughCode

  const PASS_THROUGH_REPLY_ID: U64 := 1

  /** Bytes the host puts in front of the forwarded contract's own response data. */
  const DATA_PREFIX_LEN: nat := 2

  datatype SubMsgResponse = SubMsgResponse(data: Option<seq<Byte>>, events: seq<Event>)

  datatype SubMsgResult = SubMsgOk(response: SubMsgResponse) | SubMsgErr(message: string)

  datatype ReplyMsg = ReplyMsg(id: U64, result: SubMsgResult)

  /** `ReplyCode::try_from`: only id 1 is known; any other id panics. */
  function ReplyCodeTryFrom(id: U64): (r: Outcome<ReplyCode>)
    ensures r.Ok? <==> id == PASS_THROUGH_REPLY_ID
    ensures !r.Ok? ==> r == Panicked(InvalidReplyCode(id))
  {
    if id == PASS_THROUGH_REPLY_ID then Ok(PassThroughCode) else Panicked(InvalidReplyCode(id))
  }

  /** `reply_pass_through`. `decode` stands for reading the forwarded
      contract's JSON response `{num_tokens}`; `None` when the bytes do not parse. */
  function ReplyPassThrough(msg: ReplyMsg, decode: seq<Byte> -> Option<U64>): (r: Outcome<Response>)
    ensures r.Err? <==> msg.result.SubMsgErr?
    ensures r.Err? ==> r.error == Std(GenericErr(msg.result.message))
    ensures r.Panicked? <==>
              msg.result.SubMsgOk? && msg.result.response.data.Some?
              && |msg.result.response.data.value| < DATA_PREFIX_LEN
    ensures r.Ok? ==> r.value.messages == [] && |r.value.events| <= 1
  {
    match msg.result
    case SubMsgErr(message) => Err(Std(GenericErr(message)))
    case SubMsgOk(resp) =>
      match resp.data
      case None => Ok(EMPTY_RESPONSE)
      case Some(data) =>
        if |data| < DATA_PREFIX_LEN then Panicked(SliceStartOutOfRange(DATA_PREFIX_LEN, |data|))
        else
          match decode(data[DATA_PREFIX_LEN..])
          case None => Ok(EMPTY_RESPONSE)
          case Some(numTokens) => Ok(Response([], [CountEvent(TOKEN_COUNT_AFTER, numTokens)]))
  }

  /** The `reply` entry point: correlate by id, then handle the completion. */
  function HandleReply(msg: ReplyMsg, decode: seq<Byte> -> Option<U64>): (r: Outcome<Response>)
    ensures msg.id != PASS_THROUGH_REPLY_ID ==> r == Panicked(InvalidReplyCode(msg.id))
    ensures msg.id == PASS_THROUGH_REPLY_ID ==> r == ReplyPassThrough(msg, decode)
    ensures r.Err? <==> msg.id == PASS_THROUGH_REPLY_ID && msg.result.SubMsgErr?
  {
    match ReplyCodeTryFrom(msg.id)
    case Ok(PassThroughCode) => ReplyPassThrough(msg, decode)
    case Err(e) => Err(e)
    case Panicked(p) => Panicked(p)
  }

  /** A completion without data, or whose data does not decode, yields an
      empty response; a decoded count yields exactly one `token-count-after`
      event holding that count. */
  lemma ReplyData(msg: ReplyMsg, decode: seq<Byte> -> Option<U64>)
    requires msg.id == PASS_THROUGH_REPLY_ID && msg.result.SubMsgOk?
    ensures msg.result.response.data.None? ==> HandleReply(msg, decode) == Ok(EMPTY_RESPONSE)
    ensures var data := msg.result.response.data;
            data.Some? && |data.value| >= DATA_PREFIX_LEN && decode(data.value[DATA_PREFIX_LEN..]).None?
            ==> HandleReply(msg, decode) == Ok(EMPTY_RESPONSE)
    ensures var data := msg.result.response.data;
            data.Some? && |data.value| >= DATA_PREFIX_LEN && decode(data.value[DATA_PREFIX_LEN..]).Some?
            ==> HandleReply(msg, decode) == Ok(Response([], [CountEvent(TOKEN_COUNT_AFTER, decode(data.value[DATA_PREFIX_LEN..]).value)]))
  {
  }

  /** Round trip through the framing: a count encoded by a codec the decoder
      inverts, behind any 2-byte prefix, comes back as the `token-count-after` event. */
  lemma ReplyRoundTrip(prefix: seq<Byte>, count: U64, encode: U64 -> seq<Byte>,
                       decode: seq<Byte> -> Option<U64>, events: seq<Event>)
    requires |prefix| == DATA_PREFIX_LEN
    requires decode(encode(count)) == Some(count)
    ensures var r := HandleReply(ReplyMsg(PASS_THROUGH_REPLY_ID, SubMsgOk(SubMsgResponse(Some(prefix + encode(count)), events))), decode);
            r == Ok(Response([], [CountEvent(TOKEN_COUNT_AFTER, count)])) && ParseDecimal(r.value.events[0].attributes[0].value) == count
  {
  }

  /** A reply with id 1 whose data is the prefix [10, 16] before a payload
      decoding to 4 emits `token-count-after` = "4". */
  lemma ReplyExample(payload: seq<Byte>, decode: seq<Byte> -> Option<U64>)
    requires decode(payload) == Some(4)
    ensures HandleReply(ReplyMsg(1, SubMsgOk(SubMsgResponse(Some([10, 16] + payload), []))), decode)
            == Ok(Response([], [Event(EVENT_TYPE, [Attribute(TOKEN_COUNT_AFTER, "4")])]))
  {
  }
}
