/** The outbox table `message_outbox`: its rows, what each statement does to them, and the payload codec. */
module Outbox {
  import opened Domain

  datatype OutboxMessage = OutboxMessage(message: Message, streamAppended: bool)

  datatype Claim = Unclaimed | Claimed(holder: string, until: int)

  datatype Row = Row(payload: OutboxMessage, dispatched: bool, claim: Claim)

  /** Rows by `message_id`, the primary key. */
  type Table = map<string, Row>

  /** INSERT ... ON CONFLICT (message_id) DO NOTHING. */
  function Insert(t: Table, m: Message, streamAppended: bool): Table {
    if m.id in t then t else t[m.id := Row(OutboxMessage(m, streamAppended), false, Unclaimed)]
  }

  /** What a claim may take: undispatched, and unclaimed or with the lease expired. */
  predicate Claimable(row: Row, now: int) {
    !row.dispatched && (row.claim.Unclaimed? || row.claim.until < now)
  }

  function ClaimRows(t: Table, ids: set<string>, holder: string, until: int): Table {
    map id | id in t :: if id in ids then t[id].(claim := Claimed(holder, until)) else t[id]
  }

  /** UPDATE ... SET payload; no row, no change. */
  function SetPayload(t: Table, id: string, payload: OutboxMessage): Table {
    if id in t then t[id := t[id].(payload := payload)] else t
  }

  /** UPDATE ... SET dispatched, dropping the claim; whoever holds it. */
  function SetDispatched(t: Table, id: string): Table {
    if id in t then t[id := t[id].(dispatched := true, claim := Unclaimed)] else t
  }

  /** UPDATE ... dropping the claim, only for its holder. */
  function DropClaim(t: Table, holder: string, id: string): Table {
    if id in t && t[id].claim.Claimed? && t[id].claim.holder == holder then t[id := t[id].(claim := Unclaimed)] else t
  }

  // ----- The JSON payload column -----

  datatype Json = Text(s: string) | Flag(b: bool) | Time(t: int) | Object(fields: map<string, Json>)

  const ZERO_TIME: int := 0

  const EMPTY_MESSAGE := Message("", "", "", "", "", "", ZERO_TIME)

  function EncodeMessage(m: Message): Json {
    Object(map["id" := Text(m.id), "client_msg_id" := Text(m.clientMsgId), "room_id" := Text(m.roomId),
               "sender_id" := Text(m.senderId), "content" := Text(m.content),
               "reply_to_message_id" := Text(m.replyTo), "created_at" := Time(m.createdAt)])
  }

  function EncodeOutbox(m: OutboxMessage): Json {
    Object(map["Message" := EncodeMessage(m.message), "StreamAppended" := Flag(m.streamAppended)])
  }

  /** A missing field keeps its zero value, a field of another type is an error, an unknown field is ignored. */
  function TextField(j: Json, name: string): Option<string>
    requires j.Object?
  {
    if name !in j.fields then Some("")
    else if j.fields[name].Text? then Some(j.fields[name].s)
    else None
  }

  function DecodeMessage(j: Json): Option<Message> {
    if !j.Object? then None
    else
      var created := if "created_at" !in j.fields then Some(ZERO_TIME)
                     else if j.fields["created_at"].Time? then Some(j.fields["created_at"].t) else None;
      match (TextField(j, "id"), TextField(j, "client_msg_id"), TextField(j, "room_id"),
             TextField(j, "sender_id"), TextField(j, "content"), TextField(j, "reply_to_message_id"), created)
      case (Some(id), Some(client), Some(room), Some(sender), Some(content), Some(reply), Some(at)) =>
        Some(Message(id, client, room, sender, content, reply, at))
      case _ => None
  }

  function DecodeWrapped(j: Json): Option<OutboxMessage> {
    if !j.Object? then None
    else
      var message := if "Message" in j.fields then DecodeMessage(j.fields["Message"]) else Some(EMPTY_MESSAGE);
      var flag := if "StreamAppended" !in j.fields then Some(false)
                  else if j.fields["StreamAppended"].Flag? then Some(j.fields["StreamAppended"].b) else None;
      match (message, flag)
      case (Some(m), Some(f)) => Some(OutboxMessage(m, f))
      case _ => None
  }

  /** The wrapped form when it carries an id, else the older form, a bare message taken as already appended. */
  function DecodeOutbox(j: Json): Option<OutboxMessage> {
    match DecodeWrapped(j)
    case Some(m) => if m.message.id != "" then Some(m) else DecodeLegacy(j)
    case None => DecodeLegacy(j)
  }

  function DecodeLegacy(j: Json): Option<OutboxMessage> {
    match DecodeMessage(j)
    case Some(m) => Some(OutboxMessage(m, true))
    case None => None
  }

  /** Decoding undoes encoding exactly for messages with an id, and for the one empty message flagged as
      appended, which the older form also reads as itself. */
  lemma PayloadRoundTrip(m: OutboxMessage)
    ensures DecodeOutbox(EncodeOutbox(m)) == Some(m) <==> m.message.id != "" || m == OutboxMessage(EMPTY_MESSAGE, true)
  {
    MessageRoundTrip(m.message);
    var j := EncodeOutbox(m);
    assert j.fields["Message"] == EncodeMessage(m.message);
    assert DecodeWrapped(j) == Some(m);
    assert DecodeLegacy(j) == Some(OutboxMessage(EMPTY_MESSAGE, true));
  }

  lemma MessageRoundTrip(m: Message)
    ensures DecodeMessage(EncodeMessage(m)) == Some(m)
  {
    var f := EncodeMessage(m).fields;
    assert f["id"] == Text(m.id) && f["client_msg_id"] == Text(m.clientMsgId) && f["room_id"] == Text(m.roomId);
    assert f["sender_id"] == Text(m.senderId) && f["content"] == Text(m.content);
    assert f["reply_to_message_id"] == Text(m.replyTo) && f["created_at"] == Time(m.createdAt);
  }

  /** A row of the older form, a bare message, decodes to that message flagged as appended. */
  lemma LegacyPayload(m: Message)
    ensures DecodeOutbox(EncodeMessage(m)) == Some(OutboxMessage(m, true))
  {
    MessageRoundTrip(m);
    assert DecodeWrapped(EncodeMessage(m)) == Some(OutboxMessage(EMPTY_MESSAGE, false));
  }
}
