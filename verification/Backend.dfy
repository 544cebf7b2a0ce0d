/** The stores as the adapters change them, statement by statement. */
module Backend {
  import opened Domain
  import opened Outbox
  import Delivery

  /** A row of `message_outbox` with its payload as stored. */
  datatype StoredRow = StoredRow(createdAt: int, payload: Json, dispatched: bool, claim: Claim)

  function Decoded(row: StoredRow): OutboxMessage {
    match DecodeOutbox(row.payload)
    case Some(m) => m
    case None => OutboxMessage(EMPTY_MESSAGE, true)
  }

  ghost function RowOf(row: StoredRow): Row {
    Row(Decoded(row), row.dispatched, row.claim)
  }

  /** The table as the protocol sees it. */
  ghost function RowsOf(outbox: map<string, StoredRow>): Table {
    map id | id in outbox :: RowOf(outbox[id])
  }

  /** The payload decodes to the message the row is keyed and dated by. */
  ghost predicate SoundRow(id: string, row: StoredRow) {
    id != "" && DecodeOutbox(row.payload).Some? && Decoded(row).message.id == id && row.createdAt == Decoded(row).message.createdAt
  }

  ghost predicate Sound(outbox: map<string, StoredRow>) {
    forall id :: id in outbox ==> SoundRow(id, outbox[id])
  }

  lemma RowUpdated(outbox: map<string, StoredRow>, id: string, row: StoredRow)
    requires Sound(outbox) && SoundRow(id, row)
    ensures Sound(outbox[id := row]) && RowsOf(outbox[id := row]) == RowsOf(outbox)[id := RowOf(row)]
  {
  }

  lemma WrittenRow(m: OutboxMessage, dispatched: bool, claim: Claim)
    requires m.message.id != ""
    ensures var row := StoredRow(m.message.createdAt, EncodeOutbox(m), dispatched, claim);
      SoundRow(m.message.id, row) && RowOf(row) == Row(m, dispatched, claim)
  {
    PayloadRoundTrip(m);
    hide EncodeOutbox, DecodeOutbox;
  }

  // ----- Claiming -----

  ghost function Undispatched(t: Table): set<string> {
    set id | id in t && !t[id].dispatched
  }

  function Eligible(outbox: map<string, StoredRow>, now: int): set<string> {
    set id | id in outbox && !outbox[id].dispatched && (outbox[id].claim.Unclaimed? || outbox[id].claim.until < now)
  }

  /** The `limit` oldest eligible rows, or all of them. */
  predicate Oldest(outbox: map<string, StoredRow>, now: int, limit: nat, ids: set<string>) {
    && ids <= Eligible(outbox, now)
    && |ids| == (if |Eligible(outbox, now)| < limit then |Eligible(outbox, now)| else limit)
    && forall a, b :: a in ids && b in Eligible(outbox, now) && b !in ids ==> outbox[a].createdAt <= outbox[b].createdAt
  }

  lemma {:induction false} EarliestExists(outbox: map<string, StoredRow>, ids: set<string>) returns (first: string)
    requires ids != {} && ids <= outbox.Keys
    ensures first in ids && forall id :: id in ids ==> outbox[first].createdAt <= outbox[id].createdAt
  {
    var x :| x in ids;
    first := x;
    if ids != {x} {
      assert ids == (ids - {x}) + {x};
      var y := EarliestExists(outbox, ids - {x});
      if outbox[y].createdAt < outbox[x].createdAt { first := y; }
      forall id | id in ids ensures outbox[first].createdAt <= outbox[id].createdAt { assert id == x || id in ids - {x}; }
    }
  }

  lemma {:induction false} OldestExists(outbox: map<string, StoredRow>, now: int, limit: nat) returns (ids: set<string>)
    ensures Oldest(outbox, now, limit, ids)
  {
    if limit == 0 { return {}; }
    var fewer := OldestExists(outbox, now, limit - 1);
    var left := Eligible(outbox, now) - fewer;
    if left == {} {
      forall id | id in Eligible(outbox, now) ensures id in fewer { assert id !in left; }
      assert fewer == Eligible(outbox, now);
      return fewer;
    }
    var next := EarliestExists(outbox, left);
    var x :| x in left;
    assert |fewer + {x}| <= |Eligible(outbox, now)| by { SubsetSize(fewer + {x}, Eligible(outbox, now)); }
    return fewer + {next};
  }

  lemma {:induction false} SubsetSize(a: set<string>, b: set<string>)
    requires a <= b
    ensures |a| <= |b|
  {
    if a != {} {
      var x :| x in a;
      SubsetSize(a - {x}, b - {x});
    }
  }

  function WithClaims(outbox: map<string, StoredRow>, ids: set<string>, holder: string, until: int): map<string, StoredRow> {
    map id | id in outbox :: if id in ids then outbox[id].(claim := Claimed(holder, until)) else outbox[id]
  }

  lemma ClaimedRows(outbox: map<string, StoredRow>, ids: set<string>, holder: string, until: int)
    requires Sound(outbox)
    ensures Sound(WithClaims(outbox, ids, holder, until))
    ensures RowsOf(WithClaims(outbox, ids, holder, until)) == ClaimRows(RowsOf(outbox), ids, holder, until)
  {
    var rows, rows' := RowsOf(WithClaims(outbox, ids, holder, until)), ClaimRows(RowsOf(outbox), ids, holder, until);
    assert rows.Keys == rows'.Keys;
    forall id | id in rows ensures rows[id] == rows'[id] {}
  }

  /** `batch` lists the rows a claim may take. */
  ghost predicate MayClaim(outbox: map<string, StoredRow>, limit: nat, now: int, batch: seq<string>) {
    && Distinct(batch) && Oldest(outbox, now, limit, Delivery.Items(batch))
    && forall id :: id in batch ==> id in RowsOf(outbox)
  }

  /** A claim takes undispatched rows that nobody holds any more; it leaves such a row only when it has its full number, none
      of them newer. */
  lemma ClaimsOldestFirst(outbox: map<string, StoredRow>, limit: nat, now: int, batch: seq<string>, b: string)
    requires MayClaim(outbox, limit, now, batch)
    ensures forall id :: id in batch ==>
      id in outbox && !outbox[id].dispatched && (outbox[id].claim.Claimed? ==> outbox[id].claim.until < now)
    ensures b in outbox && b !in batch && !outbox[b].dispatched && (outbox[b].claim.Claimed? ==> outbox[b].claim.until < now) ==>
      |Delivery.Items(batch)| == limit && forall a :: a in batch ==> outbox[a].createdAt <= outbox[b].createdAt
  {
    forall id | id in batch ensures id in Delivery.Items(batch) {}
    if b in Eligible(outbox, now) && b !in batch {
      assert Delivery.Items(batch) < Eligible(outbox, now);
      SubsetSize(Delivery.Items(batch) + {b}, Eligible(outbox, now));
    }
  }

  function LeaseOf(lease: int): int { if lease <= 0 then Delivery.LEASE else lease }

  // ----- Postgres -----

  class Postgres {
    var saved: seq<Message>
    var dedup: set<string>
    var outbox: map<string, StoredRow>

    constructor ()
      ensures saved == [] && dedup == {} && outbox == map[]
    {
      saved, dedup, outbox := [], {}, map[];
    }

    method ExistsByClientMsgId(senderId: string, clientMsgId: string, up: bool) returns (fault: Fault, known: bool)
      ensures up ==> fault.Ok?
      ensures known == (Delivery.DedupKey(senderId, clientMsgId) in dedup)
    {
      fault := Outcome(up);
      known := Delivery.DedupKey(senderId, clientMsgId) in dedup;
    }

    /** Is there a message with this id in the room? */
    method HasReplyTarget(room: string, id: string, up: bool) returns (fault: Fault, found: bool)
      ensures up ==> fault.Ok?
      ensures found == HasMessage(saved, room, id)
    {
      fault := Outcome(up);
      found := false;
      for k := 0 to |saved|
        invariant found == exists j :: 0 <= j < k && saved[j].roomId == room && saved[j].id == id
      {
        if saved[k].roomId == room && saved[k].id == id { found := true; }
      }
    }

    /** The transaction: a duplicate rolls back, and so does a failure before the commit. */
    method Save(m: Message, up: bool) returns (fault: Fault, duplicate: bool)
      modifies this`saved, this`dedup
      ensures up ==> fault.Ok?
      ensures duplicate == (Delivery.KeyOf(m) in old(dedup))
      ensures saved == if fault.Lost? || duplicate then old(saved) else old(saved) + [m]
      ensures dedup == if fault.Lost? || duplicate then old(dedup) else old(dedup) + {Delivery.KeyOf(m)}
    {
      fault := Outcome(up);
      var key := Delivery.KeyOf(m);
      duplicate := key in dedup;
      if duplicate || fault.Lost? { return; }
      dedup := dedup + {key};
      saved := saved + [m];
    }

    /** Writes an undispatched, unclaimed row; a row already there stays as it is. */
    method Enqueue(m: Message, streamAppended: bool, up: bool) returns (fault: Fault)
      requires Sound(outbox) && m.id != ""
      modifies this`outbox
      ensures Sound(outbox) && (up ==> fault.Ok?)
      ensures RowsOf(outbox) == if fault.Lost? then RowsOf(old(outbox)) else Insert(RowsOf(old(outbox)), m, streamAppended)
    {
      fault := Outcome(up);
      if !fault.Lost? && m.id !in outbox {
        var row := StoredRow(m.createdAt, EncodeOutbox(OutboxMessage(m, streamAppended)), false, Unclaimed);
        WrittenRow(OutboxMessage(m, streamAppended), false, Unclaimed);
        RowUpdated(outbox, m.id, row);
        hide Sound, SoundRow, RowOf, EncodeOutbox;
        outbox := outbox[m.id := row];
      }
    }

    method MarkDispatched(id: string, up: bool) returns (fault: Fault)
      requires Sound(outbox)
      modifies this`outbox
      ensures Sound(outbox) && (up ==> fault.Ok?) && outbox.Keys == old(outbox).Keys
      ensures RowsOf(outbox) == if fault.Lost? then RowsOf(old(outbox)) else SetDispatched(RowsOf(old(outbox)), id)
    {
      fault := Outcome(up);
      if !fault.Lost? && id in outbox {
        var row := outbox[id].(dispatched := true, claim := Unclaimed);
        RowUpdated(outbox, id, row);
        outbox := outbox[id := row];
      }
    }

    /** Reads the payload, sets the flag, writes it back: two statements. */
    method ReadPayload(id: string, up: bool) returns (fault: Fault, payload: Option<OutboxMessage>)
      requires Sound(outbox)
      ensures up ==> fault.Ok?
      ensures payload == if fault.Ok? && id in RowsOf(outbox) then Some(RowsOf(outbox)[id].payload) else None
      ensures id in RowsOf(outbox) <==> id in outbox
      ensures payload.Some? ==> payload.value.message.id == id != "" && outbox[id].createdAt == payload.value.message.createdAt
    {
      fault := Outcome(up);
      if !fault.Ok? || id !in outbox { return fault, None; }
      payload := DecodeOutbox(outbox[id].payload);
    }

    method WritePayload(id: string, payload: OutboxMessage, up: bool) returns (fault: Fault)
      requires Sound(outbox) && payload.message.id == id != ""
      requires id in outbox ==> outbox[id].createdAt == payload.message.createdAt
      modifies this`outbox
      ensures Sound(outbox) && (up ==> fault.Ok?) && outbox.Keys == old(outbox).Keys
      ensures RowsOf(outbox) == if fault.Lost? then RowsOf(old(outbox)) else SetPayload(RowsOf(old(outbox)), id, payload)
    {
      fault := Outcome(up);
      if !fault.Lost? && id in outbox {
        var row := outbox[id].(payload := EncodeOutbox(payload));
        WrittenRow(payload, row.dispatched, row.claim);
        RowUpdated(outbox, id, row);
        hide EncodeOutbox, DecodeOutbox;
        outbox := outbox[id := row];
      }
    }

    method ReleaseClaim(holder: string, id: string, up: bool) returns (fault: Fault)
      requires Sound(outbox)
      modifies this`outbox
      ensures Sound(outbox) && (up ==> fault.Ok?) && outbox.Keys == old(outbox).Keys
      ensures RowsOf(outbox) == if fault.Lost? then RowsOf(old(outbox)) else DropClaim(RowsOf(old(outbox)), holder, id)
    {
      fault := Outcome(up);
      if !fault.Lost? && id in outbox && outbox[id].claim.Claimed? && outbox[id].claim.holder == holder {
        var row := outbox[id].(claim := Unclaimed);
        RowUpdated(outbox, id, row);
        outbox := outbox[id := row];
      }
    }

    /** Claims the oldest eligible rows for `holder` and answers their messages in no particular order. */
    method ClaimPending(holder: string, limit: int, lease: int, now: int, up: bool)
      returns (fault: Fault, pending: seq<OutboxMessage>, ghost batch: seq<string>)
      requires Sound(outbox)
      modifies this`outbox
      ensures Sound(outbox) && (up ==> fault.Ok?)
      ensures MayClaim(old(outbox), LimitOf(limit), now, batch)
      ensures RowsOf(outbox) == if fault.Lost? then RowsOf(old(outbox))
        else ClaimRows(RowsOf(old(outbox)), Delivery.Items(batch), holder, now + LeaseOf(lease))
      ensures fault.Ok? ==> pending == Delivery.Payloads(RowsOf(old(outbox)), batch)
    {
      hide Oldest, Eligible, Sound, SoundRow, WithClaims, ClaimRows, RowOf, LimitOf, LeaseOf, RowsOf;
      hide Delivery.Items, Delivery.Payloads, Distinct;
      fault := Outcome(up);
      var ids := Candidates(now, LimitOf(limit));
      ClaimedRows(outbox, ids, holder, now + LeaseOf(lease));
      pending, batch := Scan(ids);
      if !fault.Lost? { outbox := WithClaims(outbox, ids, holder, now + LeaseOf(lease)); }
    }

    /** The candidates of a claim; which of several equally old rows come last is left open. */
    method Candidates(now: int, limit: nat) returns (ids: set<string>)
      ensures Oldest(outbox, now, limit, ids) && ids <= outbox.Keys
    {
      ghost var _ := OldestExists(outbox, now, limit);
      ids :| ids <= Eligible(outbox, now) && Oldest(outbox, now, limit, ids);
    }

    /** Goes through the returned rows; one that does not decode would be skipped. */
    method Scan(ids: set<string>) returns (pending: seq<OutboxMessage>, ghost batch: seq<string>)
      requires Sound(outbox) && ids <= outbox.Keys
      ensures Distinct(batch) && Delivery.Items(batch) == ids && forall id :: id in batch ==> id in RowsOf(outbox)
      ensures pending == Delivery.Payloads(RowsOf(outbox), batch)
    {
      var left := ids;
      pending, batch := [], [];
      while left != {}
        invariant left <= ids && Distinct(batch)
        invariant forall id :: id in batch <==> id in ids - left
        invariant forall i :: 0 <= i < |batch| ==> batch[i] in outbox
        invariant |pending| == |batch| && forall i :: 0 <= i < |batch| ==> pending[i] == RowsOf(outbox)[batch[i]].payload
        decreases left
      {
        var id :| id in left;
        left := left - {id};
        match DecodeOutbox(outbox[id].payload)
        case None =>
        case Some(m) =>
          assert id !in batch;
          pending := pending + [m];
          batch := batch + [id];
      }
    }
  }

  // ----- Valkey -----

  class Valkey {
    var streams: map<string, seq<Message>>
    var events: seq<Message>

    constructor ()
      ensures streams == map[] && events == []
    {
      streams, events := map[], [];
    }

    method AppendMessage(room: string, m: Message, up: bool) returns (fault: Fault)
      modifies this`streams
      ensures up ==> fault.Ok?
      ensures streams == if fault.Lost? then old(streams)
        else old(streams)[room := (if room in old(streams) then old(streams)[room] else []) + [m]]
    {
      fault := Outcome(up);
      if !fault.Lost? {
        streams := streams[room := (if room in streams then streams[room] else []) + [m]];
      }
    }

    method PublishMessageCreated(m: Message, up: bool) returns (fault: Fault)
      modifies this`events
      ensures up ==> fault.Ok?
      ensures events == if fault.Lost? then old(events) else old(events) + [m]
    {
      fault := Outcome(up);
      if !fault.Lost? { events := events + [m]; }
    }
  }
}
