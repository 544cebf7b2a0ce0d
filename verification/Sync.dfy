/** SYNC: replay from a room's stream after a cursor, recovery from the message table when the stream has nothing,
    and hydration of the messages that are answered. */
module Sync {
  import opened Domain
  import opened Text

  // ----- Stream ids and cursors -----

  datatype StreamId = StreamId(ms: nat, n: nat)

  predicate Before(a: StreamId, b: StreamId) {
    a.ms < b.ms || (a.ms == b.ms && a.n < b.n)
  }

  function Format(id: StreamId): string {
    Decimal(id.ms) + ['-'] + Decimal(id.n)
  }

  /** The text before and after the first dash. */
  function CutDash(s: string): Option<(string, string)> {
    if s == "" then None
    else if s[0] == '-' then Some(("", s[1..]))
    else match CutDash(s[1..])
      case None => None
      case Some(parts) => Some(([s[0]] + parts.0, parts.1))
  }

  lemma {:induction false} CutDashFirst(a: string, b: string)
    requires '-' !in a
    ensures CutDash(a + ['-'] + b) == Some((a, b))
  {
    var s := a + ['-'] + b;
    if a == [] {
      assert s[1..] == b;
    } else {
      assert s[1..] == a[1..] + ['-'] + b;
      CutDashFirst(a[1..], b);
      assert [a[0]] + a[1..] == a;
    }
  }

  /** How the stream server reads a cursor: `ms-n`, or `ms` for `ms-0`. */
  function ParseId(s: string): Option<StreamId> {
    match CutDash(s)
    case None => (match ParseDecimal(s) case None => None case Some(ms) => Some(StreamId(ms, 0)))
    case Some(parts) =>
      match (ParseDecimal(parts.0), ParseDecimal(parts.1))
      case (Some(ms), Some(n)) => Some(StreamId(ms, n))
      case _ => None
  }

  const MAX_INT64: int := 0x7fff_ffff_ffff_ffff

  /** A signed 64-bit decimal; only the sign `+` can come up, since the text has no dash. */
  function ParseInt64(s: string): Option<int> {
    var digits := if s != "" && s[0] == '+' then s[1..] else s;
    match ParseDecimal(digits)
    case Some(v) => if v <= MAX_INT64 then Some(v) else None
    case None => None
  }

  /** The time in milliseconds a stream id carries. */
  function StreamIdToTime(s: string): Option<int> {
    match CutDash(s)
    case None => None
    case Some(parts) => ParseInt64(parts.0)
  }

  /** A formatted id is read back as itself, and yields its time exactly when that fits 64 bits. */
  lemma StreamIdRoundTrip(id: StreamId)
    ensures ParseId(Format(id)) == Some(id)
    ensures StreamIdToTime(Format(id)) == if id.ms <= MAX_INT64 then Some(id.ms as int) else None
  {
    DecimalRoundTrip(id.ms);
    DecimalRoundTrip(id.n);
    CutDashFirst(Decimal(id.ms), Decimal(id.n));
    assert IsDigit(Decimal(id.ms)[0]);
  }

  // ----- Streams -----

  datatype Entry = Entry(id: StreamId, message: Message)

  /** What SYNC answers per entry: the id as text. */
  datatype StreamMessage = StreamMessage(streamId: string, roomId: string, message: Message)

  ghost predicate Ordered(stream: seq<Entry>) {
    forall i, j :: 0 <= i < j < |stream| ==> Before(stream[i].id, stream[j].id)
  }

  /** The entries behind the cursor, in a stream ordered by id. */
  function After(stream: seq<Entry>, cursor: StreamId): seq<Entry> {
    if stream == [] then [] else if Before(cursor, stream[0].id) then stream else After(stream[1..], cursor)
  }

  function Take<T>(s: seq<T>, limit: nat): seq<T> {
    if |s| <= limit then s else s[..limit]
  }

  function ReadAfter(stream: seq<Entry>, cursor: StreamId, limit: nat): seq<Entry> {
    Take(After(stream, cursor), limit)
  }

  function Show(room: string, entries: seq<Entry>): (r: seq<StreamMessage>)
    ensures |r| == |entries|
    ensures forall i :: 0 <= i < |r| ==> r[i] == StreamMessage(Format(entries[i].id), room, entries[i].message)
  {
    if entries == [] then [] else [StreamMessage(Format(entries[0].id), room, entries[0].message)] + Show(room, entries[1..])
  }

  /** `After` is the suffix of exactly the entries with greater ids. */
  lemma {:induction false} AfterIsSuffix(stream: seq<Entry>, cursor: StreamId)
    requires Ordered(stream)
    ensures |After(stream, cursor)| <= |stream| && After(stream, cursor) == stream[|stream| - |After(stream, cursor)|..]
    ensures Ordered(After(stream, cursor))
    ensures forall e :: e in After(stream, cursor) <==> e in stream && Before(cursor, e.id)
  {
    if stream != [] && !Before(cursor, stream[0].id) {
      AfterIsSuffix(stream[1..], cursor);
      assert stream == [stream[0]] + stream[1..];
    }
  }

  /** Reading on from an entry of the suffix skips exactly the entries up to it. */
  lemma {:induction false} AfterAdvances(stream: seq<Entry>, cursor: StreamId, k: nat)
    requires Ordered(stream) && 0 < k <= |After(stream, cursor)|
    ensures After(stream, After(stream, cursor)[k - 1].id) == After(stream, cursor)[k..]
  {
    if Before(cursor, stream[0].id) {
      AfterEntry(stream, k - 1);
    } else {
      AfterIsSuffix(stream[1..], cursor);
      AfterAdvances(stream[1..], cursor, k);
      var e := After(stream, cursor)[k - 1];
      assert e in After(stream[1..], cursor) && e in stream[1..];
      assert !Before(e.id, stream[0].id);
    }
  }

  lemma {:induction false} AfterEntry(stream: seq<Entry>, k: nat)
    requires Ordered(stream) && k < |stream|
    ensures After(stream, stream[k].id) == stream[k + 1..]
  {
    if k > 0 {
      AfterEntry(stream[1..], k - 1);
      assert !Before(stream[k].id, stream[0].id);
      assert stream[1..][k..] == stream[k + 1..];
    } else if |stream| > 1 {
      assert Before(stream[0].id, stream[1..][0].id);
    }
  }

  /** Every page a client sees when it keeps passing the last stream id back as its cursor, which it does as the
      text it was given. */
  function Pages(stream: seq<Entry>, cursor: string, limit: nat): seq<seq<Entry>>
    requires Ordered(stream) && limit > 0
    decreases match ParseId(cursor) case Some(c) => |After(stream, c)| case None => 0
  {
    match ParseId(cursor)
    case None => []
    case Some(c) =>
      var page := ReadAfter(stream, c, limit);
      if page == [] then [] else
        StreamIdRoundTrip(page[|page| - 1].id);
        AfterAdvances(stream, c, |page|);
        [page] + Pages(stream, Format(page[|page| - 1].id), limit)
  }

  function Concat<T>(pages: seq<seq<T>>): seq<T> {
    if pages == [] then [] else pages[0] + Concat(pages[1..])
  }

  lemma PagesStep(stream: seq<Entry>, cursor: StreamId, text: string, limit: nat)
    requires Ordered(stream) && limit > 0 && ParseId(text) == Some(cursor) && After(stream, cursor) != []
    ensures var page := ReadAfter(stream, cursor, limit);
            var last := page[|page| - 1].id;
            && 0 < |page| <= limit && ParseId(Format(last)) == Some(last)
            && page + After(stream, last) == After(stream, cursor)
            && Pages(stream, text, limit) == [page] + Pages(stream, Format(last), limit)
  {
    var page := ReadAfter(stream, cursor, limit);
    StreamIdRoundTrip(page[|page| - 1].id);
    AfterAdvances(stream, cursor, |page|);
    hide ParseId, Format, Ordered, Before;
    assert page + After(stream, cursor)[|page|..] == After(stream, cursor);
  }

  lemma NoPages(stream: seq<Entry>, cursor: StreamId, text: string, limit: nat)
    requires Ordered(stream) && limit > 0 && ParseId(text) == Some(cursor) && After(stream, cursor) == []
    ensures Pages(stream, text, limit) == []
  {
  }

  /** Paging is gap-free: the pages, none empty and none longer than the limit, put end to end are exactly the part
      of the stream behind the first cursor, which is ordered by strictly increasing ids. */
  lemma {:induction false} PagingIsGapFree(stream: seq<Entry>, cursor: string, limit: nat)
    requires Ordered(stream) && limit > 0 && ParseId(cursor).Some?
    ensures Concat(Pages(stream, cursor, limit)) == After(stream, ParseId(cursor).value)
    ensures Ordered(Concat(Pages(stream, cursor, limit)))
    ensures forall page :: page in Pages(stream, cursor, limit) ==> 0 < |page| <= limit
    decreases |After(stream, ParseId(cursor).value)|
  {
    var c := ParseId(cursor).value;
    AfterIsSuffix(stream, c);
    hide ParseId, Format, Before, Pages, Ordered;
    if After(stream, c) == [] {
      NoPages(stream, c, cursor, limit);
    } else {
      PagesStep(stream, c, cursor, limit);
      var page := ReadAfter(stream, c, limit);
      var next := Format(page[|page| - 1].id);
      PagingIsGapFree(stream, next, limit);
      assert ([page] + Pages(stream, next, limit))[1..] == Pages(stream, next, limit);
    }
  }

  // ----- The message table -----

  /** Order of history: by creation time, then id. */
  predicate Earlier(a: Message, b: Message) {
    a.createdAt < b.createdAt || (a.createdAt == b.createdAt && Less(a.id, b.id))
  }

  lemma EarlierTotal(a: Message, b: Message)
    ensures Earlier(a, b) || Earlier(b, a) || (a.createdAt == b.createdAt && a.id == b.id)
    ensures !(Earlier(a, b) && Earlier(b, a))
  {
    LessTotal(a.id, b.id);
  }

  lemma EarlierTransitive(a: Message, b: Message, c: Message)
    requires Earlier(a, b) && Earlier(b, c)
    ensures Earlier(a, c)
  {
    if a.createdAt == b.createdAt == c.createdAt {
      LessTransitive(a.id, b.id, c.id);
    }
  }

  /** No lower bound stands for the zero time, which precedes every message. */
  predicate Matches(m: Message, room: string, since: Option<int>) {
    m.roomId == room && (since.Some? ==> m.createdAt > since.value)
  }

  function Select(table: seq<Message>, room: string, since: Option<int>): seq<Message> {
    if table == [] then []
    else (if Matches(table[0], room, since) then [table[0]] else []) + Select(table[1..], room, since)
  }

  function InsertSorted(m: Message, sorted: seq<Message>): seq<Message> {
    if sorted == [] || Earlier(m, sorted[0]) then [m] + sorted else [sorted[0]] + InsertSorted(m, sorted[1..])
  }

  function Sort(s: seq<Message>): seq<Message> {
    if s == [] then [] else InsertSorted(s[0], Sort(s[1..]))
  }

  function ListByRoom(table: seq<Message>, room: string, since: Option<int>, limit: nat): seq<Message> {
    Take(Sort(Select(table, room, since)), limit)
  }

  /** The primary key of the table: no two rows share room, time and id. */
  ghost predicate KeyedTable(table: seq<Message>) {
    forall i, j :: 0 <= i < j < |table| ==>
      !(table[i].roomId == table[j].roomId && table[i].createdAt == table[j].createdAt && table[i].id == table[j].id)
  }

  ghost predicate Sorted(s: seq<Message>) {
    forall i, j :: 0 <= i < j < |s| ==> Earlier(s[i], s[j])
  }

  lemma {:induction false} SelectedRows(table: seq<Message>, room: string, since: Option<int>)
    requires KeyedTable(table)
    ensures forall m :: m in Select(table, room, since) <==> m in table && Matches(m, room, since)
    ensures KeyedTable(Select(table, room, since))
  {
    if table != [] {
      SelectedRows(table[1..], room, since);
      var rest := Select(table[1..], room, since);
      forall m | m in rest ensures !(m.roomId == table[0].roomId && m.createdAt == table[0].createdAt && m.id == table[0].id) {
        var k :| 0 <= k < |table[1..]| && table[1..][k] == m;
        assert table[k + 1] == m;
      }
    }
  }

  lemma {:induction false} InsertedSorted(m: Message, s: seq<Message>)
    requires Sorted(s) && forall x :: x in s ==> !(x.createdAt == m.createdAt && x.id == m.id)
    ensures Sorted(InsertSorted(m, s))
    ensures forall x :: x in InsertSorted(m, s) <==> x == m || x in s
    ensures |InsertSorted(m, s)| == |s| + 1
  {
    if s == [] {
    } else if Earlier(m, s[0]) {
      forall j | 0 < j < |s| ensures Earlier(m, s[j]) { EarlierTransitive(m, s[0], s[j]); }
    } else {
      EarlierTotal(m, s[0]);
      InsertedSorted(m, s[1..]);
      var r := InsertSorted(m, s[1..]);
      forall j | 0 <= j < |r| ensures Earlier(s[0], r[j]) {
        assert r[j] in r;
        if r[j] != m {
          var k :| 0 <= k < |s[1..]| && s[1..][k] == r[j];
          assert s[k + 1] == r[j];
        }
      }
    }
  }

  lemma {:induction false} SortedRows(s: seq<Message>)
    requires KeyedTable(s) && forall i, j :: 0 <= i < |s| && 0 <= j < |s| ==> s[i].roomId == s[j].roomId
    ensures Sorted(Sort(s)) && |Sort(s)| == |s|
    ensures forall m :: m in Sort(s) <==> m in s
  {
    if s != [] {
      SortedRows(s[1..]);
      forall x | x in Sort(s[1..]) ensures !(x.createdAt == s[0].createdAt && x.id == s[0].id) {
        var k :| 0 <= k < |s[1..]| && s[1..][k] == x;
        assert s[k + 1] == x;
      }
      InsertedSorted(s[0], Sort(s[1..]));
    }
  }

  /** The recovery query answers the earliest matching rows of the room, in order of time and id: it has at most
      `limit` rows, every matching row it leaves out is later than all it has, and it leaves one out only when full. */
  lemma ListByRoomIsFirstPage(table: seq<Message>, room: string, since: Option<int>, limit: nat)
    requires KeyedTable(table)
    ensures var page := ListByRoom(table, room, since, limit);
      && Sorted(page) && |page| <= limit
      && (forall m :: m in page ==> m in table && Matches(m, room, since))
      && (forall m, p :: m in table && Matches(m, room, since) && m !in page && p in page ==> Earlier(p, m))
      && ((exists m :: m in table && Matches(m, room, since) && m !in page) ==> |page| == limit)
  {
    SelectedRows(table, room, since);
    var rows := Select(table, room, since);
    forall i | 0 <= i < |rows| ensures rows[i].roomId == room { assert rows[i] in rows; }
    SortedRows(rows);
    var all := Sort(rows);
    var page := ListByRoom(table, room, since, limit);
    forall m, p | m in table && Matches(m, room, since) && m !in page && p in page ensures Earlier(p, m) {
      assert m in all;
      var j :| 0 <= j < |all| && all[j] == m;
      var i :| 0 <= i < |page| && page[i] == p;
      assert all[i] == p;
      assert forall x :: 0 <= x < |page| ==> all[x] == page[x] && page[x] in page;
      assert j >= |page|;
    }
    forall m | m in table && Matches(m, room, since) && m !in page ensures |page| == limit {
      assert m in all;
    }
  }

  // ----- Recovery -----

  function Messages(entries: seq<Entry>): (r: seq<Message>)
    ensures |r| == |entries|
    ensures forall i :: 0 <= i < |r| ==> r[i] == entries[i].message
  {
    if entries == [] then [] else [entries[0].message] + Messages(entries[1..])
  }

  const NANOS_PER_MILLI := 1_000_000

  /** Recovery starts after the cursor's time, or at the beginning when there is none. */
  function Since(lastAck: string): Option<int> {
    if lastAck == "" || lastAck == "0" then None
    else match StreamIdToTime(lastAck)
      case None => None
      case Some(ms) => Some(ms * NANOS_PER_MILLI)
  }

  /** After a recovery that appended `added` under ids above the cursor, reading again with the same cursor and
      limit answers those very entries. */
  lemma RecoveredPageRepeats(stream: seq<Entry>, added: seq<Entry>, cursor: StreamId, limit: nat)
    requires Ordered(stream + added) && After(stream, cursor) == [] && |added| <= limit
    requires added != [] ==> Before(cursor, added[0].id)
    ensures ReadAfter(stream + added, cursor, limit) == added
  {
    SkipBehind(stream, added, cursor);
    if added == [] {
      assert stream + added == stream;
    }
  }

  lemma {:induction false} SkipBehind(stream: seq<Entry>, added: seq<Entry>, cursor: StreamId)
    requires After(stream, cursor) == []
    ensures After(stream + added, cursor) == After(added, cursor)
  {
    if stream == [] {
      assert stream + added == added;
    } else {
      assert (stream + added)[1..] == stream[1..] + added;
      SkipBehind(stream[1..], added, cursor);
    }
  }

  lemma AppendOrdered(stream: seq<Entry>, e: Entry)
    requires Ordered(stream) && (stream != [] ==> Before(stream[|stream| - 1].id, e.id))
    ensures Ordered(stream + [e])
  {
    forall i | 0 <= i < |stream| ensures Before(stream[i].id, e.id) {
      assert i < |stream| - 1 ==> Before(stream[i].id, stream[|stream| - 1].id);
    }
  }

  lemma ShowSnoc(room: string, entries: seq<Entry>, e: Entry)
    ensures Show(room, entries + [e]) == Show(room, entries) + [StreamMessage(Format(e.id), room, e.message)]
    ensures Messages(entries + [e]) == Messages(entries) + [e.message]
  {
    var all := entries + [e];
    assert forall i :: 0 <= i < |entries| ==> all[i] == entries[i];
    assert forall i :: 0 <= i < |all| ==> Show(room, all)[i] == (Show(room, entries) + [StreamMessage(Format(e.id), room, e.message)])[i];
    assert forall i :: 0 <= i < |all| ==> Messages(all)[i] == (Messages(entries) + [e.message])[i];
  }

  lemma BackfillStep(room: string, before: seq<Entry>, history: seq<Message>, added: seq<Entry>, e: Entry)
    requires |added| < |history| && Messages(added) == history[..|added|] && e.message == history[|added|]
    ensures Messages(added) <= history && Messages(added + [e]) <= history
    ensures Messages(added + [e]) == history[..|added| + 1]
    ensures Show(room, added + [e]) == Show(room, added) + [StreamMessage(Format(e.id), room, e.message)]
    ensures before + added + [e] == before + (added + [e]) && |added + [e]| == |added| + 1
  {
    ShowSnoc(room, added, e);
    hide *;
    TakeOneMore(history, |added|);
  }

  lemma TakeOneMore<T>(s: seq<T>, n: nat)
    requires n < |s|
    ensures s[..n] <= s && s[..n + 1] <= s && s[..n + 1] == s[..n] + [s[n]]
  {
  }

  // ----- The use case -----

  datatype Query = Query(roomId: string, userId: string, deviceId: string, lastAck: string, limit: int)

  datatype SyncError = RoomNotFound | AccessDenied | Upstream

  datatype SyncResult = Synced(messages: seq<StreamMessage>, replies: map<string, Message>) | NotSynced(error: SyncError)

  /** The answer is the first entries behind the cursor; or, when there are none, the first page of history after
      the cursor's time, which is what was appended. */
  ghost predicate AnswersPage(room: string, stream: seq<Entry>, table: seq<Message>, lastAck: string, limit: nat,
                              messages: seq<StreamMessage>, added: seq<Entry>)
  {
    ParseId(lastAck).Some? &&
    var page := ReadAfter(stream, ParseId(lastAck).value, limit);
    if page != [] then added == [] && messages == Show(room, page)
    else Messages(added) == ListByRoom(table, room, Since(lastAck), limit) && messages == Show(room, added)
  }

  lemma FormatInjective(a: StreamId, b: StreamId)
    requires Format(a) == Format(b)
    ensures a == b
  {
    StreamIdRoundTrip(a);
    StreamIdRoundTrip(b);
  }

  /** What recovery takes from the table for the cursor `ms-n`: rows of the room later than `ms` milliseconds, in order of
      time, and one is left out only when the page is full of rows no later than it. A time beyond 64 bits counts as none. */
  lemma RecoveredRows(table: seq<Message>, room: string, id: StreamId, limit: nat)
    requires KeyedTable(table)
    ensures var page := ListByRoom(table, room, Since(Format(id)), limit);
      && |page| <= limit
      && (forall m :: m in page ==> m in table && m.roomId == room && (id.ms <= MAX_INT64 ==> m.createdAt > id.ms * 1_000_000))
      && (forall i, j :: 0 <= i < j < |page| ==> page[i].createdAt <= page[j].createdAt)
      && (forall m :: m in table && m.roomId == room && (id.ms > MAX_INT64 || m.createdAt > id.ms * 1_000_000) && m !in page ==>
            |page| == limit && forall p :: p in page ==> p.createdAt <= m.createdAt)
  {
    StreamIdRoundTrip(id);
    HasDash(id);
    ListByRoomIsFirstPage(table, room, Since(Format(id)), limit);
    hide ListByRoom, Format, StreamIdToTime, Less;
  }

  lemma HasDash(id: StreamId)
    ensures Format(id) != "" && Format(id) != "0"
  {
    assert Format(id)[|Decimal(id.ms)|] == '-';
  }

  /** A bare number as cursor, like the "0" of a device without one, is read as the start of that millisecond, and lets
      recovery begin with the first row of the room. */
  lemma BareCursor(table: seq<Message>, room: string, ms: nat, limit: nat)
    requires KeyedTable(table)
    ensures ParseId(Decimal(ms)) == Some(StreamId(ms, 0))
    ensures var page := ListByRoom(table, room, Since(Decimal(ms)), limit);
      && |page| <= limit
      && (forall m :: m in page ==> m in table && m.roomId == room)
      && (forall i, j :: 0 <= i < j < |page| ==> page[i].createdAt <= page[j].createdAt)
      && (forall m :: m in table && m.roomId == room && m !in page ==>
            |page| == limit && forall p :: p in page ==> p.createdAt <= m.createdAt)
  {
    DecimalRoundTrip(ms);
    NoDash(Decimal(ms));
    ListByRoomIsFirstPage(table, room, Since(Decimal(ms)), limit);
    hide ListByRoom, Less, CutDash;
  }

  lemma {:induction false} NoDash(s: string)
    requires '-' !in s
    ensures CutDash(s) == None
  {
    if s != "" { NoDash(s[1..]); }
  }

  /** Whatever part of it is appended. */
  lemma AppendedAfterCursor(table: seq<Message>, room: string, lastAck: string, limit: nat, added: seq<Entry>)
    requires KeyedTable(table) && Messages(added) <= ListByRoom(table, room, Since(lastAck), limit)
    ensures forall id :: lastAck == Format(id) && id.ms <= MAX_INT64 ==>
      forall e :: e in added ==> e.message.roomId == room && e.message.createdAt > id.ms * 1_000_000
  {
    hide ListByRoom, Format, Since;
    forall id, e | lastAck == Format(id) && id.ms <= MAX_INT64 && e in added
      ensures e.message.roomId == room && e.message.createdAt > id.ms * 1_000_000
    {
      RecoveredRows(table, room, id, limit);
      var k :| 0 <= k < |added| && added[k] == e;
      assert e.message == Messages(added)[k] == ListByRoom(table, room, Since(lastAck), limit)[k];
    }
  }

  /** So a SYNC that finds nothing behind its cursor answers only messages later than the cursor's time, in order of time,
      and misses none unless its page is full of earlier ones. */
  lemma RecoveryStartsAfterCursor(room: string, stream: seq<Entry>, table: seq<Message>, id: StreamId, limit: nat,
                                  messages: seq<StreamMessage>, added: seq<Entry>)
    requires KeyedTable(table) && id.ms <= MAX_INT64 && After(stream, id) == []
    requires AnswersPage(room, stream, table, Format(id), limit, messages, added)
    ensures forall k :: 0 <= k < |messages| ==>
      var m := messages[k].message; m in table && m.roomId == room && m.createdAt > id.ms * 1_000_000
    ensures forall i, j :: 0 <= i < j < |messages| ==> messages[i].message.createdAt <= messages[j].message.createdAt
    ensures forall m :: m in table && m.roomId == room && m.createdAt > id.ms * 1_000_000 ==>
      || (exists k :: 0 <= k < |messages| && messages[k].message == m)
      || (|messages| == limit && forall k :: 0 <= k < |messages| ==> messages[k].message.createdAt <= m.createdAt)
  {
    StreamIdRoundTrip(id);
    RecoveredRows(table, room, id, limit);
    var page := ListByRoom(table, room, Since(Format(id)), limit);
    hide ListByRoom, Format, ParseId, Since;
    assert |messages| == |page| && forall k :: 0 <= k < |messages| ==> messages[k].message == page[k] && page[k] in page;
  }

  /** Asking again after a recovery, with the same cursor and limit and nothing else appended, answers the very
      same page, under the same stream ids, exactly when the cursor lies before the ids the recovery was given
      (or nothing was recovered). */
  lemma RecoveryIsRepeatable(room: string, stream: seq<Entry>, table: seq<Message>, lastAck: string, limit: nat,
                             messages: seq<StreamMessage>, added: seq<Entry>,
                             messages': seq<StreamMessage>, added': seq<Entry>)
    requires ParseId(lastAck).Some? && After(stream, ParseId(lastAck).value) == [] && limit > 0
    requires AnswersPage(room, stream, table, lastAck, limit, messages, added)
    requires AnswersPage(room, stream + added, table, lastAck, limit, messages', added')
    requires Ordered(stream + added + added')
    ensures messages' == messages <==> added == [] || Before(ParseId(lastAck).value, added[0].id)
  {
    var c := ParseId(lastAck).value;
    var page := ReadAfter(stream + added, c, limit);
    assert Ordered(stream + added) by {
      assert forall i :: 0 <= i < |stream + added| ==> (stream + added + added')[i] == (stream + added)[i];
    }
    if added == [] {
      assert stream + added == stream;
    } else if Before(c, added[0].id) {
      RecoveredPageRepeats(stream, added, c, limit);
    } else if page != [] {
      AfterIsSuffix(stream + added, c);
      assert page[0] in After(stream + added, c);
      assert messages'[0].streamId == Format(page[0].id) && messages[0].streamId == Format(added[0].id);
      if messages' == messages {
        FormatInjective(page[0].id, added[0].id);
      }
    } else {
      var all := stream + added + added';
      assert all[|stream|] == added[0] && all[|stream| + |added|] == added'[0];
      if messages' == messages {
        FormatInjective(added'[0].id, added[0].id);
      }
    }
  }

  predicate Answered(messages: seq<StreamMessage>, id: string) {
    id != "" && exists k :: 0 <= k < |messages| && messages[k].message.replyTo == id
  }

  /** Along come exactly the messages of the room that the answer replies to. */
  ghost predicate Hydrates(room: string, table: seq<Message>, messages: seq<StreamMessage>, replies: map<string, Message>) {
    && (forall id :: id in replies <==> Answered(messages, id) && HasMessage(table, room, id))
    && (forall id :: id in replies ==> replies[id] in table && replies[id].roomId == room && replies[id].id == id)
  }

  class SyncMessages {
    var rooms: map<string, set<string>>
    var acks: map<(string, string, string), string>
    var streams: map<string, seq<Entry>>
    var table: seq<Message>

    constructor (rooms: map<string, set<string>>, acks: map<(string, string, string), string>,
                 streams: map<string, seq<Entry>>, table: seq<Message>)
      ensures this.rooms == rooms && this.acks == acks && this.streams == streams && this.table == table
    {
      this.rooms, this.acks, this.streams, this.table := rooms, acks, streams, table;
    }

    ghost predicate Valid()
      reads this
    {
      forall room :: Ordered(Stream(room))
    }

    function Stream(room: string): seq<Entry>
      reads this
    {
      if room in streams then streams[room] else []
    }

    /** The cursor a query works with: its own, else the device's saved one, else the beginning. */
    function Cursor(q: Query): string
      reads this
    {
      if q.lastAck != "" then q.lastAck
      else if (q.userId, q.deviceId, q.roomId) in acks && acks[(q.userId, q.deviceId, q.roomId)] != ""
      then acks[(q.userId, q.deviceId, q.roomId)]
      else "0"
    }

    /** The first entries behind the cursor; a cursor the server cannot read is an error. */
    method ReadFrom(room: string, lastAck: string, limit: int, up: bool) returns (ok: bool, out: seq<StreamMessage>)
      ensures ok ==> ParseId(lastAck).Some? && out == Show(room, ReadAfter(Stream(room), ParseId(lastAck).value, LimitOf(limit)))
      ensures up && ParseId(lastAck).Some? ==> ok
      ensures !ok ==> out == []
    {
      var fault := Outcome(up);
      if !fault.Ok? { return false, []; }
      match ParseId(lastAck) {
        case None => return false, [];
        case Some(c) =>
          var items := ReadAfter(Stream(room), c, LimitOf(limit));
          ok, out := true, [];
          for i := 0 to |items|
            invariant |out| == i
            invariant forall k :: 0 <= k < i ==> out[k] == StreamMessage(Format(items[k].id), room, items[k].message)
          {
            out := out + [StreamMessage(Format(items[i].id), room, items[i].message)];
          }
          assert out == Show(room, items);
      }
    }

    /** XADD with `*`: an id after every id of the stream, from the clock when that is later. */
    method AppendMessage(room: string, m: Message, up: bool) returns (fault: Fault, id: StreamId)
      requires Valid()
      modifies this`streams
      ensures Valid()
      ensures up ==> fault.Ok?
      ensures Stream(room) == old(Stream(room)) + if fault.Lost? then [] else [Entry(id, m)]
      ensures forall r :: r != room ==> Stream(r) == old(Stream(r))
    {
      var s := Stream(room);
      var now: nat := *;
      id := StreamId(now, 0);
      if s != [] && now <= s[|s| - 1].id.ms {
        id := StreamId(s[|s| - 1].id.ms, s[|s| - 1].id.n + 1);
      }
      fault := Outcome(up);
      if !fault.Lost? {
        AppendOrdered(s, Entry(id, m));
        streams := streams[room := s + [Entry(id, m)]];
        assert forall r :: Stream(r) == if r == room then s + [Entry(id, m)] else old(Stream(r));
      }
    }

    /** Appends messages in order. If an append fails, what was appended is a prefix of them. */
    method Backfill(room: string, history: seq<Message>, up: bool)
      returns (ok: bool, out: seq<StreamMessage>, ghost added: seq<Entry>)
      requires Valid()
      modifies this`streams
      ensures Valid()
      ensures up ==> ok
      ensures forall r :: r != room ==> Stream(r) == old(Stream(r))
      ensures Stream(room) == old(Stream(room)) + added
      ensures Messages(added) <= history
      ensures ok ==> Messages(added) == history && out == Show(room, added)
    {
      added := [];
      out := [];
      ok := true;
      for i := 0 to |history|
        invariant Valid()
        invariant |added| == i && out == Show(room, added) && Messages(added) == history[..i]
        invariant Stream(room) == old(Stream(room)) + added
        invariant forall r :: r != room ==> Stream(r) == old(Stream(r))
      {
        var fault, id := AppendMessage(room, history[i], up);
        BackfillStep(room, old(Stream(room)), history, added, Entry(id, history[i]));
        if !fault.Lost? {
          added := added + [Entry(id, history[i])];
        }
        if !fault.Ok? {
          return false, [], added;
        }
        out := out + [StreamMessage(Format(id), room, history[i])];
      }
    }

    /** Recovers a page from the message table and appends it to the stream again. */
    method RecoverAndBackfill(room: string, lastAck: string, limit: nat, up: bool)
      returns (ok: bool, out: seq<StreamMessage>, ghost added: seq<Entry>)
      requires Valid()
      modifies this`streams
      ensures Valid()
      ensures up ==> ok
      ensures forall r :: r != room ==> Stream(r) == old(Stream(r))
      ensures Stream(room) == old(Stream(room)) + added
      ensures Messages(added) <= ListByRoom(table, room, Since(lastAck), limit)
      ensures ok ==> Messages(added) == ListByRoom(table, room, Since(lastAck), limit) && out == Show(room, added)
      ensures KeyedTable(table) ==> forall id :: lastAck == Format(id) && id.ms <= MAX_INT64 ==>
        forall e :: e in added ==> e.message.roomId == room && e.message.createdAt > id.ms * 1_000_000
    {
      var read := Outcome(up);
      if !read.Ok? {
        return false, [], [];
      }
      ok, out, added := Backfill(room, ListByRoom(table, room, Since(lastAck), limit), up);
      if KeyedTable(table) { AppendedAfterCursor(table, room, lastAck, limit, added); }
    }

    /** The messages of the room with one of the ids. */
    method GetByIds(room: string, ids: seq<string>, up: bool) returns (ok: bool, out: map<string, Message>)
      ensures up ==> ok
      ensures ok ==> forall id :: id in out <==> id in ids && HasMessage(table, room, id)
      ensures forall id :: id in out ==> out[id] in table && out[id].roomId == room && out[id].id == id
    {
      out := map[];
      if |ids| == 0 {
        return true, map[];
      }
      var fault := Outcome(up);
      if !fault.Ok? {
        return false, map[];
      }
      ok := true;
      for i := 0 to |table|
        invariant forall id :: id in out ==> out[id] in table && out[id].roomId == room && out[id].id == id
        invariant forall id :: id in out ==> id in ids
        invariant forall k :: 0 <= k < i && table[k].roomId == room && table[k].id in ids ==> table[k].id in out
      {
        if table[i].roomId == room && table[i].id in ids {
          out := out[table[i].id := table[i]];
        }
      }
    }

    /** The ids the messages answer, each once. */
    method ReplyIds(messages: seq<StreamMessage>) returns (ids: seq<string>)
      ensures forall id :: id in ids <==> Answered(messages, id)
      ensures forall i, j :: 0 <= i < j < |ids| ==> ids[i] != ids[j]
    {
      var seen: set<string> := {};
      ids := [];
      for i := 0 to |messages|
        invariant forall id :: id in ids <==> id in seen
        invariant forall id :: id in seen <==> id != "" && exists k :: 0 <= k < i && messages[k].message.replyTo == id
        invariant forall i, j :: 0 <= i < j < |ids| ==> ids[i] != ids[j]
      {
        var id := messages[i].message.replyTo;
        if id == "" { continue; }
        if id in seen { continue; }
        seen := seen + {id};
        ids := ids + [id];
      }
    }

    method Hydrate(room: string, messages: seq<StreamMessage>, up: bool) returns (ok: bool, replies: map<string, Message>)
      ensures up ==> ok
      ensures ok ==> Hydrates(room, table, messages, replies)
      ensures ok ==> forall id :: id in replies <==>
        && id != "" && (exists k :: 0 <= k < |messages| && messages[k].message.replyTo == id)
        && (exists k :: 0 <= k < |table| && table[k].roomId == room && table[k].id == id)
    {
      var ids := ReplyIds(messages);
      ok, replies := GetByIds(room, ids, up);
    }

    /** Reads behind the cursor, or recovers. */
    method Page(room: string, lastAck: string, limit: nat, up: bool)
      returns (ok: bool, messages: seq<StreamMessage>, ghost added: seq<Entry>)
      requires Valid() && limit > 0
      modifies this`streams
      ensures Valid()
      ensures forall x :: x != room ==> Stream(x) == old(Stream(x))
      ensures Stream(room) == old(Stream(room)) + added
      ensures Messages(added) <= ListByRoom(table, room, Since(lastAck), limit)
      ensures ok ==> AnswersPage(room, old(Stream(room)), table, lastAck, limit, messages, added)
      ensures KeyedTable(table) ==> forall id :: lastAck == Format(id) && id.ms <= MAX_INT64 ==>
        forall e :: e in added ==> e.message.roomId == room && e.message.createdAt > id.ms * 1_000_000
      ensures up && ParseId(lastAck).Some? ==> ok
    {
      added := [];
      ok, messages := ReadFrom(room, lastAck, limit, up);
      if ok && |messages| == 0 {
        ok, messages, added := RecoverAndBackfill(room, lastAck, limit, up);
      }
    }

    /** One SYNC: members only, from the query's or the device's cursor, at most `limit` (100 by default) messages,
        with the messages they answer. A call that fails may have appended a prefix of the recovered page. */
    method Execute(q: Query, up: bool) returns (r: SyncResult, ghost added: seq<Entry>)
      requires Valid()
      modifies this`streams
      ensures Valid()
      ensures forall x :: x != q.roomId ==> Stream(x) == old(Stream(x))
      ensures Stream(q.roomId) == old(Stream(q.roomId)) + added
      ensures Messages(added) <= ListByRoom(table, q.roomId, Since(Cursor(q)), LimitOf(q.limit))
      ensures KeyedTable(table) ==> forall id :: Cursor(q) == Format(id) && id.ms <= MAX_INT64 ==>
        forall e :: e in added ==> e.message.roomId == q.roomId && e.message.createdAt > id.ms * 1_000_000
      ensures r.Synced? ==> q.roomId in rooms && q.userId in rooms[q.roomId]
      ensures r.Synced? ==>
        AnswersPage(q.roomId, old(Stream(q.roomId)), table, Cursor(q), LimitOf(q.limit), r.messages, added)
      ensures r.Synced? ==>
        var (mine, n) := ((q.userId, q.deviceId, q.roomId), if q.limit <= 0 then 100 else q.limit);
        if q.lastAck != "" then AnswersPage(q.roomId, old(Stream(q.roomId)), table, q.lastAck, n, r.messages, added)
        else if mine in acks && acks[mine] != ""
        then AnswersPage(q.roomId, old(Stream(q.roomId)), table, acks[mine], n, r.messages, added)
        else AnswersPage(q.roomId, old(Stream(q.roomId)), table, "0", n, r.messages, added)
      ensures r.Synced? ==> Hydrates(q.roomId, table, r.messages, r.replies)
      ensures r.Synced? ==> forall id :: id in r.replies <==>
        && id != "" && (exists k :: 0 <= k < |r.messages| && r.messages[k].message.replyTo == id)
        && (exists k :: 0 <= k < |table| && table[k].roomId == q.roomId && table[k].id == id)
      ensures up && q.roomId in rooms && q.userId in rooms[q.roomId] && ParseId(Cursor(q)).Some? ==> r.Synced?
      ensures r == NotSynced(RoomNotFound) ==> q.roomId !in rooms && added == []
      ensures r == NotSynced(AccessDenied) ==> q.roomId in rooms && q.userId !in rooms[q.roomId] && added == []
      ensures up && q.roomId !in rooms ==> r == NotSynced(RoomNotFound)
      ensures up && q.roomId in rooms && q.userId !in rooms[q.roomId] ==> r == NotSynced(AccessDenied)
    {
      hide AnswersPage, Hydrates, ParseId, Format, ListByRoom, Since, KeyedTable, Messages, Ordered;
      added := [];
      var got := Outcome(up);
      if !got.Ok? { return NotSynced(Upstream), []; }
      if q.roomId !in rooms { return NotSynced(RoomNotFound), []; }
      if q.userId !in rooms[q.roomId] { return NotSynced(AccessDenied), []; }
      if q.lastAck == "" {
        var ack := Outcome(up);
        if !ack.Ok? { return NotSynced(Upstream), []; }
      }
      var ok, messages;
      ok, messages, added := Page(q.roomId, Cursor(q), LimitOf(q.limit), up);
      if !ok { return NotSynced(Upstream), added; }
      var replies;
      ok, replies := Hydrate(q.roomId, messages, up);
      if !ok { return NotSynced(Upstream), added; }
      r := Synced(messages, replies);
    }
  }
}
