/** The append-only event log of Grant Requests (src/access/grant-requests.ts) and the automaton
    its histories follow. Times are milliseconds. */
module GrantLog {
  import opened Wrappers
  import opened OriginScopes

  type RequestId = nat
  type GrantId = nat

  const MINUTE := 60 * 1000
  const REQUEST_EXPIRY := 15 * MINUTE
  const RETRY_EXPIRY := 5 * MINUTE
  const ONE_HOUR_EXPIRY := 60 * MINUTE

  datatype Kind = Requested | Denied | Approved | Consumed | Expired | Revoked

  datatype Mode = Retry | OneHour

  datatype Temporary = Temporary(mode: Mode, until: int)

  datatype Ask = Ask(binding: Binding, origin: Origin, fileTransfer: bool, invalidCertificate: bool)

  /** One event. Later events of a request repeat the columns of the one before. */
  datatype Row = Row(request: RequestId, kind: Kind, ask: Ask, expires: int,
                     temporary: Option<Temporary>, grant: Option<GrantId>, at: int)
  {
    function As(kind: Kind, now: int): Row {
      this.(kind := kind, at := now)
    }
  }

  function Lifetime(mode: Mode): int {
    if mode == Retry then RETRY_EXPIRY else ONE_HOUR_EXPIRY
  }

  // ---- reading the log ----

  /** The latest event of each request. */
  function Current(log: seq<Row>): map<RequestId, Row> {
    if log == [] then map[]
    else Current(log[..|log| - 1])[log[|log| - 1].request := log[|log| - 1]]
  }

  function WithoutRequest(rows: seq<Row>, id: RequestId): seq<Row> {
    if rows == [] then []
    else
      var last := rows[|rows| - 1];
      WithoutRequest(rows[..|rows| - 1], id) + (if last.request == id then [] else [last])
  }

  /** latestEventRows: the same, in the order the events were appended. */
  function LatestRows(log: seq<Row>): seq<Row> {
    if log == [] then []
    else
      var last := log[|log| - 1];
      WithoutRequest(LatestRows(log[..|log| - 1]), last.request) + [last]
  }

  function History(log: seq<Row>, id: RequestId): seq<Row> {
    if log == [] then []
    else
      var last := log[|log| - 1];
      History(log[..|log| - 1], id) + (if last.request == id then [last] else [])
  }

  function Kinds(rows: seq<Row>): seq<Kind> {
    if rows == [] then [] else Kinds(rows[..|rows| - 1]) + [rows[|rows| - 1].kind]
  }

  lemma CurrentAfter(log: seq<Row>, row: Row)
    ensures Current(log + [row]) == Current(log)[row.request := row]
  {
    assert (log + [row])[..|log|] == log;
  }

  ghost predicate DistinctRequests(rows: seq<Row>) {
    forall i, j | 0 <= i < j < |rows| :: rows[i].request != rows[j].request
  }

  lemma {:induction false} WithoutRequestHas(rows: seq<Row>, id: RequestId)
    ensures forall x :: x in WithoutRequest(rows, id) <==> x in rows && x.request != id
    ensures DistinctRequests(rows) ==> DistinctRequests(WithoutRequest(rows, id))
  {
    if rows != [] {
      var front, last := rows[..|rows| - 1], rows[|rows| - 1];
      var rest := WithoutRequest(front, id);
      WithoutRequestHas(front, id);
      assert rows == front + [last];
      if DistinctRequests(rows) {
        forall i | 0 <= i < |rest| ensures rest[i].request != last.request { assert rest[i] in front; }
      }
    }
  }

  /** The latest rows are one per request, and the current ones. */
  lemma {:induction false} LatestRowsAreCurrent(log: seq<Row>)
    ensures DistinctRequests(LatestRows(log))
    ensures forall x :: x in LatestRows(log) <==> x.request in Current(log) && Current(log)[x.request] == x
  {
    if log != [] {
      var front, last := log[..|log| - 1], log[|log| - 1];
      LatestRowsAreCurrent(front);
      LatestAfter(LatestRows(front), last);
      assert LatestRows(log) == WithoutRequest(LatestRows(front), last.request) + [last];
      assert Current(log) == Current(front)[last.request := last];
    }
  }

  lemma LatestAfter(rows: seq<Row>, last: Row)
    requires DistinctRequests(rows)
    ensures var after := WithoutRequest(rows, last.request) + [last];
            DistinctRequests(after)
            && forall x :: x in after <==> x == last || (x in rows && x.request != last.request)
  {
    WithoutRequestHas(rows, last.request);
    var rest := WithoutRequest(rows, last.request);
    forall i | 0 <= i < |rest| ensures rest[i].request != last.request { assert rest[i] in rest; }
  }

  // ---- the automaton ----

  predicate May(from: Kind, next: Kind) {
    match from
    case Requested => next in {Denied, Expired, Revoked, Approved}
    case Approved => next in {Expired, Revoked, Consumed}
    case Consumed => next in {Expired, Revoked}
    case _ => false
  }

  /** An event that may be appended: a first event asks; a later one follows the automaton and keeps
      the columns; an approval is either temporary, with its lifetime, or linked to a grant; only an
      unexpired retry approval is consumed; only what is due expires. */
  ghost predicate Extends(log: seq<Row>, row: Row) {
    if row.request !in Current(log) then
      row.kind == Requested && row.temporary == None && row.grant == None
      && row.expires == row.at + REQUEST_EXPIRY
    else
      var prev := Current(log)[row.request];
      && May(prev.kind, row.kind) && row.ask == prev.ask && row.expires == prev.expires
      && (if row.kind == Approved then
            row.temporary.Some? != row.grant.Some?
            && (row.temporary.Some? ==> row.temporary.value.until == row.at + Lifetime(row.temporary.value.mode))
          else row.temporary == prev.temporary && row.grant == prev.grant)
      && (row.kind == Consumed ==>
            row.temporary.Some? && row.temporary.value.mode == Retry && row.at < row.temporary.value.until)
      && (row.kind == Expired ==>
            if prev.kind == Requested then prev.expires <= row.at
            else row.temporary.Some? && row.temporary.value.until <= row.at)
  }

  ghost predicate Legal(log: seq<Row>) {
    log != [] ==> Legal(log[..|log| - 1]) && Extends(log[..|log| - 1], log[|log| - 1])
  }

  lemma LegalAfter(log: seq<Row>, row: Row)
    requires Legal(log) && Extends(log, row)
    ensures Legal(log + [row])
  {
    assert (log + [row])[..|log|] == log;
  }

  /** What the columns of a current event say in a legal log. */
  ghost predicate Coherent(row: Row) {
    && (row.kind in {Requested, Denied} ==> row.temporary == None && row.grant == None)
    && (row.kind == Approved ==> row.temporary.Some? != row.grant.Some?)
    && (row.kind == Consumed ==> row.temporary.Some? && row.temporary.value.mode == Retry && row.grant == None)
    && (row.kind == Expired ==> row.grant == None)
  }

  lemma {:induction false} CurrentIsCoherent(log: seq<Row>, id: RequestId)
    requires Legal(log) && id in Current(log)
    ensures Coherent(Current(log)[id]) && Current(log)[id].request == id
  {
    var front, last := log[..|log| - 1], log[|log| - 1];
    if last.request != id {
      CurrentIsCoherent(front, id);
    } else if id in Current(front) {
      CurrentIsCoherent(front, id);
    }
  }

  /** The words of the automaton. */
  predicate Word(kinds: seq<Kind>) {
    kinds in {[], [Requested], [Requested, Denied], [Requested, Expired], [Requested, Revoked],
              [Requested, Approved], [Requested, Approved, Expired], [Requested, Approved, Revoked],
              [Requested, Approved, Consumed], [Requested, Approved, Consumed, Expired],
              [Requested, Approved, Consumed, Revoked]}
  }

  /** Every history in a legal log is one of eleven words, ending in the current event. */
  lemma {:induction false} HistoriesAreWords(log: seq<Row>, id: RequestId)
    requires Legal(log)
    ensures Word(Kinds(History(log, id)))
    ensures id in Current(log) <==> History(log, id) != []
    ensures id in Current(log) ==> History(log, id)[|History(log, id)| - 1] == Current(log)[id]
  {
    if log != [] {
      var front, last := log[..|log| - 1], log[|log| - 1];
      HistoriesAreWords(front, id);
      var before := History(front, id);
      if last.request == id {
        assert (before + [last])[..|before|] == before;
        if before == [] {
          assert Kinds([last]) == Kinds(before) + [last.kind];
          assert Kinds(History(log, id)) == [Requested];
        } else {
          WordGrows(Kinds(before), before[|before| - 1].kind, last.kind);
        }
      } else {
        assert History(log, id) == before;
      }
    }
  }

  lemma WordGrows(kinds: seq<Kind>, end: Kind, next: Kind)
    requires Word(kinds) && kinds != [] && kinds[|kinds| - 1] == end && May(end, next)
    ensures Word(kinds + [next])
  {
    assert |kinds| == 1 ==> kinds == [Requested];
    assert |kinds| == 2 ==> kinds == [Requested, Approved];
    assert |kinds| == 3 ==> kinds == [Requested, Approved, Consumed];
    assert |kinds| == 1 ==> kinds + [next] == [Requested, next];
    assert |kinds| == 2 ==> kinds + [next] == [Requested, Approved, next];
    assert |kinds| == 3 ==> kinds + [next] == [Requested, Approved, Consumed, next];
  }

  // ---- expiry ----

  predicate Lapsed(row: Row, now: int) {
    (row.kind == Requested && row.expires <= now)
    || (row.kind in {Approved, Consumed} && row.temporary.Some? && row.temporary.value.until <= now)
  }

  function Lapse(row: Row, now: int): Row {
    if Lapsed(row, now) then row.As(Expired, now) else row
  }

  function ExpireRows(log: seq<Row>, rows: seq<Row>, now: int): seq<Row> {
    if rows == [] then log
    else
      var before := ExpireRows(log, rows[..|rows| - 1], now);
      var row := rows[|rows| - 1];
      if Lapsed(row, now) then before + [row.As(Expired, now)] else before
  }

  ghost predicate AreCurrent(log: seq<Row>, rows: seq<Row>) {
    && DistinctRequests(rows)
    && forall i | 0 <= i < |rows| ::
         rows[i].request in Current(log) && Current(log)[rows[i].request] == rows[i]
  }

  function Requests(rows: seq<Row>): set<RequestId> {
    set i | 0 <= i < |rows| :: rows[i].request
  }

  /** The expiry loop over any of the current rows expires exactly those that are due. */
  lemma {:induction false} ExpiryEffect(log: seq<Row>, rows: seq<Row>, now: int)
    requires Legal(log) && AreCurrent(log, rows)
    ensures var after := ExpireRows(log, rows, now);
            && Legal(after) && Current(after).Keys == Current(log).Keys
            && forall id | id in Current(log) ::
                 Current(after)[id] == if id in Requests(rows) then Lapse(Current(log)[id], now)
                                       else Current(log)[id]
  {
    if rows != [] {
      var front, row := rows[..|rows| - 1], rows[|rows| - 1];
      assert forall i | 0 <= i < |front| :: front[i] == rows[i];
      ExpiryEffect(log, front, now);
      var before := ExpireRows(log, front, now);
      assert row.request !in Requests(front);
      CurrentIsCoherent(log, row.request);
      assert Requests(rows) == Requests(front) + {row.request} by {
        assert rows[|rows| - 1].request in Requests(rows);
        forall id | id in Requests(front) ensures id in Requests(rows) {
          var i :| 0 <= i < |front| && front[i].request == id;
          assert rows[i].request == id;
        }
      }
      if Lapsed(row, now) {
        LegalAfter(before, row.As(Expired, now));
        CurrentAfter(before, row.As(Expired, now));
      }
    }
  }

  function ExpireAll(log: seq<Row>, now: int): seq<Row> {
    ExpireRows(log, LatestRows(log), now)
  }

  lemma ExpireAllEffect(log: seq<Row>, now: int)
    requires Legal(log)
    ensures var after := ExpireAll(log, now);
            && Legal(after) && Current(after).Keys == Current(log).Keys
            && forall id | id in Current(log) :: Current(after)[id] == Lapse(Current(log)[id], now)
  {
    LatestRowsAreCurrent(log);
    var rows := LatestRows(log);
    assert forall i | 0 <= i < |rows| :: rows[i] in rows;
    ExpiryEffect(log, rows, now);
    forall id | id in Current(log) ensures id in Requests(rows) {
      CurrentIsCoherent(log, id);
      assert Current(log)[id] in rows;
    }
  }
}
