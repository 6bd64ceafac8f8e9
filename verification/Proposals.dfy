/** The proposal table of trader/data/proposal_store.py and its state machine. */
module Proposals {
  import opened Common

  /** A status string; anything outside the vocabulary is kept as its text. */
  datatype Status =
    | Pending | Approved | Executed | Rejected | Expired | Failed
    | Unrecognised(text: string)

  predicate IsKnown(s: Status) {
    !s.Unrecognised?
  }

  /** The edges of the state machine. */
  function Successors(s: Status): set<Status> {
    match s
    case Pending => {Approved, Rejected, Expired, Failed}
    case Approved => {Executed, Failed, Rejected}
    case _ => {}
  }

  predicate IsValidTransition(from: Status, to: Status) {
    to in Successors(from)
  }

  predicate IsTerminal(s: Status) {
    s.Executed? || s.Rejected? || s.Expired? || s.Failed?
  }

  /** The columns no operation ever rewrites. */
  datatype Terms = Terms(
    symbol: string, action: string, quantity: Option<real>, amount: Option<real>, execution: map<string, Json>,
    reasoning: string, confidence: real, thesis: string, source: string, secType: string)

  datatype Proposal = Proposal(
    terms: Terms, metadata: map<string, Json>, status: Status, orderIds: seq<int>, rejectionReason: string,
    exchange: string, currency: string, group: string)

  datatype Row = Row(
    terms: Terms, metadata: map<string, Json>, status: Status, createdAt: int, updatedAt: int,
    orderIds: seq<int>, rejectionReason: string)

  /** `nextId` is the database sequence: it only ever grows, so an id is never reused. */
  datatype Table = Table(rows: map<int, Row>, nextId: int)

  const EMPTY: Table := Table(map[], 1)

  /** The optional keyword arguments of the status operations. */
  datatype Changes = Changes(orderIds: Option<seq<int>>, rejectionReason: Option<string>)

  const NO_CHANGES: Changes := Changes(None, None)

  datatype Error = BornNotPending | UnknownStatus | NotFound | AlreadyThere | IllegalTransition | Immutable

  // ---------------------------------------------------------------- row codec

  const EXCHANGE := "_exchange"
  const CURRENCY := "_currency"
  const GROUP := "_group"
  const RESERVED: set<string> := {EXCHANGE, CURRENCY, GROUP}

  function Hint(m: map<string, Json>, key: string, value: string): map<string, Json> {
    if value == "" then m else m[key := JStr(value)]
  }

  /** Exchange, currency and group travel inside the metadata column. */
  function PackedMetadata(p: Proposal): map<string, Json> {
    Hint(Hint(Hint(p.metadata, EXCHANGE, p.exchange), CURRENCY, p.currency), GROUP, p.group)
  }

  function Encode(p: Proposal, now: int): Row {
    Row(p.terms, PackedMetadata(p), p.status, now, now, p.orderIds, p.rejectionReason)
  }

  /** A hint that is not a string is handed back as it is by the source; here it reads as no hint. */
  function Unhint(m: map<string, Json>, key: string): string {
    if key in m && m[key].JStr? then m[key].text else ""
  }

  function Decode(r: Row): Proposal {
    Proposal(r.terms, r.metadata - RESERVED, r.status, r.orderIds, r.rejectionReason,
             Unhint(r.metadata, EXCHANGE), Unhint(r.metadata, CURRENCY), Unhint(r.metadata, GROUP))
  }

  /** A stored proposal reads back as itself exactly when its metadata leaves the three reserved keys alone. */
  lemma StoredProposalReadsBack(p: Proposal, now: int)
    ensures Decode(Encode(p, now)) == p <==> p.metadata.Keys !! RESERVED
  {
    var packed := PackedMetadata(p);
    assert EXCHANGE[1] == 'e' && CURRENCY[1] == 'c' && GROUP[1] == 'g';
    if p.metadata.Keys !! RESERVED {
      assert packed - RESERVED == p.metadata;
    } else {
      var k :| k in p.metadata && k in RESERVED;
      assert k !in Decode(Encode(p, now)).metadata;
    }
  }

  // --------------------------------------------------- the operations, on values

  function Changed(r: Row, status: Status, c: Changes, now: int): Row {
    r.(status := status, updatedAt := now,
       orderIds := if c.orderIds.Some? then c.orderIds.value else r.orderIds,
       rejectionReason := if c.rejectionReason.Some? then c.rejectionReason.value else r.rejectionReason)
  }

  function Put(t: Table, id: int, r: Row): Table {
    t.(rows := t.rows[id := r])
  }

  function AddTo(t: Table, p: Proposal, now: int): (Table, Result<int, Error>) {
    if p.status != Pending then (t, Err(BornNotPending))
    else (Table(t.rows[t.nextId := Encode(p, now)], t.nextId + 1), Ok(t.nextId))
  }

  function MergeMetadata(t: Table, id: int, extra: map<string, Json>, now: int): (Table, Result<(), Error>) {
    if id !in t.rows then (t, Ok(()))
    else if IsTerminal(t.rows[id].status) then (t, Err(Immutable))
    else (Put(t, id, t.rows[id].(metadata := t.rows[id].metadata + extra, updatedAt := now)), Ok(()))
  }

  function SetStatus(t: Table, id: int, status: Status, c: Changes, now: int): (Table, Result<(), Error>) {
    if !IsKnown(status) then (t, Err(UnknownStatus))
    else if id !in t.rows then (t, Err(NotFound))
    else if t.rows[id].status == status then (t, Err(AlreadyThere))
    else if !IsValidTransition(t.rows[id].status, status) then (t, Err(IllegalTransition))
    else (Put(t, id, Changed(t.rows[id], status, c, now)), Ok(()))
  }

  function CompareAndSwap(t: Table, id: int, from: Status, to: Status, c: Changes, now: int)
    : (Table, Result<bool, Error>)
  {
    if !IsKnown(to) then (t, Err(UnknownStatus))
    else if !IsValidTransition(from, to) then (t, Err(IllegalTransition))
    else if id in t.rows && t.rows[id].status == from
    then (Put(t, id, Changed(t.rows[id], to, c, now)), Ok(true))
    else (t, Ok(false))
  }

  function Remove(t: Table, id: int, force: bool): (Table, Result<bool, Error>) {
    if id in t.rows && IsTerminal(t.rows[id].status) && !force then (t, Err(Immutable))
    else (t.(rows := t.rows - {id}), Ok(true))
  }

  // ------------------------------------------------------------------ the store

  class ProposalStore {
    var rows: map<int, Row>
    var nextId: int

    function Contents(): Table
      reads this
    {
      Table(rows, nextId)
    }

    constructor ()
      ensures Contents() == EMPTY
    {
      rows, nextId := map[], 1;
    }

    method Add(p: Proposal, now: int) returns (r: Result<int, Error>)
      modifies this
      ensures (Contents(), r) == AddTo(old(Contents()), p, now)
    {
      if p.status != Pending {
        return Err(BornNotPending);
      }
      var meta := p.metadata;
      if p.exchange != "" {
        meta := meta[EXCHANGE := JStr(p.exchange)];
      }
      if p.currency != "" {
        meta := meta[CURRENCY := JStr(p.currency)];
      }
      if p.group != "" {
        meta := meta[GROUP := JStr(p.group)];
      }
      var id := nextId;
      nextId := nextId + 1;
      rows := rows[id := Row(p.terms, meta, p.status, now, now, p.orderIds, p.rejectionReason)];
      r := Ok(id);
    }

    method UpdateMetadata(id: int, extra: map<string, Json>, now: int) returns (r: Result<(), Error>)
      modifies this
      ensures (Contents(), r) == MergeMetadata(old(Contents()), id, extra, now)
    {
      if id !in rows {
        return Ok(());
      }
      var row := rows[id];
      if IsTerminal(row.status) {
        return Err(Immutable);
      }
      rows := rows[id := row.(metadata := row.metadata + extra, updatedAt := now)];
      r := Ok(());
    }

    method UpdateStatus(id: int, status: Status, c: Changes, now: int) returns (r: Result<(), Error>)
      modifies this
      ensures (Contents(), r) == SetStatus(old(Contents()), id, status, c, now)
    {
      if !IsKnown(status) {
        return Err(UnknownStatus);
      }
      if id !in rows {
        return Err(NotFound);
      }
      var current := rows[id].status;
      if current == status {
        return Err(AlreadyThere);
      }
      if !IsValidTransition(current, status) {
        return Err(IllegalTransition);
      }
      var row := rows[id].(status := status, updatedAt := now);
      if c.orderIds.Some? {
        row := row.(orderIds := c.orderIds.value);
      }
      if c.rejectionReason.Some? {
        row := row.(rejectionReason := c.rejectionReason.value);
      }
      rows := rows[id := row];
      r := Ok(());
    }

    method TryTransition(id: int, from: Status, to: Status, c: Changes, now: int) returns (r: Result<bool, Error>)
      modifies this
      ensures (Contents(), r) == CompareAndSwap(old(Contents()), id, from, to, c, now)
    {
      if !IsKnown(to) {
        return Err(UnknownStatus);
      }
      if !IsValidTransition(from, to) {
        return Err(IllegalTransition);
      }
      if id !in rows || rows[id].status != from {
        return Ok(false);
      }
      var row := rows[id].(status := to, updatedAt := now);
      if c.orderIds.Some? {
        row := row.(orderIds := c.orderIds.value);
      }
      if c.rejectionReason.Some? {
        row := row.(rejectionReason := c.rejectionReason.value);
      }
      rows := rows[id := row];
      r := Ok(true);
    }

    method Delete(id: int, force: bool) returns (r: Result<bool, Error>)
      modifies this
      ensures (Contents(), r) == Remove(old(Contents()), id, force)
    {
      if id in rows && IsTerminal(rows[id].status) && !force {
        return Err(Immutable);
      }
      rows := rows - {id};
      r := Ok(id !in rows);
    }
  }

  // ------------------------------------- what each call does, column by column and key by key

  /** The state machine, edge by edge; a status without an edge out of it is terminal. */
  lemma TransitionsAre(from: Status, to: Status)
    ensures IsValidTransition(from, to) <==>
              || (from == Pending && (to == Approved || to == Rejected || to == Expired || to == Failed))
              || (from == Approved && (to == Executed || to == Failed || to == Rejected))
    ensures IsTerminal(from) <==> from.Executed? || from.Rejected? || from.Expired? || from.Failed?
    ensures IsTerminal(from) ==> !IsValidTransition(from, to)
  {
  }

  /** What the metadata column has under a key: the three hints where they are given, else the proposal's own. */
  function HintOf(p: Proposal, key: string): string {
    if key == EXCHANGE then p.exchange else if key == CURRENCY then p.currency else if key == GROUP then p.group else ""
  }

  predicate HasKey(m: map<string, Json>, key: string, value: Json) {
    key in m && m[key] == value
  }

  /** A new proposal gets the next id and a row of its own with everything it holds; no other row changes. */
  lemma AddSays(t: Table, p: Proposal, now: int, key: string)
    ensures var (after, r) := AddTo(t, p, now);
            if p.status != Pending then after == t && r == Err(BornNotPending)
            else
              && r == Ok(t.nextId) && after.nextId == t.nextId + 1
              && after.rows.Keys == t.rows.Keys + {t.nextId}
              && (forall id :: id in t.rows && id != t.nextId ==> after.rows[id] == t.rows[id])
              && var row := after.rows[t.nextId];
                && row.terms == p.terms && row.status == Pending && row.createdAt == now && row.updatedAt == now
                && row.orderIds == p.orderIds && row.rejectionReason == p.rejectionReason
                && (HintOf(p, key) != "" ==> HasKey(row.metadata, key, JStr(HintOf(p, key))))
                && (HintOf(p, key) == "" ==> (key in row.metadata <==> key in p.metadata))
                && (HintOf(p, key) == "" && key in p.metadata ==> row.metadata[key] == p.metadata[key])
  {
    assert EXCHANGE[1] == 'e' && CURRENCY[1] == 'c' && GROUP[1] == 'g';
  }

  /** Between two tables no row but `id` differs, and no row comes or goes. */
  predicate OnlyRow(t: Table, after: Table, id: int) {
    && after.nextId == t.nextId && after.rows.Keys == t.rows.Keys
    && forall k :: k in t.rows && k != id ==> after.rows[k] == t.rows[k]
  }

  /** A merge of metadata: the new value under a new key, the old one under any other, and no other column but the
      time of the change. */
  lemma MetadataSays(t: Table, id: int, extra: map<string, Json>, now: int, key: string)
    ensures var (after, r) := MergeMetadata(t, id, extra, now);
            if id !in t.rows then after == t && r == Ok(())
            else if IsTerminal(t.rows[id].status) then after == t && r == Err(Immutable)
            else
              && r == Ok(()) && OnlyRow(t, after, id)
              && var (was, row) := (t.rows[id], after.rows[id]);
                && (key in row.metadata <==> key in was.metadata || key in extra)
                && (key in extra ==> row.metadata[key] == extra[key])
                && (key in was.metadata && key !in extra ==> row.metadata[key] == was.metadata[key])
                && row.terms == was.terms && row.status == was.status && row.createdAt == was.createdAt
                && row.orderIds == was.orderIds && row.rejectionReason == was.rejectionReason && row.updatedAt == now
  {
  }

  /** The row moved to a status, with the columns given and no others. */
  predicate Moved(was: Row, row: Row, status: Status, c: Changes, now: int) {
    && row.status == status && row.updatedAt == now
    && (c.orderIds.Some? ==> row.orderIds == c.orderIds.value)
    && (c.orderIds.None? ==> row.orderIds == was.orderIds)
    && (c.rejectionReason.Some? ==> row.rejectionReason == c.rejectionReason.value)
    && (c.rejectionReason.None? ==> row.rejectionReason == was.rejectionReason)
    && row.terms == was.terms && row.metadata == was.metadata && row.createdAt == was.createdAt
  }

  /** A status write succeeds exactly on a known status one edge away, and is refused with the first error that
      applies; refused, it changes nothing. */
  lemma StatusSays(t: Table, id: int, status: Status, c: Changes, now: int)
    ensures var (after, r) := SetStatus(t, id, status, c, now);
            && (r == Ok(()) <==> id in t.rows && IsValidTransition(t.rows[id].status, status))
            && (r.Ok? ==> OnlyRow(t, after, id) && Moved(t.rows[id], after.rows[id], status, c, now))
            && (r.Err? ==> after == t)
            && (r == Err(UnknownStatus) <==> status.Unrecognised?)
            && (r == Err(NotFound) <==> !status.Unrecognised? && id !in t.rows)
            && (r == Err(AlreadyThere) <==> !status.Unrecognised? && id in t.rows && t.rows[id].status == status)
  {
  }

  /** A swap answers true exactly if the row is there in the expected status, and then moves it; a swap along no edge
      is an error whatever the row says. */
  lemma SwapSays(t: Table, id: int, from: Status, to: Status, c: Changes, now: int)
    ensures var (after, r) := CompareAndSwap(t, id, from, to, c, now);
            && (r.Ok? <==> IsValidTransition(from, to))
            && (r == Ok(true) <==> IsValidTransition(from, to) && id in t.rows && t.rows[id].status == from)
            && (r == Ok(true) ==> OnlyRow(t, after, id) && Moved(t.rows[id], after.rows[id], to, c, now))
            && (r != Ok(true) ==> after == t)
  {
  }

  /** A delete takes out the one row, unless it is terminal and the call is not forced. */
  lemma RemoveSays(t: Table, id: int, force: bool)
    ensures var (after, r) := Remove(t, id, force);
            var refused := id in t.rows && IsTerminal(t.rows[id].status) && !force;
            && (r == Err(Immutable) <==> refused) && (r == Ok(true) <==> !refused)
            && after.nextId == t.nextId && after.rows.Keys == (if refused then t.rows.Keys else t.rows.Keys - {id})
            && forall k :: k in after.rows ==> after.rows[k] == t.rows[k]
  {
  }

  // ------------------------------------------------------- runs of store calls

  datatype Call =
    | CallAdd(p: Proposal, now: int)
    | CallMetadata(id: int, extra: map<string, Json>, now: int)
    | CallStatus(id: int, status: Status, c: Changes, now: int)
    | CallSwap(id: int, from: Status, to: Status, c: Changes, now: int)
    | CallDelete(id: int, force: bool)

  function Apply(t: Table, call: Call): Table {
    match call
    case CallAdd(p, now) => AddTo(t, p, now).0
    case CallMetadata(id, extra, now) => MergeMetadata(t, id, extra, now).0
    case CallStatus(id, status, c, now) => SetStatus(t, id, status, c, now).0
    case CallSwap(id, from, to, c, now) => CompareAndSwap(t, id, from, to, c, now).0
    case CallDelete(id, force) => Remove(t, id, force).0
  }

  function After(calls: seq<Call>): Table {
    if calls == [] then EMPTY else Apply(After(calls[..|calls| - 1]), calls[|calls| - 1])
  }

  predicate Forced(call: Call, id: int) {
    call == CallDelete(id, true)
  }

  predicate WellFormed(t: Table) {
    1 <= t.nextId && forall id :: id in t.rows ==> 1 <= id < t.nextId
  }

  lemma StepKeepsWellFormed(t: Table, call: Call)
    requires WellFormed(t)
    ensures WellFormed(Apply(t, call)) && t.nextId <= Apply(t, call).nextId
  {
  }

  lemma {:induction false} AlwaysWellFormed(calls: seq<Call>)
    ensures WellFormed(After(calls))
  {
    if calls != [] {
      AlwaysWellFormed(calls[..|calls| - 1]);
      StepKeepsWellFormed(After(calls[..|calls| - 1]), calls[|calls| - 1]);
    }
  }

  /** The distinct statuses row `id` has shown over a run, in the order it showed them. */
  function History(calls: seq<Call>, id: int): seq<Status> {
    var shown := if calls == [] then [] else History(calls[..|calls| - 1], id);
    var t := After(calls);
    if id !in t.rows || (shown != [] && shown[|shown| - 1] == t.rows[id].status) then shown
    else shown + [t.rows[id].status]
  }

  predicate IsPath(h: seq<Status>) {
    && (h != [] ==> h[0] == Pending)
    && forall i :: 0 < i < |h| ==> IsValidTransition(h[i - 1], h[i])
  }

  /** A path of the graph makes at most two moves, and only its last status can be terminal. */
  lemma PathsAreShort(h: seq<Status>)
    requires IsPath(h)
    ensures |h| <= 3
    ensures forall i :: 0 <= i < |h| - 1 ==> !IsTerminal(h[i])
  {
    forall i | 0 <= i < |h| - 1
      ensures !IsTerminal(h[i])
    {
      assert IsValidTransition(h[i + 1 - 1], h[i + 1]);
    }
    if |h| > 2 {
      assert IsValidTransition(h[0], h[1]) && IsValidTransition(h[1], h[2]);
      assert IsTerminal(h[2]);
    }
  }

  lemma {:induction false} HistoryFollowsTable(calls: seq<Call>, id: int)
    ensures IsPath(History(calls, id))
    ensures History(calls, id) != [] ==> id < After(calls).nextId
    ensures id in After(calls).rows ==>
              History(calls, id) != [] && History(calls, id)[|History(calls, id)| - 1] == After(calls).rows[id].status
  {
    if calls != [] {
      HistoryFollowsTable(calls[..|calls| - 1], id);
      AlwaysWellFormed(calls[..|calls| - 1]);
      StepKeepsWellFormed(After(calls[..|calls| - 1]), calls[|calls| - 1]);
    }
  }

  /** Every row is born PENDING, its history is a path of the graph, and it makes at most two moves:
      whatever is called, in whatever order, forced deletes included. */
  lemma EveryHistoryIsAPath(calls: seq<Call>, id: int)
    ensures IsPath(History(calls, id)) && |History(calls, id)| <= 3
    ensures id in After(calls).rows ==> IsKnown(After(calls).rows[id].status)
  {
    HistoryFollowsTable(calls, id);
    PathsAreShort(History(calls, id));
    var h := History(calls, id);
    if |h| > 1 {
      assert IsValidTransition(h[|h| - 2], h[|h| - 1]);
    }
  }

  /** Once terminal, a row keeps every column, through any further calls but a forced delete of that very row. */
  lemma {:induction false} TerminalRowsNeverChange(calls: seq<Call>, more: seq<Call>, id: int)
    requires id in After(calls).rows && IsTerminal(After(calls).rows[id].status)
    requires forall call :: call in more ==> !Forced(call, id)
    ensures id in After(calls + more).rows && After(calls + more).rows[id] == After(calls).rows[id]
  {
    if more == [] {
      assert calls + more == calls;
    } else {
      var n := |more| - 1;
      assert (calls + more)[..|calls + more| - 1] == calls + more[..n];
      assert more[n] in more;
      TerminalRowsNeverChange(calls, more[..n], id);
      AlwaysWellFormed(calls + more[..n]);
    }
  }

  /** Of any callers that swap one row out of the same status, exactly the first succeeds. */
  lemma OnlyTheFirstSwapWins(t: Table, id: int, from: Status, a: Status, b: Status, c: Changes, d: Changes, now: int)
    requires id in t.rows && t.rows[id].status == from
    requires IsValidTransition(from, a) && IsValidTransition(from, b)
    ensures var (first, won) := CompareAndSwap(t, id, from, a, c, now);
            && won == Ok(true)
            && CompareAndSwap(first, id, from, b, d, now) == (first, Ok(false))
            && forall k :: k in t.rows && k != id ==> k in first.rows && first.rows[k] == t.rows[k]
  {
  }
}
