/** The two statements the repository puts together at run time, as clauses over
    positional parameters, and what they mean. */
module Queries {
  import opened Domain
  import opened Text
  import opened Tables

  /** A value bound to a positional parameter. */
  datatype Value = Str(text: string) | Instant(at: Time) | Number(n: int)

  datatype Column = TenantColumn | StatusColumn | ChannelColumn | CreatedColumn

  datatype Comparison = Equal | AtLeast | AtMost

  /** `column comparison $position`; positions count from 1. */
  datatype Clause = Clause(column: Column, comparison: Comparison, position: int)

  /** WHERE the clauses hold ORDER BY created_at DESC LIMIT $limitAt OFFSET $offsetAt. */
  datatype ListQuery = ListQuery(clauses: seq<Clause>, limitAt: int, offsetAt: int)

  // ---------------------------------------------------------- what SQL does

  function ColumnValue(column: Column, row: Notification): Value {
    match column
    case TenantColumn => Str(row.tenantId)
    case StatusColumn => Str(StatusText(row.status))
    case ChannelColumn => Str(row.channel)
    case CreatedColumn => Instant(row.createdAt)
  }

  predicate Compares(a: Value, comparison: Comparison, b: Value) {
    match comparison
    case Equal => a == b
    case AtLeast => a.Instant? && b.Instant? && a.at >= b.at
    case AtMost => a.Instant? && b.Instant? && a.at <= b.at
  }

  predicate ClauseHolds(c: Clause, args: seq<Value>, row: Notification) {
    1 <= c.position <= |args| && Compares(ColumnValue(c.column, row), c.comparison, args[c.position - 1])
  }

  predicate AllHold(clauses: seq<Clause>, args: seq<Value>, row: Notification) {
    forall i | 0 <= i < |clauses| :: ClauseHolds(clauses[i], args, row)
  }

  /** `sorted` lists exactly the rows of `ids`, newest first, equal times in any order. */
  predicate NewestFirst(rows: map<string, Notification>, ids: set<string>, sorted: seq<Notification>) {
    && (forall i | 0 <= i < |sorted| :: sorted[i].id in ids && sorted[i].id in rows && sorted[i] == rows[sorted[i].id])
    && (forall id | id in ids :: id in rows && rows[id] in sorted)
    && (forall i, j | 0 <= i < j < |sorted| ::
          sorted[i].id != sorted[j].id && sorted[i].createdAt >= sorted[j].createdAt)
  }

  function Cut(n: int, length: nat): nat {
    if n < 0 then 0 else Min(n, length)
  }

  /** `result` is an answer with that LIMIT and OFFSET; negative values are errors. */
  ghost predicate Paged(
    rows: map<string, Notification>, ids: set<string>, limit: int, offset: int, result: Result<seq<Notification>>)
  {
    if limit < 0 || offset < 0 then result.Err?
    else
      && result.Ok?
      && exists sorted: seq<Notification> ::
           NewestFirst(rows, ids, sorted) && result.value == Slice(sorted, limit, offset)
  }

  function Slice(sorted: seq<Notification>, limit: int, offset: int): seq<Notification>
    requires 0 <= limit && 0 <= offset
  {
    sorted[Cut(offset, |sorted|)..Cut(offset + limit, |sorted|)]
  }

  function Selected(q: ListQuery, args: seq<Value>, rows: map<string, Notification>): set<string> {
    set id | id in rows && AllHold(q.clauses, args, rows[id])
  }

  /** `result` answers the built query with its arguments over `rows`. */
  ghost predicate Answers(
    q: ListQuery, args: seq<Value>, rows: map<string, Notification>, result: Result<seq<Notification>>)
  {
    && 1 <= q.limitAt <= |args| && args[q.limitAt - 1].Number?
    && 1 <= q.offsetAt <= |args| && args[q.offsetAt - 1].Number?
    && Paged(rows, Selected(q, args, rows), args[q.limitAt - 1].n, args[q.offsetAt - 1].n, result)
  }

  // --------------------------------------------------------- what is wanted

  /** The filter a caller asked for, said directly. */
  predicate Wanted(
    row: Notification, tenant: string, status: string, channel: string, from: Option<Time>, to: Option<Time>)
  {
    && row.tenantId == TenantId(tenant)
    && (status != "" ==> StatusText(row.status) == status)
    && (channel != "" ==> row.channel == channel)
    && (from.Some? ==> from.value <= row.createdAt)
    && (to.Some? ==> row.createdAt <= to.value)
  }

  function WantedIds(
    rows: map<string, Notification>, tenant: string, status: string, channel: string,
    from: Option<Time>, to: Option<Time>) : set<string>
  {
    set id | id in rows && Wanted(rows[id], tenant, status, channel, from, to)
  }

  /** The clauses are one per argument, in order, and the last two arguments are
      the limit and the offset: every position is used exactly once. */
  predicate InOrder(clauses: seq<Clause>, count: nat) {
    |clauses| == count && forall i | 0 <= i < count :: clauses[i].position == i + 1
  }

  lemma AddClause(clauses: seq<Clause>, args: seq<Value>, c: Clause, v: Value, row: Notification)
    requires InOrder(clauses, |args|) && c.position == |args| + 1
    ensures InOrder(clauses + [c], |args + [v]|)
    ensures AllHold(clauses + [c], args + [v], row) <==>
            AllHold(clauses, args, row) && Compares(ColumnValue(c.column, row), c.comparison, v)
  {
    var cs, vs := clauses + [c], args + [v];
    assert cs[|clauses|] == c;
    assert forall i | 0 <= i < |clauses| ::
        cs[i] == clauses[i] && vs[clauses[i].position - 1] == args[clauses[i].position - 1];
    assert ClauseHolds(c, vs, row) <==> Compares(ColumnValue(c.column, row), c.comparison, v);
    if AllHold(clauses, args, row) && ClauseHolds(c, vs, row) {
      forall i | 0 <= i < |cs|
        ensures ClauseHolds(cs[i], vs, row)
      {
        assert i < |clauses| ==> ClauseHolds(clauses[i], args, row);
      }
    }
    if AllHold(cs, vs, row) {
      forall i | 0 <= i < |clauses|
        ensures ClauseHolds(clauses[i], args, row)
      {
        assert ClauseHolds(cs[i], vs, row);
      }
    }
  }

  /** The clauses say exactly what the filter says, of every row. */
  ghost predicate Means(
    clauses: seq<Clause>, args: seq<Value>,
    tenant: string, status: string, channel: string, from: Option<Time>, to: Option<Time>)
  {
    && InOrder(clauses, |args|)
    && forall row :: AllHold(clauses, args, row) <==> Wanted(row, tenant, status, channel, from, to)
  }

  lemma AddInOrder(clauses: seq<Clause>, args: seq<Value>, c: Clause, v: Value)
    requires InOrder(clauses, |args|) && c.position == |args| + 1
    ensures InOrder(clauses + [c], |args + [v]|)
  {
  }

  lemma AddTenant(tenant: string)
    ensures Means([Clause(TenantColumn, Equal, 1)], [Str(TenantId(tenant))], tenant, "", "", None, None)
  {
    var cs, vs := [Clause(TenantColumn, Equal, 1)], [Str(TenantId(tenant))];
    forall row: Notification
      ensures AllHold(cs, vs, row) <==> Wanted(row, tenant, "", "", None, None)
    {
      assert AllHold(cs, vs, row) <==> ClauseHolds(cs[0], vs, row);
    }
  }

  lemma AddStatus(clauses: seq<Clause>, args: seq<Value>, tenant: string, status: string)
    requires Means(clauses, args, tenant, "", "", None, None) && status != ""
    ensures Means(clauses + [Clause(StatusColumn, Equal, |args| + 1)], args + [Str(status)],
                  tenant, status, "", None, None)
  {
    var c := Clause(StatusColumn, Equal, |args| + 1);
    AddInOrder(clauses, args, c, Str(status));
    forall row: Notification
      ensures AllHold(clauses + [c], args + [Str(status)], row) <==> Wanted(row, tenant, status, "", None, None)
    {
      AddClause(clauses, args, c, Str(status), row);
    }
  }

  lemma AddChannel(clauses: seq<Clause>, args: seq<Value>, tenant: string, status: string, channel: string)
    requires Means(clauses, args, tenant, status, "", None, None) && channel != ""
    ensures Means(clauses + [Clause(ChannelColumn, Equal, |args| + 1)], args + [Str(channel)],
                  tenant, status, channel, None, None)
  {
    var c := Clause(ChannelColumn, Equal, |args| + 1);
    AddInOrder(clauses, args, c, Str(channel));
    forall row: Notification
      ensures AllHold(clauses + [c], args + [Str(channel)], row) <==> Wanted(row, tenant, status, channel, None, None)
    {
      AddClause(clauses, args, c, Str(channel), row);
    }
  }

  lemma AddFrom(clauses: seq<Clause>, args: seq<Value>, tenant: string, status: string, channel: string, from: Time)
    requires Means(clauses, args, tenant, status, channel, None, None)
    ensures Means(clauses + [Clause(CreatedColumn, AtLeast, |args| + 1)], args + [Instant(from)],
                  tenant, status, channel, Some(from), None)
  {
    var c := Clause(CreatedColumn, AtLeast, |args| + 1);
    AddInOrder(clauses, args, c, Instant(from));
    forall row: Notification
      ensures AllHold(clauses + [c], args + [Instant(from)], row) <==>
          Wanted(row, tenant, status, channel, Some(from), None)
    {
      AddClause(clauses, args, c, Instant(from), row);
    }
  }

  lemma AddTo(
    clauses: seq<Clause>, args: seq<Value>,
    tenant: string, status: string, channel: string, from: Option<Time>, to: Time)
    requires Means(clauses, args, tenant, status, channel, from, None)
    ensures Means(clauses + [Clause(CreatedColumn, AtMost, |args| + 1)], args + [Instant(to)],
                  tenant, status, channel, from, Some(to))
  {
    var c := Clause(CreatedColumn, AtMost, |args| + 1);
    AddInOrder(clauses, args, c, Instant(to));
    forall row: Notification
      ensures AllHold(clauses + [c], args + [Instant(to)], row) <==>
          Wanted(row, tenant, status, channel, from, Some(to))
    {
      AddClause(clauses, args, c, Instant(to), row);
    }
  }

  /** Arguments appended after the clauses change no clause. */
  lemma MoreArguments(clauses: seq<Clause>, args: seq<Value>, more: seq<Value>)
    requires InOrder(clauses, |args|)
    ensures forall row :: AllHold(clauses, args + more, row) <==> AllHold(clauses, args, row)
  {
    assert forall i | 0 <= i < |clauses| :: (args + more)[clauses[i].position - 1] == args[clauses[i].position - 1];
    forall row: Notification
      ensures AllHold(clauses, args + more, row) <==> AllHold(clauses, args, row)
    {
      assert forall i | 0 <= i < |clauses| ::
          ClauseHolds(clauses[i], args + more, row) <==> ClauseHolds(clauses[i], args, row);
    }
  }

  /** The query builder of `List`. */
  method BuildList(
    status: string, channel: string, from: Option<Time>, to: Option<Time>, limit: int, offset: int, tenant: string)
    returns (q: ListQuery, args: seq<Value>)
    ensures |args| >= 2 && InOrder(q.clauses, |args| - 2) && q.limitAt == |args| - 1 && q.offsetAt == |args|
    ensures args[q.limitAt - 1] == Number(limit) && args[q.offsetAt - 1] == Number(offset)
    ensures forall row :: AllHold(q.clauses, args, row) <==> Wanted(row, tenant, status, channel, from, to)
  {
    var clauses := [Clause(TenantColumn, Equal, 1)];
    args := [Str(TenantId(tenant))];
    AddTenant(tenant);
    hide Means;
    if status != "" {
      AddStatus(clauses, args, tenant, status);
      args := args + [Str(status)];
      clauses := clauses + [Clause(StatusColumn, Equal, |args|)];
    }
    if channel != "" {
      AddChannel(clauses, args, tenant, status, channel);
      args := args + [Str(channel)];
      clauses := clauses + [Clause(ChannelColumn, Equal, |args|)];
    }
    if from.Some? {
      AddFrom(clauses, args, tenant, status, channel, from.value);
      args := args + [Instant(from.value)];
      clauses := clauses + [Clause(CreatedColumn, AtLeast, |args|)];
    }
    if to.Some? {
      AddTo(clauses, args, tenant, status, channel, from, to.value);
      args := args + [Instant(to.value)];
      clauses := clauses + [Clause(CreatedColumn, AtMost, |args|)];
    }
    WithPaging(clauses, args, limit, offset, tenant, status, channel, from, to);
    args := args + [Number(limit), Number(offset)];
    q := ListQuery(clauses, |args| - 1, |args|);
  }

  lemma WithPaging(
    clauses: seq<Clause>, args: seq<Value>, limit: int, offset: int,
    tenant: string, status: string, channel: string, from: Option<Time>, to: Option<Time>)
    requires Means(clauses, args, tenant, status, channel, from, to)
    ensures InOrder(clauses, |args|)
    ensures forall row :: AllHold(clauses, args + [Number(limit), Number(offset)], row) <==>
                          Wanted(row, tenant, status, channel, from, to)
  {
    MoreArguments(clauses, args, [Number(limit), Number(offset)]);
  }

  /** What a query and its arguments, built as above, ask of any table is exactly the
      direct filter, order and page: same answers, same errors. */
  lemma ListMeansFilter(
    q: ListQuery, args: seq<Value>, rows: map<string, Notification>, result: Result<seq<Notification>>,
    status: string, channel: string, from: Option<Time>, to: Option<Time>, limit: int, offset: int, tenant: string)
    requires |args| >= 2 && q.limitAt == |args| - 1 && q.offsetAt == |args|
    requires args[q.limitAt - 1] == Number(limit) && args[q.offsetAt - 1] == Number(offset)
    requires forall row :: AllHold(q.clauses, args, row) <==> Wanted(row, tenant, status, channel, from, to)
    ensures Answers(q, args, rows, result) <==>
            Paged(rows, WantedIds(rows, tenant, status, channel, from, to), limit, offset, result)
  {
    assert Selected(q, args, rows) == WantedIds(rows, tenant, status, channel, from, to);
  }

  // -------------------------------------------------------- what is answered

  /** A status by its word. */
  predicate HasWord(s: Status, word: string) {
    || (word == "pending" && s == Pending)
    || (word == "processing" && s == Processing)
    || (word == "delivered" && s == Delivered)
    || (word == "failed" && s == Failed)
    || (word == "cancelled" && s == Cancelled)
    || (word == "scheduled" && s == Scheduled)
    || (word == "dead_letter" && s == DeadLetter)
  }

  lemma TextIsWord(s: Status, word: string)
    ensures StatusText(s) == word <==> HasWord(s, word)
  {
  }

  lemma WantedMeaning(
    row: Notification, tenant: string, status: string, channel: string, from: Option<Time>, to: Option<Time>)
    ensures Wanted(row, tenant, status, channel, from, to) <==>
            && row.tenantId == TenantId(tenant)
            && (status == "" || HasWord(row.status, status))
            && (channel == "" || row.channel == channel)
            && (from == None || row.createdAt >= from.value)
            && (to == None || row.createdAt <= to.value)
  {
    hide HasWord, StatusText;
    TextIsWord(row.status, status);
  }

  /** What a caller of `List` gets: of all the tenant's rows with the status of that word,
      on the channel, created in the interval, newest first, the page from `offset` on.
      A word that is no status finds nothing. */
  lemma ListMeaning(
    q: ListQuery, args: seq<Value>, rows: map<string, Notification>, result: Result<seq<Notification>>,
    status: string, channel: string, from: Option<Time>, to: Option<Time>, limit: nat, offset: nat, tenant: string)
    returns (sorted: seq<Notification>)
    requires |args| >= 2 && q.limitAt == |args| - 1 && q.offsetAt == |args|
    requires args[q.limitAt - 1] == Number(limit) && args[q.offsetAt - 1] == Number(offset)
    requires forall row :: AllHold(q.clauses, args, row) <==> Wanted(row, tenant, status, channel, from, to)
    requires Answers(q, args, rows, result) && forall id | id in rows :: rows[id].id == id
    ensures forall i, j | 0 <= i < j < |sorted| ::
              sorted[i].id != sorted[j].id && sorted[i].createdAt >= sorted[j].createdAt
    ensures forall row :: row in sorted <==>
              && row.id in rows && row == rows[row.id] && row.tenantId == TenantId(tenant)
              && (status == "" || HasWord(row.status, status)) && (channel == "" || row.channel == channel)
              && (from == None || row.createdAt >= from.value) && (to == None || row.createdAt <= to.value)
    ensures result.Ok? && |result.value| == Min(limit, if offset < |sorted| then |sorted| - offset else 0)
    ensures forall i | 0 <= i < |result.value| :: result.value[i] == sorted[offset + i]
  {
    hide Wanted, HasWord, AllHold, TenantId;
    ListMeansFilter(q, args, rows, result, status, channel, from, to, limit, offset, tenant);
    var ids := WantedIds(rows, tenant, status, channel, from, to);
    sorted :| NewestFirst(rows, ids, sorted) && result.value == Slice(sorted, limit, offset);
    forall row: Notification
      ensures row in sorted <==>
              && row.id in rows && row == rows[row.id] && row.tenantId == TenantId(tenant)
              && (status == "" || HasWord(row.status, status)) && (channel == "" || row.channel == channel)
              && (from == None || row.createdAt >= from.value) && (to == None || row.createdAt <= to.value)
    {
      WantedMeaning(row, tenant, status, channel, from, to);
      InListing(rows, ids, sorted, row);
    }
  }

  lemma InListing(rows: map<string, Notification>, ids: set<string>, sorted: seq<Notification>, row: Notification)
    requires NewestFirst(rows, ids, sorted) && ids <= rows.Keys && forall id | id in ids :: rows[id].id == id
    ensures row in sorted <==> row.id in ids && row == rows[row.id]
  {
    if row in sorted {
      var i :| 0 <= i < |sorted| && sorted[i] == row;
      assert sorted[i].id in ids;
    }
  }

  // ---------------------------------------------------------- cancellation

  /** UPDATE … SET status = $statusAt, updated_at = $updatedAt WHERE tenant_id =
      $tenantAt AND id IN (placeholders) AND status IN ($…, $…, $…). */
  datatype CancelQuery = CancelQuery(
    statusAt: int, updatedAt: int, tenantAt: int, placeholders: string, statusesAt: seq<int>)

  function Parts(start: nat, count: nat): seq<string> {
    seq(count, i requires 0 <= i < count => "$" + Decimal(start + i))
  }

  /** `placeholders`: the text "$start,$start+1,…" of `count` positions. */
  method Placeholders(start: nat, count: nat) returns (s: string)
    ensures s == Join(Parts(start, count), ',')
  {
    var parts := new string[count](_ => "");
    for i := 0 to count
      invariant forall j | 0 <= j < i :: parts[j] == Parts(start, count)[j]
    {
      parts[i] := "$" + Decimal(start + i);
    }
    assert parts[..] == Parts(start, count);
    s := Join(parts[..], ',');
  }

  /** The positions a placeholder list names, read back from its text. */
  function Positions(s: string): seq<Option<int>> {
    var parts := Split(s, ',');
    seq(|parts|, i requires 0 <= i < |parts| =>
      if parts[i] != "" && parts[i][0] == '$' then Atoi(parts[i][1..]) else None)
  }

  lemma DecimalHasNoComma(n: nat)
    ensures ',' !in DecimalNat(n)
  {
    assert forall i | 0 <= i < |DecimalNat(n)| :: IsDigit(DecimalNat(n)[i]);
  }

  lemma PartReadsBack(n: nat)
    requires n <= 0x7FFF_FFFF_FFFF_FFFF
    ensures ',' !in "$" + Decimal(n) && Atoi(("$" + Decimal(n))[1..]) == Some(n)
  {
    DecimalHasNoComma(n);
    AtoiDecimal(n);
    assert ("$" + Decimal(n))[1..] == Decimal(n);
  }

  /** … are exactly `start .. start + count`, for every number of ids. */
  lemma PlaceholdersReadBack(start: nat, count: nat)
    requires 0 < count && start + count <= 0x7FFF_FFFF_FFFF_FFFF
    ensures Positions(Join(Parts(start, count), ',')) == seq(count, i requires 0 <= i < count => Some(start + i))
  {
    hide Atoi, Decimal, Split, Join;
    var parts := Parts(start, count);
    forall i | 0 <= i < count
      ensures ',' !in parts[i] && Atoi(parts[i][1..]) == Some(start + i)
    {
      PartReadsBack(start + i);
    }
    SplitJoin(parts, ',');
  }

  function IdArguments(ids: seq<string>): seq<Value> {
    seq(|ids|, i requires 0 <= i < |ids| => Str(ids[i]))
  }

  /** The statement builder of `CancelPending`, for a non-empty id list. */
  method BuildCancel(ids: seq<string>, tenant: string, now: Time) returns (q: CancelQuery, args: seq<Value>)
    requires ids != []
    ensures q == CancelQuery(1, 2, 3, Join(Parts(4, |ids|), ','), [|ids| + 4, |ids| + 5, |ids| + 6])
    ensures args == [Str("cancelled"), Instant(now), Str(TenantId(tenant))] + IdArguments(ids)
                    + [Str("pending"), Str("scheduled"), Str("processing")]
  {
    args := [Str(StatusText(Cancelled)), Instant(now), Str(TenantId(tenant))];
    for i := 0 to |ids|
      invariant args == [Str("cancelled"), Instant(now), Str(TenantId(tenant))] + IdArguments(ids[..i])
    {
      assert IdArguments(ids[..i + 1]) == IdArguments(ids[..i]) + [Str(ids[i])];
      args := args + [Str(ids[i])];
    }
    assert ids[..|ids|] == ids;
    args := args + [Str(StatusText(Pending)), Str(StatusText(Scheduled)), Str(StatusText(Processing))];
    var text := Placeholders(4, |ids|);
    q := CancelQuery(1, 2, 3, text, [|args| - 2, |args| - 1, |args|]);
  }

  predicate Bound(args: seq<Value>, position: Option<int>, v: Value) {
    position.Some? && 1 <= position.value <= |args| && args[position.value - 1] == v
  }

  predicate OneOf(args: seq<Value>, positions: seq<Option<int>>, v: Value) {
    exists i | 0 <= i < |positions| :: Bound(args, positions[i], v)
  }

  function Every(positions: seq<int>): seq<Option<int>> {
    seq(|positions|, i requires 0 <= i < |positions| => Some(positions[i]))
  }

  /** The rows the statement's WHERE clause selects, reading its text and arguments. */
  function CancelSelected(q: CancelQuery, args: seq<Value>, rows: map<string, Notification>): set<string> {
    set id | id in rows
             && Bound(args, Some(q.tenantAt), Str(rows[id].tenantId))
             && OneOf(args, Positions(q.placeholders), Str(id))
             && OneOf(args, Every(q.statusesAt), Str(StatusText(rows[id].status)))
  }

  lemma IdSelected(args: seq<Value>, ids: seq<string>, positions: seq<Option<int>>, id: string)
    requires |args| == |ids| + 6 && forall i | 0 <= i < |ids| :: args[i + 3] == Str(ids[i])
    requires positions == seq(|ids|, i requires 0 <= i < |ids| => Some(4 + i))
    ensures OneOf(args, positions, Str(id)) <==> id in ids
  {
    if id in ids {
      var i :| 0 <= i < |ids| && ids[i] == id;
      assert Bound(args, positions[i], Str(id));
    }
    if OneOf(args, positions, Str(id)) {
      var i :| 0 <= i < |positions| && Bound(args, positions[i], Str(id));
      assert args[i + 3] == Str(ids[i]);
    }
  }

  lemma StatusSelected(args: seq<Value>, n: nat, statuses: seq<Option<int>>, s: Status)
    requires |args| == n + 6
    requires args[n + 3] == Str("pending") && args[n + 4] == Str("scheduled") && args[n + 5] == Str("processing")
    requires statuses == [Some(n + 4), Some(n + 5), Some(n + 6)]
    ensures OneOf(args, statuses, Str(StatusText(s))) <==> Cancellable(s)
  {
    assert Bound(args, statuses[0], Str(StatusText(s))) <==> s == Pending;
    assert Bound(args, statuses[1], Str(StatusText(s))) <==> s == Scheduled;
    assert Bound(args, statuses[2], Str(StatusText(s))) <==> s == Processing;
  }

  /** For every id list the generated positions are 1, 2, 3, then the ids, then the
      three statuses: together 1 to n, each used once. */
  lemma CancelPositions(ids: seq<string>, q: CancelQuery)
    requires 0 < |ids| && |ids| + 6 <= 0x7FFF_FFFF_FFFF_FFFF
    requires q == CancelQuery(1, 2, 3, Join(Parts(4, |ids|), ','), [|ids| + 4, |ids| + 5, |ids| + 6])
    ensures Every([q.statusAt, q.updatedAt, q.tenantAt]) + Positions(q.placeholders) + Every(q.statusesAt)
            == seq(|ids| + 6, i requires 0 <= i < |ids| + 6 => Some(i + 1))
  {
    hide Positions, Join;
    PlaceholdersReadBack(4, |ids|);
  }

  lemma RowSelected(
    ids: seq<string>, tenant: string, now: Time, q: CancelQuery, args: seq<Value>, id: string, row: Notification)
    requires 0 < |ids| && |ids| + 6 <= 0x7FFF_FFFF_FFFF_FFFF
    requires q == CancelQuery(1, 2, 3, Join(Parts(4, |ids|), ','), [|ids| + 4, |ids| + 5, |ids| + 6])
    requires args == [Str("cancelled"), Instant(now), Str(TenantId(tenant))] + IdArguments(ids)
                     + [Str("pending"), Str("scheduled"), Str("processing")]
    ensures (&& Bound(args, Some(q.tenantAt), Str(row.tenantId))
             && OneOf(args, Positions(q.placeholders), Str(id))
             && OneOf(args, Every(q.statusesAt), Str(StatusText(row.status)))) <==>
            id in ids && row.tenantId == TenantId(tenant) && Cancellable(row.status)
  {
    hide Positions, Join, OneOf, TenantId, StatusText;
    var n := |ids|;
    PlaceholdersReadBack(4, n);
    assert Every(q.statusesAt) == [Some(n + 4), Some(n + 5), Some(n + 6)];
    IdSelected(args, ids, Positions(q.placeholders), id);
    StatusSelected(args, n, Every(q.statusesAt), row.status);
  }

  /** … and the statement, read from its text and arguments, selects exactly the
      tenant's rows in the list that are queued or processing. */
  lemma CancelMeansTargets(
    ids: seq<string>, tenant: string, now: Time, q: CancelQuery, args: seq<Value>, rows: map<string, Notification>)
    requires 0 < |ids| && |ids| + 6 <= 0x7FFF_FFFF_FFFF_FFFF
    requires q == CancelQuery(1, 2, 3, Join(Parts(4, |ids|), ','), [|ids| + 4, |ids| + 5, |ids| + 6])
    requires args == [Str("cancelled"), Instant(now), Str(TenantId(tenant))] + IdArguments(ids)
                     + [Str("pending"), Str("scheduled"), Str("processing")]
    ensures CancelSelected(q, args, rows) == CancelTargets(rows, ids, tenant)
  {
    hide Positions, Join, OneOf, Bound, TenantId, Cancellable, IdArguments;
    forall id | id in rows
      ensures id in CancelSelected(q, args, rows) <==> id in CancelTargets(rows, ids, tenant)
    {
      RowSelected(ids, tenant, now, q, args, id, rows[id]);
    }
  }
}
