/** The query builder of the audit list: clauses and positional parameters for any subset of filters. */
module AuditQuery {
  import opened Common
  import AK = ActorKey
  import Timestamps

  // ----- rows and filters -----

  datatype AuditRecord = AuditRecord(
    createdAt: string, sessionId: string, actor: Option<AK.Actor>, source: string, operation: string, provider: string,
    success: bool, payload: string)

  datatype Filter = Filter(
    actorChannel: Option<string>, actorUserId: Option<string>, actorScope: Option<string>, sessionId: Option<string>,
    success: Option<bool>, source: Option<string>, provider: Option<string>,
    dateFrom: Option<string>, dateTo: Option<string>,
    page: Option<nat>, pageSize: Option<nat>)

  datatype Column = ActorChannel | ActorUserId | ActorScope | SessionId | Success | Source | Provider | CreatedAt

  datatype Value = Text(text: string) | Number(n: int) | Null

  function OptionalText(t: Option<string>): Value {
    if t.Some? then Text(t.value) else Null
  }

  /** The column values of a record's row. */
  function Cell(r: AuditRecord, c: Column): Value {
    match c
    case ActorChannel => OptionalText(if r.actor.Some? then Some(r.actor.value.channel) else None)
    case ActorUserId => OptionalText(if r.actor.Some? then Some(r.actor.value.userId) else None)
    case ActorScope => OptionalText(if r.actor.Some? then r.actor.value.scope else None)
    case SessionId => Text(r.sessionId)
    case Success => Number(if r.success then 1 else 0)
    case Source => Text(r.source)
    case Provider => Text(r.provider)
    case CreatedAt => Text(r.createdAt)
  }

  // ----- what the filters mean -----

  predicate Wants<T(==)>(filter: Option<T>, value: Option<T>) {
    filter.None? || filter == value
  }

  predicate ActorMatches(f: Filter, r: AuditRecord) {
    && Wants(f.actorChannel, if r.actor.Some? then Some(r.actor.value.channel) else None)
    && Wants(f.actorUserId, if r.actor.Some? then Some(r.actor.value.userId) else None)
    && Wants(f.actorScope, if r.actor.Some? then r.actor.value.scope else None)
  }

  predicate CallMatches(f: Filter, r: AuditRecord) {
    Wants(f.sessionId, Some(r.sessionId)) && Wants(f.success, Some(r.success)) && Wants(f.source, Some(r.source))
  }

  predicate RestMatches(f: Filter, r: AuditRecord) {
    && Wants(f.provider, Some(r.provider))
    && (f.dateFrom.Some? ==> !Timestamps.Less(r.createdAt, f.dateFrom.value))
    && (f.dateTo.Some? ==> !Timestamps.Less(f.dateTo.value, r.createdAt))
  }

  /** The conjunction of the filters that are set. A record without actor matches no filter on it. */
  predicate Matches(f: Filter, r: AuditRecord) {
    ActorMatches(f, r) && CallMatches(f, r) && RestMatches(f, r)
  }

  // ----- clauses -----

  datatype Operator = Equal | AtLeast | AtMost

  datatype Clause = Clause(column: Column, operator: Operator, placeholder: nat)

  /** SQL comparison of a cell with a parameter; nothing compares with NULL. */
  predicate Compare(cell: Value, operator: Operator, param: Value) {
    match operator
    case Equal => cell != Null && cell == param
    case AtLeast => cell.Text? && param.Text? && !Timestamps.Less(cell.text, param.text)
    case AtMost => cell.Text? && param.Text? && !Timestamps.Less(param.text, cell.text)
  }

  /** One AND term: the placeholder `?i` stands for the i-th parameter. */
  predicate TermHolds(c: Clause, params: seq<Value>, r: AuditRecord) {
    1 <= c.placeholder <= |params| && Compare(Cell(r, c.column), c.operator, params[c.placeholder - 1])
  }

  predicate Holds(terms: seq<Clause>, params: seq<Value>, r: AuditRecord) {
    terms == [] || (Holds(terms[..|terms| - 1], params, r) && TermHolds(terms[|terms| - 1], params, r))
  }

  /** Term i uses placeholder i, and there are as many parameters as terms. */
  ghost predicate WellBound(terms: seq<Clause>, params: seq<Value>) {
    |terms| == |params| && forall i :: 0 <= i < |terms| ==> terms[i].placeholder == i + 1
  }

  lemma {:induction false} MoreParams(terms: seq<Clause>, params: seq<Value>, extra: Value, r: AuditRecord)
    requires forall i :: 0 <= i < |terms| ==> 1 <= terms[i].placeholder <= |params|
    ensures Holds(terms, params + [extra], r) == Holds(terms, params, r)
  {
    if terms != [] {
      MoreParams(terms[..|terms| - 1], params, extra, r);
    }
  }

  /** Appending a term with the next placeholder and its parameter adds one conjunct. */
  lemma TermAdded(terms: seq<Clause>, params: seq<Value>, column: Column, operator: Operator, param: Value)
    requires WellBound(terms, params)
    ensures var terms' := terms + [Clause(column, operator, |params| + 1)];
            && WellBound(terms', params + [param])
            && (forall r :: Holds(terms', params + [param], r)
                       <==> Holds(terms, params, r) && Compare(Cell(r, column), operator, param))
  {
    var terms' := terms + [Clause(column, operator, |params| + 1)];
    forall r
      ensures Holds(terms', params + [param], r)
         <==> Holds(terms, params, r) && Compare(Cell(r, column), operator, param)
    {
      assert terms'[..|terms|] == terms;
      MoreParams(terms, params, param, r);
    }
  }

  // ----- the builder -----

  const FILTERS := 9

  /** The comparison that the k-th filter asks for, in the order of the builder. */
  function Asked(f: Filter, k: nat): Option<(Column, Operator, Value)> {
    match k
    case 0 => AskedText(ActorChannel, f.actorChannel)
    case 1 => AskedText(ActorUserId, f.actorUserId)
    case 2 => AskedText(ActorScope, f.actorScope)
    case 3 => AskedText(SessionId, f.sessionId)
    case 4 => if f.success.Some? then Some((Success, Equal, Number(if f.success.value then 1 else 0))) else None
    case 5 => AskedText(Source, f.source)
    case 6 => AskedText(Provider, f.provider)
    case 7 => if f.dateFrom.Some? then Some((CreatedAt, AtLeast, Text(f.dateFrom.value))) else None
    case 8 => if f.dateTo.Some? then Some((CreatedAt, AtMost, Text(f.dateTo.value))) else None
    case _ => None
  }

  function AskedText(column: Column, filter: Option<string>): Option<(Column, Operator, Value)> {
    if filter.Some? then Some((column, Equal, Text(filter.value))) else None
  }

  predicate Answers(f: Filter, k: nat, r: AuditRecord) {
    match Asked(f, k)
    case None => true
    case Some((column, operator, param)) => Compare(Cell(r, column), operator, param)
  }

  predicate AnswersFirst(f: Filter, k: nat, r: AuditRecord) {
    k == 0 || (AnswersFirst(f, k - 1, r) && Answers(f, k - 1, r))
  }

  /** The terms hold of a record exactly when it answers the first k filters. */
  ghost predicate Means(terms: seq<Clause>, params: seq<Value>, f: Filter, k: nat) {
    WellBound(terms, params) && forall r :: Holds(terms, params, r) <==> AnswersFirst(f, k, r)
  }

  lemma NextThree(f: Filter, k: nat, r: AuditRecord)
    ensures AnswersFirst(f, k + 3, r)
       <==> AnswersFirst(f, k, r) && Answers(f, k, r) && Answers(f, k + 1, r) && Answers(f, k + 2, r)
  {
    assert AnswersFirst(f, k + 1, r) <==> AnswersFirst(f, k, r) && Answers(f, k, r);
    assert AnswersFirst(f, k + 2, r) <==> AnswersFirst(f, k + 1, r) && Answers(f, k + 1, r);
  }

  lemma ActorFiltersMean(f: Filter, r: AuditRecord)
    ensures Answers(f, 0, r) && Answers(f, 1, r) && Answers(f, 2, r) <==> ActorMatches(f, r)
  {
  }

  lemma CallFiltersMean(f: Filter, r: AuditRecord)
    ensures Answers(f, 3, r) && Answers(f, 4, r) && Answers(f, 5, r) <==> CallMatches(f, r)
  {
  }

  lemma RestFiltersMean(f: Filter, r: AuditRecord)
    ensures Answers(f, 6, r) && Answers(f, 7, r) && Answers(f, 8, r) <==> RestMatches(f, r)
  {
  }

  lemma FiltersMean(f: Filter, r: AuditRecord)
    ensures AnswersFirst(f, FILTERS, r) <==> Matches(f, r)
  {
    NextThree(f, 0, r);
    NextThree(f, 3, r);
    NextThree(f, 6, r);
    ActorFiltersMean(f, r);
    CallFiltersMean(f, r);
    RestFiltersMean(f, r);
  }

  /** The text of both queries, the parameter list and the next placeholder. */
  datatype Draft = Draft(query: seq<Clause>, countQuery: seq<Clause>, params: seq<Value>, paramIdx: nat)

  ghost predicate Drafted(d: Draft, f: Filter, k: nat) {
    d.query == d.countQuery && Means(d.query, d.params, f, k) && d.paramIdx == |d.params| + 1
  }

  /** One block of the builder: nothing when the filter is not set, or one term in both texts and one parameter. */
  method Block(d: Draft, f: Filter, k: nat, column: Column, operator: Operator, value: Option<Value>) returns (e: Draft)
    requires Drafted(d, f, k)
    requires Asked(f, k) == if value.Some? then Some((column, operator, value.value)) else None
    ensures Drafted(e, f, k + 1)
  {
    e := d;
    if value.Some? {
      TermAdded(d.query, d.params, column, operator, value.value);
      e := Draft(d.query + [Clause(column, operator, d.paramIdx)],
                 d.countQuery + [Clause(column, operator, d.paramIdx)],
                 d.params + [value.value], d.paramIdx + 1);
    }
  }

  function TextValue(t: Option<string>): Option<Value> {
    if t.Some? then Some(Text(t.value)) else None
  }

  /** The filters of `list_audit_records`, in its order. The WHERE clauses of the page query and of the count query are
      the same, placeholder i is bound to parameter i, and on every record they hold exactly when all filters do. */
  method BuildWhere(f: Filter) returns (query: seq<Clause>, countQuery: seq<Clause>, params: seq<Value>)
    ensures query == countQuery && WellBound(query, params)
    ensures forall r :: Holds(query, params, r) <==> Matches(f, r)
  {
    var d := Draft([], [], [], 1);
    d := Block(d, f, 0, ActorChannel, Equal, TextValue(f.actorChannel));
    d := Block(d, f, 1, ActorUserId, Equal, TextValue(f.actorUserId));
    d := Block(d, f, 2, ActorScope, Equal, TextValue(f.actorScope));
    d := Block(d, f, 3, SessionId, Equal, TextValue(f.sessionId));
    var success := if f.success.Some? then Some(Number(if f.success.value then 1 else 0)) else None;
    d := Block(d, f, 4, Success, Equal, success);
    d := Block(d, f, 5, Source, Equal, TextValue(f.source));
    d := Block(d, f, 6, Provider, Equal, TextValue(f.provider));
    d := Block(d, f, 7, CreatedAt, AtLeast, TextValue(f.dateFrom));
    d := Block(d, f, 8, CreatedAt, AtMost, TextValue(f.dateTo));
    forall r
      ensures Holds(d.query, d.params, r) <==> Matches(f, r)
    {
      FiltersMean(f, r);
    }
    query, countQuery, params := d.query, d.countQuery, d.params;
  }

  // ----- the page -----

  const U32 := 0x1_0000_0000

  function PageNumber(f: Filter): nat {
    if f.page.Some? && f.page.value > 1 then f.page.value else 1
  }

  function PageSize(f: Filter): (n: nat)
    ensures 1 <= n <= 100
  {
    if f.pageSize.None? then 50
    else if f.pageSize.value < 1 then 1
    else if f.pageSize.value > 100 then 100
    else f.pageSize.value
  }

  /** The offset is computed in 32 bits, where an optimized build wraps. */
  function Offset(f: Filter): nat {
    (PageNumber(f) - 1) * PageSize(f) % U32
  }

  /** The offset is that of the page asked for exactly when it fits in 32 bits. */
  lemma OffsetExactIff(f: Filter)
    ensures Offset(f) == (PageNumber(f) - 1) * PageSize(f) <==> (PageNumber(f) - 1) * PageSize(f) < U32
  {
  }

  /** It need not: this page starts at row 4 again. */
  lemma OffsetCanWrap()
    ensures exists f: Filter ::
              f.page.Some? && f.page.value < U32 && Offset(f) == 4 && (PageNumber(f) - 1) * PageSize(f) > 4
  {
    var f := Filter(None, None, None, None, None, None, None, None, None, Some(42949674), Some(100));
    assert Offset(f) == 4;
  }

  type Rows = map<string, AuditRecord>

  /** Two different rows, of which the second is not newer. */
  ghost predicate NotNewer(rows: Rows, a: string, b: string) {
    a != b && (a in rows && b in rows ==> !Timestamps.Less(rows[a].createdAt, rows[b].createdAt))
  }

  ghost predicate Falling(rows: Rows, order: seq<string>) {
    forall i, j :: 0 <= i < j < |order| ==> NotNewer(rows, order[i], order[j])
  }

  /** An order of the rows, newest first; rows with equal times in any order. */
  ghost predicate NewestFirst(rows: Rows, order: seq<string>) {
    Falling(rows, order) && forall id :: id in rows <==> id in order
  }

  function Select(rows: Rows, order: seq<string>, terms: seq<Clause>, params: seq<Value>): seq<string> {
    if order == [] then []
    else if order[0] in rows && Holds(terms, params, rows[order[0]]) then
      [order[0]] + Select(rows, order[1..], terms, params)
    else Select(rows, order[1..], terms, params)
  }

  /** LIMIT and OFFSET. */
  function Window<T>(s: seq<T>, limit: nat, offset: nat): seq<T> {
    var lo := if offset <= |s| then offset else |s|;
    s[lo..if lo + limit <= |s| then lo + limit else |s|]
  }

  /** The ids of the matching records, in the given order. */
  function MatchingInOrder(rows: Rows, order: seq<string>, f: Filter): seq<string> {
    if order == [] then []
    else if order[0] in rows && Matches(f, rows[order[0]]) then [order[0]] + MatchingInOrder(rows, order[1..], f)
    else MatchingInOrder(rows, order[1..], f)
  }

  lemma {:induction false} SelectIsMatching(rows: Rows, order: seq<string>, terms: seq<Clause>, params: seq<Value>,
                                            f: Filter)
    requires forall r :: Holds(terms, params, r) <==> Matches(f, r)
    ensures Select(rows, order, terms, params) == MatchingInOrder(rows, order, f)
  {
    if order != [] {
      SelectIsMatching(rows, order[1..], terms, params, f);
    }
  }

  ghost function MatchingIds(rows: Rows, f: Filter): set<string> {
    set id | id in rows && Matches(f, rows[id])
  }

  lemma FallingCons(rows: Rows, a: string, rest: seq<string>)
    ensures Falling(rows, [a] + rest) <==> Falling(rows, rest) && forall x :: x in rest ==> NotNewer(rows, a, x)
  {
    var s := [a] + rest;
    if Falling(rows, s) {
      forall i, j | 0 <= i < j < |rest|
        ensures NotNewer(rows, rest[i], rest[j])
      {
        assert rest[i] == s[i + 1] && rest[j] == s[j + 1];
      }
      forall x | x in rest
        ensures NotNewer(rows, a, x)
      {
        var i :| 0 <= i < |rest| && rest[i] == x;
        assert s[0] == a && s[i + 1] == x;
      }
    }
  }

  lemma {:induction false} SelectIsFilter(rows: Rows, order: seq<string>, terms: seq<Clause>, params: seq<Value>)
    ensures forall id :: id in Select(rows, order, terms, params)
                    <==> id in order && id in rows && Holds(terms, params, rows[id])
    ensures Falling(rows, order) ==> Falling(rows, Select(rows, order, terms, params))
  {
    if order != [] {
      var rest := Select(rows, order[1..], terms, params);
      SelectIsFilter(rows, order[1..], terms, params);
      assert order == [order[0]] + order[1..];
      FallingCons(rows, order[0], order[1..]);
      FallingCons(rows, order[0], rest);
    }
  }

  /** `list_audit_records`, given the order in which the engine arranges rows with equal times: the count is the number
      of all matching records, and the page is the window at the offset of the matching records in that order; so it
      holds matching records, newest first, none twice, at most 100. */
  method ListAuditRecords(rows: Rows, order: seq<string>, f: Filter) returns (page: seq<string>, total: nat)
    requires NewestFirst(rows, order)
    ensures total == |MatchingIds(rows, f)| == |MatchingInOrder(rows, order, f)|
    ensures page == Window(MatchingInOrder(rows, order, f), PageSize(f), Offset(f))
    ensures |page| == (if Offset(f) >= total then 0
                       else if Offset(f) + PageSize(f) <= total then PageSize(f)
                       else total - Offset(f))
    ensures forall i :: 0 <= i < |page| ==> page[i] in MatchingIds(rows, f)
    ensures Falling(rows, page)
  {
    var terms, countTerms, params := BuildWhere(f);
    var counted := Select(rows, order, countTerms, params);
    total := |counted|;
    var selected := Select(rows, order, terms, params);
    page := Window(selected, PageSize(f), Offset(f));
    SelectIsMatching(rows, order, terms, params, f);
    SelectIsFilter(rows, order, terms, params);
    SelectedIds(rows, order, f, selected);
  }

  lemma SelectedIds(rows: Rows, order: seq<string>, f: Filter, selected: seq<string>)
    requires NewestFirst(rows, order) && Falling(rows, selected)
    requires forall id :: id in selected <==> id in order && id in rows && Matches(f, rows[id])
    ensures |selected| == |MatchingIds(rows, f)| && forall id :: id in selected ==> id in MatchingIds(rows, f)
  {
    forall i, j | 0 <= i < j < |selected|
      ensures selected[i] != selected[j]
    {
      assert NotNewer(rows, selected[i], selected[j]);
    }
    DistinctCount(selected, MatchingIds(rows, f));
  }
}
