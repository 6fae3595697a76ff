/** The audit table over time: inserts, the prune after every hundredth write, and the paged export. */
module AuditStore {
  import opened Common
  import opened AuditQuery
  import Timestamps

  // ----- writes and prunes -----

  const PRUNE_EVERY := 100

  /** A reading of the clock: the text of the time so many days ago. */
  type Clock = nat -> string

  datatype Write = Write(id: string, record: AuditRecord, cutoff: string)

  datatype State = State(rows: Rows, writes: nat)

  predicate Keeps(cutoff: string, createdAt: string) {
    !Timestamps.Less(createdAt, cutoff)
  }

  function Pruned(rows: Rows, cutoff: string): Rows {
    map id | id in rows && Keeps(cutoff, rows[id].createdAt) :: rows[id]
  }

  /** `record`: an id that is there already is an error, and is not counted. */
  function Recorded(s: State, w: Write): State {
    if w.id in s.rows then s
    else
      var rows := s.rows[w.id := w.record];
      State(if (s.writes + 1) % PRUNE_EVERY == 0 then Pruned(rows, w.cutoff) else rows, s.writes + 1)
  }

  class LlmAuditStorage {
    var rows: Rows
    var writeCount: nat
    const retentionDays: nat

    /** Opening a store prunes it; a retention of 0 days counts as 1. */
    constructor (existing: Rows, retention: nat, clock: Clock)
      ensures writeCount == 0 && retentionDays == if retention < 1 then 1 else retention
      ensures rows == Pruned(existing, clock(retentionDays))
    {
      retentionDays := if retention < 1 then 1 else retention;
      rows, writeCount := existing, 0;
      new;
      PruneExpired(clock);
    }

    method PruneExpired(clock: Clock)
      modifies this`rows
      ensures rows == Pruned(old(rows), clock(retentionDays))
    {
      var cutoff := clock(retentionDays);
      rows := map id | id in rows && Keeps(cutoff, rows[id].createdAt) :: rows[id];
    }

    method MaybePruneAfterWrite(clock: Clock)
      modifies this
      ensures writeCount == old(writeCount) + 1
      ensures rows == if writeCount % PRUNE_EVERY == 0 then Pruned(old(rows), clock(retentionDays)) else old(rows)
    {
      writeCount := writeCount + 1;
      if writeCount % PRUNE_EVERY == 0 {
        PruneExpired(clock);
      }
    }

    method Record(id: string, record: AuditRecord, clock: Clock) returns (ok: bool)
      modifies this
      ensures State(rows, writeCount) == Recorded(old(State(rows, writeCount)), Write(id, record, clock(retentionDays)))
      ensures ok <==> id !in old(rows)
    {
      if id in rows {
        return false;
      }
      rows := rows[id := record];
      MaybePruneAfterWrite(clock);
      ok := true;
    }
  }

  /** On rendered times a prune keeps exactly what was created at the cutoff or later. */
  lemma PruneDecidesTime(rows: Rows, id: string, created: int, oldest: int)
    requires Timestamps.InRange(created) && Timestamps.InRange(oldest)
    requires id in rows && rows[id].createdAt == Timestamps.Stamp(created)
    ensures id in Pruned(rows, Timestamps.Stamp(oldest)) <==> oldest <= created
  {
    Timestamps.StampOrder(created, oldest);
  }

  // ----- what a run of writes leaves -----

  function After(start: State, log: seq<Write>): State {
    if log == [] then start else Recorded(After(start, log[..|log| - 1]), log[|log| - 1])
  }

  /** Write i was accepted. */
  ghost predicate Accepted(start: State, log: seq<Write>, i: nat) {
    i < |log| && log[i].id !in After(start, log[..i]).rows
  }

  /** Write i was accepted and its prune was due. */
  ghost predicate PrunesAt(start: State, log: seq<Write>, i: nat) {
    Accepted(start, log, i) && (After(start, log[..i]).writes + 1) % PRUNE_EVERY == 0
  }

  ghost predicate SurvivesAt(start: State, log: seq<Write>, createdAt: string, i: nat) {
    PrunesAt(start, log, i) ==> Keeps(log[i].cutoff, createdAt)
  }

  /** No prune from write `from` on had a cutoff after that creation time. */
  ghost predicate Survives(start: State, log: seq<Write>, createdAt: string, from: nat) {
    forall i: nat :: from <= i < |log| ==> SurvivesAt(start, log, createdAt, i)
  }

  /** Write i put record r there, and it survived every prune since. */
  ghost predicate Holder(start: State, log: seq<Write>, id: string, r: AuditRecord, i: nat) {
    Accepted(start, log, i) && log[i].id == id && log[i].record == r && Survives(start, log, r.createdAt, i)
  }

  ghost predicate KeptFromStart(start: State, log: seq<Write>, id: string, r: AuditRecord) {
    id in start.rows && start.rows[id] == r && Survives(start, log, r.createdAt, 0)
  }

  ghost predicate PutByWrite(start: State, log: seq<Write>, id: string, r: AuditRecord) {
    exists i: nat :: Holder(start, log, id, r, i)
  }

  /** The record r of that id was there at the start, or was written, and survived every prune since. */
  ghost predicate Put(start: State, log: seq<Write>, id: string, r: AuditRecord) {
    KeptFromStart(start, log, id, r) || PutByWrite(start, log, id, r)
  }

  lemma SnocAccepted(start: State, log: seq<Write>, i: nat)
    requires i < |log| - 1
    ensures Accepted(start, log[..|log| - 1], i) == Accepted(start, log, i)
    ensures PrunesAt(start, log[..|log| - 1], i) == PrunesAt(start, log, i)
  {
    assert log[..|log| - 1][..i] == log[..i];
  }

  lemma SnocSurvives(start: State, log: seq<Write>, createdAt: string, from: nat)
    requires from < |log|
    ensures Survives(start, log, createdAt, from)
       <==> Survives(start, log[..|log| - 1], createdAt, from) && SurvivesAt(start, log, createdAt, |log| - 1)
  {
    var n := |log| - 1;
    forall i: nat | i < n
      ensures SurvivesAt(start, log[..n], createdAt, i) == SurvivesAt(start, log, createdAt, i)
    {
      SnocAccepted(start, log, i);
    }
  }

  lemma SnocHolder(start: State, log: seq<Write>, id: string, r: AuditRecord, i: nat)
    requires i < |log| - 1
    ensures Holder(start, log, id, r, i)
       <==> Holder(start, log[..|log| - 1], id, r, i) && SurvivesAt(start, log, r.createdAt, |log| - 1)
  {
    SnocAccepted(start, log, i);
    SnocSurvives(start, log, r.createdAt, i);
  }

  ghost predicate WrittenLast(start: State, log: seq<Write>, id: string, r: AuditRecord) {
    log != [] && Accepted(start, log, |log| - 1) && log[|log| - 1].id == id && log[|log| - 1].record == r
  }

  lemma LastHolder(start: State, log: seq<Write>, id: string, r: AuditRecord)
    requires log != []
    ensures Holder(start, log, id, r, |log| - 1)
       <==> WrittenLast(start, log, id, r) && SurvivesAt(start, log, r.createdAt, |log| - 1)
  {
    SnocSurvives(start, log, r.createdAt, |log| - 1);
  }

  lemma SnocHolders(start: State, log: seq<Write>, id: string, r: AuditRecord)
    requires log != []
    ensures PutByWrite(start, log, id, r)
       <==> && (PutByWrite(start, log[..|log| - 1], id, r) || WrittenLast(start, log, id, r))
            && SurvivesAt(start, log, r.createdAt, |log| - 1)
  {
    var n := |log| - 1;
    LastHolder(start, log, id, r);
    forall i: nat | i < n
      ensures Holder(start, log, id, r, i)
         <==> Holder(start, log[..n], id, r, i) && SurvivesAt(start, log, r.createdAt, n)
    {
      SnocHolder(start, log, id, r, i);
    }
  }

  lemma SnocKept(start: State, log: seq<Write>, id: string, r: AuditRecord)
    requires log != []
    ensures KeptFromStart(start, log, id, r)
       <==> KeptFromStart(start, log[..|log| - 1], id, r) && SurvivesAt(start, log, r.createdAt, |log| - 1)
  {
    SnocSurvives(start, log, r.createdAt, 0);
  }

  ghost predicate RowIs(rows: Rows, id: string, r: AuditRecord) {
    id in rows && rows[id] == r
  }

  /** The effect of the last write on one row. */
  lemma OneMoreWrite(start: State, log: seq<Write>, id: string, r: AuditRecord)
    requires log != []
    ensures RowIs(After(start, log).rows, id, r)
       <==> (RowIs(After(start, log[..|log| - 1]).rows, id, r) || WrittenLast(start, log, id, r))
            && SurvivesAt(start, log, r.createdAt, |log| - 1)
  {
  }

  /** After any run the row of an id is r exactly when r was there at the start, or an accepted write put it there, and
      no prune since had a cutoff after its creation. */
  lemma {:induction false} RowsAreHistory(start: State, log: seq<Write>, id: string, r: AuditRecord)
    ensures RowIs(After(start, log).rows, id, r) <==> Put(start, log, id, r)
  {
    if log != [] {
      RowsAreHistory(start, log[..|log| - 1], id, r);
      OneMoreWrite(start, log, id, r);
      SnocKept(start, log, id, r);
      SnocHolders(start, log, id, r);
    }
  }

  /** How many of the first n writes were accepted. */
  ghost function AcceptedAmong(start: State, log: seq<Write>, n: nat): nat
    requires n <= |log|
  {
    if n == 0 then 0 else AcceptedAmong(start, log, n - 1) + if Accepted(start, log, n - 1) then 1 else 0
  }

  lemma {:induction false} WritesAreCounted(start: State, log: seq<Write>, n: nat)
    requires start.writes == 0 && n <= |log|
    ensures After(start, log[..n]).writes == AcceptedAmong(start, log, n)
  {
    if n > 0 {
      WritesAreCounted(start, log, n - 1);
      assert log[..n][..n - 1] == log[..n - 1];
    }
  }

  /** After opening a store, exactly every hundredth accepted write prunes. */
  lemma EveryHundredthPrunes(start: State, log: seq<Write>, i: nat)
    requires start.writes == 0 && i < |log|
    ensures PrunesAt(start, log, i) <==> Accepted(start, log, i) && AcceptedAmong(start, log, i + 1) % 100 == 0
  {
    WritesAreCounted(start, log, i);
  }

  // ----- how many stale rows there can be -----

  /** The ids accepted since the last prune. */
  ghost function Unpruned(start: State, log: seq<Write>): set<string> {
    if log == [] || PrunesAt(start, log, |log| - 1) then {}
    else if Accepted(start, log, |log| - 1) then Unpruned(start, log[..|log| - 1]) + {log[|log| - 1].id}
    else Unpruned(start, log[..|log| - 1])
  }

  /** The cutoff of the last prune; the store was pruned at `initial` when it was opened. */
  ghost function LastCutoff(start: State, log: seq<Write>, initial: string): string {
    if log == [] then initial
    else if PrunesAt(start, log, |log| - 1) then log[|log| - 1].cutoff
    else LastCutoff(start, log[..|log| - 1], initial)
  }

  lemma NextRemainder(n: nat)
    ensures (n + 1) % PRUNE_EVERY == 0 || (n + 1) % PRUNE_EVERY == n % PRUNE_EVERY + 1
  {
  }

  lemma {:induction false} UnprunedCount(start: State, log: seq<Write>)
    requires start.writes == 0
    ensures |Unpruned(start, log)| <= After(start, log).writes % PRUNE_EVERY
  {
    if log != [] {
      var init := log[..|log| - 1];
      UnprunedCount(start, init);
      NextRemainder(After(start, init).writes);
      assert After(start, log).writes == After(start, init).writes + if Accepted(start, log, |log| - 1) then 1 else 0;
    }
  }

  lemma {:induction false} StaleIsUnpruned(start: State, log: seq<Write>, initial: string, id: string)
    requires forall id :: id in start.rows ==> Keeps(initial, start.rows[id].createdAt)
    ensures id in After(start, log).rows && id !in Unpruned(start, log)
        ==> Keeps(LastCutoff(start, log, initial), After(start, log).rows[id].createdAt)
  {
    if log != [] {
      StaleIsUnpruned(start, log[..|log| - 1], initial, id);
    }
  }

  /** In a store opened with a prune, at every point at most 99 rows are from before the last prune's cutoff. */
  lemma FewStaleRows(start: State, log: seq<Write>, initial: string)
    requires start.writes == 0 && forall id :: id in start.rows ==> Keeps(initial, start.rows[id].createdAt)
    ensures |Unpruned(start, log)| < 100
    ensures forall id :: id in After(start, log).rows && id !in Unpruned(start, log)
                     ==> Keeps(LastCutoff(start, log, initial), After(start, log).rows[id].createdAt)
  {
    UnprunedCount(start, log);
    forall id | id in After(start, log).rows && id !in Unpruned(start, log)
      ensures Keeps(LastCutoff(start, log, initial), After(start, log).rows[id].createdAt)
    {
      StaleIsUnpruned(start, log, initial, id);
    }
  }

  // ----- the paged export -----

  /** ORDER BY created_at, id. */
  predicate RowBefore(rows: Rows, a: string, b: string)
    requires a in rows && b in rows
  {
    || Timestamps.Less(rows[a].createdAt, rows[b].createdAt)
    || (rows[a].createdAt == rows[b].createdAt && Timestamps.Less(a, b))
  }

  lemma RowOrder(rows: Rows, a: string, b: string, c: string)
    requires a in rows && b in rows && c in rows
    ensures !(RowBefore(rows, a, b) && RowBefore(rows, b, a))
    ensures a == b || RowBefore(rows, a, b) || RowBefore(rows, b, a)
    ensures RowBefore(rows, a, b) && RowBefore(rows, b, c) ==> RowBefore(rows, a, c)
  {
    Timestamps.LessIsTotalOrder(rows[a].createdAt, rows[b].createdAt, rows[c].createdAt);
    Timestamps.LessIsTotalOrder(a, b, c);
  }

  predicate IsFirst(rows: Rows, ids: set<string>, m: string)
    requires ids <= rows.Keys
  {
    m in ids && forall id :: id in ids ==> id == m || RowBefore(rows, m, id)
  }

  lemma {:induction false} HasFirst(rows: Rows, ids: set<string>)
    requires ids <= rows.Keys && ids != {}
    ensures exists m :: IsFirst(rows, ids, m)
    decreases ids
  {
    var m :| m in ids;
    if ids == {m} {
      assert IsFirst(rows, ids, m);
    } else {
      HasFirst(rows, ids - {m});
      var n :| IsFirst(rows, ids - {m}, n);
      RowOrder(rows, m, n, n);
      if RowBefore(rows, n, m) {
        assert IsFirst(rows, ids, n);
      } else {
        forall id | id in ids
          ensures id == m || RowBefore(rows, m, id)
        {
          RowOrder(rows, m, n, id);
        }
        assert IsFirst(rows, ids, m);
      }
    }
  }

  lemma FirstIsUnique(rows: Rows, ids: set<string>, m: string, n: string)
    requires ids <= rows.Keys && IsFirst(rows, ids, m) && IsFirst(rows, ids, n)
    ensures m == n
  {
    RowOrder(rows, m, n, n);
  }

  function First(rows: Rows, ids: set<string>): (m: string)
    requires ids <= rows.Keys && ids != {}
    ensures IsFirst(rows, ids, m)
  {
    HasFirst(rows, ids);
    assert forall m, n :: IsFirst(rows, ids, m) && IsFirst(rows, ids, n) ==> m == n by {
      forall m, n | IsFirst(rows, ids, m) && IsFirst(rows, ids, n) ensures m == n { FirstIsUnique(rows, ids, m, n); }
    }
    var m :| m in ids && IsFirst(rows, ids, m);
    m
  }

  /** All ids in the order of the export. */
  function ExportOrder(rows: Rows, ids: set<string>): seq<string>
    requires ids <= rows.Keys
    decreases ids
  {
    if ids == {} then [] else [First(rows, ids)] + ExportOrder(rows, ids - {First(rows, ids)})
  }

  ghost predicate InOrder(rows: Rows, order: seq<string>) {
    && (forall i :: 0 <= i < |order| ==> order[i] in rows)
    && (forall i, j :: 0 <= i < j < |order| ==> RowBefore(rows, order[i], order[j]))
  }

  lemma FirstInOrder(rows: Rows, ids: set<string>, m: string, rest: seq<string>)
    requires ids <= rows.Keys && IsFirst(rows, ids, m)
    requires InOrder(rows, rest) && (forall id :: id in rest <==> id in ids - {m}) && |rest| == |ids - {m}|
    ensures InOrder(rows, [m] + rest)
    ensures (forall id :: id in [m] + rest <==> id in ids) && |[m] + rest| == |ids|
  {
    var order := [m] + rest;
    assert forall i :: 0 < i < |order| ==> order[i] == rest[i - 1] && order[i] in rest;
  }

  lemma {:induction false} ExportOrderIsSorted(rows: Rows, ids: set<string>)
    requires ids <= rows.Keys
    ensures var order := ExportOrder(rows, ids);
            InOrder(rows, order) && (forall id :: id in order <==> id in ids) && |order| == |ids|
    decreases ids
  {
    if ids != {} {
      var m := First(rows, ids);
      ExportOrderIsSorted(rows, ids - {m});
      FirstInOrder(rows, ids, m, ExportOrder(rows, ids - {m}));
    }
  }

  function RecordsOf(rows: Rows, ids: seq<string>): seq<(string, AuditRecord)>
    requires forall i :: 0 <= i < |ids| ==> ids[i] in rows
  {
    seq(|ids|, i requires 0 <= i < |ids| => (ids[i], rows[ids[i]]))
  }

  /** The records of the table in the order of the export. */
  function Exported(rows: Rows): seq<(string, AuditRecord)> {
    ExportOrderIsSorted(rows, rows.Keys);
    RecordsOf(rows, ExportOrder(rows, rows.Keys))
  }

  lemma WindowOfRecords(rows: Rows, ids: seq<string>, limit: nat, offset: nat)
    requires forall i :: 0 <= i < |ids| ==> ids[i] in rows
    ensures forall i :: 0 <= i < |Window(ids, limit, offset)| ==> Window(ids, limit, offset)[i] in rows
    ensures Window(RecordsOf(rows, ids), limit, offset) == RecordsOf(rows, Window(ids, limit, offset))
  {
  }

  /** The record of each id, one query after another. */
  method FetchAll(rows: Rows, ids: seq<string>) returns (records: seq<(string, AuditRecord)>)
    requires forall i :: 0 <= i < |ids| ==> ids[i] in rows
    ensures records == RecordsOf(rows, ids)
  {
    records := [];
    for i := 0 to |ids|
      invariant |records| == i && forall j :: 0 <= j < i ==> records[j] == (ids[j], rows[ids[j]])
    {
      if ids[i] in rows {
        records := records + [(ids[i], rows[ids[i]])];
      }
    }
  }

  /** `export_records_page`: first the ids of the page, then the record of each. */
  method ExportRecordsPage(rows: Rows, limit: nat, offset: nat) returns (records: seq<(string, AuditRecord)>)
    ensures records == Window(Exported(rows), limit, offset)
  {
    ExportOrderIsSorted(rows, rows.Keys);
    var ids := Window(ExportOrder(rows, rows.Keys), limit, offset);
    WindowOfRecords(rows, ExportOrder(rows, rows.Keys), limit, offset);
    records := FetchAll(rows, ids);
  }

  lemma NextWindow<T>(s: seq<T>, limit: nat, offset: nat)
    requires offset <= |s|
    ensures var w := Window(s, limit, offset);
            && |w| == (if offset + limit <= |s| then limit else |s| - offset)
            && s[..offset] + w == s[..offset + |w|]
  {
  }

  const BATCH_SIZE := 500

  /** `import_llm_audit`, on a table that does not change: the batches that it hands on are the pages, and together all
      records in order. */
  method ImportLlmAudit(rows: Rows) returns (visited: seq<(string, AuditRecord)>, batches: nat)
    ensures visited == Exported(rows)
    ensures batches == (|visited| + 499) / 500
  {
    var offset := 0;
    visited, batches := [], 0;
    ghost var all := Exported(rows);
    while true
      invariant offset <= |all| && visited == all[..offset] && offset == batches * BATCH_SIZE
      decreases |all| - offset
    {
      var records := ExportRecordsPage(rows, BATCH_SIZE, offset);
      NextWindow(all, BATCH_SIZE, offset);
      if records == [] {
        break;
      }
      visited := visited + records;
      batches := batches + 1;
      offset := offset + |records|;
      if |records| < BATCH_SIZE {
        break;
      }
    }
  }

  /** The export visits every record exactly once, in the order of (created_at, id). */
  lemma ExportVisitsEachOnce(rows: Rows)
    ensures |Exported(rows)| == |rows|
    ensures forall i :: 0 <= i < |Exported(rows)| ==>
              Exported(rows)[i].0 in rows && Exported(rows)[i].1 == rows[Exported(rows)[i].0]
    ensures forall i, j :: 0 <= i < j < |Exported(rows)| ==> RowBefore(rows, Exported(rows)[i].0, Exported(rows)[j].0)
    ensures forall i, j :: 0 <= i < j < |Exported(rows)| ==> Exported(rows)[i].0 != Exported(rows)[j].0
    ensures forall id :: id in rows ==> (id, rows[id]) in Exported(rows)
  {
    var order := ExportOrder(rows, rows.Keys);
    ExportOrderIsSorted(rows, rows.Keys);
    forall i, j | 0 <= i < j < |order|
      ensures order[i] != order[j]
    {
      RowOrder(rows, order[i], order[j], order[j]);
    }
    forall id | id in rows
      ensures (id, rows[id]) in Exported(rows)
    {
      var i :| 0 <= i < |order| && order[i] == id;
      assert Exported(rows)[i] == (id, rows[id]);
    }
  }

  /** That order is by creation time, and by id where times are equal. */
  lemma ExportIsByTime(rows: Rows, i: nat, j: nat)
    requires i < j < |Exported(rows)|
    ensures var x, y := Exported(rows)[i], Exported(rows)[j];
            || Timestamps.Less(x.1.createdAt, y.1.createdAt)
            || (x.1.createdAt == y.1.createdAt && Timestamps.Less(x.0, y.0))
  {
    ExportVisitsEachOnce(rows);
  }
}
