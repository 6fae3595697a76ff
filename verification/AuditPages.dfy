/** The pages of the audit list: which page a filter asks for, and that successive pages are the whole answer. */
module AuditPages {
  import opened Common
  import opened AuditQuery
  import Timestamps

  /** Without a page, or with page 0, the first is shown; without a size, 50 records; sizes are cut to 1 to 100. */
  lemma PageAsked(f: Filter)
    ensures PageNumber(f) == (if f.page.None? || f.page.value == 0 then 1 else f.page.value)
    ensures PageSize(f) == (if f.pageSize.None? then 50
                            else if f.pageSize.value == 0 then 1
                            else if f.pageSize.value <= 100 then f.pageSize.value
                            else 100)
  {
  }

  function PageOf(f: Filter, p: nat): Filter {
    f.(page := Some(p))
  }

  /** The first n pages of a list, one behind the other. */
  function Pages<T>(s: seq<T>, f: Filter, n: nat): seq<T> {
    if n == 0 then [] else Pages(s, f, n - 1) + Window(s, PageSize(PageOf(f, n)), Offset(PageOf(f, n)))
  }

  lemma NextOffset(f: Filter, n: nat)
    requires n > 0 && (n - 1) * PageSize(f) < 0x1_0000_0000
    ensures Offset(PageOf(f, n)) == (n - 1) * PageSize(f) && PageSize(PageOf(f, n)) == PageSize(f)
  {
    OffsetExactIff(PageOf(f, n));
  }

  lemma NextPage<T>(s: seq<T>, size: nat, from: nat)
    ensures (if from <= |s| then s[..from] else s) + Window(s, size, from)
         == if from + size <= |s| then s[..from + size] else s
  {
    if from <= |s| {
      var to := if from + size <= |s| then from + size else |s|;
      assert s[..from] + s[from..to] == s[..to];
      assert s[..|s|] == s;
    } else {
      assert s + [] == s;
    }
  }

  /** As long as offsets fit in 32 bits, the first n pages are the first n times the page size records of the answer:
      every record on one page, in order, none missing. */
  lemma {:induction false} PagesAreAnswer<T>(s: seq<T>, f: Filter, n: nat)
    requires n * PageSize(f) < 0x1_0000_0000
    ensures Pages(s, f, n) == if n * PageSize(f) <= |s| then s[..n * PageSize(f)] else s
  {
    if n > 0 {
      assert n * PageSize(f) == (n - 1) * PageSize(f) + PageSize(f);
      PagesAreAnswer(s, f, n - 1);
      NextOffset(f, n);
      NextPage(s, PageSize(f), (n - 1) * PageSize(f));
    }
  }

  // ----- which records, and in which order -----

  /** A filter on the actor wants the same text, and so an actor. */
  predicate ActorWanted(f: Filter, r: AuditRecord) {
    && (f.actorChannel.Some? ==> r.actor.Some? && r.actor.value.channel == f.actorChannel.value)
    && (f.actorUserId.Some? ==> r.actor.Some? && r.actor.value.userId == f.actorUserId.value)
    && (f.actorScope.Some? ==> r.actor.Some? && r.actor.value.scope == f.actorScope)
  }

  predicate CallWanted(f: Filter, r: AuditRecord) {
    && (f.sessionId.Some? ==> r.sessionId == f.sessionId.value) && (f.source.Some? ==> r.source == f.source.value)
    && (f.provider.Some? ==> r.provider == f.provider.value) && (f.success.Some? ==> r.success == f.success.value)
  }

  /** A record matches when it has all values that are asked for and its time lies between the dates, inclusive. */
  lemma MatchMeaning(f: Filter, r: AuditRecord)
    ensures Matches(f, r) <==>
            && ActorWanted(f, r) && CallWanted(f, r)
            && (f.dateFrom.Some? ==> f.dateFrom.value == r.createdAt || Timestamps.Less(f.dateFrom.value, r.createdAt))
            && (f.dateTo.Some? ==> r.createdAt == f.dateTo.value || Timestamps.Less(r.createdAt, f.dateTo.value))
  {
    if f.dateFrom.Some? {
      Timestamps.LessIsTotalOrder(f.dateFrom.value, r.createdAt, "");
    }
    if f.dateTo.Some? {
      Timestamps.LessIsTotalOrder(r.createdAt, f.dateTo.value, "");
    }
  }

  /** On rendered times that is a window of time. */
  lemma DatesAreInclusive(f: Filter, r: AuditRecord, after: int, at: int, before: int)
    requires Timestamps.InRange(after) && Timestamps.InRange(at) && Timestamps.InRange(before)
    requires f.dateFrom == Some(Timestamps.Stamp(after)) && f.dateTo == Some(Timestamps.Stamp(before))
    requires r.createdAt == Timestamps.Stamp(at)
    ensures Matches(f, r) <==> ActorWanted(f, r) && CallWanted(f, r) && after <= at <= before
  {
    MatchMeaning(f, r);
    Timestamps.StampOrder(after, at);
    Timestamps.StampOrder(at, before);
  }

  /** What a page shows falls in time, and shows nothing twice. */
  lemma PageFalls(rows: Rows, page: seq<string>, i: nat, j: nat)
    requires Falling(rows, page) && i < j < |page| && page[i] in rows && page[j] in rows
    ensures page[i] != page[j]
    ensures rows[page[j]].createdAt == rows[page[i]].createdAt
            || Timestamps.Less(rows[page[j]].createdAt, rows[page[i]].createdAt)
  {
    assert NotNewer(rows, page[i], page[j]);
    Timestamps.LessIsTotalOrder(rows[page[i]].createdAt, rows[page[j]].createdAt, "");
  }
}
