/** The hypotheses of the no-lost-update theorem are needed: without each of them a concrete run loses a call that
    returned Ok. */
module SessionRaces {
  import opened Common
  import opened SessionModel
  import opened SessionProtocol
  import SessionStore

  ghost predicate SomeStep(codec: Codec, s: State, s': State) {
    exists t :: ThreadStep(codec, s, s', t)
  }

  /** A sequence of thread steps, with no hypothesis on the calls that begin. */
  ghost predicate Steps(codec: Codec, run: seq<State>) {
    run != [] && forall i :: 0 <= i < |run| - 1 ==> SomeStep(codec, run[i], run[i + 1])
  }

  lemma Extend(codec: Codec, run: seq<State>, s': State, t: Tid)
    requires Steps(codec, run) && ThreadStep(codec, run[|run| - 1], s', t)
    ensures Steps(codec, run + [s'])
  {
    assert SomeStep(codec, run[|run| - 1], s');
  }

  function Start(backend: Backend, doc: Session): State {
    State(backend, map[doc.id := doc], map[], map[], map[], doc.id, doc, [], None)
  }

  /** A mutator alone: from the call to the point where its document is loaded, under its lock. */
  lemma LockAndLoad(codec: Codec, run: seq<State>, t: Tid, id: Id, m: Mutation) returns (longer: seq<State>)
    requires Steps(codec, run)
    requires var s := run[|run| - 1];
             s.backend.JsonFiles? && PcOf(s, t).Idle? && id !in s.owner && Path(id).Some? && Path(id).value in s.json
    ensures Steps(codec, longer) && longer != [] && longer[0] == run[0]
    ensures var s := run[|run| - 1];
            longer[|longer| - 1] == s.(threads := s.threads[t := Loaded(Mutate(id, m), s.json[Path(id).value])],
                                       owner := s.owner[id := t])
  {
    var s := run[|run| - 1];
    var s1 := At(s, t, Called(Mutate(id, m)));
    assert Begin(s, s1, t);
    Extend(codec, run, s1, t);
    var s2 := At(s1, t, Loading(Mutate(id, m))).(owner := s.owner[id := t]);
    assert Enter(s1, s2, t);
    Extend(codec, run + [s1], s2, t);
    var s3 := At(s2, t, Loaded(Mutate(id, m), s.json[Path(id).value]));
    assert ReadJson(s2, s3, t);
    Extend(codec, run + [s1] + [s2], s3, t);
    assert s3.threads == s.threads[t := Loaded(Mutate(id, m), s.json[Path(id).value])];
    longer := run + [s1] + [s2] + [s3];
  }

  /** Locks go by the id as given, files by its stem. Two spellings of one id take different locks, both load
      the same document, and the second write drops the first call's change although both returned Ok. */
  lemma UntrimmedIdLosesUpdate(codec: Codec, doc: Session, m: Mutation, n: Mutation, spelling: Id)
    returns (run: seq<State>)
    requires Path(doc.id) == Some(doc.id) && spelling != doc.id && Path(spelling) == Some(doc.id)
    requires Apply(codec, m, doc).Some? && Apply(codec, n, doc).Some?
    ensures Steps(codec, run) && run[0] == Start(JsonFiles, doc)
    ensures var end := run[|run| - 1];
            end.log == [m] && Visible(end) == Apply(codec, n, doc)
  {
    run := [Start(JsonFiles, doc)];
    run := LockAndLoad(codec, run, 0, doc.id, m);
    run := LockAndLoad(codec, run, 1, spelling, n);
    var s := run[|run| - 1];
    var s1 := At(s, 0, Stored(Mutate(doc.id, m), Apply(codec, m, doc).value)).(
                  json := s.json[doc.id := Apply(codec, m, doc).value], log := [] + [m]);
    assert WriteJson(codec, s, s1, 0);
    Extend(codec, run, s1, 0);
    var s2 := At(s1, 1, Stored(Mutate(spelling, n), Apply(codec, n, doc).value)).(
                  json := s1.json[doc.id := Apply(codec, n, doc).value]);
    assert WriteJson(codec, s1, s2, 1);
    Extend(codec, run + [s1], s2, 1);
    run := run + [s1] + [s2];
  }

  /** With two batches of messages, the first, though appended with Ok, is missing: the visible document is that of
      neither order of the two calls. */
  lemma UntrimmedIdLosesMessages(codec: Codec, doc: Session, first: seq<Message>, second: seq<Message>,
                                 now: string, later: string, spelling: Id)
    returns (run: seq<State>)
    requires Path(doc.id) == Some(doc.id) && spelling != doc.id && Path(spelling) == Some(doc.id)
    requires first != []
    ensures Steps(codec, run) && run[0] == Start(JsonFiles, doc)
    ensures var end := run[|run| - 1];
            var m, n := Append(first, now), Append(second, later);
            && end.log == [m] && Visible(end).Some? && Visible(end).value.messages == doc.messages + second
            && Visible(end).value != After(codec, n, After(codec, m, doc))
            && Visible(end).value != After(codec, m, After(codec, n, doc))
  {
    run := UntrimmedIdLosesUpdate(codec, doc, Append(first, now), Append(second, later), spelling);
    assert |doc.messages + first + second| > |doc.messages + second|;
    assert |doc.messages + second + first| > |doc.messages + second|;
  }

  /** A load that misses the index: from the call to the point where it is about to backfill. */
  lemma MissAndFallBack(codec: Codec, run: seq<State>, t: Tid, task: Task) returns (longer: seq<State>)
    requires Steps(codec, run) && !task.Create?
    requires var s := run[|run| - 1];
             && s.backend.SqliteIndex? && PcOf(s, t).Idle? && (task.Mutate? ==> task.id !in s.owner)
             && task.id !in s.index && Path(task.id).Some? && Path(task.id).value in s.json
    ensures Steps(codec, longer) && longer != [] && longer[0] == run[0]
    ensures var s := run[|run| - 1];
            longer[|longer| - 1] == s.(threads := s.threads[t := Fallback(task, s.json[Path(task.id).value])],
                                       owner := if task.Mutate? then s.owner[task.id := t] else s.owner)
  {
    var s := run[|run| - 1];
    var s1 := At(s, t, Called(task));
    assert Begin(s, s1, t);
    Extend(codec, run, s1, t);
    var s2 := At(s1, t, Loading(task)).(owner := if task.Mutate? then s.owner[task.id := t] else s.owner);
    assert Enter(s1, s2, t);
    Extend(codec, run + [s1], s2, t);
    var s3 := At(s2, t, Missed(task));
    assert QueryIndex(s2, s3, t);
    Extend(codec, run + [s1] + [s2], s3, t);
    var s4 := At(s3, t, Fallback(task, s.json[Path(task.id).value]));
    assert ReadJson(s3, s4, t);
    Extend(codec, run + [s1] + [s2] + [s3], s4, t);
    assert s4.threads == s.threads[t := Fallback(task, s.json[Path(task.id).value])];
    longer := run + [s1] + [s2] + [s3] + [s4];
  }

  /** A mutator of the watched id that has loaded its document writes the file and upserts: it returns Ok. */
  lemma FinishOk(codec: Codec, run: seq<State>, t: Tid, doc: Session, m: Mutation) returns (longer: seq<State>)
    requires Steps(codec, run) && Path(doc.id) == Some(doc.id) && Apply(codec, m, doc).Some?
    requires var s := run[|run| - 1];
             s.backend.SqliteIndex? && s.id == doc.id && s.log == [] && PcOf(s, t) == Loaded(Mutate(doc.id, m), doc)
    ensures Steps(codec, longer) && longer != [] && longer[0] == run[0]
    ensures var s := run[|run| - 1];
            var changed := Apply(codec, m, doc).value;
            longer[|longer| - 1] == s.(threads := s.threads[t := Leaving(Mutate(doc.id, m))],
                                       json := s.json[doc.id := changed],
                                       index := s.index[doc.id := changed], log := [m], dirty := None)
  {
    AfterKeepsId(codec, m, doc);
    var changed := Apply(codec, m, doc).value;
    var s := run[|run| - 1];
    var s1 := At(s, t, Stored(Mutate(doc.id, m), changed)).(json := s.json[doc.id := changed], dirty := Some(m));
    assert WriteJson(codec, s, s1, t);
    Extend(codec, run, s1, t);
    var s2 := Upserted(At(s1, t, Leaving(Mutate(doc.id, m))), changed).(log := [] + [m], dirty := None);
    assert UpsertIndex(s1, s2, t);
    Extend(codec, run + [s1], s2, t);
    assert s2.threads == s.threads[t := Leaving(Mutate(doc.id, m))];
    longer := run + [s1] + [s2];
  }

  /** In the Sqlite backend with an id that is not indexed yet, a reader's backfill takes no lock: it can overwrite the
      index row of a mutator that has already returned Ok. */
  lemma UnindexedIdLosesUpdate(codec: Codec, doc: Session, m: Mutation) returns (run: seq<State>)
    requires Path(doc.id) == Some(doc.id) && Apply(codec, m, doc).Some?
    ensures Steps(codec, run) && run[0] == Start(SqliteIndex, doc)
    ensures var end := run[|run| - 1];
            && end.log == [m] && end.dirty == None && Visible(end) == Some(doc)
            && end.json == map[doc.id := Apply(codec, m, doc).value]
  {
    run := [Start(SqliteIndex, doc)];
    run := MissAndFallBack(codec, run, 0, Look(doc.id));
    run := MissAndFallBack(codec, run, 1, Mutate(doc.id, m));
    var before := run[|run| - 1];
    var filled := Upserted(At(before, 1, Loaded(Mutate(doc.id, m), doc)), doc);
    assert Backfill(before, filled, 1);
    Extend(codec, run, filled, 1);
    run := FinishOk(codec, run + [filled], 1, doc, m);
    var s := run[|run| - 1];
    var end := Upserted(At(s, 0, Loaded(Look(doc.id), doc)), doc);
    assert Backfill(s, end, 0);
    Extend(codec, run, end, 0);
    run := run + [end];
  }

  function Indexed(doc: Session): State {
    Start(SqliteIndex, doc).(index := map[doc.id := doc])
  }

  /** A mutator of an indexed id: from the call to the point where its document is loaded, under its lock. */
  lemma LockAndQuery(codec: Codec, run: seq<State>, t: Tid, id: Id, m: Mutation) returns (longer: seq<State>)
    requires Steps(codec, run)
    requires var s := run[|run| - 1];
             s.backend.SqliteIndex? && PcOf(s, t).Idle? && id !in s.owner && id in s.index
    ensures Steps(codec, longer) && longer != [] && longer[0] == run[0]
    ensures var s := run[|run| - 1];
            longer[|longer| - 1] == s.(threads := s.threads[t := Loaded(Mutate(id, m), s.index[id])],
                                       owner := s.owner[id := t])
  {
    var s := run[|run| - 1];
    var s1 := At(s, t, Called(Mutate(id, m)));
    assert Begin(s, s1, t);
    Extend(codec, run, s1, t);
    var s2 := At(s1, t, Loading(Mutate(id, m))).(owner := s.owner[id := t]);
    assert Enter(s1, s2, t);
    Extend(codec, run + [s1], s2, t);
    var s3 := At(s2, t, Loaded(Mutate(id, m), s.index[id]));
    assert QueryIndex(s2, s3, t);
    Extend(codec, run + [s1] + [s2], s3, t);
    assert s3.threads == s.threads[t := Loaded(Mutate(id, m), s.index[id])];
    longer := run + [s1] + [s2] + [s3];
  }

  /** A creator of the id, from the call to the point where the file is written and the index is not. */
  lemma CreateFile(codec: Codec, run: seq<State>, t: Tid, doc: Session) returns (longer: seq<State>)
    requires Steps(codec, run) && Path(doc.id) == Some(doc.id) && PcOf(run[|run| - 1], t).Idle?
    ensures Steps(codec, longer) && longer != [] && longer[0] == run[0]
    ensures var s := run[|run| - 1];
            longer[|longer| - 1] == s.(threads := s.threads[t := Stored(Create(doc.id, doc), doc)],
                                       json := s.json[doc.id := doc])
  {
    var s := run[|run| - 1];
    var s1 := At(s, t, Called(Create(doc.id, doc)));
    assert Begin(s, s1, t);
    Extend(codec, run, s1, t);
    var s2 := At(s1, t, Stored(Create(doc.id, doc), doc)).(json := s.json[doc.id := doc]);
    assert WriteNew(s1, s2, t);
    Extend(codec, run + [s1], s2, t);
    assert s2.threads == s.threads[t := Stored(Create(doc.id, doc), doc)];
    longer := run + [s1] + [s2];
  }

  /** The creator's second half, whenever it comes. */
  lemma CreateRow(codec: Codec, run: seq<State>, t: Tid, doc: Session) returns (longer: seq<State>)
    requires Steps(codec, run) && PcOf(run[|run| - 1], t) == Stored(Create(doc.id, doc), doc)
    ensures Steps(codec, longer) && longer != [] && longer[0] == run[0]
    ensures var s := run[|run| - 1];
            longer[|longer| - 1] == s.(threads := s.threads[t := Leaving(Create(doc.id, doc))],
                                       index := s.index[doc.id := doc])
  {
    var s := run[|run| - 1];
    var s1 := Upserted(At(s, t, Leaving(Create(doc.id, doc))), doc);
    assert UpsertIndex(s, s1, t);
    Extend(codec, run, s1, t);
    longer := run + [s1];
  }

  lemma OneDocument(id: Id, before: Session, after: Session)
    ensures map[id := before][id := after] == map[id := after]
  {
  }

  /** A creator takes no lock. Called for a session that exists and is indexed, it can write the file before a mutator
      and the index after it: both calls return Ok, the mutator's change is not visible, and the index shows the new
      document beside a file with the changed old one. */
  lemma CreatorLosesUpdate(codec: Codec, doc: Session, created: Session, m: Mutation) returns (run: seq<State>)
    requires Path(doc.id) == Some(doc.id) && created.id == doc.id && Apply(codec, m, doc).Some?
    ensures Steps(codec, run) && run[0] == Indexed(doc)
    ensures var end := run[|run| - 1];
            && end.log == [m] && end.dirty == None && Visible(end) == Some(created)
            && PcOf(end, 0) == Leaving(Create(doc.id, created)) && PcOf(end, 1) == Leaving(Mutate(doc.id, m))
            && end.json == map[doc.id := Apply(codec, m, doc).value] && end.index == map[doc.id := created]
  {
    run := [Indexed(doc)];
    run := CreateFile(codec, run, 0, created);
    run := LockAndQuery(codec, run, 1, doc.id, m);
    run := FinishOk(codec, run, 1, doc, m);
    var s := run[|run| - 1];
    OneDocument(doc.id, created, Apply(codec, m, doc).value);
    OneDocument(doc.id, doc, Apply(codec, m, doc).value);
    OneDocument(doc.id, Apply(codec, m, doc).value, created);
    assert s.json == map[doc.id := Apply(codec, m, doc).value] == s.index;
    run := CreateRow(codec, run, 0, created);
  }

  /** Unless the two documents are equal, no sequence of calls, one after another, leaves such stores. */
  lemma CreatorRaceIsNotSerial(codec: Codec, doc: Session, created: Session, m: Mutation, calls: seq<SessionStore.Call>)
    returns (run: seq<State>)
    requires Path(doc.id) == Some(doc.id) && created.id == doc.id && Apply(codec, m, doc).Some?
    requires Apply(codec, m, doc).value != created && SessionStore.CleanCalls(calls)
    ensures Steps(codec, run) && run[0] == Indexed(doc) && run[|run| - 1].log == [m]
    ensures var start, end := run[0], run[|run| - 1];
            SessionStore.Exec(codec, SessionStore.SqliteIndex, SessionStore.Stores(start.json, start.index), calls).0
            != SessionStore.Stores(end.json, end.index)
  {
    run := CreatorLosesUpdate(codec, doc, created, m);
    SessionStore.CallsAgree(codec, SessionStore.Stores(run[0].json, run[0].index), calls);
    assert run[|run| - 1].json[doc.id] != run[|run| - 1].index[doc.id];
  }
}
