/** Session operations run by any number of threads over JSON files and an index.
    Mutators run load, change and write under the lock of their session id; readers and creators take no lock.
    Every file read or write and every index query or upsert may fail, and the process may restart at any moment.
    The state watches one session id and keeps a ledger of the calls on it that returned Ok. */
module SessionProtocol {
  import opened Common
  import opened SessionModel

  type Tid = nat

  datatype Backend = JsonFiles | SqliteIndex

  datatype Task = Mutate(id: Id, m: Mutation) | Look(id: Id) | Create(id: Id, doc: Session)

  datatype Pc =
    | Idle
    | Called(task: Task)
    | Loading(task: Task)                    // inside load_session; a mutator holds its lock from here on
    | Missed(task: Task)                     // the index has no such row
    | Fallback(task: Task, doc: Session)     // read from JSON, about to backfill the index
    | Loaded(task: Task, doc: Session)
    | Stored(task: Task, doc: Session)       // JSON written, index not yet
    | Leaving(task: Task)

  /** Locks and index rows go by the id as given, files by its validated stem. */
  datatype State = State(
    backend: Backend,
    json: map<Id, Session>,
    index: map<Id, Session>,
    owner: map<Id, Tid>,
    threads: map<Tid, Pc>,
    id: Id,                       // the watched session
    base: Session,                // its document at the start, or at the last restart that backfilled it
    log: seq<Mutation>,           // the mutators of it that returned Ok since then, in the order of their effects
    dirty: Option<Mutation>)      // written to JSON, and not (yet) to the index

  /** Threads come into being idle. */
  function PcOf(s: State, t: Tid): Pc {
    if t in s.threads then s.threads[t] else Idle
  }

  function At(s: State, t: Tid, pc: Pc): State {
    s.(threads := s.threads[t := pc])
  }

  function Upserted(s: State, doc: Session): State {
    s.(index := s.index[doc.id := doc])
  }

  // ----- steps -----

  ghost predicate Begin(s: State, s': State, t: Tid) {
    PcOf(s, t).Idle? && exists task :: s' == At(s, t, Called(task))
  }

  predicate Enter(s: State, s': State, t: Tid) {
    && PcOf(s, t).Called?
    && var task := PcOf(s, t).task;
       match task
       case Mutate(id, _) => id !in s.owner && s' == At(s, t, Loading(task)).(owner := s.owner[id := t])
       case Look(_) => s' == At(s, t, Loading(task))
       case Create(_, _) => false
  }

  predicate Abandon(s: State, s': State, t: Tid) {
    var pc := PcOf(s, t);
    && (pc.Loading? || pc.Missed? || pc.Loaded? || pc.Stored? || (pc.Called? && pc.task.Create?))
    && s' == At(s, t, Leaving(pc.task))
  }

  predicate QueryIndex(s: State, s': State, t: Tid) {
    && PcOf(s, t).Loading? && s.backend.SqliteIndex?
    && var task := PcOf(s, t).task;
       s' == At(s, t, if task.id in s.index then Loaded(task, s.index[task.id]) else Missed(task))
  }

  predicate ReadJson(s: State, s': State, t: Tid) {
    && (PcOf(s, t).Missed? || (PcOf(s, t).Loading? && s.backend.JsonFiles?))
    && var task := PcOf(s, t).task;
       var path := Path(task.id);
       s' == At(s, t, if path.None? || path.value !in s.json then Leaving(task)
                      else if s.backend.SqliteIndex? then Fallback(task, s.json[path.value])
                      else Loaded(task, s.json[path.value]))
  }

  predicate Backfill(s: State, s': State, t: Tid) {
    && PcOf(s, t).Fallback?
    && var next := At(s, t, Loaded(PcOf(s, t).task, PcOf(s, t).doc));
       s' == Upserted(next, PcOf(s, t).doc) || s' == next
  }

  /** A mutator that changes nothing returns Ok without writing. */
  predicate KeepDocument(codec: Codec, s: State, s': State, t: Tid) {
    && PcOf(s, t).Loaded? && PcOf(s, t).task.Mutate? && Apply(codec, PcOf(s, t).task.m, PcOf(s, t).doc).None?
    && var task := PcOf(s, t).task;
       s' == At(s, t, Leaving(task)).(log := if task.id == s.id then s.log + [task.m] else s.log)
  }

  predicate WriteJson(codec: Codec, s: State, s': State, t: Tid) {
    && PcOf(s, t).Loaded? && PcOf(s, t).task.Mutate? && Apply(codec, PcOf(s, t).task.m, PcOf(s, t).doc).Some?
    && Path(PcOf(s, t).task.id).Some?
    && var task := PcOf(s, t).task;
       var doc := Apply(codec, task.m, PcOf(s, t).doc).value;
       var next := At(s, t, Stored(task, doc)).(json := s.json[Path(task.id).value := doc]);
       s' == if task.id != s.id then next
             else if s.backend.JsonFiles? then next.(log := s.log + [task.m])
             else next.(dirty := Some(task.m))
  }

  predicate WriteNew(s: State, s': State, t: Tid) {
    && PcOf(s, t).Called? && PcOf(s, t).task.Create? && Path(PcOf(s, t).task.id).Some?
    && var task := PcOf(s, t).task;
       s' == At(s, t, Stored(task, task.doc)).(json := s.json[Path(task.id).value := task.doc])
  }

  /** In the Sqlite backend this makes the call Ok; in the Json backend it is the best-effort shadow write. */
  predicate UpsertIndex(s: State, s': State, t: Tid) {
    && PcOf(s, t).Stored?
    && var task := PcOf(s, t).task;
       var next := Upserted(At(s, t, Leaving(task)), PcOf(s, t).doc);
       s' == if task.Mutate? && task.id == s.id && s.backend.SqliteIndex?
             then next.(log := s.log + [task.m], dirty := None)
             else next
  }

  predicate Release(s: State, s': State, t: Tid) {
    && (PcOf(s, t).Leaving? || (PcOf(s, t).Loaded? && PcOf(s, t).task.Look?))
    && var task := PcOf(s, t).task;
       s' == At(s, t, Idle).(owner := if task.Mutate? then s.owner - {task.id} else s.owner)
  }

  ghost predicate ThreadStep(codec: Codec, s: State, s': State, t: Tid) {
    (|| Begin(s, s', t) || Enter(s, s', t) || Abandon(s, s', t) || QueryIndex(s, s', t) || ReadJson(s, s', t)
        || Backfill(s, s', t) || KeepDocument(codec, s, s', t) || WriteJson(codec, s, s', t) || WriteNew(s, s', t)
        || UpsertIndex(s, s', t) || Release(s, s', t))
  }

  /** The rows that startup backfill writes for the files it could read and upsert. */
  function Healed(s: State, files: set<Id>): map<Id, Session> {
    s.index + map p | p in files && p in s.json :: s.json[p]
  }

  function Restarted(s: State, files: set<Id>): State {
    var next := s.(threads := map[], owner := map[], index := Healed(s, files));
    if s.backend.SqliteIndex? && s.id in files && s.id in s.json then
      next.(base := s.json[s.id], log := [], dirty := None)
    else next
  }

  /** The process ends at any moment, in the middle of any calls, and starts again. */
  ghost predicate Restart(s: State, s': State) {
    exists files: set<Id> :: s' == Restarted(s, files)
  }

  // ----- hypotheses of the no-lost-update theorem -----

  /** Callers pass ids that are their own file stems, new documents carry the id they are created under, and nobody
      creates the watched session. */
  predicate Fits(s: State, task: Task) {
    Path(task.id) == Some(task.id) && (task.Create? ==> task.doc.id == task.id && task.id != s.id)
  }

  ghost predicate Next(codec: Codec, s: State, s': State) {
    || Restart(s, s')
    || exists t :: ThreadStep(codec, s, s', t) && (PcOf(s', t).Called? ==> Fits(s, PcOf(s', t).task))
  }

  /** All threads idle, file names match document ids, and the watched session is stored and (if used) indexed. */
  ghost predicate Initial(s: State) {
    && (forall t :: PcOf(s, t).Idle?)
    && NamesMatch(s.json) && NamesMatch(s.index) && Path(s.id) == Some(s.id)
    && s.id in s.json && s.json[s.id] == s.base && s.log == [] && s.dirty.None?
    && (s.backend.SqliteIndex? ==> s.id in s.index && s.index[s.id] == s.base)
  }

  ghost predicate Run(codec: Codec, run: seq<State>) {
    run != [] && Initial(run[0]) && forall i :: 0 <= i < |run| - 1 ==> Next(codec, run[i], run[i + 1])
  }

  // ----- the invariant -----

  /** What `load_session` finds for the watched session. */
  function Visible(s: State): Option<Session> {
    if s.backend.SqliteIndex? then (if s.id in s.index then Some(s.index[s.id]) else None)
    else if s.id in s.json then Some(s.json[s.id]) else None
  }

  predicate InSection(pc: Pc) {
    !pc.Idle? && !pc.Called? && pc.task.Mutate?
  }

  ghost predicate ThreadOk(codec: Codec, s: State, t: Tid) {
    var pc := PcOf(s, t);
    && (!pc.Idle? ==> Fits(s, pc.task))
    && (InSection(pc) ==> pc.task.id in s.owner && s.owner[pc.task.id] == t)
    && (pc.Fallback? || pc.Loaded? || pc.Stored? ==> pc.doc.id == pc.task.id)
    && (pc.Stored? ==> !pc.task.Look?)
    && (!pc.Idle? && pc.task.id == s.id ==> !pc.Missed? && !pc.Fallback?)
    && (pc.Loaded? && pc.task.Mutate? && pc.task.id == s.id ==> Some(pc.doc) == Visible(s))
    && (pc.Stored? && pc.task.id == s.id ==>
          && s.id in s.json && pc.doc == s.json[s.id]
          && (s.backend.SqliteIndex? ==> pc.task.Mutate? && s.dirty == Some(pc.task.m)))
  }

  ghost predicate Inv(codec: Codec, s: State) {
    && NamesMatch(s.json) && NamesMatch(s.index) && Path(s.id) == Some(s.id) && s.id in s.json
    && Visible(s) == Some(Fold(codec, s.base, s.log))
    && (s.backend.SqliteIndex? ==>
          s.json[s.id] == if s.dirty.None? then Visible(s).value else After(codec, s.dirty.value, Visible(s).value))
    && forall t :: ThreadOk(codec, s, t)
  }

  /** A step of t under which the watched session, and what the others know of it, stays as it is. */
  lemma QuietStep(codec: Codec, s: State, s': State, t: Tid)
    requires Inv(codec, s) && forall u :: u != t ==> PcOf(s', u) == PcOf(s, u)
    requires s'.backend == s.backend && s'.id == s.id && s'.base == s.base && s'.dirty == s.dirty
    requires Fold(codec, s'.base, s'.log) == Fold(codec, s.base, s.log)
    requires NamesMatch(s'.json) && NamesMatch(s'.index)
    requires s.id in s'.json && s'.json[s.id] == s.json[s.id]
    requires s.backend.SqliteIndex? ==> s.id in s'.index && s'.index[s.id] == s.index[s.id]
    requires forall l :: l in s.owner && s.owner[l] != t ==> l in s'.owner && s'.owner[l] == s.owner[l]
    requires ThreadOk(codec, s', t)
    ensures Inv(codec, s')
  {
    forall u
      ensures ThreadOk(codec, s', u)
    {
      assert u != t ==> ThreadOk(codec, s, u);
    }
  }

  lemma EnterKeepsInv(codec: Codec, s: State, s': State, t: Tid)
    requires Inv(codec, s) && Enter(s, s', t)
    ensures Inv(codec, s')
  {
    assert ThreadOk(codec, s, t);
    QuietStep(codec, s, s', t);
  }

  lemma LeavingKeepsInv(codec: Codec, s: State, s': State, t: Tid)
    requires Inv(codec, s) && (Abandon(s, s', t) || Release(s, s', t))
    ensures Inv(codec, s')
  {
    assert ThreadOk(codec, s, t);
    QuietStep(codec, s, s', t);
  }

  lemma QueryKeepsInv(codec: Codec, s: State, s': State, t: Tid)
    requires Inv(codec, s) && QueryIndex(s, s', t)
    ensures Inv(codec, s')
  {
    assert ThreadOk(codec, s, t);
    QuietStep(codec, s, s', t);
  }

  lemma ReadKeepsInv(codec: Codec, s: State, s': State, t: Tid)
    requires Inv(codec, s) && ReadJson(s, s', t)
    ensures Inv(codec, s')
  {
    assert ThreadOk(codec, s, t);
    assert Path(PcOf(s, t).task.id) == Some(PcOf(s, t).task.id);
    QuietStep(codec, s, s', t);
  }

  lemma BackfillKeepsInv(codec: Codec, s: State, s': State, t: Tid)
    requires Inv(codec, s) && Backfill(s, s', t)
    ensures Inv(codec, s')
  {
    assert ThreadOk(codec, s, t);
    QuietStep(codec, s, s', t);
  }

  lemma KeepKeepsInv(codec: Codec, s: State, s': State, t: Tid)
    requires Inv(codec, s) && KeepDocument(codec, s, s', t)
    ensures Inv(codec, s')
  {
    assert ThreadOk(codec, s, t);
    FoldSnoc(codec, s.base, s.log, PcOf(s, t).task.m);
    QuietStep(codec, s, s', t);
  }

  /** While t runs a mutator of the watched session, no other thread does. */
  lemma Alone(codec: Codec, s: State, t: Tid, u: Tid)
    requires Inv(codec, s)
    requires InSection(PcOf(s, t)) && InSection(PcOf(s, u)) && PcOf(s, t).task.id == PcOf(s, u).task.id
    ensures t == u
  {
    assert ThreadOk(codec, s, t) && ThreadOk(codec, s, u);
  }

  lemma WriteElsewhereKeepsInv(codec: Codec, s: State, s': State, t: Tid)
    requires Inv(codec, s) && PcOf(s, t).Loaded? && PcOf(s, t).task.id != s.id && WriteJson(codec, s, s', t)
    ensures Inv(codec, s')
  {
    assert ThreadOk(codec, s, t);
    AfterKeepsId(codec, PcOf(s, t).task.m, PcOf(s, t).doc);
    QuietStep(codec, s, s', t);
  }

  lemma WriteNewKeepsInv(codec: Codec, s: State, s': State, t: Tid)
    requires Inv(codec, s) && WriteNew(s, s', t)
    ensures Inv(codec, s')
  {
    assert ThreadOk(codec, s, t);
    QuietStep(codec, s, s', t);
  }

  lemma WriteKeepsInv(codec: Codec, s: State, s': State, t: Tid)
    requires Inv(codec, s) && PcOf(s, t).Loaded? && PcOf(s, t).task.id == s.id && WriteJson(codec, s, s', t)
    ensures Inv(codec, s')
  {
    var task := PcOf(s, t).task;
    assert ThreadOk(codec, s, t);
    AfterKeepsId(codec, task.m, PcOf(s, t).doc);
    FoldSnoc(codec, s.base, s.log, task.m);
    var doc := PcOf(s', t).doc;
    assert Some(PcOf(s, t).doc) == Visible(s) && doc == After(codec, task.m, PcOf(s, t).doc);
    assert s'.json == s.json[s.id := doc] && s'.index == s.index;
    forall u
      ensures ThreadOk(codec, s', u)
    {
      OthersUnaware(codec, s, t, u);
    }
  }

  /** Threads other than the running mutator hold nothing that a write to the watched session could falsify. */
  lemma OthersUnaware(codec: Codec, s: State, t: Tid, u: Tid)
    requires Inv(codec, s) && InSection(PcOf(s, t)) && PcOf(s, t).task.id == s.id
    ensures u != t && !PcOf(s, u).Idle? && PcOf(s, u).task.id == s.id ==> !InSection(PcOf(s, u)) && !PcOf(s, u).Stored?
    ensures ThreadOk(codec, s, u)
  {
    assert ThreadOk(codec, s, u);
    if u != t && InSection(PcOf(s, u)) && PcOf(s, u).task.id == s.id {
      Alone(codec, s, t, u);
    }
  }

  lemma UpsertElsewhereKeepsInv(codec: Codec, s: State, s': State, t: Tid)
    requires Inv(codec, s) && PcOf(s, t).Stored? && UpsertIndex(s, s', t)
    requires PcOf(s, t).task.id != s.id || s.backend.JsonFiles?
    ensures Inv(codec, s')
  {
    assert ThreadOk(codec, s, t);
    QuietStep(codec, s, s', t);
  }

  lemma UpsertKeepsInv(codec: Codec, s: State, s': State, t: Tid)
    requires Inv(codec, s) && PcOf(s, t).Stored? && UpsertIndex(s, s', t)
    requires PcOf(s, t).task.id == s.id && s.backend.SqliteIndex?
    ensures Inv(codec, s')
  {
    assert ThreadOk(codec, s, t);
    var m := PcOf(s, t).task.m;
    FoldSnoc(codec, s.base, s.log, m);
    assert s'.index[s.id] == s.json[s.id] == Fold(codec, s'.base, s'.log);
    assert Visible(s') == Some(Fold(codec, s'.base, s'.log));
    forall u
      ensures ThreadOk(codec, s', u)
    {
      OthersUnaware(codec, s, t, u);
    }
  }

  lemma HealedNames(s: State, files: set<Id>)
    requires NamesMatch(s.json) && NamesMatch(s.index)
    ensures NamesMatch(Healed(s, files))
  {
  }

  /** A watched file that the backfill reaches becomes the visible document; otherwise the old one stays. */
  lemma HealedRow(s: State, files: set<Id>)
    requires s.id in s.json
    ensures var rows := Healed(s, files);
            && (s.id in files ==> s.id in rows && rows[s.id] == s.json[s.id])
            && (s.id !in files && s.id in s.index ==> s.id in rows && rows[s.id] == s.index[s.id])
  {
  }

  lemma AllIdle(codec: Codec, s: State)
    requires s.threads == map[]
    ensures forall t :: ThreadOk(codec, s, t)
  {
  }

  lemma RestartKeepsInv(codec: Codec, s: State, s': State)
    requires Inv(codec, s) && Restart(s, s')
    ensures Inv(codec, s')
  {
    var files: set<Id> :| s' == Restarted(s, files);
    HealedNames(s, files);
    HealedRow(s, files);
    AllIdle(codec, s');
  }

  lemma BeginKeepsInv(codec: Codec, s: State, s': State, t: Tid)
    requires Inv(codec, s) && Begin(s, s', t) && (PcOf(s', t).Called? ==> Fits(s, PcOf(s', t).task))
    ensures Inv(codec, s')
  {
    QuietStep(codec, s, s', t);
  }

  lemma WritingKeepsInv(codec: Codec, s: State, s': State, t: Tid)
    requires Inv(codec, s) && (WriteNew(s, s', t) || WriteJson(codec, s, s', t) || UpsertIndex(s, s', t))
    ensures Inv(codec, s')
  {
    if WriteNew(s, s', t) {
      WriteNewKeepsInv(codec, s, s', t);
    } else if WriteJson(codec, s, s', t) {
      if PcOf(s, t).task.id == s.id {
        WriteKeepsInv(codec, s, s', t);
      } else {
        WriteElsewhereKeepsInv(codec, s, s', t);
      }
    } else if PcOf(s, t).task.id == s.id && s.backend.SqliteIndex? {
      UpsertKeepsInv(codec, s, s', t);
    } else {
      UpsertElsewhereKeepsInv(codec, s, s', t);
    }
  }

  lemma ThreadKeepsInv(codec: Codec, s: State, s': State, t: Tid)
    requires Inv(codec, s) && ThreadStep(codec, s, s', t) && (PcOf(s', t).Called? ==> Fits(s, PcOf(s', t).task))
    ensures Inv(codec, s')
  {
    if Begin(s, s', t) {
      BeginKeepsInv(codec, s, s', t);
    } else if Backfill(s, s', t) {
      BackfillKeepsInv(codec, s, s', t);
    } else if KeepDocument(codec, s, s', t) {
      KeepKeepsInv(codec, s, s', t);
    } else if QueryIndex(s, s', t) {
      QueryKeepsInv(codec, s, s', t);
    } else if ReadJson(s, s', t) {
      ReadKeepsInv(codec, s, s', t);
    } else if Enter(s, s', t) {
      EnterKeepsInv(codec, s, s', t);
    } else if Abandon(s, s', t) || Release(s, s', t) {
      LeavingKeepsInv(codec, s, s', t);
    } else {
      WritingKeepsInv(codec, s, s', t);
    }
  }

  lemma NextKeepsInv(codec: Codec, s: State, s': State)
    requires Inv(codec, s) && Next(codec, s, s')
    ensures Inv(codec, s')
  {
    if Restart(s, s') {
      RestartKeepsInv(codec, s, s');
    } else {
      var t :| ThreadStep(codec, s, s', t) && (PcOf(s', t).Called? ==> Fits(s, PcOf(s', t).task));
      ThreadKeepsInv(codec, s, s', t);
    }
  }

  lemma {:induction false} RunKeepsInv(codec: Codec, run: seq<State>, i: nat)
    requires Run(codec, run) && i < |run|
    ensures Inv(codec, run[i])
  {
    if i > 0 {
      RunKeepsInv(codec, run, i - 1);
      NextKeepsInv(codec, run[i - 1], run[i]);
    }
  }

  // ----- main results -----

  /** No lost updates: at every moment of every run, what a load finds is the start document with exactly the calls
      that returned Ok applied one after another. The JSON file is that document, or the latest call that wrote it
      without reaching the index applied to that document. */
  lemma NoLostUpdates(codec: Codec, run: seq<State>, i: nat)
    requires Run(codec, run) && i < |run|
    ensures var s := run[i];
            && Visible(s) == Some(Fold(codec, s.base, s.log))
            && s.id in s.json
            && (s.backend.JsonFiles? ==> s.json[s.id] == Fold(codec, s.base, s.log))
            && (s.backend.SqliteIndex? && s.dirty.None? ==> s.json[s.id] == s.index[s.id])
            && (s.backend.SqliteIndex? && s.dirty.Some? ==> s.json[s.id] == After(codec, s.dirty.value, s.index[s.id]))
  {
    RunKeepsInv(codec, run, i);
  }

  /** Any load of the watched session, locked or not, obtains the document left by the calls that returned Ok. */
  lemma LoadsSeeOkCalls(codec: Codec, run: seq<State>, i: nat, t: Tid)
    requires Run(codec, run) && i + 1 < |run|
    requires QueryIndex(run[i], run[i + 1], t) || ReadJson(run[i], run[i + 1], t) || Backfill(run[i], run[i + 1], t)
    requires PcOf(run[i], t).task.id == run[i].id
    ensures PcOf(run[i + 1], t) == Loaded(PcOf(run[i], t).task, Fold(codec, run[i].base, run[i].log))
  {
    RunKeepsInv(codec, run, i);
    assert ThreadOk(codec, run[i], t);
  }

  /** A mutator that returns Ok through the index makes file and index equal again, whatever failed before. */
  lemma OkCallHeals(codec: Codec, run: seq<State>, i: nat, t: Tid)
    requires Run(codec, run) && i + 1 < |run| && run[i].backend.SqliteIndex?
    requires UpsertIndex(run[i], run[i + 1], t) && PcOf(run[i], t).task.Mutate? && PcOf(run[i], t).task.id == run[i].id
    ensures var s := run[i + 1];
            s.id in s.json && s.id in s.index && s.json[s.id] == s.index[s.id] == Fold(codec, s.base, s.log)
    ensures run[i + 1].log == run[i].log + [PcOf(run[i], t).task.m]
  {
    RunKeepsInv(codec, run, i);
    assert ThreadOk(codec, run[i], t);
    UpsertKeepsInv(codec, run[i], run[i + 1], t);
  }

  /** A mutator that finds nothing to change returns Ok as well, and the document stays what the Ok calls left. */
  lemma UnchangedCallCounts(codec: Codec, run: seq<State>, i: nat, t: Tid)
    requires Run(codec, run) && i + 1 < |run| && KeepDocument(codec, run[i], run[i + 1], t)
    requires PcOf(run[i], t).task.id == run[i].id
    ensures run[i + 1].log == run[i].log + [PcOf(run[i], t).task.m]
    ensures Fold(codec, run[i + 1].base, run[i + 1].log) == Fold(codec, run[i].base, run[i].log)
  {
    RunKeepsInv(codec, run, i);
    assert ThreadOk(codec, run[i], t);
    FoldSnoc(codec, run[i].base, run[i].log, PcOf(run[i], t).task.m);
  }

  /** A restart whose backfill reaches the watched file makes the JSON version the visible one. */
  lemma RestartShowsJson(codec: Codec, run: seq<State>, i: nat, files: set<Id>)
    requires Run(codec, run) && i + 1 < |run| && run[i + 1] == Restarted(run[i], files) && run[i].id in files
    ensures run[i].id in run[i].json && Visible(run[i + 1]) == Some(run[i].json[run[i].id])
  {
    RunKeepsInv(codec, run, i);
  }
}
