/** What calls on the session store do to later loads, for either backend: said of answers and stored documents only. */
module SessionCalls {
  import opened Common
  import opened SessionModel
  import opened SessionStore

  /** What `load_session` answers. */
  function Look(codec: Codec, b: Backend, st: Stores, id: Id, up: bool): Answer {
    Step(codec, b, st, Load(id), up).answer
  }

  ghost predicate Holds(docs: map<Id, Session>, p: Id, doc: Session) {
    p in docs && docs[p] == doc
  }

  /** Two maps that differ at most at p. */
  ghost predicate SameBut(before: map<Id, Session>, after: map<Id, Session>, p: Id) {
    forall k :: k != p ==> (k in before <==> k in after) && (k in before ==> after[k] == before[k])
  }

  function FileOf(st: Stores, w: Id): Option<Session> {
    if w in st.json then Some(st.json[w]) else None
  }

  // ----- loads -----

  /** A load answers from the index if the Sqlite backend has the row, and otherwise from the file at the id's stem. */
  lemma LoadAnswers(codec: Codec, b: Backend, st: Stores, id: Id, up: bool)
    ensures var a := Look(codec, b, st, id, up);
            if b.SqliteIndex? && id in st.index then a == Document(Some(st.index[id]))
            else if Path(id).None? then a == Failed(BadId)
            else if Path(id).value in st.json then a == Document(Some(st.json[Path(id).value]))
            else a == Document(None)
  {
  }

  /** A load writes no file. It adds at most one index row, in the Sqlite backend, when it found the document in a file
      and the upsert succeeds; and then later loads of every other id answer as before. */
  lemma LoadKeepsFiles(codec: Codec, b: Backend, st: Stores, id: Id, up: bool)
    ensures var e, a := Step(codec, b, st, Load(id), up).stores, Look(codec, b, st, id, up);
            && e.json == st.json
            && (if b.SqliteIndex? && up && id !in st.index && a.Document? && a.doc.Some? then
                  Holds(e.index, a.doc.value.id, a.doc.value) && SameBut(st.index, e.index, a.doc.value.id)
                else e.index == st.index)
  {
  }

  // ----- creations -----

  /** When a creation succeeds, and what error it has otherwise. */
  lemma CreationAnswers(codec: Codec, b: Backend, st: Stores, id: Id, doc: Session, up: bool)
    ensures var a := Step(codec, b, st, Op.Create(id, doc), up).answer;
            if Path(id).None? || Path(Path(id).value).None? then a == Failed(BadId)
            else if b.SqliteIndex? && !up then a == Failed(IndexFailed)
            else a == Created(Path(id).value)
  {
  }

  /** After `Created(p)` a load of p answers the new document under the id p, the file of p holds it, and so does the
      index if the upsert succeeded. All other files and rows, and so loads of other stems, stay as they were. */
  lemma CreatedIsLoaded(codec: Codec, b: Backend, st: Stores, id: Id, doc: Session, up: bool, later: bool)
    requires Step(codec, b, st, Op.Create(id, doc), up).answer.Created?
    ensures var e := Step(codec, b, st, Op.Create(id, doc), up);
            var p, after := e.answer.id, e.stores;
            && Look(codec, b, after, p, later) == Document(Some(doc.(id := p)))
            && Path(p).Some? && Holds(after.json, Path(p).value, doc.(id := p))
            && SameBut(st.json, after.json, Path(p).value)
            && (if up then Holds(after.index, p, doc.(id := p)) && SameBut(st.index, after.index, p)
                else after.index == st.index)
            && forall other, u :: other != p && Path(other) != Path(p) ==>
                 Look(codec, b, after, other, u) == Look(codec, b, st, other, u)
  {
  }

  // ----- updates -----

  /** The document that a mutator of the id starts from. */
  function Start(codec: Codec, b: Backend, st: Stores, id: Id): Option<Session> {
    var a := Look(codec, b, st, id, false);
    if a.Document? then a.doc else None
  }

  /** The document names that the Sqlite backend relies on. */
  ghost predicate Sane(b: Backend, st: Stores) {
    b.SqliteIndex? ==> NamesMatch(st.json) && NamesMatch(st.index)
  }

  /** When an update succeeds, and what it answers otherwise. */
  lemma UpdateAnswers(codec: Codec, b: Backend, st: Stores, id: Id, m: Mutation, up: bool)
    ensures var a, start := Step(codec, b, st, Op.Mutate(id, m), up).answer, Start(codec, b, st, id);
            if start.None? then a == if Look(codec, b, st, id, up).Failed? then Failed(BadId) else Updated(false)
            else if Apply(codec, m, start.value).None? then a == Updated(m.EnsurePrompt?)
            else if Path(id).None? then a == Failed(BadId)
            else if b.SqliteIndex? && !up then a == Failed(IndexFailed)
            else a == Updated(true)
  {
  }

  /** After `Updated(true)` a load of the id answers what the mutation makes of the document loaded before. If it
      writes, the file at the id's stem is that document, and so is the index row when the upsert succeeds. */
  lemma UpdatedIsLoaded(codec: Codec, b: Backend, st: Stores, id: Id, m: Mutation, up: bool, later: bool)
    requires Sane(b, st) && Step(codec, b, st, Op.Mutate(id, m), up).answer == Updated(true)
    ensures var after, start := Step(codec, b, st, Op.Mutate(id, m), up).stores, Start(codec, b, st, id);
            && start.Some?
            && Look(codec, b, after, id, later) == Document(Some(After(codec, m, start.value)))
            && (Apply(codec, m, start.value).Some? ==>
                  && Path(id).Some? && Holds(after.json, Path(id).value, After(codec, m, start.value))
                  && (up ==> Holds(after.index, start.value.id, After(codec, m, start.value))))
            && (Apply(codec, m, start.value).None? ==> after.json == st.json)
  {
    UpdateAnswers(codec, b, st, id, m, up);
    AfterKeepsId(codec, m, Start(codec, b, st, id).value);
  }

  /** A load depends on the index row of the id and the file at its stem. */
  lemma LookFrame(codec: Codec, b: Backend, st: Stores, after: Stores, id: Id, up: bool)
    requires (id in after.index <==> id in st.index) && (id in st.index ==> after.index[id] == st.index[id])
    requires Path(id).Some? ==> FileOf(after, Path(id).value) == FileOf(st, Path(id).value)
    ensures Look(codec, b, after, id, up) == Look(codec, b, st, id, up)
  {
  }

  lemma LoadFrame(codec: Codec, b: Backend, st: Stores, id: Id, up: bool)
    ensures var e := LoadSession(b, st, id, up);
            && e.stores.json == st.json && e.answer == Look(codec, b, st, id, false)
            && (e.answer.Document? && e.answer.doc.Some? ==> SameBut(st.index, e.stores.index, e.answer.doc.value.id))
            && (!e.answer.Document? || e.answer.doc.None? ==> e.stores == st)
  {
  }

  lemma WriteFrame(b: Backend, st: Stores, id: Id, doc: Session, up: bool)
    ensures var after := WriteSession(b, st, id, doc, up).0;
            && SameBut(st.index, after.index, doc.id)
            && (if Path(id).Some? then SameBut(st.json, after.json, Path(id).value) else after.json == st.json)
  {
  }

  /** Whatever an update answers, it changes no file but that at the id's stem and no index row but that of the document
      it loaded. */
  lemma UpdateFrame(codec: Codec, b: Backend, st: Stores, id: Id, m: Mutation, up: bool)
    ensures var after, start := Step(codec, b, st, Op.Mutate(id, m), up).stores, Start(codec, b, st, id);
            && (if Path(id).Some? then SameBut(st.json, after.json, Path(id).value) else after.json == st.json)
            && (if start.Some? then SameBut(st.index, after.index, start.value.id) else after == st)
  {
    LoadFrame(codec, b, st, id, up);
    var loaded := LoadSession(b, st, id, up);
    if loaded.answer.Document? && loaded.answer.doc.Some? {
      var d := loaded.answer.doc.value;
      AfterKeepsId(codec, m, d);
      WriteFrame(b, loaded.stores, id, After(codec, m, d), up);
    }
  }

  /** So loads of other stems answer as before. */
  lemma UpdateKeepsOthers(codec: Codec, b: Backend, st: Stores, id: Id, m: Mutation, up: bool, other: Id, u: bool)
    requires other != id && Path(other) != Path(id)
    requires Start(codec, b, st, id).Some? ==> other != Start(codec, b, st, id).value.id
    ensures Look(codec, b, Step(codec, b, st, Op.Mutate(id, m), up).stores, other, u) == Look(codec, b, st, other, u)
  {
    UpdateFrame(codec, b, st, id, m, up);
    LookFrame(codec, b, st, Step(codec, b, st, Op.Mutate(id, m), up).stores, other, u);
  }

  /** An update whose index upsert fails in the Sqlite backend has written
      the file, while a load of an indexed id still answers the old document. */
  lemma FailedUpdateIsInFile(codec: Codec, b: Backend, st: Stores, id: Id, m: Mutation, up: bool, later: bool)
    requires Step(codec, b, st, Op.Mutate(id, m), up).answer == Failed(IndexFailed)
    ensures var after, start := Step(codec, b, st, Op.Mutate(id, m), up).stores, Start(codec, b, st, id);
            && start.Some? && Path(id).Some? && Holds(after.json, Path(id).value, After(codec, m, start.value))
            && (id in st.index ==> Look(codec, b, after, id, later) == Document(start))
  {
    UpdateAnswers(codec, b, st, id, m, up);
  }

  // ----- whole call sequences -----

  /** The call writes the file w, if it writes at all. */
  predicate Reaches(op: Op, w: Id) {
    match op
    case Create(id, _) => Path(id).Some? && Path(Path(id).value) == Some(w)
    case Mutate(id, _) => Path(id) == Some(w)
    case Load(_) => false
  }

  /** What one call, answered with Ok, makes of a session: a creation replaces the document, an update changes it. */
  function ToldNext(codec: Codec, w: Id, before: Option<Session>, c: Call, a: Answer): Option<Session> {
    if !Reaches(c.op, w) then before
    else match (c.op, a)
         case (Create(_, doc), Created(p)) => Some(doc.(id := p))
         case (Mutate(_, m), Updated(_)) => if before.Some? then Some(After(codec, m, before.value)) else None
         case _ => before
  }

  /** The fold of the calls on one session that were answered with Ok. */
  function Told(codec: Codec, w: Id, base: Option<Session>, calls: seq<Call>, answers: seq<Answer>): Option<Session>
    requires |calls| == |answers|
  {
    if calls == [] then base
    else
      var n := |calls| - 1;
      var before := Told(codec, w, base, calls[..n], answers[..n]);
      ToldNext(codec, w, before, calls[n], answers[n])
  }

  lemma {:induction false} AnswersAllCalls(codec: Codec, b: Backend, st: Stores, calls: seq<Call>)
    ensures |Exec(codec, b, st, calls).1| == |calls|
  {
    if calls != [] {
      AnswersAllCalls(codec, b, st, calls[..|calls| - 1]);
    }
  }

  lemma ToldSnoc(codec: Codec, b: Backend, st: Stores, w: Id, base: Option<Session>, calls: seq<Call>)
    requires calls != []
    ensures |Exec(codec, b, st, calls).1| == |calls|
    ensures var n, (before, answers) := |calls| - 1, Exec(codec, b, st, calls[..|calls| - 1]);
            var a := Step(codec, b, before, calls[n].op, calls[n].up).answer;
            && |answers| == n
            && Exec(codec, b, st, calls).0 == Step(codec, b, before, calls[n].op, calls[n].up).stores
            && Told(codec, w, base, calls, Exec(codec, b, st, calls).1)
            == ToldNext(codec, w, Told(codec, w, base, calls[..n], answers), calls[n], a)
  {
    AnswersAllCalls(codec, b, st, calls);
    AnswersAllCalls(codec, b, st, calls[..|calls| - 1]);
    var n, answers := |calls| - 1, Exec(codec, b, st, calls).1;
    assert answers[..n] == Exec(codec, b, st, calls[..n]).1;
  }

  lemma JsonStep(codec: Codec, st: Stores, c: Call, w: Id)
    ensures var e := Step(codec, JsonFiles, st, c.op, c.up);
            FileOf(e.stores, w) == ToldNext(codec, w, FileOf(st, w), c, e.answer)
  {
    match c.op
    case Load(_) =>
    case Create(id, doc) =>
    case Mutate(id, m) =>
  }

  /** In the Json backend, after any sequence of calls from any stores, a load answers the fold of the calls on its file
      that were answered with Ok. */
  lemma {:induction false} JsonLoadsAreFolds(codec: Codec, st: Stores, calls: seq<Call>, id: Id, up: bool)
    requires Path(id).Some?
    ensures var (after, answers) := Exec(codec, JsonFiles, st, calls);
            && |answers| == |calls|
            && Look(codec, JsonFiles, after, id, up)
            == Document(Told(codec, Path(id).value, FileOf(st, Path(id).value), calls, answers))
  {
    var w := Path(id).value;
    if calls != [] {
      var n := |calls| - 1;
      JsonLoadsAreFolds(codec, st, calls[..n], id, up);
      ToldSnoc(codec, JsonFiles, st, w, FileOf(st, w), calls);
      JsonStep(codec, Exec(codec, JsonFiles, st, calls[..n]).0, calls[n], w);
    }
  }

  /** Only the document of w carries that id. */
  ghost predicate OwnName(docs: map<Id, Session>, w: Id) {
    forall k :: k in docs ==> (docs[k].id == w <==> k == w)
  }

  ghost predicate Indexed(st: Stores, w: Id) {
    w in st.index && OwnName(st.index, w) && OwnName(st.json, w)
  }

  /** A call that gets at the file w spells the id as w. */
  predicate Spelled(op: Op, w: Id) {
    && (!op.Create? && Path(op.id) == Some(w) ==> op.id == w)
    && (op.Create? && Path(op.id).Some? && Path(Path(op.id).value) == Some(w) ==> Path(op.id) == Some(w))
  }

  ghost predicate AllSpelled(calls: seq<Call>, w: Id) {
    forall c :: c in calls ==> Spelled(c.op, w)
  }

  lemma IndexedLoad(codec: Codec, st: Stores, id: Id, up: bool, w: Id)
    requires Indexed(st, w) && Path(w) == Some(w) && Spelled(Load(id), w)
    ensures var e := LoadSession(SqliteIndex, st, id, up);
            && Indexed(e.stores, w) && e.stores.index[w] == st.index[w]
            && (e.answer.Document? && e.answer.doc.Some? ==> (e.answer.doc.value.id == w <==> id == w))
            && (id == w ==> e == Effect(st, Document(Some(st.index[w]))))
  {
  }

  lemma IndexedWrite(st: Stores, id: Id, doc: Session, up: bool, w: Id)
    requires Indexed(st, w) && Path(w) == Some(w)
    requires doc.id == w <==> Path(id) == Some(w)
    ensures var (after, error) := WriteSession(SqliteIndex, st, id, doc, up);
            && Indexed(after, w)
            && after.index[w] == if Path(id) == Some(w) && error.None? then doc else st.index[w]
  {
  }

  lemma {:induction false} IndexedStep(codec: Codec, st: Stores, c: Call, w: Id)
    requires Indexed(st, w) && Path(w) == Some(w) && Spelled(c.op, w)
    ensures var e := Step(codec, SqliteIndex, st, c.op, c.up);
            && Indexed(e.stores, w)
            && Some(e.stores.index[w]) == ToldNext(codec, w, Some(st.index[w]), c, e.answer)
  {
    match c.op
    case Load(id) =>
      IndexedLoad(codec, st, id, c.up, w);
    case Create(id, doc) =>
      if Path(id).Some? {
        IndexedWrite(st, Path(id).value, doc.(id := Path(id).value), c.up, w);
      }
    case Mutate(id, m) =>
      IndexedLoad(codec, st, id, c.up, w);
      var loaded := LoadSession(SqliteIndex, st, id, c.up);
      if loaded.answer.Document? && loaded.answer.doc.Some? {
        AfterKeepsId(codec, m, loaded.answer.doc.value);
        if Apply(codec, m, loaded.answer.doc.value).Some? {
          IndexedWrite(loaded.stores, id, Apply(codec, m, loaded.answer.doc.value).value, c.up, w);
        }
      }
  }

  /** In the Sqlite backend the same holds of an indexed id that all calls spell alike, whichever upserts fail: calls
      that were not answered with Ok have no effect on what is loaded. */
  lemma {:induction false} SqliteLoadsAreFolds(codec: Codec, st: Stores, calls: seq<Call>, w: Id, up: bool)
    requires Indexed(st, w) && Path(w) == Some(w) && AllSpelled(calls, w)
    ensures var (after, answers) := Exec(codec, SqliteIndex, st, calls);
            && |answers| == |calls| && Indexed(after, w)
            && Look(codec, SqliteIndex, after, w, up)
            == Document(Told(codec, w, Some(st.index[w]), calls, answers))
  {
    if calls != [] {
      var n := |calls| - 1;
      SqliteLoadsAreFolds(codec, st, calls[..n], w, up);
      ToldSnoc(codec, SqliteIndex, st, w, Some(st.index[w]), calls);
      IndexedStep(codec, Exec(codec, SqliteIndex, st, calls[..n]).0, calls[n], w);
    }
  }
}
