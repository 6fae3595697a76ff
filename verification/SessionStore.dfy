/** The session store called by one thread: JSON files and the index side by side, for either runtime backend. */
module SessionStore {
  import opened Common
  import opened SessionModel
  import Timestamps

  datatype Backend = JsonFiles | SqliteIndex

  datatype Error = BadId | IndexFailed

  datatype Stores = Stores(json: map<Id, Session>, index: map<Id, Session>)

  datatype Op = Create(id: Id, doc: Session) | Load(id: Id) | Mutate(id: Id, m: Mutation)

  /** A call, and whether index upserts succeed during it. */
  datatype Call = Call(op: Op, up: bool)

  datatype Answer = Created(id: Id) | Document(doc: Option<Session>) | Updated(found: bool) | Failed(error: Error)

  datatype Effect = Effect(stores: Stores, answer: Answer)

  function Upsert(st: Stores, doc: Session, up: bool): Stores {
    if up then st.(index := st.index[doc.id := doc]) else st
  }

  /** `load_session`: the index first, then the file with a best-effort backfill; or just the file. */
  function LoadSession(b: Backend, st: Stores, id: Id, up: bool): Effect {
    if b.SqliteIndex? && id in st.index then Effect(st, Document(Some(st.index[id])))
    else match Path(id)
         case None => Effect(st, Failed(BadId))
         case Some(p) =>
           if p !in st.json then Effect(st, Document(None))
           else Effect(if b.SqliteIndex? then Upsert(st, st.json[p], up) else st, Document(Some(st.json[p])))
  }

  /** `write_session`: the file, then the index, whose failure only the Sqlite backend reports. */
  function WriteSession(b: Backend, st: Stores, id: Id, doc: Session, up: bool): (Stores, Option<Error>) {
    match Path(id)
    case None => (st, Some(BadId))
    case Some(p) =>
      var written := st.(json := st.json[p := doc]);
      (Upsert(written, doc, up), if b.SqliteIndex? && !up then Some(IndexFailed) else None)
  }

  function Step(codec: Codec, b: Backend, st: Stores, op: Op, up: bool): Effect {
    match op
    case Load(id) => LoadSession(b, st, id, up)
    case Create(id, doc) =>
      (match Path(id)
       case None => Effect(st, Failed(BadId))
       case Some(p) =>
         var (after, error) := WriteSession(b, st, p, doc.(id := p), up);
         Effect(after, if error.Some? then Failed(error.value) else Created(p)))
    case Mutate(id, m) =>
      var loaded := LoadSession(b, st, id, up);
      if loaded.answer.Failed? then loaded
      else if loaded.answer.doc.None? then Effect(loaded.stores, Updated(false))
      else match Apply(codec, m, loaded.answer.doc.value)
           case None => Effect(loaded.stores, Updated(m.EnsurePrompt?))
           case Some(doc) =>
             var (after, error) := WriteSession(b, loaded.stores, id, doc, up);
             Effect(after, if error.Some? then Failed(error.value) else Updated(true))
  }

  /** Every stored document sits under its own id, which is its own file stem. */
  ghost predicate Named(docs: map<Id, Session>) {
    forall p :: p in docs ==> docs[p].id == p && Path(p) == Some(p)
  }

  // ----- the path of a path -----

  lemma {:induction false} FirstComponentIsPrefix(s: string)
    ensures |FirstComponent(s)| <= |s| && FirstComponent(s) == s[..|FirstComponent(s)|]
    ensures FirstComponent(FirstComponent(s)) == FirstComponent(s)
  {
    if s != "" && s[0] != '/' {
      FirstComponentIsPrefix(s[1..]);
      assert FirstComponent(s)[1..] == FirstComponent(s[1..]);
    }
  }

  /** A validated stem validates to itself, exactly when dropping a trailing "/." left it without outer white space. */
  lemma PathIsStable(id: Id)
    requires Path(id).Some?
    ensures Path(Path(id).value) == Path(id) <==> Trimmed(Path(id).value)
  {
    var p := Path(id).value;
    FirstComponentIsPrefix(Trim(id));
    FirstComponentIsPrefix(Trim(p));
    var _, _ := TrimIsSlice(p);
    assert p[|p|..] == "";
  }

  lemma SpaceBeforeDot(c: char)
    requires c != '/'
    ensures FirstComponent([c, ' ', '/', '.']) == [c, ' '] && OnlyDots(['/', '.'])
  {
    var s := [c, ' ', '/', '.'];
    assert s[1..] == [' ', '/', '.'] && s[1..][1..] == ['/', '.'];
    assert FirstComponent(s[1..][1..]) == "";
    assert FirstComponent(s[1..]) == [' '] + "";
    var dots := ['/', '.'];
    assert dots[2..] == "";
  }

  lemma OneLetter(c: char)
    requires c != '/' && !IsSpace(c)
    ensures FirstComponent([c]) == [c] && Trim([c, ' ']) == [c]
  {
    assert [c][1..] == "";
    var s := [c, ' '];
    assert TrimStart(RustSpaces, s) == s && s[..1] == [c];
    assert TrimEnd(RustSpaces, s) == TrimEnd(RustSpaces, [c]) == [c];
  }

  /** It need not be stable: the id "a /." has the stem "a ", and that has the stem "a"; so for any letter. */
  lemma PathNeedNotBeStable(c: char)
    requires c != '/' && c != '.' && !IsSpace(c)
    ensures Path([c, ' ', '/', '.']) == Some([c, ' ']) && Path([c, ' ']) == Some([c])
  {
    var s := [c, ' ', '/', '.'];
    SpaceBeforeDot(c);
    OneLetter(c);
    var _, _ := TrimIsSlice(s);
    assert s[2..] == ['/', '.'];
    assert [c][1..] == "";
  }

  // ----- one step keeps index and files equal, for both backends -----

  lemma LoadKeepsEqual(st: Stores, id: Id)
    requires Named(st.json) && st.index == st.json
    ensures LoadSession(SqliteIndex, st, id, true) == Effect(st, LoadSession(JsonFiles, st, id, true).answer)
    ensures LoadSession(JsonFiles, st, id, true).stores == st
  {
    if Path(id).Some? && Path(id).value in st.json {
      assert st.index[st.json[Path(id).value].id := st.json[Path(id).value]] == st.index;
    }
  }

  lemma WriteKeepsEqual(b: Backend, st: Stores, id: Id, doc: Session)
    requires Named(st.json) && st.index == st.json
    requires Path(id).Some? ==> doc.id == Path(id).value && Path(doc.id) == Some(doc.id)
    ensures var (after, error) := WriteSession(b, st, id, doc, true);
            Named(after.json) && after.index == after.json && (error.Some? <==> Path(id).None?)
  {
  }

  lemma LoadedIsNamed(st: Stores, id: Id)
    requires Named(st.json)
    ensures var a := LoadSession(JsonFiles, st, id, true).answer;
            a.Document? && a.doc.Some? ==>
              Path(id) == Some(a.doc.value.id) && Path(a.doc.value.id) == Some(a.doc.value.id)
  {
  }

  /** The two backends, started equal, give the same answer to a call and stay equal. */
  lemma StepKeepsEqual(codec: Codec, st: Stores, op: Op)
    requires Named(st.json) && st.index == st.json
    requires op.Create? && Path(op.id).Some? ==> Trimmed(Path(op.id).value)
    ensures Step(codec, SqliteIndex, st, op, true) == Step(codec, JsonFiles, st, op, true)
    ensures var after := Step(codec, SqliteIndex, st, op, true).stores;
            Named(after.json) && after.index == after.json
  {
    LoadKeepsEqual(st, op.id);
    match op
    case Load(_) =>
    case Create(id, doc) =>
      if Path(id).Some? {
        PathIsStable(id);
        WriteKeepsEqual(SqliteIndex, st, Path(id).value, doc.(id := Path(id).value));
      }
    case Mutate(id, m) =>
      LoadedIsNamed(st, id);
      var a := LoadSession(JsonFiles, st, id, true).answer;
      if a.Document? && a.doc.Some? {
        AfterKeepsId(codec, m, a.doc.value);
        if Apply(codec, m, a.doc.value).Some? {
          WriteKeepsEqual(SqliteIndex, st, id, Apply(codec, m, a.doc.value).value);
        }
      }
  }

  // ----- whole call sequences -----

  function Exec(codec: Codec, b: Backend, st: Stores, calls: seq<Call>): (Stores, seq<Answer>) {
    if calls == [] then (st, [])
    else
      var (before, answers) := Exec(codec, b, st, calls[..|calls| - 1]);
      var c := calls[|calls| - 1];
      var e := Step(codec, b, before, c.op, c.up);
      (e.stores, answers + [e.answer])
  }

  ghost predicate FilesOf(json: map<Id, Session>, files: seq<Id>) {
    forall p :: p in files ==> p in json
  }

  /** The index rows after upserts of these files, one after another, each under the id of its document. */
  function Absorbed(index: map<Id, Session>, json: map<Id, Session>, files: seq<Id>): map<Id, Session>
    requires FilesOf(json, files)
  {
    if files == [] then index
    else
      var doc := json[files[|files| - 1]];
      Absorbed(index, json, files[..|files| - 1])[doc.id := doc]
  }

  /** Startup backfill with the files that could be read, parsed and upserted, in directory order. */
  function Backfilled(json: map<Id, Session>, index: map<Id, Session>, files: seq<Id>): Stores
    requires FilesOf(json, files)
  {
    Stores(json, Absorbed(index, json, files))
  }

  /** File k is the last one read whose document carries the id. */
  ghost predicate LastWithId(json: map<Id, Session>, files: seq<Id>, k: nat, id: Id)
    requires FilesOf(json, files)
  {
    k < |files| && json[files[k]].id == id && forall j :: k < j < |files| ==> json[files[j]].id != id
  }

  ghost predicate NoneWithId(json: map<Id, Session>, files: seq<Id>, id: Id)
    requires FilesOf(json, files)
  {
    forall j :: 0 <= j < |files| ==> json[files[j]].id != id
  }

  lemma {:induction false} NoneAbsorbed(index: map<Id, Session>, json: map<Id, Session>, files: seq<Id>, id: Id)
    requires FilesOf(json, files) && NoneWithId(json, files, id)
    ensures var rows := Absorbed(index, json, files);
            (id in rows <==> id in index) && (id in index ==> rows[id] == index[id])
  {
    if files != [] {
      assert json[files[|files| - 1]].id != id;
      NoneAbsorbed(index, json, files[..|files| - 1], id);
    }
  }

  /** The row of an id is the document of the last file read that carries it, or else the old row (`NoneAbsorbed`). */
  lemma {:induction false} AbsorbedIsLast(index: map<Id, Session>, json: map<Id, Session>, files: seq<Id>, k: nat,
                                          id: Id)
    requires FilesOf(json, files) && LastWithId(json, files, k, id)
    ensures id in Absorbed(index, json, files) && Absorbed(index, json, files)[id] == json[files[k]]
  {
    var n := |files| - 1;
    if k < n {
      assert json[files[n]].id != id;
      AbsorbedIsLast(index, json, files[..n], k, id);
    }
  }

  /** When file names match ids, every file read replaces the row of its own name. */
  lemma {:induction false} AbsorbedNamed(index: map<Id, Session>, json: map<Id, Session>, files: seq<Id>)
    requires FilesOf(json, files) && NamesMatch(json)
    ensures Absorbed(index, json, files) == index + map p | p in json && p in files :: json[p]
  {
    if files != [] {
      AbsorbedNamed(index, json, files[..|files| - 1]);
    }
  }

  /** No index upsert fails, and the stems of new ids have no outer white space. */
  ghost predicate CleanCalls(calls: seq<Call>) {
    forall c :: c in calls ==> c.up && (c.op.Create? && Path(c.op.id).Some? ==> Trimmed(Path(c.op.id).value))
  }

  /** What `list_sessions` returns: the Sqlite backend trusts a non-empty index. */
  function ListContents(b: Backend, st: Stores): map<Id, Session> {
    if b.SqliteIndex? && st.index != map[] then st.index else st.json
  }

  ghost predicate Equal(st: Stores) {
    Named(st.json) && st.index == st.json
  }

  /** From equal stores every sequence of calls gets the same answers from both backends, and leaves the same stores. */
  lemma {:induction false} CallsAgree(codec: Codec, st: Stores, calls: seq<Call>)
    requires Equal(st) && CleanCalls(calls)
    ensures Exec(codec, JsonFiles, st, calls) == Exec(codec, SqliteIndex, st, calls)
    ensures Equal(Exec(codec, SqliteIndex, st, calls).0)
  {
    if calls != [] {
      CallsAgree(codec, st, calls[..|calls| - 1]);
      StepKeepsEqual(codec, Exec(codec, SqliteIndex, st, calls[..|calls| - 1]).0, calls[|calls| - 1].op);
    }
  }

  /** Backend equivalence: after startup backfill of all files of a directory whose file names match its ids, and an
      index with no other rows, every sequence of calls gets the same answers from both backends and leaves the same
      files, index and listing. */
  lemma BackendsAgree(codec: Codec, json: map<Id, Session>, index: map<Id, Session>, files: seq<Id>, calls: seq<Call>)
    requires Named(json) && index.Keys <= json.Keys && CleanCalls(calls)
    requires FilesOf(json, files) && forall p :: p in json ==> p in files
    ensures var st := Backfilled(json, index, files);
            && Exec(codec, JsonFiles, st, calls) == Exec(codec, SqliteIndex, st, calls)
            && var after := Exec(codec, SqliteIndex, st, calls).0;
               Equal(after) && ListContents(JsonFiles, after) == ListContents(SqliteIndex, after)
  {
    var st := Backfilled(json, index, files);
    AbsorbedNamed(index, json, files);
    assert st.index == json;
    CallsAgree(codec, st, calls);
  }

  // ----- listings -----

  /** Each document once, in some order. */
  ghost predicate Enumerates(docs: map<Id, Session>, ids: seq<Id>) {
    (forall id :: id in ids <==> id in docs) && (forall i, j :: 0 <= i < j < |ids| ==> ids[i] != ids[j])
  }

  predicate NotOlder(docs: map<Id, Session>, a: Id, b: Id)
    requires a in docs && b in docs
  {
    !Timestamps.Less(docs[a].updatedAt, docs[b].updatedAt)
  }

  /** Each document once, newest first; equal times in any order. */
  ghost predicate Listing(docs: map<Id, Session>, ids: seq<Id>) {
    Enumerates(docs, ids) && forall i, j :: 0 <= i < j < |ids| ==> NotOlder(docs, ids[i], ids[j])
  }

  function DocsOf(docs: map<Id, Session>, ids: seq<Id>): seq<Session>
    requires forall id :: id in ids ==> id in docs
  {
    seq(|ids|, i requires 0 <= i < |ids| => docs[ids[i]])
  }

  function Insert(docs: map<Id, Session>, x: Id, ids: seq<Id>): (r: seq<Id>)
    requires x in docs && forall id :: id in ids ==> id in docs
    ensures multiset(r) == multiset([x] + ids)
  {
    if ids == [] || NotOlder(docs, x, ids[0]) then [x] + ids
    else
      assert ids == [ids[0]] + ids[1..];
      [ids[0]] + Insert(docs, x, ids[1..])
  }

  /** The stable sort by `updated_at`, newest first. */
  function SortNewest(docs: map<Id, Session>, ids: seq<Id>): (r: seq<Id>)
    requires forall id :: id in ids ==> id in docs
    ensures multiset(r) == multiset(ids)
  {
    if ids == [] then []
    else
      assert ids == [ids[0]] + ids[1..];
      var rest := SortNewest(docs, ids[1..]);
      assert forall id :: id in rest <==> id in multiset(rest);
      Insert(docs, ids[0], rest)
  }

  ghost predicate Sorted(docs: map<Id, Session>, ids: seq<Id>)
    requires forall id :: id in ids ==> id in docs
  {
    ids == [] || ((forall id :: id in ids[1..] ==> NotOlder(docs, ids[0], id)) && Sorted(docs, ids[1..]))
  }

  lemma NotOlderOrder(docs: map<Id, Session>, a: Id, b: Id, c: Id)
    requires a in docs && b in docs && c in docs
    ensures NotOlder(docs, a, b) || NotOlder(docs, b, a)
    ensures NotOlder(docs, a, b) && NotOlder(docs, b, c) ==> NotOlder(docs, a, c)
    ensures NotOlder(docs, a, b) && NotOlder(docs, b, a) ==> docs[a].updatedAt == docs[b].updatedAt
  {
    Timestamps.LessIsTotalOrder(docs[a].updatedAt, docs[b].updatedAt, docs[c].updatedAt);
    Timestamps.LessIsTotalOrder(docs[a].updatedAt, docs[c].updatedAt, docs[b].updatedAt);
    Timestamps.LessIsTotalOrder(docs[b].updatedAt, docs[a].updatedAt, docs[c].updatedAt);
  }

  lemma SameMembers(a: seq<Id>, b: seq<Id>)
    requires multiset(a) == multiset(b)
    ensures |a| == |b| && forall id :: id in a <==> id in b
  {
    assert |multiset(a)| == |a| && |multiset(b)| == |b|;
    forall id
      ensures id in a <==> id in b
    {
      assert id in a <==> id in multiset(a);
      assert id in b <==> id in multiset(b);
    }
  }

  lemma {:induction false} InsertIsSorted(docs: map<Id, Session>, x: Id, ids: seq<Id>)
    requires x in docs && (forall id :: id in ids ==> id in docs) && Sorted(docs, ids)
    ensures (forall id :: id in Insert(docs, x, ids) ==> id in docs) && Sorted(docs, Insert(docs, x, ids))
  {
    var r := Insert(docs, x, ids);
    SameMembers(r, [x] + ids);
    if ids == [] || NotOlder(docs, x, ids[0]) {
      assert r[1..] == ids;
      forall id | id in ids
        ensures NotOlder(docs, x, id)
      {
        NotOlderOrder(docs, x, ids[0], id);
        assert ids == [ids[0]] + ids[1..];
      }
    } else {
      var rest := Insert(docs, x, ids[1..]);
      InsertIsSorted(docs, x, ids[1..]);
      assert r[1..] == rest;
      SameMembers(rest, [x] + ids[1..]);
      NotOlderOrder(docs, x, ids[0], x);
    }
  }

  lemma {:induction false} SortIsSorted(docs: map<Id, Session>, ids: seq<Id>)
    requires forall id :: id in ids ==> id in docs
    ensures (forall id :: id in SortNewest(docs, ids) ==> id in docs) && Sorted(docs, SortNewest(docs, ids))
  {
    if ids != [] {
      SortIsSorted(docs, ids[1..]);
      InsertIsSorted(docs, ids[0], SortNewest(docs, ids[1..]));
    }
  }

  lemma {:induction false} SortedAt(docs: map<Id, Session>, ids: seq<Id>, i: nat, j: nat)
    requires (forall id :: id in ids ==> id in docs) && Sorted(docs, ids) && i < j < |ids|
    ensures NotOlder(docs, ids[i], ids[j])
  {
    if i == 0 {
      assert ids[j] == ids[1..][j - 1];
    } else {
      SortedAt(docs, ids[1..], i - 1, j - 1);
    }
  }

  lemma {:induction false} DistinctByMultiset(a: seq<Id>, b: seq<Id>)
    requires multiset(a) == multiset(b) && forall i, j :: 0 <= i < j < |a| ==> a[i] != a[j]
    ensures forall i, j :: 0 <= i < j < |b| ==> b[i] != b[j]
  {
    forall i, j | 0 <= i < j < |b|
      ensures b[i] != b[j]
    {
      AtMostOnce(a, b[j]);
      var init, rest := b[..j], b[j..];
      assert b == init + rest && init[i] == b[i] && rest[0] == b[j];
      assert multiset(b)[b[j]] == multiset(init)[b[j]] + multiset(rest)[b[j]];
      assert b[i] in multiset(init) && b[j] in multiset(rest);
    }
  }

  lemma {:induction false} AtMostOnce(a: seq<Id>, x: Id)
    requires forall i, j :: 0 <= i < j < |a| ==> a[i] != a[j]
    ensures multiset(a)[x] <= 1
  {
    if a != [] {
      assert a == [a[0]] + a[1..];
      AtMostOnce(a[1..], x);
      if a[0] == x {
        assert x !in a[1..];
      }
    }
  }

  /** Sorting the documents of a directory, read in any order, gives a listing. */
  lemma SortIsListing(docs: map<Id, Session>, ids: seq<Id>)
    requires Enumerates(docs, ids)
    ensures Listing(docs, SortNewest(docs, ids))
  {
    var r := SortNewest(docs, ids);
    SortIsSorted(docs, ids);
    SameMembers(r, ids);
    DistinctByMultiset(ids, r);
    forall i, j | 0 <= i < j < |r|
      ensures NotOlder(docs, r[i], r[j])
    {
      SortedAt(docs, r, i, j);
    }
  }

  /** Leaving one document out of a listing. */
  function Except(ids: seq<Id>, k: nat): seq<Id>
    requires k < |ids|
  {
    ids[..k] + ids[k + 1..]
  }

  lemma ExceptIsListing(docs: map<Id, Session>, ids: seq<Id>, k: nat)
    requires Listing(docs, ids) && k < |ids|
    ensures Listing(docs - {ids[k]}, Except(ids, k))
  {
    var rest, less := Except(ids, k), docs - {ids[k]};
    forall i | 0 <= i < |rest|
      ensures rest[i] == ids[if i < k then i else i + 1]
    {
    }
    forall id
      ensures id in rest <==> id in less
    {
      if id in less {
        var j :| 0 <= j < |ids| && ids[j] == id;
        assert rest[if j < k then j else j - 1] == id;
      }
    }
    forall i, j | 0 <= i < j < |rest|
      ensures NotOlder(less, rest[i], rest[j])
    {
      assert NotOlder(docs, ids[if i < k then i else i + 1], ids[if j < k then j else j + 1]);
    }
  }

  function TimeAt(docs: map<Id, Session>, ids: seq<Id>, i: nat): string
    requires i < |ids| && ids[i] in docs
  {
    docs[ids[i]].updatedAt
  }

  /** Documents between two of equal time have that time. */
  lemma BetweenEquals(docs: map<Id, Session>, ids: seq<Id>, i: nat, k: nat)
    requires Listing(docs, ids) && i <= k < |ids| && TimeAt(docs, ids, 0) == TimeAt(docs, ids, k)
    ensures TimeAt(docs, ids, i) == TimeAt(docs, ids, 0)
  {
    if 0 < i < k {
      NotOlderOrder(docs, ids[i], ids[0], ids[k]);
      assert NotOlder(docs, ids[0], ids[i]) && NotOlder(docs, ids[i], ids[k]);
    }
  }

  lemma HeadsEqual(docs: map<Id, Session>, x: seq<Id>, y: seq<Id>, k: nat)
    requires Listing(docs, x) && Listing(docs, y) && x != [] && k < |y| && y[k] == x[0]
    ensures TimeAt(docs, x, 0) == TimeAt(docs, y, 0)
  {
    assert y[0] in x;
    var j :| 0 <= j < |x| && x[j] == y[0];
    if j > 0 && k > 0 {
      assert NotOlder(docs, x[0], x[j]) && NotOlder(docs, y[0], y[k]);
      NotOlderOrder(docs, x[0], y[0], y[0]);
    }
  }

  lemma SameLength(docs: map<Id, Session>, x: seq<Id>, y: seq<Id>)
    requires Listing(docs, x) && Listing(docs, y)
    ensures |x| == |y|
  {
    DistinctCount(x, docs.Keys);
    DistinctCount(y, docs.Keys);
  }

  lemma TailEqual(docs: map<Id, Session>, x: seq<Id>, y: seq<Id>, k: nat, i: nat)
    requires Listing(docs, x) && Listing(docs, y) && |x| == |y| && k < |y| && y[k] == x[0] && 0 < i < |x|
    requires TimeAt(docs, x, 0) == TimeAt(docs, y, 0)
    requires Except(x, 0)[i - 1] in docs && Except(y, k)[i - 1] in docs
    requires TimeAt(docs, Except(x, 0), i - 1) == TimeAt(docs, Except(y, k), i - 1)
    ensures TimeAt(docs, x, i) == TimeAt(docs, y, i)
  {
    assert Except(x, 0)[i - 1] == x[i];
    if i <= k {
      assert Except(y, k)[i - 1] == y[i - 1];
      BetweenEquals(docs, y, i - 1, k);
      BetweenEquals(docs, y, i, k);
    } else {
      assert Except(y, k)[i - 1] == y[i];
    }
  }

  lemma TailsEqual(docs: map<Id, Session>, x: seq<Id>, y: seq<Id>, k: nat)
    requires Listing(docs, x) && Listing(docs, y) && |x| == |y| && k < |y| && y[k] == x[0]
    requires var less := docs - {x[0]};
             && Listing(less, Except(x, 0)) && Listing(less, Except(y, k))
             && forall i :: 0 <= i < |x| - 1 ==> TimeAt(less, Except(x, 0), i) == TimeAt(less, Except(y, k), i)
    ensures forall i :: 0 <= i < |x| ==> TimeAt(docs, x, i) == TimeAt(docs, y, i)
  {
    HeadsEqual(docs, x, y, k);
    forall i | 0 < i < |x|
      ensures TimeAt(docs, x, i) == TimeAt(docs, y, i)
    {
      assert TimeAt(docs - {x[0]}, Except(x, 0), i - 1) == TimeAt(docs - {x[0]}, Except(y, k), i - 1);
      TailEqual(docs, x, y, k, i);
    }
  }

  /** Two listings of the same documents are equal up to the order of equal times: position by position they show the
      same time. */
  lemma {:induction false} ListingsAgree(docs: map<Id, Session>, x: seq<Id>, y: seq<Id>)
    requires Listing(docs, x) && Listing(docs, y)
    ensures |x| == |y| && forall i :: 0 <= i < |x| ==> TimeAt(docs, x, i) == TimeAt(docs, y, i)
    decreases |x|
  {
    SameLength(docs, x, y);
    if x != [] {
      assert x[0] in y;
      var k :| 0 <= k < |y| && y[k] == x[0];
      ExceptIsListing(docs, x, 0);
      ExceptIsListing(docs, y, k);
      ListingsAgree(docs - {x[0]}, Except(x, 0), Except(y, k));
      TailsEqual(docs, x, y, k);
    }
  }

  /** A list of documents that a listing of docs may return. */
  ghost predicate Lists(docs: map<Id, Session>, out: seq<Session>) {
    exists ids :: Listing(docs, ids) && out == DocsOf(docs, ids)
  }

  lemma {:induction false} DistinctMembers<T>(s: seq<T>)
    requires forall i, j :: 0 <= i < j < |s| ==> s[i] != s[j]
    ensures multiset(s) == multiset(set x | x in s)
  {
    if s != [] {
      var first, last := s[..|s| - 1], s[|s| - 1];
      DistinctMembers(first);
      assert s == first + [last];
      assert (set x | x in s) == (set x | x in first) + {last};
    }
  }

  /** Two listings of documents under their own ids hold the same documents. */
  lemma SameDocuments(docs: map<Id, Session>, x: seq<Id>, y: seq<Id>)
    requires NamesMatch(docs) && Listing(docs, x) && Listing(docs, y)
    ensures multiset(DocsOf(docs, x)) == multiset(DocsOf(docs, y))
  {
    var a, b := DocsOf(docs, x), DocsOf(docs, y);
    assert forall i :: 0 <= i < |a| ==> a[i].id == x[i];
    assert forall i :: 0 <= i < |b| ==> b[i].id == y[i];
    DistinctMembers(a);
    DistinctMembers(b);
    AllListed(docs, x);
    AllListed(docs, y);
    assert (set d | d in a) == docs.Values == (set d | d in b);
  }

  lemma AllListed(docs: map<Id, Session>, ids: seq<Id>)
    requires Enumerates(docs, ids)
    ensures forall d :: d in DocsOf(docs, ids) <==> d in docs.Values
  {
    var out := DocsOf(docs, ids);
    forall d | d in docs.Values
      ensures d in out
    {
      var id :| id in docs && docs[id] == d;
      assert id in ids;
      var i :| 0 <= i < |ids| && ids[i] == id;
      assert out[i] == d;
    }
  }

  /** A list holds every document once, newest first. */
  lemma ListMeaning(docs: map<Id, Session>, out: seq<Session>)
    requires Lists(docs, out)
    ensures |out| == |docs|
    ensures forall d :: d in out <==> d in docs.Values
    ensures forall i, j :: 0 <= i < j < |out| ==> !Timestamps.Less(out[i].updatedAt, out[j].updatedAt)
  {
    var ids :| Listing(docs, ids) && out == DocsOf(docs, ids);
    AllListed(docs, ids);
    DistinctCount(ids, docs.Keys);
    assert |docs| == |docs.Keys|;
    forall i, j | 0 <= i < j < |out|
      ensures !Timestamps.Less(out[i].updatedAt, out[j].updatedAt)
    {
      assert NotOlder(docs, ids[i], ids[j]);
    }
  }

  /** After startup backfill and any sequence of calls, whatever listing either backend returns, they hold the same
      documents and show the same times, position by position. */
  lemma BackendsListAlike(codec: Codec, json: map<Id, Session>, index: map<Id, Session>, files: seq<Id>,
                          calls: seq<Call>, x: seq<Session>, y: seq<Session>)
    requires Named(json) && index.Keys <= json.Keys && CleanCalls(calls)
    requires FilesOf(json, files) && forall p :: p in json ==> p in files
    requires Lists(ListContents(JsonFiles, Exec(codec, JsonFiles, Backfilled(json, index, files), calls).0), x)
    requires Lists(ListContents(SqliteIndex, Exec(codec, SqliteIndex, Backfilled(json, index, files), calls).0), y)
    ensures multiset(x) == multiset(y) && |x| == |y|
    ensures forall i :: 0 <= i < |x| ==> x[i].updatedAt == y[i].updatedAt
  {
    BackendsAgree(codec, json, index, files, calls);
    var after := Exec(codec, SqliteIndex, Backfilled(json, index, files), calls).0;
    ListsAlike(ListContents(SqliteIndex, after), x, y);
  }

  lemma ListsAlike(docs: map<Id, Session>, x: seq<Session>, y: seq<Session>)
    requires NamesMatch(docs) && Lists(docs, x) && Lists(docs, y)
    ensures multiset(x) == multiset(y) && |x| == |y|
    ensures forall i :: 0 <= i < |x| ==> x[i].updatedAt == y[i].updatedAt
  {
    var a :| Listing(docs, a) && x == DocsOf(docs, a);
    var b :| Listing(docs, b) && y == DocsOf(docs, b);
    SameDocuments(docs, a, b);
    ListingsAgree(docs, a, b);
    forall i | 0 <= i < |x|
      ensures x[i].updatedAt == y[i].updatedAt
    {
      assert TimeAt(docs, a, i) == TimeAt(docs, b, i);
    }
  }

  // ----- the store as an object -----

  class SessionStorage {
    const backend: Backend
    const codec: Codec
    var json: map<Id, Session>
    var index: map<Id, Session>

    ghost function State(): Stores
      reads this
    {
      Stores(json, index)
    }

    /** Startup over an existing directory and index, with backfill of the files that can be read. */
    constructor (backend: Backend, codec: Codec, json: map<Id, Session>, index: map<Id, Session>, files: seq<Id>)
      requires FilesOf(json, files)
      ensures this.backend == backend && this.codec == codec && State() == Backfilled(json, index, files)
    {
      this.backend, this.codec, this.json, this.index := backend, codec, json, index;
      new;
      for i := 0 to |files|
        invariant this.json == json && this.index == Absorbed(index, json, files[..i])
      {
        assert files[..i + 1][..i] == files[..i];
        var doc := json[files[i]];
        this.index := this.index[doc.id := doc];
      }
      assert files[..|files|] == files;
    }

    /** `list_sessions`, given the order of the directory and of the rows that the index returns. */
    method ListSessions(files: seq<Id>, rows: seq<Id>) returns (out: seq<Session>)
      requires Enumerates(json, files) && Listing(index, rows)
      ensures Lists(if backend.SqliteIndex? && index != map[] then index else json, out)
    {
      if backend.SqliteIndex? && rows != [] {
        assert rows[0] in index;
        return DocsOf(index, rows);
      }
      assert backend.SqliteIndex? ==> index == map[];
      SortIsListing(json, files);
      return DocsOf(json, SortNewest(json, files));
    }

    method WriteToIndex(doc: Session, up: bool) returns (ok: bool)
      modifies this`index
      ensures State() == Upsert(old(State()), doc, up) && ok == up
    {
      if up {
        index := index[doc.id := doc];
      }
      return up;
    }

    method Load(id: Id, up: bool) returns (r: Result<Option<Session>, Error>)
      modifies this`index
      ensures var e := LoadSession(backend, old(State()), id, up);
              State() == e.stores && e.answer == (match r case Ok(d) => Document(d) case Err(x) => Failed(x))
    {
      if backend.SqliteIndex? && id in index {
        return Ok(Some(index[id]));
      }
      var path := Path(id);
      if path.None? {
        return Err(BadId);
      }
      if path.value !in json {
        return Ok(None);
      }
      if backend.SqliteIndex? {
        var _ := WriteToIndex(json[path.value], up);
      }
      return Ok(Some(json[path.value]));
    }

    method Write(id: Id, doc: Session, up: bool) returns (error: Option<Error>)
      modifies this
      ensures (State(), error) == WriteSession(backend, old(State()), id, doc, up)
    {
      var path := Path(id);
      if path.None? {
        return Some(BadId);
      }
      json := json[path.value := doc];
      var ok := WriteToIndex(doc, up);
      return if backend.SqliteIndex? && !ok then Some(IndexFailed) else None;
    }

    method CreateSession(id: Id, doc: Session, up: bool) returns (a: Answer)
      modifies this
      ensures Effect(State(), a) == Step(codec, backend, old(State()), Op.Create(id, doc), up)
    {
      var path := Path(id);
      if path.None? {
        return Failed(BadId);
      }
      var error := Write(path.value, doc.(id := path.value), up);
      return if error.Some? then Failed(error.value) else Created(path.value);
    }

    /** The body that the locked mutators share: load, change, write. */
    method Update(id: Id, m: Mutation, up: bool) returns (a: Answer)
      modifies this
      ensures Effect(State(), a) == Step(codec, backend, old(State()), Op.Mutate(id, m), up)
    {
      var loaded := Load(id, up);
      if loaded.Err? {
        return Failed(loaded.error);
      }
      if loaded.value.None? {
        return Updated(false);
      }
      var changed := Apply(codec, m, loaded.value.value);
      if changed.None? {
        return Updated(m.EnsurePrompt?);
      }
      var error := Write(id, changed.value, up);
      return if error.Some? then Failed(error.value) else Updated(true);
    }
  }
}
