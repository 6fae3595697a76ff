/** The migration of cron job files to actors and canonical channels. */
module CronMigration {
  import opened Common
  import opened PyJson
  import AK = ActorKey

  // ----- whose jobs they are -----

  /** The channels of the jobs that are objects. */
  function JobChannels(show: Json -> string, jobs: seq<Json>): set<string> {
    set i | 0 <= i < |jobs| && jobs[i].Dict? :: NormalizeChannel(Shown(show, jobs[i].fields, Channel))
  }

  /** The first scope of a job that is not blank. */
  function FirstScope(show: Json -> string, jobs: seq<Json>): string {
    if jobs == [] then ""
    else if jobs[0].Dict? && Strip(Shown(show, jobs[0].fields, ChannelScope)) != "" then
      Strip(Shown(show, jobs[0].fields, ChannelScope))
    else FirstScope(show, jobs[1..])
  }

  lemma OneElement(s: set<string>, x: string, y: string)
    requires |s| == 1 && x in s && y in s
    ensures x == y
  {
    assert |s - {x}| == 0;
    assert y !in s - {x};
  }

  /** `pop` of a set with one element. */
  function TheOnly(s: set<string>): (x: string)
    requires |s| == 1
    ensures x in s
  {
    assert forall x, y :: x in s && y in s ==> x == y by {
      forall x, y | x in s && y in s ensures x == y { OneElement(s, x, y); }
    }
    var x :| x in s;
    x
  }

  /** `infer_actor`: from the actor object, or from the user and the jobs when they agree on a channel. */
  function InferActor(show: Json -> string, payload: Object): Option<AK.Actor> {
    var read := ReadActor(show, Get(payload, Actor));
    if read.Some? then read
    else
      var userId := Strip(Shown(show, payload, UserId));
      var jobs := Get(payload, Jobs);
      if userId == "" || !jobs.List? || jobs.items == [] then None
      else
        var channels := JobChannels(show, jobs.items) - {""};
        if |channels| != 1 then None
        else
          var scope := FirstScope(show, jobs.items);
          Some(AK.Actor(TheOnly(channels), if scope != "" && scope != AK.DIRECT then Some(scope) else None, userId))
  }

  lemma {:induction false} FirstScopeStripped(show: Json -> string, jobs: seq<Json>)
    ensures Strip(FirstScope(show, jobs)) == FirstScope(show, jobs)
  {
    if jobs == [] {
      StripStrips("");
    } else if jobs[0].Dict? && Strip(Shown(show, jobs[0].fields, ChannelScope)) != "" {
      StripStrips(Shown(show, jobs[0].fields, ChannelScope));
    } else {
      FirstScopeStripped(show, jobs[1..]);
    }
  }

  lemma InferredIsSettled(show: Json -> string, payload: Object)
    ensures InferActor(show, payload).Some? ==> Settled(InferActor(show, payload).value)
  {
    ReadActorSettles(show, Get(payload, Actor));
    if InferActor(show, payload).Some? && ReadActor(show, Get(payload, Actor)).None? {
      var jobs := Get(payload, Jobs).items;
      var channels := JobChannels(show, jobs) - {""};
      var c := TheOnly(channels);
      assert c in JobChannels(show, jobs);
      var i :| 0 <= i < |jobs| && jobs[i].Dict? && c == NormalizeChannel(Shown(show, jobs[i].fields, Channel));
      NormalizeChannelSettles(Shown(show, jobs[i].fields, Channel));
      StripStrips(Shown(show, payload, UserId));
      FirstScopeStripped(show, jobs);
    }
  }

  ghost predicate SameChannel(show: Json -> string, jobs: seq<Json>, channel: string) {
    && (exists i :: 0 <= i < |jobs| && jobs[i].Dict?)
    && forall i :: 0 <= i < |jobs| && jobs[i].Dict? ==>
         NormalizeChannel(Shown(show, jobs[i].fields, Channel)) == channel
  }

  lemma OneChannelIff(show: Json -> string, jobs: seq<Json>)
    ensures |JobChannels(show, jobs) - {""}| == 1 <==> exists c :: SameChannel(show, jobs, c)
    ensures forall c :: SameChannel(show, jobs, c) ==> JobChannels(show, jobs) - {""} == {c}
  {
    var channels := JobChannels(show, jobs);
    forall c | SameChannel(show, jobs, c)
      ensures channels - {""} == {c}
    {
      var i :| 0 <= i < |jobs| && jobs[i].Dict?;
      NormalizeChannelSettles(Shown(show, jobs[i].fields, Channel));
      assert c in channels;
    }
    if |channels - {""}| == 1 {
      var c := TheOnly(channels - {""});
      assert c in channels;
      forall i | 0 <= i < |jobs| && jobs[i].Dict?
        ensures NormalizeChannel(Shown(show, jobs[i].fields, Channel)) == c
      {
        var d := NormalizeChannel(Shown(show, jobs[i].fields, Channel));
        NormalizeChannelSettles(Shown(show, jobs[i].fields, Channel));
        assert d in channels;
        OneElement(channels - {""}, c, d);
      }
      assert SameChannel(show, jobs, c);
    }
  }

  /** The scope of a job object that is not blank. */
  ghost predicate HasScope(show: Json -> string, job: Json, scope: string) {
    && job.Dict? && ChannelScope in job.fields && scope != ""
    && scope == Strip(if job.fields[ChannelScope].Str? then job.fields[ChannelScope].text
                      else show(job.fields[ChannelScope]))
  }

  /** Job i is the first whose scope is not blank. */
  ghost predicate FirstScopeAt(show: Json -> string, jobs: seq<Json>, i: nat, scope: string) {
    && i < |jobs| && HasScope(show, jobs[i], scope)
    && forall k, other :: 0 <= k < i ==> !HasScope(show, jobs[k], other)
  }

  lemma BlankIsBlank()
    ensures Strip("") == ""
  {
  }

  lemma {:induction false} FirstScopeIs(show: Json -> string, jobs: seq<Json>)
    ensures FirstScope(show, jobs) != "" ==> exists i: nat :: FirstScopeAt(show, jobs, i, FirstScope(show, jobs))
    ensures FirstScope(show, jobs) == "" ==> forall i, scope :: 0 <= i < |jobs| ==> !HasScope(show, jobs[i], scope)
  {
    if jobs != [] {
      BlankIsBlank();
      FirstScopeIs(show, jobs[1..]);
      var scope := FirstScope(show, jobs);
      if jobs[0].Dict? && Strip(Shown(show, jobs[0].fields, ChannelScope)) != "" {
        assert FirstScopeAt(show, jobs, 0, scope);
      } else {
        assert forall other :: !HasScope(show, jobs[0], other);
        if scope != "" {
          var i: nat :| FirstScopeAt(show, jobs[1..], i, scope);
          forall k, other | 0 <= k < i + 1
            ensures !HasScope(show, jobs[k], other)
          {
            assert k > 0 ==> jobs[k] == jobs[1..][k - 1];
          }
          assert FirstScopeAt(show, jobs, i + 1, scope);
        } else {
          forall i, other | 0 <= i < |jobs|
            ensures !HasScope(show, jobs[i], other)
          {
            assert i > 0 ==> jobs[i] == jobs[1..][i - 1];
          }
        }
      }
    }
  }

  lemma FirstScopeUnique(show: Json -> string, jobs: seq<Json>, i: nat, x: string, j: nat, y: string)
    requires FirstScopeAt(show, jobs, i, x) && FirstScopeAt(show, jobs, j, y)
    ensures i == j && x == y
  {
  }

  /** The first scope of the jobs that is not blank is x. */
  ghost predicate JobsScope(show: Json -> string, jobs: seq<Json>, x: string) {
    exists i: nat :: FirstScopeAt(show, jobs, i, x)
  }

  lemma JobsScopeIff(show: Json -> string, jobs: seq<Json>, x: string)
    ensures FirstScope(show, jobs) == x && x != "" <==> JobsScope(show, jobs, x)
  {
    FirstScopeIs(show, jobs);
    if i: nat :| FirstScopeAt(show, jobs, i, x) {
      var j: nat :| FirstScopeAt(show, jobs, j, FirstScope(show, jobs));
      FirstScopeUnique(show, jobs, i, x, j, FirstScope(show, jobs));
    }
  }

  /** Without a readable actor object the actor is inferred exactly when there is a user and the job objects, of which
      there is at least one, agree on a channel; it is that user on that channel, with the scope of the first job whose
      scope is not blank, unless that spells "direct". */
  lemma InferredIff(show: Json -> string, payload: Object)
    requires ReadActor(show, Get(payload, Actor)) == None
    ensures var userId, jobs := Strip(Shown(show, payload, UserId)), Get(payload, Jobs);
            && (InferActor(show, payload).Some?
                <==> userId != "" && jobs.List? && exists c :: SameChannel(show, jobs.items, c))
            && (InferActor(show, payload).Some? ==>
                  && InferActor(show, payload).value.userId == userId
                  && SameChannel(show, jobs.items, InferActor(show, payload).value.channel)
                  && forall x :: InferActor(show, payload).value.scope == Some(x) <==>
                       x != "direct" && JobsScope(show, jobs.items, x))
  {
    if Get(payload, Jobs).List? {
      var jobs := Get(payload, Jobs).items;
      OneChannelIff(show, jobs);
      forall x
        ensures FirstScope(show, jobs) == x && x != "" <==> JobsScope(show, jobs, x)
      {
        JobsScopeIff(show, jobs, x);
      }
    }
  }

  // ----- the migration -----

  datatype Change = NormalizedActor | NormalizedUserId | NormalizedJobChannels | ManualActor

  /** A job with its channel normalized; what is no object stays. */
  function NormalizeJob(show: Json -> string, job: Json): Json {
    if job.Dict? then Dict(job.fields[Channel := Str(NormalizeChannel(Shown(show, job.fields, Channel)))]) else job
  }

  function NormalizeJobs(show: Json -> string, jobs: seq<Json>): seq<Json> {
    seq(|jobs|, i requires 0 <= i < |jobs| => NormalizeJob(show, jobs[i]))
  }

  /** The migrated payload of an actor. */
  function WithActor(show: Json -> string, payload: Object, a: AK.Actor): Object {
    var named := payload[Actor := ToJson(a)][UserId := Str(a.userId)];
    var jobs := Get(payload, Jobs);
    if jobs.List? then named[Jobs := List(NormalizeJobs(show, jobs.items))] else named
  }

  function Migrated(show: Json -> string, payload: Object): Object {
    match InferActor(show, payload)
    case None => payload
    case Some(a) => WithActor(show, payload, a)
  }

  /** The report names exactly the parts that differ. */
  ghost predicate ReportsParts(before: Object, after: Object, changes: seq<Change>) {
    && (NormalizedActor in changes <==> Get(after, Actor) != Get(before, Actor))
    && (NormalizedUserId in changes <==> Get(after, UserId) != Get(before, UserId))
    && (NormalizedJobChannels in changes <==> Get(after, Jobs) != Get(before, Jobs))
    && (changes == [] <==> after == before) && ManualActor !in changes
  }

  /** Actor and user, assigned where they differ. */
  method SetNames(payload: Object, a: AK.Actor) returns (data: Object, changes: seq<Change>)
    ensures data == payload[Actor := ToJson(a)][UserId := Str(a.userId)]
    ensures ReportsParts(payload, data, changes)
  {
    data, changes := payload, [];
    if Get(data, Actor) != ToJson(a) {
      data, changes := data[Actor := ToJson(a)], changes + [NormalizedActor];
    }
    if Get(data, UserId) != Str(a.userId) {
      data, changes := data[UserId := Str(a.userId)], changes + [NormalizedUserId];
    }
  }

  /** The jobs' channels, assigned where they differ. */
  method SetChannels(show: Json -> string, named: Object) returns (data: Object, changed: bool)
    ensures var jobs := Get(named, Jobs);
            data == if jobs.List? then named[Jobs := List(NormalizeJobs(show, jobs.items))] else named
    ensures data == named || (Jobs in named && Jobs in data && data == named[Jobs := data[Jobs]])
    ensures changed <==> data != named
  {
    data, changed := named, false;
    var jobs := Get(named, Jobs);
    if jobs.List? {
      var items;
      items, changed := NormalizeChannels(show, jobs.items);
      data := named[Jobs := List(items)];
      assert data[Jobs] != named[Jobs] <==> items != jobs.items;
    }
  }

  lemma JobsReported(payload: Object, named: Object, data: Object, parts: seq<Change>, changed: bool)
    requires ReportsParts(payload, named, parts) && Get(named, Jobs) == Get(payload, Jobs)
    requires data == named || (Jobs in named && Jobs in data && data == named[Jobs := data[Jobs]])
    requires changed <==> data != named
    ensures ReportsParts(payload, data, if changed then parts + [NormalizedJobChannels] else parts)
  {
    if changed {
      assert data[Jobs] != named[Jobs] by {
        assert data[Jobs] == named[Jobs] ==> data == named;
      }
    }
  }

  /** `migrate_payload`: assigns only what differs, and reports it. */
  method MigratePayload(show: Json -> string, payload: Object) returns (data: Object, changes: seq<Change>)
    ensures data == Migrated(show, payload)
    ensures if InferActor(show, payload).None? then changes == [ManualActor] else ReportsParts(payload, data, changes)
  {
    data, changes := payload, [];
    var inferred := InferActor(show, data);
    if inferred.None? {
      return data, [ManualActor];
    }
    var named, parts := SetNames(data, inferred.value);
    var changed;
    data, changed := SetChannels(show, named);
    changes := if changed then parts + [NormalizedJobChannels] else parts;
    JobsReported(payload, named, data, parts, changed);
  }

  /** The loop over the jobs, which writes into the objects of the list. */
  method NormalizeChannels(show: Json -> string, jobs: seq<Json>) returns (items: seq<Json>, changed: bool)
    ensures items == NormalizeJobs(show, jobs) && (changed <==> items != jobs)
  {
    items, changed := jobs, false;
    for i := 0 to |jobs|
      invariant |items| == |jobs|
      invariant forall k :: 0 <= k < i ==> items[k] == NormalizeJob(show, jobs[k])
      invariant forall k :: i <= k < |jobs| ==> items[k] == jobs[k]
      invariant changed <==> exists k :: 0 <= k < i && items[k] != jobs[k]
    {
      if jobs[i].Dict? {
        var channel := Str(NormalizeChannel(Shown(show, jobs[i].fields, Channel)));
        if Get(jobs[i].fields, Channel) != channel {
          items := items[i := Dict(jobs[i].fields[Channel := channel])];
          assert items[i].fields[Channel] == channel;
          changed := true;
        } else {
          assert jobs[i].fields[Channel := channel] == jobs[i].fields;
        }
      }
    }
  }

  lemma JobsSettle(show: Json -> string, jobs: seq<Json>)
    ensures NormalizeJobs(show, NormalizeJobs(show, jobs)) == NormalizeJobs(show, jobs)
  {
    var once := NormalizeJobs(show, jobs);
    forall i | 0 <= i < |jobs|
      ensures NormalizeJob(show, once[i]) == once[i]
    {
      if jobs[i].Dict? {
        var fields := once[i].fields;
        NormalizeChannelSettles(Shown(show, jobs[i].fields, Channel));
        assert Shown(show, fields, Channel) == NormalizeChannel(Shown(show, jobs[i].fields, Channel));
        assert fields[Channel := fields[Channel]] == fields;
      }
    }
    assert NormalizeJobs(show, once) == once;
  }

  /** One pass reaches the fixpoint, for every payload; the actor it inferred is inferred again. */
  lemma OnePassIsFixpoint(show: Json -> string, payload: Object)
    ensures Migrated(show, Migrated(show, payload)) == Migrated(show, payload)
    ensures InferActor(show, Migrated(show, payload)) == InferActor(show, payload)
  {
    if InferActor(show, payload).Some? {
      var a, once := InferActor(show, payload).value, Migrated(show, payload);
      InferredIsSettled(show, payload);
      ReadActorOfJson(show, a);
      assert Get(once, Actor) == ToJson(a);
      if Get(payload, Jobs).List? {
        JobsSettle(show, Get(payload, Jobs).items);
      }
      assert WithActor(show, once, a) == once;
    }
  }

  /** The actor object for these parts. */
  function ActorObject(channel: string, userId: string, scope: Option<string>): Object {
    if scope.Some? then map[Channel := Str(channel), UserId := Str(userId), ChannelScope := Str(scope.value)]
    else map[Channel := Str(channel), UserId := Str(userId)]
  }

  /** What the migration writes once an actor is inferred: its object, its user, and in each job object the channel in
      normal form. */
  lemma MigrationWrites(show: Json -> string, payload: Object)
    requires InferActor(show, payload).Some?
    ensures var a, after := InferActor(show, payload).value, Migrated(show, payload);
            && Get(after, Actor) == Dict(ActorObject(a.channel, a.userId, a.scope))
            && Get(after, UserId) == Str(a.userId)
    ensures var jobs, after := Get(payload, Jobs), Get(Migrated(show, payload), Jobs);
            jobs.List? ==> after.List? && |after.items| == |jobs.items| && forall i :: 0 <= i < |jobs.items| ==>
              var job := jobs.items[i];
              after.items[i] == if job.Dict? then
                  Dict(job.fields[Channel := Str(NormalizeChannel(Shown(show, job.fields, Channel)))])
                else job
  {
    var a := InferActor(show, payload).value;
    FieldsWithActor(show, payload, a);
    assert ToJson(a) == Dict(ActorObject(a.channel, a.userId, a.scope));
  }

  lemma FieldsWithActor(show: Json -> string, payload: Object, a: AK.Actor)
    ensures var after, jobs := WithActor(show, payload, a), Get(payload, Jobs);
            && Get(after, Actor) == ToJson(a) && Get(after, UserId) == Str(a.userId)
            && Get(after, Jobs) == if jobs.List? then List(NormalizeJobs(show, jobs.items)) else jobs
  {
  }

  lemma JobKeepsTheRest(show: Json -> string, job: Json)
    ensures SameButChannel(job, NormalizeJob(show, job))
  {
    if job.Dict? {
      assert NormalizeJob(show, job).fields - {Channel} == job.fields - {Channel};
    }
  }

  lemma OtherKeysKept(show: Json -> string, payload: Object, a: AK.Actor, key: Key)
    requires key != Actor && key != UserId && key != Jobs
    ensures Get(WithActor(show, payload, a), key) == Get(payload, key)
  {
  }

  ghost predicate JobsAlike(before: seq<Json>, after: seq<Json>) {
    |after| == |before| && forall i :: 0 <= i < |before| ==> SameButChannel(before[i], after[i])
  }

  lemma JobsKept(show: Json -> string, jobs: seq<Json>)
    ensures JobsAlike(jobs, NormalizeJobs(show, jobs))
  {
    forall i | 0 <= i < |jobs|
      ensures SameButChannel(jobs[i], NormalizeJobs(show, jobs)[i])
    {
      JobKeepsTheRest(show, jobs[i]);
    }
  }

  /** Only the actor, the user and the channels of job objects change. */
  lemma MigrationKeepsTheRest(show: Json -> string, payload: Object, key: Key)
    requires key != Actor && key != UserId
    ensures key != Jobs ==> Get(Migrated(show, payload), key) == Get(payload, key)
    ensures var before, after := Get(payload, Jobs), Get(Migrated(show, payload), Jobs);
            if before.List? then after.List? && JobsAlike(before.items, after.items) else after == before
  {
    if InferActor(show, payload).Some? {
      var a := InferActor(show, payload).value;
      FieldsWithActor(show, payload, a);
      if key != Jobs {
        OtherKeysKept(show, payload, a, key);
      }
      if Get(payload, Jobs).List? {
        JobsKept(show, Get(payload, Jobs).items);
      }
    }
  }

  ghost predicate SameButChannel(before: Json, after: Json) {
    before == after || (before.Dict? && after.Dict? && before.fields - {Channel} == after.fields - {Channel})
  }

  // ----- validation -----

  /** The actor whose storage key is computed for an actor object; None when the scope is truthy but no text, which
      the encoder cannot take. */
  function ActorOfObject(o: Object): Option<AK.Actor>
    requires Get(o, Channel).Str? && Get(o, UserId).Str?
  {
    var scope := Get(o, ChannelScope);
    if Truthy(scope) && !scope.Str? then None
    else Some(AK.Actor(Get(o, Channel).text, if Truthy(scope) then Some(scope.text) else None, Get(o, UserId).text))
  }

  function JobFinding(job: Json, i: nat): seq<Finding> {
    if !job.Dict? then [JobNotObject(i)]
    else if !Nonblank(Get(job.fields, Channel)) then [JobWithoutChannel(i)]
    else if LegacyWeb(Get(job.fields, Channel).text) then [JobWithLegacyChannel(i)]
    else []
  }

  function PerJob(jobs: seq<Json>): seq<seq<Finding>> {
    seq(|jobs|, i requires 0 <= i < |jobs| => JobFinding(jobs[i], i))
  }

  function Flatten(lists: seq<seq<Finding>>): seq<Finding> {
    if lists == [] then [] else Flatten(lists[..|lists| - 1]) + lists[|lists| - 1]
  }

  function JobFindings(jobs: seq<Json>): seq<Finding> {
    Flatten(PerJob(jobs))
  }

  function ActorFindings(o: Object, name: string): Option<seq<Finding>> {
    var channel, userId := Get(o, Channel), Get(o, UserId);
    var parts := ChannelFindings(channel) + UserFindings(userId);
    if Nonblank(channel) && Nonblank(userId) then
      match ActorOfObject(o)
      case None => None
      case Some(a) => Some(if name == FileName(a) then parts else parts + [WrongName])
    else Some(parts)
  }

  function FileName(a: AK.Actor): string {
    "cron_jobs_" + StorageKey(a) + ".json"
  }

  /** What validation reports for a payload in a file of that name; None when it stops with an exception. */
  function Findings(payload: Object, name: string): Option<seq<Finding>> {
    if !Get(payload, Actor).Dict? then Some([NoActorObject])
    else
      match ActorFindings(Get(payload, Actor).fields, name)
      case None => None
      case Some(f) =>
        var jobs := Get(payload, Jobs);
        Some(f + if jobs.List? then JobFindings(jobs.items) else [NoJobList])
  }

  /** `validate_payload`. */
  method ValidatePayload(payload: Object, name: string) returns (errors: Option<seq<Finding>>)
    ensures errors == Findings(payload, name)
  {
    var actor := Get(payload, Actor);
    if !actor.Dict? {
      return Some([NoActorObject]);
    }
    var found := ActorFindings(actor.fields, name);
    if found.None? {
      return None;
    }
    var list := found.value;
    var jobs := Get(payload, Jobs);
    if !jobs.List? {
      return Some(list + [NoJobList]);
    }
    for i := 0 to |jobs.items|
      invariant list == found.value + Flatten(PerJob(jobs.items)[..i])
    {
      var job := jobs.items[i];
      assert PerJob(jobs.items)[..i + 1][..i] == PerJob(jobs.items)[..i];
      Assoc(found.value, Flatten(PerJob(jobs.items)[..i]), JobFinding(job, i));
      if !job.Dict? {
        list := list + [JobNotObject(i)];
        continue;
      }
      var channel := Get(job.fields, Channel);
      if !Nonblank(channel) {
        list := list + [JobWithoutChannel(i)];
      } else if LegacyWeb(channel.text) {
        list := list + [JobWithLegacyChannel(i)];
      }
    }
    assert PerJob(jobs.items)[..|jobs.items|] == PerJob(jobs.items);
    errors := Some(list);
  }

  ghost predicate AllObjects(jobs: seq<Json>) {
    forall i :: 0 <= i < |jobs| ==> jobs[i].Dict?
  }

  lemma NormalizedJobPasses(show: Json -> string, job: Json, i: nat)
    ensures JobFinding(NormalizeJob(show, job), i) == [] <==> job.Dict?
  {
    if job.Dict? {
      NormalizeChannelSettles(Shown(show, job.fields, Channel));
    }
  }

  lemma {:induction false} FlattenEmptyIff(lists: seq<seq<Finding>>)
    ensures Flatten(lists) == [] <==> forall i :: 0 <= i < |lists| ==> lists[i] == []
  {
    if lists != [] {
      FlattenEmptyIff(lists[..|lists| - 1]);
      assert |Flatten(lists)| == |Flatten(lists[..|lists| - 1])| + |lists[|lists| - 1]|;
      assert forall i :: 0 <= i < |lists| - 1 ==> lists[..|lists| - 1][i] == lists[i];
    }
  }

  lemma NormalizedJobsPass(show: Json -> string, jobs: seq<Json>)
    ensures JobFindings(NormalizeJobs(show, jobs)) == [] <==> AllObjects(jobs)
  {
    var lists := PerJob(NormalizeJobs(show, jobs));
    FlattenEmptyIff(lists);
    forall i | 0 <= i < |jobs|
      ensures lists[i] == [] <==> jobs[i].Dict?
    {
      NormalizedJobPasses(show, jobs[i], i);
    }
  }

  lemma ActorOfSettled(a: AK.Actor)
    requires Settled(a)
    ensures var o := ToJson(a).fields;
            Get(o, Channel) == Str(a.channel) && Get(o, UserId) == Str(a.userId) && ActorOfObject(o) == Some(a)
  {
    var o := ToJson(a).fields;
    assert Get(o, ChannelScope) == if a.scope.Some? then Str(a.scope.value) else Null;
  }

  /** A text that is not blank and no legacy channel. */
  ghost predicate ChannelOk(v: Json) {
    v.Str? && Strip(v.text) != "" && v.text != "" && v.text != "web_test"
  }

  /** The actor whose key names the file; an empty scope is none. */
  function KeyedActor(channel: Json, userId: Json, scope: Json): AK.Actor
    requires channel.Str? && userId.Str?
  {
    AK.Actor(channel.text, if scope.Str? && scope.text != "" then Some(scope.text) else None, userId.text)
  }

  ghost predicate ValidActor(o: Object, name: string) {
    && ChannelOk(Get(o, Channel)) && Get(o, UserId).Str? && Strip(Get(o, UserId).text) != ""
    && (!Truthy(Get(o, ChannelScope)) || Get(o, ChannelScope).Str?)
    && name == FileName(KeyedActor(Get(o, Channel), Get(o, UserId), Get(o, ChannelScope)))
  }

  /** What a payload needs to pass validation in a file of that name. */
  ghost predicate Valid(payload: Object, name: string) {
    && Get(payload, Actor).Dict? && Get(payload, Jobs).List? && ValidActor(Get(payload, Actor).fields, name)
    && var jobs := Get(payload, Jobs).items;
       forall i :: 0 <= i < |jobs| ==> jobs[i].Dict? && ChannelOk(Get(jobs[i].fields, Channel))
  }

  lemma JobFindingIff(job: Json, i: nat)
    ensures JobFinding(job, i) == [] <==> job.Dict? && ChannelOk(Get(job.fields, Channel))
  {
  }

  lemma JobFindingsIff(jobs: seq<Json>)
    ensures JobFindings(jobs) == [] <==>
            forall i :: 0 <= i < |jobs| ==> jobs[i].Dict? && ChannelOk(Get(jobs[i].fields, Channel))
  {
    FlattenEmptyIff(PerJob(jobs));
    forall i | 0 <= i < |jobs|
      ensures PerJob(jobs)[i] == [] <==> jobs[i].Dict? && ChannelOk(Get(jobs[i].fields, Channel))
    {
      JobFindingIff(jobs[i], i);
    }
  }

  lemma NoFindingsIff(channel: Json, userId: Json)
    ensures ChannelFindings(channel) + UserFindings(userId) == []
       <==> ChannelOk(channel) && userId.Str? && Strip(userId.text) != ""
  {
    BlankIsBlank();
    assert |ChannelFindings(channel) + UserFindings(userId)| == |ChannelFindings(channel)| + |UserFindings(userId)|;
  }

  lemma KeyedActorIs(o: Object)
    requires Get(o, Channel).Str? && Get(o, UserId).Str?
    ensures ActorOfObject(o) == if Truthy(Get(o, ChannelScope)) && !Get(o, ChannelScope).Str? then None
                                else Some(KeyedActor(Get(o, Channel), Get(o, UserId), Get(o, ChannelScope)))
  {
  }

  lemma NamedFindings(o: Object, name: string)
    requires Nonblank(Get(o, Channel)) && Nonblank(Get(o, UserId))
    ensures var parts, a := ChannelFindings(Get(o, Channel)) + UserFindings(Get(o, UserId)), ActorOfObject(o);
            ActorFindings(o, name) == Some([]) <==> a.Some? && parts == [] && name == FileName(a.value)
  {
    assert ChannelFindings(Get(o, Channel)) + UserFindings(Get(o, UserId)) + [WrongName] != [];
  }

  lemma ActorFindingsIff(o: Object, name: string)
    ensures ActorFindings(o, name) == Some([]) <==> ValidActor(o, name)
  {
    NoFindingsIff(Get(o, Channel), Get(o, UserId));
    if Nonblank(Get(o, Channel)) && Nonblank(Get(o, UserId)) {
      NamedFindings(o, name);
      KeyedActorIs(o);
    }
  }

  /** Validation finds nothing exactly in valid payloads. */
  lemma ValidIff(payload: Object, name: string)
    ensures Findings(payload, name) == Some([]) <==> Valid(payload, name)
  {
    if Get(payload, Actor).Dict? {
      ActorFindingsIff(Get(payload, Actor).fields, name);
      if Get(payload, Jobs).List? {
        JobFindingsIff(Get(payload, Jobs).items);
      }
    }
  }

  /** Validation finds nothing in the object of a settled actor, at the actor's own path. */
  lemma SettledActorPasses(a: AK.Actor, name: string)
    requires Settled(a) && name == FileName(a)
    ensures ActorFindings(ToJson(a).fields, name) == Some([])
  {
    ActorOfSettled(a);
    var o := ToJson(a).fields;
    assert ChannelFindings(Get(o, Channel)) + UserFindings(Get(o, UserId)) == [];
  }

  /** An actor object that is not read as an actor has a finding. */
  lemma UnreadActorFails(show: Json -> string, raw: Json, name: string)
    requires raw.Dict? && ReadActor(show, raw) == None
    ensures ActorFindings(raw.fields, name).Some? && ActorFindings(raw.fields, name).value != []
  {
    NormalizeChannelSettles(Shown(show, raw.fields, Channel));
    assert !Nonblank(Get(raw.fields, UserId));
  }

  lemma FindingsAfterActor(payload: Object, name: string)
    requires Get(payload, Actor).Dict? && ActorFindings(Get(payload, Actor).fields, name) == Some([])
    ensures Findings(payload, name) == Some(if Get(payload, Jobs).List? then JobFindings(Get(payload, Jobs).items)
                                           else [NoJobList])
  {
    var jobs := Get(payload, Jobs);
    assert [] + [NoJobList] == [NoJobList];
    if jobs.List? {
      assert [] + JobFindings(jobs.items) == JobFindings(jobs.items);
    }
  }

  lemma MigratedWithActor(show: Json -> string, payload: Object, a: AK.Actor, name: string)
    requires InferActor(show, payload) == Some(a) && name == FileName(a)
    ensures Findings(Migrated(show, payload), name)
         == Some(if Get(payload, Jobs).List? then JobFindings(NormalizeJobs(show, Get(payload, Jobs).items))
                 else [NoJobList])
  {
    InferredIsSettled(show, payload);
    SettledActorPasses(a, name);
    FieldsWithActor(show, payload, a);
    FindingsAfterActor(WithActor(show, payload, a), name);
  }

  /** The migrated payload has no findings at its storage path exactly when an actor was inferred and the jobs are a
      list of objects; without an actor it has findings at every path. */
  lemma MigratedPassesIff(show: Json -> string, payload: Object, name: string)
    requires InferActor(show, payload).Some? ==> name == FileName(InferActor(show, payload).value)
    ensures Findings(Migrated(show, payload), name).Some?
    ensures Findings(Migrated(show, payload), name) == Some([])
       <==> InferActor(show, payload).Some? && Get(payload, Jobs).List? && AllObjects(Get(payload, Jobs).items)
  {
    if InferActor(show, payload).Some? {
      MigratedWithActor(show, payload, InferActor(show, payload).value, name);
      if Get(payload, Jobs).List? {
        NormalizedJobsPass(show, Get(payload, Jobs).items);
      }
    } else if Get(payload, Actor).Dict? {
      UnreadActorFails(show, Get(payload, Actor), name);
    }
  }
}
