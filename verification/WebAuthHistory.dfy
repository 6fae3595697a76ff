/** Theorems about whole histories of the web login store: what works now, given everything that was called before.
    Histories are arbitrary sequences of calls from empty tables; clocks and random draws are arbitrary. */
module WebAuthHistory {
  import opened Common
  import opened WebAuthTables

  /** A call together with what it returned. */
  datatype Event = Event(call: Call, outcome: Outcome)

  ghost function Exec(calls: seq<Call>): Tables {
    if calls == [] then EMPTY else Step(Exec(calls[..|calls| - 1]), calls[|calls| - 1]).tables
  }

  ghost function Log(calls: seq<Call>): (log: seq<Event>)
    ensures |log| == |calls|
  {
    if calls == [] then []
    else
      var n := |calls| - 1;
      Log(calls[..n]) + [Event(calls[n], Step(Exec(calls[..n]), calls[n]).outcome)]
  }

  lemma {:induction false} ExecSound(calls: seq<Call>)
    ensures Sound(Exec(calls))
  {
    if calls != [] {
      ExecSound(calls[..|calls| - 1]);
      StepKeepsSound(Exec(calls[..|calls| - 1]), calls[|calls| - 1]);
    }
  }

  // ----- sessions -----

  ghost predicate Row(t: Tables, token: string, user: UserId, expiresAt: int) {
    var k := SessionKey(token);
    k in t.sessions && t.sessions[k].userId == user && t.sessions[k].expiresAt == expiresAt
  }

  /** A presented text names a token as itself or in its stored form. */
  predicate Names(presented: Text, token: string) {
    presented == Plain(token) || presented == SessionKey(token)
  }

  /** The call deleted the token, revoked its user or reset its user's invite code. */
  predicate Withdraws(e: Event, token: string, user: UserId) {
    || (e.call.op.DeleteSession? && Names(e.call.op.presented, token))
    || (e.call.op.SetRevoked? && e.call.op.revoked && e.outcome.Mutated? && e.outcome.userId == user)
    || (e.call.op.ResetCode? && e.outcome.Mutated? && e.outcome.userId == user)
  }

  /** The call removes rows that have expired by its own clock: every purging call, and a check of the token itself. */
  predicate Drops(c: Call, token: string, expiresAt: int) {
    && expiresAt <= c.now
    && (|| c.op.LoginByInvite? || c.op.LoginByUser? || c.op.CountSessions? || c.op.SetRevoked? || c.op.ResetCode?
        || (c.op.Authenticate? && Names(c.op.presented, token)))
  }

  predicate Ends(e: Event, token: string, user: UserId, expiresAt: int) {
    Withdraws(e, token, user) || Drops(e.call, token, expiresAt)
  }

  ghost predicate LiveSince(log: seq<Event>, i: nat, token: string, user: UserId, expiresAt: int)
    requires i < |log|
  {
    && log[i].outcome == LoggedIn(token, user, expiresAt)
    && forall j :: i < j < |log| ==> !Ends(log[j], token, user, expiresAt)
  }

  /** Some call issued the token for this user until this expiry, and no later call ended that grant. */
  ghost predicate Live(log: seq<Event>, token: string, user: UserId, expiresAt: int) {
    exists i: nat :: i < |log| && LiveSince(log, i, token, user, expiresAt)
  }

  lemma OpenSessionRow(t: Tables, id: UserId, newToken: string, now: int, newExpiry: int,
                       token: string, user: UserId, expiresAt: int)
    requires id in t.users
    ensures var e := OpenSession(t, id, newToken, now, newExpiry);
            Row(e.tables, token, user, expiresAt) <==>
            Row(t, token, user, expiresAt) || e.outcome == LoggedIn(token, user, expiresAt)
  {
  }

  lemma CheckRow(t: Tables, c: Call, token: string, user: UserId, expiresAt: int)
    requires SoundSessions(t) && c.op.Authenticate?
    ensures Row(Step(t, c).tables, token, user, expiresAt) <==>
            Row(t, token, user, expiresAt) && !Drops(c, token, expiresAt)
  {
    var k := RowFor(t.sessions, c.op.presented);
    if k.Some? {
      assert k.value == SessionKey(k.value.of.chars);
      assert Names(c.op.presented, k.value.of.chars);
    }
  }

  lemma AdminRow(t: Tables, c: Call, token: string, user: UserId, expiresAt: int)
    requires SoundSessions(t) && (c.op.SetRevoked? || c.op.ResetCode?)
    ensures var e := Step(t, c);
            Row(e.tables, token, user, expiresAt) <==>
            Row(t, token, user, expiresAt) && !Ends(Event(c, e.outcome), token, user, expiresAt)
  {
  }

  lemma LoginRow(t: Tables, c: Call, token: string, user: UserId, expiresAt: int)
    requires SoundSessions(t) && (c.op.LoginByInvite? || c.op.LoginByUser?)
    ensures var e := Step(t, c);
            Row(e.tables, token, user, expiresAt) <==>
            || (Row(t, token, user, expiresAt) && !Drops(c, token, expiresAt))
            || e.outcome == LoggedIn(token, user, expiresAt)
  {
    var p := Purge(t, c.now);
    assert Row(p, token, user, expiresAt) <==> Row(t, token, user, expiresAt) && !Drops(c, token, expiresAt);
    if c.op.LoginByInvite? {
      var u := Opener(p.users, NormalizeCode(c.op.code), NormalizePhone(c.op.phone));
      if u.Some? {
        OpenSessionRow(p, u.value, c.op.token, c.now, c.now + LONG_DAYS * DAY, token, user, expiresAt);
      }
    } else if c.op.userId in p.users {
      OpenSessionRow(p, c.op.userId, c.op.token, c.now, c.now + c.op.ttlDays * DAY, token, user, expiresAt);
    }
  }

  lemma UserOnlyKeepsSessions(t: Tables, c: Call)
    requires UserOnly(c.op)
    ensures Step(t, c).tables.sessions == t.sessions && !Step(t, c).outcome.LoggedIn?
  {
  }

  /** What one call does to one session row. */
  lemma StepRow(t: Tables, c: Call, token: string, user: UserId, expiresAt: int)
    requires SoundSessions(t)
    ensures var e := Step(t, c);
            Row(e.tables, token, user, expiresAt) <==>
            || (Row(t, token, user, expiresAt) && !Ends(Event(c, e.outcome), token, user, expiresAt))
            || e.outcome == LoggedIn(token, user, expiresAt)
  {
    if UserOnly(c.op) {
      UserOnlyKeepsSessions(t, c);
    } else if c.op.LoginByInvite? || c.op.LoginByUser? {
      LoginRow(t, c, token, user, expiresAt);
    } else if c.op.Authenticate? {
      CheckRow(t, c, token, user, expiresAt);
    } else if c.op.SetRevoked? || c.op.ResetCode? {
      AdminRow(t, c, token, user, expiresAt);
    }
  }

  lemma LiveGrows(log: seq<Event>, e: Event, token: string, user: UserId, expiresAt: int)
    ensures Live(log + [e], token, user, expiresAt) <==>
            (Live(log, token, user, expiresAt) && !Ends(e, token, user, expiresAt))
            || e.outcome == LoggedIn(token, user, expiresAt)
  {
    var all := log + [e];
    forall i: nat | i < |log|
      ensures LiveSince(all, i, token, user, expiresAt) <==>
              LiveSince(log, i, token, user, expiresAt) && !Ends(e, token, user, expiresAt)
    {
      assert all[|log|] == e && all[..|log|] == log;
      assert forall j :: 0 <= j < |log| ==> all[j] == log[j];
    }
    assert LiveSince(all, |log|, token, user, expiresAt) <==> e.outcome == LoggedIn(token, user, expiresAt);
  }

  /** The session table is exactly what the history says: the grants issued and not ended since. */
  lemma {:induction false} SessionTableIsHistory(calls: seq<Call>, token: string, user: UserId, expiresAt: int)
    ensures Row(Exec(calls), token, user, expiresAt) <==> Live(Log(calls), token, user, expiresAt)
  {
    if calls != [] {
      var n := |calls| - 1;
      SessionTableIsHistory(calls[..n], token, user, expiresAt);
      ExecSound(calls[..n]);
      StepRow(Exec(calls[..n]), calls[n], token, user, expiresAt);
      LiveGrows(Log(calls[..n]), Log(calls)[n], token, user, expiresAt);
    }
  }

  /** Clock readings never go back, up to `now`. */
  ghost predicate Clocked(log: seq<Event>, now: int) {
    && (forall i, j :: 0 <= i < j < |log| ==> log[i].call.now <= log[j].call.now)
    && (forall i :: 0 <= i < |log| ==> log[i].call.now <= now)
  }

  /** Issued at call i for `user` until `expiresAt`, and not withdrawn by any later call. */
  ghost predicate Granted(log: seq<Event>, i: nat, token: string, user: UserId, expiresAt: int)
    requires i < |log|
  {
    log[i].outcome == LoggedIn(token, user, expiresAt) && forall j :: i < j < |log| ==> !Withdraws(log[j], token, user)
  }

  /** Issued to this user, not yet expired at `now`, and not withdrawn since. */
  ghost predicate GrantedAt(log: seq<Event>, now: int, token: string, user: UserId) {
    exists i: nat, x :: i < |log| && now < x && Granted(log, i, token, user, x)
  }

  ghost predicate LiveAt(log: seq<Event>, now: int, token: string, user: UserId) {
    exists x :: now < x && Live(log, token, user, x)
  }

  ghost predicate StaleAt(log: seq<Event>, now: int, token: string, user: UserId) {
    exists x :: x <= now && Live(log, token, user, x)
  }

  predicate AuthenticatedAs(o: Outcome, user: UserId) {
    o.Authenticated? && o.userId == user
  }

  /** A grant of the token is in the table, unexpired at `now`, exactly when it is live for somebody at `now`. */
  lemma LiveInTable(calls: seq<Call>, now: int, token: string)
    ensures forall u, x :: Row(Exec(calls), token, u, x) <==> Live(Log(calls), token, u, x)
    ensures SessionKey(token) in Unexpired(Exec(calls).sessions, now) <==> exists u :: LiveAt(Log(calls), now, token, u)
  {
    forall u, x
      ensures Row(Exec(calls), token, u, x) <==> Live(Log(calls), token, u, x)
    {
      SessionTableIsHistory(calls, token, u, x);
    }
    var s := Exec(calls).sessions;
    var log := Log(calls);
    if SessionKey(token) in Unexpired(s, now) {
      var row := s[SessionKey(token)];
      assert Row(Exec(calls), token, row.userId, row.expiresAt);
      assert LiveAt(log, now, token, row.userId);
    } else {
      forall u
        ensures !LiveAt(log, now, token, u)
      {
        forall x | now < x
          ensures !Live(log, token, u, x)
        {
          assert !Row(Exec(calls), token, u, x);
        }
      }
    }
  }

  lemma CheckToken(calls: seq<Call>, now: int, token: string)
    ensures var r := Check(Exec(calls), Plain(token), now).outcome;
      && (r.Authenticated? || r.Expired? || r == Missing)
      && (forall u :: AuthenticatedAs(r, u) <==> LiveAt(Log(calls), now, token, u))
      && (forall u :: r == Expired(u) <==> StaleAt(Log(calls), now, token, u))
  {
    ExecSound(calls);
    LiveInTable(calls, now, token);
    var t := Exec(calls);
    assert Plain(token) !in t.sessions;
    if SessionKey(token) in t.sessions {
      var row := t.sessions[SessionKey(token)];
      assert Row(t, token, row.userId, row.expiresAt);
    }
  }

  /** The token that a presented text names, if any: itself, or what it is the stored form of. */
  function TokenOf(presented: Text): Option<string> {
    match presented
    case Plain(token) => Some(token)
    case Digest(Plain(token)) => Some(token)
    case _ => None
  }

  lemma TokenOfNames(presented: Text, token: string)
    ensures Names(presented, token) <==> TokenOf(presented) == Some(token)
  {
  }

  lemma CheckByToken(t: Tables, presented: Text, now: int)
    requires SoundSessions(t)
    ensures TokenOf(presented).Some? ==>
      Check(t, presented, now).outcome == Check(t, Plain(TokenOf(presented).value), now).outcome
    ensures TokenOf(presented).None? ==> Check(t, presented, now).outcome == Missing
  {
    assert Digest(presented) in t.sessions ==> presented.Plain?;
  }

  /** The text names a token that is live for the user and unexpired at `now`. */
  ghost predicate LiveFor(log: seq<Event>, now: int, presented: Text, user: UserId) {
    exists token :: Names(presented, token) && LiveAt(log, now, token, user)
  }

  ghost predicate StaleFor(log: seq<Event>, now: int, presented: Text, user: UserId) {
    exists token :: Names(presented, token) && StaleAt(log, now, token, user)
  }

  lemma NamedOnly(log: seq<Event>, now: int, presented: Text, token: string, user: UserId)
    requires Names(presented, token)
    ensures LiveFor(log, now, presented, user) <==> LiveAt(log, now, token, user)
    ensures StaleFor(log, now, presented, user) <==> StaleAt(log, now, token, user)
  {
    forall k | Names(presented, k)
      ensures k == token
    {
      TokenOfNames(presented, k);
      TokenOfNames(presented, token);
    }
  }

  lemma NamesNothing(log: seq<Event>, now: int, presented: Text, user: UserId)
    requires TokenOf(presented).None?
    ensures !LiveFor(log, now, presented, user) && !StaleFor(log, now, presented, user)
  {
    forall k
      ensures !Names(presented, k)
    {
      TokenOfNames(presented, k);
    }
  }

  /** What checking any presented text answers, for arbitrary clocks: every answer is decided by the history of the
      token that the text names, a stored hash logging in like its token; and the two answers about missing and revoked
      users cannot occur. */
  lemma CheckIsHistory(calls: seq<Call>, now: int, presented: Text)
    ensures var r := Check(Exec(calls), presented, now).outcome;
      && (r.Authenticated? || r.Expired? || r == Missing)
      && (forall u :: AuthenticatedAs(r, u) <==> LiveFor(Log(calls), now, presented, u))
      && (forall u :: r == Expired(u) <==> StaleFor(Log(calls), now, presented, u))
  {
    ExecSound(calls);
    CheckByToken(Exec(calls), presented, now);
    var token := TokenOf(presented);
    if token.Some? {
      CheckToken(calls, now, token.value);
      TokenOfNames(presented, token.value);
    }
    forall u
      ensures var r := Check(Exec(calls), presented, now).outcome;
              && (AuthenticatedAs(r, u) <==> LiveFor(Log(calls), now, presented, u))
              && (r == Expired(u) <==> StaleFor(Log(calls), now, presented, u))
    {
      if token.Some? {
        NamedOnly(Log(calls), now, presented, token.value, u);
      } else {
        NamesNothing(Log(calls), now, presented, u);
      }
    }
  }

  lemma LiveIsGranted(log: seq<Event>, now: int, i: nat, token: string, user: UserId, x: int)
    requires Clocked(log, now) && i < |log| && now < x
    ensures LiveSince(log, i, token, user, x) <==> Granted(log, i, token, user, x)
  {
    assert forall j :: 0 <= j < |log| ==> !Drops(log[j].call, token, x);
  }

  lemma LiveAtIsGranted(log: seq<Event>, now: int, token: string, user: UserId)
    requires Clocked(log, now)
    ensures LiveAt(log, now, token, user) <==> GrantedAt(log, now, token, user)
  {
    if LiveAt(log, now, token, user) {
      var x :| now < x && Live(log, token, user, x);
      var i: nat :| i < |log| && LiveSince(log, i, token, user, x);
      LiveIsGranted(log, now, i, token, user, x);
    }
    if i: nat, x :| i < |log| && now < x && Granted(log, i, token, user, x) {
      LiveIsGranted(log, now, i, token, user, x);
      assert Live(log, token, user, x);
    }
  }

  /** With a clock that never goes back, a text authenticates as a user at `now` exactly when the token that it names
      was issued to that user, `now` is before the expiry fixed at issue, and since then it was not deleted and its user
      was neither revoked nor given a new invite code. Checking a token in between extends nothing. */
  lemma SessionAuthenticates(calls: seq<Call>, now: int, presented: Text, token: string, user: UserId)
    requires Clocked(Log(calls), now) && Names(presented, token)
    ensures AuthenticatedAs(Check(Exec(calls), presented, now).outcome, user) <==>
            GrantedAt(Log(calls), now, token, user)
  {
    CheckIsHistory(calls, now, presented);
    NamedOnly(Log(calls), now, presented, token, user);
    LiveAtIsGranted(Log(calls), now, token, user);
  }

  /** The expiry is fixed at issue: 30 days for an invite login, the caller's number of days otherwise. */
  lemma {:induction false} ExpiryFixedAtIssue(calls: seq<Call>, i: nat, token: string, user: UserId, expiresAt: int)
    requires i < |calls| && Log(calls)[i].outcome == LoggedIn(token, user, expiresAt)
    ensures calls[i].op.LoginByInvite? || calls[i].op.LoginByUser?
    ensures calls[i].op.token == token
    ensures expiresAt == calls[i].now
                         + (if calls[i].op.LoginByInvite? then 30 else calls[i].op.ttlDays) * 86_400_000_000_000
  {
    if i < |calls| - 1 {
      ExpiryFixedAtIssue(calls[..|calls| - 1], i, token, user, expiresAt);
    }
  }

  /** Two grants of one token never overlap, so "the" user and expiry of a live token are determined. */
  lemma LiveIsUnique(calls: seq<Call>, token: string, u: UserId, x: int, v: UserId, y: int)
    requires Live(Log(calls), token, u, x) && Live(Log(calls), token, v, y)
    ensures u == v && x == y
  {
    SessionTableIsHistory(calls, token, u, x);
    SessionTableIsHistory(calls, token, v, y);
  }

  // ----- users: keys, codes, revocation, passwords -----

  function KeySetBy(e: Event, u: UserId): Option<string> {
    if (e.outcome.Invited? || e.outcome.KeyIssued?) && e.outcome.userId == u then Some(e.outcome.key) else None
  }

  function CodeSetBy(e: Event, u: UserId): Option<string> {
    if e.outcome.Invited? && e.outcome.userId == u then Some(e.outcome.code)
    else if e.call.op.ResetCode? && e.outcome.Mutated? && e.outcome.userId == u then Some(e.outcome.user.inviteCode)
    else None
  }

  function RevocationSetBy(e: Event, u: UserId): Option<bool> {
    if e.outcome.Invited? && e.outcome.userId == u then Some(false)
    else if e.call.op.SetRevoked? && e.outcome.Mutated? && e.outcome.userId == u then Some(e.call.op.revoked)
    else if e.call.op.ResetCode? && e.outcome.Mutated? && e.outcome.userId == u then Some(false)
    else None
  }

  function PasswordSetBy(e: Event, u: UserId): Option<string> {
    if (e.call.op.SetPassword? || e.call.op.ChangePassword?) && e.outcome == Done(true) && e.call.op.userId == u
    then Some(e.call.op.hash) else None
  }

  function PhoneSetBy(e: Event, u: UserId): Option<string> {
    if e.outcome.Invited? && e.outcome.userId == u then Some(e.outcome.phone) else None
  }

  /** The last value that some call of the history set. */
  ghost function Last<T>(log: seq<Event>, sets: Event -> Option<T>): Option<T> {
    if log == [] then None
    else
      var v := sets(log[|log| - 1]);
      if v.Some? then v else Last(log[..|log| - 1], sets)
  }

  ghost function LatestKey(log: seq<Event>, u: UserId): Option<string> {
    Last(log, e => KeySetBy(e, u))
  }

  ghost function LatestCode(log: seq<Event>, u: UserId): Option<string> {
    Last(log, e => CodeSetBy(e, u))
  }

  ghost function LatestRevocation(log: seq<Event>, u: UserId): Option<bool> {
    Last(log, e => RevocationSetBy(e, u))
  }

  ghost function LatestPassword(log: seq<Event>, u: UserId): Option<string> {
    Last(log, e => PasswordSetBy(e, u))
  }

  ghost function PhoneOf(log: seq<Event>, u: UserId): Option<string> {
    Last(log, e => PhoneSetBy(e, u))
  }

  function Code(t: Tables, u: UserId): Option<string> {
    if u in t.users then Some(t.users[u].inviteCode) else None
  }

  function Phone(t: Tables, u: UserId): Option<string> {
    if u in t.users then Some(t.users[u].phone) else None
  }

  function Revoked(t: Tables, u: UserId): Option<bool> {
    if u in t.users then Some(t.users[u].revokedAt.Some?) else None
  }

  function Password(t: Tables, u: UserId): Option<string> {
    if u in t.users then t.users[u].passwordHash else None
  }

  function StoredKey(t: Tables, u: UserId): Option<Text> {
    if u in t.users then t.users[u].keyHash else None
  }

  function HashOf(key: Option<string>): Option<Text> {
    if key.Some? then Some(KeyHash(Plain(key.value))) else None
  }

  function Newer<T>(before: Option<T>, written: Option<T>): Option<T> {
    if written.Some? then written else before
  }

  /** What one event does to one user. */
  ghost predicate UserStep(t: Tables, e: Event, after: Tables, u: UserId) {
    && Code(after, u) == Newer(Code(t, u), CodeSetBy(e, u))
    && Phone(after, u) == Newer(Phone(t, u), PhoneSetBy(e, u))
    && Revoked(after, u) == Newer(Revoked(t, u), RevocationSetBy(e, u))
    && Password(after, u) == Newer(Password(t, u), PasswordSetBy(e, u))
    && StoredKey(after, u) == Newer(StoredKey(t, u), HashOf(KeySetBy(e, u)))
  }

  lemma CreationStep(t: Tables, c: Call, u: UserId)
    requires c.op.CreateInvite?
    ensures UserStep(t, Event(c, Step(t, c).outcome), Step(t, c).tables, u)
  {
  }

  lemma KeyStep(t: Tables, c: Call, u: UserId)
    requires c.op.FindByKey? || c.op.EnsureKey? || c.op.ResetKey?
    ensures UserStep(t, Event(c, Step(t, c).outcome), Step(t, c).tables, u)
  {
  }

  lemma ProfileStep(t: Tables, c: Call, u: UserId)
    requires c.op.SetPassword? || c.op.ChangePassword? || c.op.RecordTos?
    ensures UserStep(t, Event(c, Step(t, c).outcome), Step(t, c).tables, u)
  {
  }

  lemma RevocationStep(t: Tables, c: Call, u: UserId)
    requires c.op.SetRevoked?
    ensures UserStep(t, Event(c, Step(t, c).outcome), Step(t, c).tables, u)
  {
    assert Purge(t, c.now).users == t.users;
  }

  lemma CodeStep(t: Tables, c: Call, u: UserId)
    requires c.op.ResetCode?
    ensures UserStep(t, Event(c, Step(t, c).outcome), Step(t, c).tables, u)
  {
    assert Purge(t, c.now).users == t.users;
  }

  lemma InviteLoginStep(t: Tables, c: Call, u: UserId)
    requires c.op.LoginByInvite?
    ensures UserStep(t, Event(c, Step(t, c).outcome), Step(t, c).tables, u)
  {
    assert Purge(t, c.now).users == t.users;
  }

  lemma UserLoginStep(t: Tables, c: Call, u: UserId)
    requires c.op.LoginByUser?
    ensures UserStep(t, Event(c, Step(t, c).outcome), Step(t, c).tables, u)
  {
    assert Purge(t, c.now).users == t.users;
  }

  lemma UserStepHolds(t: Tables, c: Call, u: UserId)
    ensures UserStep(t, Event(c, Step(t, c).outcome), Step(t, c).tables, u)
  {
    if c.op.CreateInvite? {
      CreationStep(t, c, u);
    } else if c.op.FindByKey? || c.op.EnsureKey? || c.op.ResetKey? {
      KeyStep(t, c, u);
    } else if UserOnly(c.op) {
      ProfileStep(t, c, u);
    } else if c.op.LoginByInvite? {
      InviteLoginStep(t, c, u);
    } else if c.op.LoginByUser? {
      UserLoginStep(t, c, u);
    } else if c.op.SetRevoked? {
      RevocationStep(t, c, u);
    } else if c.op.ResetCode? {
      CodeStep(t, c, u);
    }
  }

  /** The user table is exactly what the history says. */
  ghost predicate UserMatchesHistory(t: Tables, log: seq<Event>, u: UserId) {
    && Code(t, u) == LatestCode(log, u)
    && Phone(t, u) == PhoneOf(log, u)
    && Revoked(t, u) == LatestRevocation(log, u)
    && Password(t, u) == LatestPassword(log, u)
    && StoredKey(t, u) == HashOf(LatestKey(log, u))
  }

  lemma HistoryGrows(t: Tables, log: seq<Event>, e: Event, after: Tables, u: UserId)
    requires UserMatchesHistory(t, log, u) && UserStep(t, e, after, u)
    ensures UserMatchesHistory(after, log + [e], u)
  {
    var all := log + [e];
    assert all[|all| - 1] == e && all[..|all| - 1] == log;
  }

  lemma {:induction false} UserTableIsHistory(calls: seq<Call>, u: UserId)
    ensures UserMatchesHistory(Exec(calls), Log(calls), u)
  {
    if calls != [] {
      var n := |calls| - 1;
      var t := Exec(calls[..n]);
      UserTableIsHistory(calls[..n], u);
      UserStepHolds(t, calls[n], u);
      HistoryGrows(t, Log(calls[..n]), Event(calls[n], Step(t, calls[n]).outcome), Exec(calls), u);
    }
  }

  /** An API key is accepted for a user exactly when it is the latest key issued to that user (up to surrounding
      white space), it is not blank, and the user's last revocation change was not a revocation. */
  lemma KeyAccepted(calls: seq<Call>, now: int, key: Text, user: UserId)
    ensures var r := Step(Exec(calls), Call(now, FindByKey(key))).outcome;
      (r.KeyUser? && r.userId == user) <==>
      && TrimText(key) != Plain("")
      && HashOf(LatestKey(Log(calls), user)) == Some(KeyHash(key))
      && LatestRevocation(Log(calls), user) == Some(false)
  {
    UserTableIsHistory(calls, user);
    ExecSound(calls);
    var t := Exec(calls);
    var owner := KeyOwner(t.users, KeyHash(key));
    assert AcceptsKey(t.users, user, KeyHash(key)) ==> owner.Some? && SameKey(t.users, user, owner.value);
  }

  lemma InviteLoginOutcome(t: Tables, code: TypedCode, phone: string, token: string, now: int, user: UserId)
    requires UniqueCodes(t.users)
    ensures InviteLogin(t, code, phone, token, now).outcome == LoggedIn(token, user, now + 30 * DAY) <==>
            && OpensWith(t.users, user, NormalizeCode(code), NormalizePhone(phone))
            && SessionKey(token) !in t.sessions
  {
    var owner := Opener(t.users, NormalizeCode(code), NormalizePhone(phone));
    assert OpensWith(t.users, user, NormalizeCode(code), NormalizePhone(phone)) ==>
        owner.Some? && SameCode(t.users, user, owner.value);
  }

  lemma LoginFromTables(calls: seq<Call>, now: int, code: TypedCode, phone: string, token: string, user: UserId)
    ensures Step(Exec(calls), Call(now, LoginByInvite(code, phone, token))).outcome
              == LoggedIn(token, user, now + 30 * DAY) <==>
            && OpensWith(Exec(calls).users, user, NormalizeCode(code), NormalizePhone(phone))
            && SessionKey(token) !in Purge(Exec(calls), now).sessions
  {
    ExecSound(calls);
    InviteLoginOutcome(Purge(Exec(calls), now), code, phone, token, now, user);
  }

  lemma OpenerFromHistory(calls: seq<Call>, code: string, phone: string, user: UserId)
    ensures OpensWith(Exec(calls).users, user, code, phone) <==>
            && LatestCode(Log(calls), user) == Some(code)
            && PhoneOf(Log(calls), user) == Some(phone)
            && LatestRevocation(Log(calls), user) == Some(false)
  {
    UserTableIsHistory(calls, user);
  }

  /** An invite login succeeds for a user exactly when the code (without spaces, in upper case) is the user's current
      one, the phone number is the user's after normalization, the user is not revoked, and the drawn token is not
      live for anybody. */
  lemma CodeOpensSession(calls: seq<Call>, now: int, code: TypedCode, phone: string, token: string, user: UserId)
    ensures Step(Exec(calls), Call(now, LoginByInvite(code, phone, token))).outcome
              == LoggedIn(token, user, now + 30 * DAY) <==>
            && LatestCode(Log(calls), user) == Some(NormalizeCode(code))
            && PhoneOf(Log(calls), user) == Some(NormalizePhone(phone))
            && LatestRevocation(Log(calls), user) == Some(false)
            && !exists v :: LiveAt(Log(calls), now, token, v)
  {
    LoginFromTables(calls, now, code, phone, token, user);
    OpenerFromHistory(calls, NormalizeCode(code), NormalizePhone(phone), user);
    LiveInTable(calls, now, token);
  }

  /** At every point of every history codes and keys are unique across users, a key's hash and prefix come and go
      together, and a revoked user owns no session row. */
  lemma HistoryKeepsTables(calls: seq<Call>, u: UserId, v: UserId)
    requires u in Exec(calls).users && v in Exec(calls).users
    ensures LatestCode(Log(calls), u) == LatestCode(Log(calls), v) ==> u == v
    ensures LatestKey(Log(calls), u).Some? && LatestKey(Log(calls), u) == LatestKey(Log(calls), v) ==> u == v
    ensures Exec(calls).users[u].keyHash.Some? <==> Exec(calls).users[u].keyPrefix.Some?
    ensures LatestRevocation(Log(calls), u) == Some(true) ==> RowsOf(Exec(calls).sessions, u) == {}
  {
    ExecSound(calls);
    UserTableIsHistory(calls, u);
    UserTableIsHistory(calls, v);
    assert LatestCode(Log(calls), u) == LatestCode(Log(calls), v) ==> SameCode(Exec(calls).users, u, v);
    assert LatestKey(Log(calls), u).Some? && LatestKey(Log(calls), u) == LatestKey(Log(calls), v) ==>
        SameKey(Exec(calls).users, u, v);
  }

  /** `set_password` succeeds for a known user exactly when no password was ever set before, and `change_password`
      exactly when one was. */
  lemma PasswordSetOnce(calls: seq<Call>, now: int, u: UserId, hash: string, tos: string)
    ensures FirstPassword(Exec(calls), u, hash, tos, now).outcome == Done(true) <==>
            LatestCode(Log(calls), u).Some? && LatestPassword(Log(calls), u) == None
    ensures NextPassword(Exec(calls), u, hash, now).outcome == Done(true) <==> LatestPassword(Log(calls), u).Some?
  {
    UserTableIsHistory(calls, u);
  }

  lemma LiveRow(calls: seq<Call>, now: int, u: UserId, token: string)
    ensures SessionKey(token) in RowsOf(Purge(Exec(calls), now).sessions, u) <==> LiveAt(Log(calls), now, token, u)
  {
    LiveInTable(calls, now, token);
    var t := Exec(calls);
    if SessionKey(token) in RowsOf(Purge(t, now).sessions, u) {
      assert Row(t, token, u, t.sessions[SessionKey(token)].expiresAt);
    }
  }

  lemma CountStep(t: Tables, now: int, u: UserId)
    ensures Step(t, Call(now, CountSessions(u))).outcome == Counted(|RowsOf(Purge(t, now).sessions, u)|)
  {
  }

  lemma RowsAreTokens(t: Tables, now: int, u: UserId, rows: set<Text>)
    requires SoundSessions(t) && rows == RowsOf(Purge(t, now).sessions, u)
    ensures forall r :: r in rows ==> r.Digest? && r.of.Plain?
  {
  }

  lemma RowsAreLiveTokens(calls: seq<Call>, now: int, u: UserId, tokens: set<string>)
    requires forall k :: k in tokens <==> LiveAt(Log(calls), now, k, u)
    ensures |RowsOf(Purge(Exec(calls), now).sessions, u)| == |tokens|
  {
    ExecSound(calls);
    var rows := RowsOf(Purge(Exec(calls), now).sessions, u);
    forall k
      ensures SessionKey(k) in rows <==> k in tokens
    {
      LiveRow(calls, now, u, k);
    }
    RowsAreTokens(Exec(calls), now, u, rows);
    SameSize(tokens, rows);
  }

  /** The count of active sessions is the number of tokens live for the user and unexpired at the call's clock. */
  lemma CountIsLiveTokens(calls: seq<Call>, now: int, u: UserId, tokens: set<string>)
    requires forall k :: k in tokens <==> LiveAt(Log(calls), now, k, u)
    ensures Step(Exec(calls), Call(now, CountSessions(u))).outcome == Counted(|tokens|)
  {
    RowsAreLiveTokens(calls, now, u, tokens);
    CountStep(Exec(calls), now, u);
  }

  lemma {:induction false} SameSize(tokens: set<string>, rows: set<Text>)
    requires forall k :: SessionKey(k) in rows <==> k in tokens
    requires forall r :: r in rows ==> r.Digest? && r.of.Plain?
    ensures |tokens| == |rows|
  {
    if tokens == {} {
      forall r
        ensures r !in rows
      {
        assert r in rows ==> r == SessionKey(r.of.chars);
      }
    } else {
      var k :| k in tokens;
      SameSize(tokens - {k}, rows - {SessionKey(k)});
    }
  }
}
