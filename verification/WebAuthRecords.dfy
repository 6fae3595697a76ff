/** The rest of what the web login store records and answers, read off the history: times, terms of service, counts, and
    when each administrative call succeeds. */
module WebAuthRecords {
  import opened Common
  import opened WebAuthTables
  import opened WebAuthHistory

  // ----- what the events set -----

  predicate Creates(e: Event, u: UserId) {
    e.outcome.Invited? && e.outcome.userId == u
  }

  predicate SetsPassword(e: Event, u: UserId) {
    (e.call.op.SetPassword? || e.call.op.ChangePassword?) && e.call.op.userId == u && e.outcome == Done(true)
  }

  predicate AcceptsTos(e: Event, u: UserId) {
    (e.call.op.SetPassword? || e.call.op.RecordTos?) && e.call.op.userId == u && e.outcome == Done(true)
  }

  function CreatedSetBy(e: Event, u: UserId): Option<int> {
    if Creates(e, u) then Some(e.call.now) else None
  }

  /** The time of a login; a new user has none. */
  function LoginSetBy(e: Event, u: UserId): Option<Option<int>> {
    if Creates(e, u) then Some(None)
    else if e.outcome.LoggedIn? && e.outcome.userId == u then Some(Some(e.call.now))
    else None
  }

  function RevokedAtSetBy(e: Event, u: UserId): Option<Option<int>> {
    match RevocationSetBy(e, u)
    case Some(true) => Some(Some(e.call.now))
    case Some(false) => Some(None)
    case None => None
  }

  function PasswordTimeSetBy(e: Event, u: UserId): Option<Option<int>> {
    if Creates(e, u) then Some(None) else if SetsPassword(e, u) then Some(Some(e.call.now)) else None
  }

  /** When which version of the terms was accepted. */
  function TosSetBy(e: Event, u: UserId): Option<(Option<int>, Option<string>)> {
    if Creates(e, u) then Some((None, None))
    else if AcceptsTos(e, u) then Some((Some(e.call.now), Some(e.call.op.tos)))
    else None
  }

  function PrefixSetBy(e: Event, u: UserId): Option<string> {
    match KeySetBy(e, u)
    case Some(key) => Some(if |key| <= 12 then key else key[..12])
    case None => None
  }

  function KeyTimeSetBy(e: Event, u: UserId): Option<int> {
    if KeySetBy(e, u).Some? then Some(e.call.now) else None
  }

  /** The time of a successful lookup; a new key has none. */
  function KeyUseSetBy(e: Event, u: UserId): Option<Option<int>> {
    if KeySetBy(e, u).Some? then Some(None)
    else if e.outcome.KeyUser? && e.outcome.userId == u then Some(Some(e.call.now))
    else None
  }

  // ----- what the table shows -----

  function CreatedAt(t: Tables, u: UserId): Option<int> {
    if u in t.users then Some(t.users[u].createdAt) else None
  }

  function LastLoginAt(t: Tables, u: UserId): Option<Option<int>> {
    if u in t.users then Some(t.users[u].lastLoginAt) else None
  }

  function RevokedAt(t: Tables, u: UserId): Option<Option<int>> {
    if u in t.users then Some(t.users[u].revokedAt) else None
  }

  function PasswordSetAt(t: Tables, u: UserId): Option<Option<int>> {
    if u in t.users then Some(t.users[u].passwordSetAt) else None
  }

  function Tos(t: Tables, u: UserId): Option<(Option<int>, Option<string>)> {
    if u in t.users then Some((t.users[u].tosAcceptedAt, t.users[u].tosVersion)) else None
  }

  function Prefix(t: Tables, u: UserId): Option<string> {
    if u in t.users then t.users[u].keyPrefix else None
  }

  function KeyCreatedAt(t: Tables, u: UserId): Option<int> {
    if u in t.users then t.users[u].keyCreatedAt else None
  }

  function KeyLastUsedAt(t: Tables, u: UserId): Option<Option<int>> {
    if u in t.users then Some(t.users[u].keyLastUsedAt) else None
  }

  /** What one event does to the times of one user. */
  ghost predicate TimesStep(t: Tables, e: Event, after: Tables, u: UserId) {
    && CreatedAt(after, u) == Newer(CreatedAt(t, u), CreatedSetBy(e, u))
    && LastLoginAt(after, u) == Newer(LastLoginAt(t, u), LoginSetBy(e, u))
    && RevokedAt(after, u) == Newer(RevokedAt(t, u), RevokedAtSetBy(e, u))
    && PasswordSetAt(after, u) == Newer(PasswordSetAt(t, u), PasswordTimeSetBy(e, u))
    && Tos(after, u) == Newer(Tos(t, u), TosSetBy(e, u))
  }

  ghost predicate KeyTimesStep(t: Tables, e: Event, after: Tables, u: UserId) {
    && Prefix(after, u) == Newer(Prefix(t, u), PrefixSetBy(e, u))
    && KeyCreatedAt(after, u) == Newer(KeyCreatedAt(t, u), KeyTimeSetBy(e, u))
    && KeyLastUsedAt(after, u) == Newer(KeyLastUsedAt(t, u), KeyUseSetBy(e, u))
  }

  lemma CreationTimes(t: Tables, c: Call, u: UserId)
    requires c.op.CreateInvite?
    ensures var e := Step(t, c);
            TimesStep(t, Event(c, e.outcome), e.tables, u) && KeyTimesStep(t, Event(c, e.outcome), e.tables, u)
  {
  }

  lemma LookupTimes(t: Tables, c: Call, u: UserId)
    requires c.op.FindByKey?
    ensures var e := Step(t, c);
            TimesStep(t, Event(c, e.outcome), e.tables, u) && KeyTimesStep(t, Event(c, e.outcome), e.tables, u)
  {
  }

  lemma KeyTimes(t: Tables, c: Call, u: UserId)
    requires c.op.EnsureKey? || c.op.ResetKey?
    ensures var e := Step(t, c);
            TimesStep(t, Event(c, e.outcome), e.tables, u) && KeyTimesStep(t, Event(c, e.outcome), e.tables, u)
  {
  }

  lemma ProfileTimes(t: Tables, c: Call, u: UserId)
    requires c.op.SetPassword? || c.op.ChangePassword? || c.op.RecordTos?
    ensures var e := Step(t, c);
            TimesStep(t, Event(c, e.outcome), e.tables, u) && KeyTimesStep(t, Event(c, e.outcome), e.tables, u)
  {
  }

  lemma InviteLoginTimes(t: Tables, c: Call, u: UserId)
    requires c.op.LoginByInvite?
    ensures var e := Step(t, c);
            TimesStep(t, Event(c, e.outcome), e.tables, u) && KeyTimesStep(t, Event(c, e.outcome), e.tables, u)
  {
    assert Purge(t, c.now).users == t.users;
  }

  lemma UserLoginTimes(t: Tables, c: Call, u: UserId)
    requires c.op.LoginByUser?
    ensures var e := Step(t, c);
            TimesStep(t, Event(c, e.outcome), e.tables, u) && KeyTimesStep(t, Event(c, e.outcome), e.tables, u)
  {
    assert Purge(t, c.now).users == t.users;
  }

  lemma RevocationTimes(t: Tables, c: Call, u: UserId)
    requires c.op.SetRevoked?
    ensures var e := Step(t, c);
            TimesStep(t, Event(c, e.outcome), e.tables, u) && KeyTimesStep(t, Event(c, e.outcome), e.tables, u)
  {
    assert Purge(t, c.now).users == t.users;
  }

  lemma CodeTimes(t: Tables, c: Call, u: UserId)
    requires c.op.ResetCode?
    ensures var e := Step(t, c);
            TimesStep(t, Event(c, e.outcome), e.tables, u) && KeyTimesStep(t, Event(c, e.outcome), e.tables, u)
  {
    assert Purge(t, c.now).users == t.users;
  }

  lemma SessionTimes(t: Tables, c: Call, u: UserId)
    requires c.op.Authenticate? || c.op.DeleteSession? || c.op.CountSessions?
    ensures var e := Step(t, c);
            TimesStep(t, Event(c, e.outcome), e.tables, u) && KeyTimesStep(t, Event(c, e.outcome), e.tables, u)
  {
    assert Purge(t, c.now).users == t.users;
  }

  lemma TimesFollow(t: Tables, c: Call, u: UserId)
    ensures var e := Step(t, c);
            TimesStep(t, Event(c, e.outcome), e.tables, u) && KeyTimesStep(t, Event(c, e.outcome), e.tables, u)
  {
    match c.op
    case CreateInvite(_, _, _, _) => CreationTimes(t, c, u);
    case FindByKey(_) => LookupTimes(t, c, u);
    case EnsureKey(_, _) => KeyTimes(t, c, u);
    case ResetKey(_, _) => KeyTimes(t, c, u);
    case LoginByInvite(_, _, _) => InviteLoginTimes(t, c, u);
    case LoginByUser(_, _, _) => UserLoginTimes(t, c, u);
    case SetRevoked(_, _) => RevocationTimes(t, c, u);
    case ResetCode(_, _) => CodeTimes(t, c, u);
    case SetPassword(_, _, _) => ProfileTimes(t, c, u);
    case ChangePassword(_, _) => ProfileTimes(t, c, u);
    case RecordTos(_, _) => ProfileTimes(t, c, u);
    case _ => SessionTimes(t, c, u);
  }

  ghost predicate TimesMatch(t: Tables, log: seq<Event>, u: UserId) {
    && CreatedAt(t, u) == Last(log, e => CreatedSetBy(e, u))
    && LastLoginAt(t, u) == Last(log, e => LoginSetBy(e, u))
    && RevokedAt(t, u) == Last(log, e => RevokedAtSetBy(e, u))
    && PasswordSetAt(t, u) == Last(log, e => PasswordTimeSetBy(e, u))
    && Tos(t, u) == Last(log, e => TosSetBy(e, u))
  }

  ghost predicate KeyTimesMatch(t: Tables, log: seq<Event>, u: UserId) {
    && Prefix(t, u) == Last(log, e => PrefixSetBy(e, u))
    && KeyCreatedAt(t, u) == Last(log, e => KeyTimeSetBy(e, u))
    && KeyLastUsedAt(t, u) == Last(log, e => KeyUseSetBy(e, u))
  }

  lemma TimesGrow(t: Tables, log: seq<Event>, e: Event, after: Tables, u: UserId)
    requires TimesMatch(t, log, u) && TimesStep(t, e, after, u)
    ensures TimesMatch(after, log + [e], u)
  {
    var all := log + [e];
    assert all[|all| - 1] == e && all[..|all| - 1] == log;
  }

  lemma KeyTimesGrow(t: Tables, log: seq<Event>, e: Event, after: Tables, u: UserId)
    requires KeyTimesMatch(t, log, u) && KeyTimesStep(t, e, after, u)
    ensures KeyTimesMatch(after, log + [e], u)
  {
    var all := log + [e];
    assert all[|all| - 1] == e && all[..|all| - 1] == log;
  }

  /** Every time in the user table, the accepted terms and the key's prefix are those of the last call that set them:
      creation, last login, revocation, password, terms, and creation and last use of the key. */
  lemma {:induction false} TimesAreHistory(calls: seq<Call>, u: UserId)
    ensures TimesMatch(Exec(calls), Log(calls), u) && KeyTimesMatch(Exec(calls), Log(calls), u)
  {
    if calls != [] {
      var n := |calls| - 1;
      var t, e := Exec(calls[..n]), Event(calls[n], Step(Exec(calls[..n]), calls[n]).outcome);
      TimesAreHistory(calls[..n], u);
      TimesFollow(t, calls[n], u);
      TimesGrow(t, Log(calls[..n]), e, Exec(calls), u);
      KeyTimesGrow(t, Log(calls[..n]), e, Exec(calls), u);
    }
  }

  // ----- what session rows record -----

  function IssuedSetBy(e: Event, token: string): Option<int> {
    if e.outcome.LoggedIn? && e.outcome.token == token then Some(e.call.now) else None
  }

  function SeenSetBy(e: Event, token: string): Option<int> {
    if e.outcome.LoggedIn? && e.outcome.token == token then Some(e.call.now)
    else if e.call.op.Authenticate? && Names(e.call.op.presented, token) && e.outcome.Authenticated?
    then Some(e.call.now) else None
  }

  function Issued(t: Tables, token: string): Option<int> {
    if SessionKey(token) in t.sessions then Some(t.sessions[SessionKey(token)].createdAt) else None
  }

  function Seen(t: Tables, token: string): Option<int> {
    if SessionKey(token) in t.sessions then Some(t.sessions[SessionKey(token)].lastSeenAt) else None
  }

  /** A row that is still there has the times that the event set, or those from before. */
  ghost predicate RowStep(t: Tables, e: Event, after: Tables, token: string) {
    SessionKey(token) in after.sessions ==>
      && Issued(after, token) == Newer(Issued(t, token), IssuedSetBy(e, token))
      && Seen(after, token) == Newer(Seen(t, token), SeenSetBy(e, token))
  }

  lemma LoginRows(t: Tables, c: Call, token: string)
    requires c.op.LoginByInvite? || c.op.LoginByUser?
    ensures RowStep(t, Event(c, Step(t, c).outcome), Step(t, c).tables, token)
  {
  }

  lemma CheckRows(t: Tables, c: Call, token: string)
    requires SoundSessions(t) && c.op.Authenticate?
    ensures RowStep(t, Event(c, Step(t, c).outcome), Step(t, c).tables, token)
  {
    var k := RowFor(t.sessions, c.op.presented);
    if k.Some? {
      assert k.value == SessionKey(k.value.of.chars);
      assert Names(c.op.presented, k.value.of.chars);
    }
  }

  lemma OtherRows(t: Tables, c: Call, token: string)
    requires !c.op.LoginByInvite? && !c.op.LoginByUser? && !c.op.Authenticate?
    ensures RowStep(t, Event(c, Step(t, c).outcome), Step(t, c).tables, token)
  {
    if UserOnly(c.op) {
      UserOnlyKeepsSessions(t, c);
    }
  }

  lemma RowFollows(t: Tables, c: Call, token: string)
    requires SoundSessions(t)
    ensures RowStep(t, Event(c, Step(t, c).outcome), Step(t, c).tables, token)
  {
    if c.op.LoginByInvite? || c.op.LoginByUser? {
      LoginRows(t, c, token);
    } else if c.op.Authenticate? {
      CheckRows(t, c, token);
    } else {
      OtherRows(t, c, token);
    }
  }

  /** A stored session was created at the last login that issued its token, and last seen then or at the last check that
      accepted it. */
  lemma {:induction false} RowTimesAreHistory(calls: seq<Call>, token: string)
    requires SessionKey(token) in Exec(calls).sessions
    ensures Issued(Exec(calls), token) == Last(Log(calls), e => IssuedSetBy(e, token))
    ensures Seen(Exec(calls), token) == Last(Log(calls), e => SeenSetBy(e, token))
  {
    if calls != [] {
      var n := |calls| - 1;
      var t, e := Exec(calls[..n]), Event(calls[n], Step(Exec(calls[..n]), calls[n]).outcome);
      ExecSound(calls[..n]);
      RowFollows(t, calls[n], token);
      if SessionKey(token) in t.sessions {
        RowTimesAreHistory(calls[..n], token);
      }
      assert Log(calls)[n] == e && Log(calls)[..n] == Log(calls[..n]);
      NewRowIsIssued(t, calls[n], token);
    }
  }

  lemma NewRowIsIssued(t: Tables, c: Call, token: string)
    requires SoundSessions(t)
    ensures SessionKey(token) in Step(t, c).tables.sessions && SessionKey(token) !in t.sessions ==>
      Step(t, c).outcome.LoggedIn? && Step(t, c).outcome.token == token
  {
    var after := Step(t, c).tables;
    if SessionKey(token) in after.sessions {
      var row := after.sessions[SessionKey(token)];
      StepRow(t, c, token, row.userId, row.expiresAt);
    }
  }

  // ----- answers -----

  /** A user record in an answer is the row of that user after the call. */
  lemma AnswersShowRows(t: Tables, c: Call)
    ensures var e := Step(t, c);
            match e.outcome
            case KeyUser(u, user) => u in e.tables.users && e.tables.users[u] == user
            case Authenticated(u, user) => u in e.tables.users && e.tables.users[u] == user
            case Mutated(u, user, _) => u in e.tables.users && e.tables.users[u] == user
            case _ => true
  {
  }

  ghost predicate Known(calls: seq<Call>, u: UserId) {
    LatestCode(Log(calls), u).Some?
  }

  lemma KnownInTable(calls: seq<Call>, u: UserId)
    ensures Known(calls, u) <==> u in Exec(calls).users
    ensures LatestRevocation(Log(calls), u) == Revoked(Exec(calls), u)
  {
    UserTableIsHistory(calls, u);
  }

  /** A login by user id succeeds exactly for a known user that is not revoked, with a token that is not live. */
  lemma UserIdOpensSession(calls: seq<Call>, now: int, user: UserId, ttlDays: int, token: string)
    ensures Step(Exec(calls), Call(now, LoginByUser(user, ttlDays, token))).outcome
              == LoggedIn(token, user, now + ttlDays * DAY) <==>
            && LatestRevocation(Log(calls), user) == Some(false)
            && !exists v :: LiveAt(Log(calls), now, token, v)
  {
    UserTableIsHistory(calls, user);
    LiveInTable(calls, now, token);
  }

  /** Every user got a key when created, so to ensure a key is to do nothing: the answer says only whether the user is
      known. */
  lemma EnsureKeyKeeps(calls: seq<Call>, now: int, u: UserId, keys: Draws)
    ensures Step(Exec(calls), Call(now, EnsureKey(u, keys)))
         == Effect(Exec(calls), if Known(calls, u) then KeyKept(u) else Nothing)
  {
    KnownInTable(calls, u);
    AlwaysKeyed(calls, u);
  }

  lemma {:induction false} AlwaysKeyed(calls: seq<Call>, u: UserId)
    ensures u in Exec(calls).users ==> Exec(calls).users[u].keyPrefix.Some?
  {
    if calls != [] {
      var n := |calls| - 1;
      AlwaysKeyed(calls[..n], u);
      TimesFollow(Exec(calls[..n]), calls[n], u);
      NewUserHasKey(Exec(calls[..n]), calls[n], u);
    }
  }

  lemma NewUserHasKey(t: Tables, c: Call, u: UserId)
    ensures u in Step(t, c).tables.users && u !in t.users ==> KeySetBy(Event(c, Step(t, c).outcome), u).Some?
  {
    TimesFollow(t, c, u);
    assert CreatedAt(t, u) == None <==> u !in t.users;
  }

  lemma TosStep(t: Tables, now: int, u: UserId, tos: string)
    ensures Step(t, Call(now, RecordTos(u, tos))).outcome == Done(Revoked(t, u) == Some(false))
  {
  }

  /** Terms are recorded exactly for known users that are not revoked. */
  lemma TosRecordedIff(calls: seq<Call>, now: int, u: UserId, tos: string)
    ensures Step(Exec(calls), Call(now, RecordTos(u, tos))).outcome
         == Done(LatestRevocation(Log(calls), u) == Some(false))
  {
    KnownInTable(calls, u);
    TosStep(Exec(calls), now, u, tos);
  }

  lemma RevocationOutcome(t: Tables, now: int, u: UserId, revoked: bool)
    ensures var o := Step(t, Call(now, SetRevoked(u, revoked))).outcome;
            if u in t.users then
              o.Mutated? && o.userId == u && o.cleared == (if revoked then |RowsOf(Purge(t, now).sessions, u)| else 0)
            else o == Nothing
  {
  }

  /** A revocation of a known user clears exactly the user's live tokens, and a restoration clears none. */
  lemma RevocationClears(calls: seq<Call>, now: int, u: UserId, revoked: bool, tokens: set<string>)
    requires forall k :: k in tokens <==> LiveAt(Log(calls), now, k, u)
    ensures var o := Step(Exec(calls), Call(now, SetRevoked(u, revoked))).outcome;
            if Known(calls, u) then o.Mutated? && o.userId == u && o.cleared == (if revoked then |tokens| else 0)
            else o == Nothing
  {
    KnownInTable(calls, u);
    RowsAreLiveTokens(calls, now, u, tokens);
    RevocationOutcome(Exec(calls), now, u, revoked);
  }

  lemma CodeResetOutcome(t: Tables, now: int, u: UserId, codes: Draws)
    ensures var o := Step(t, Call(now, ResetCode(u, codes))).outcome;
            if u in t.users then
              o == Failed || (o.Mutated? && o.userId == u && o.cleared == |RowsOf(Purge(t, now).sessions, u)|)
            else o == Nothing
  {
  }

  /** A reset of the invite code of a known user, when it finds a code, clears exactly the user's live tokens. */
  lemma CodeResetClears(calls: seq<Call>, now: int, u: UserId, codes: Draws, tokens: set<string>)
    requires forall k :: k in tokens <==> LiveAt(Log(calls), now, k, u)
    ensures var o := Step(Exec(calls), Call(now, ResetCode(u, codes))).outcome;
            if Known(calls, u) then o == Failed || (o.Mutated? && o.userId == u && o.cleared == |tokens|)
            else o == Nothing
  {
    KnownInTable(calls, u);
    RowsAreLiveTokens(calls, now, u, tokens);
    CodeResetOutcome(Exec(calls), now, u, codes);
  }

  // ----- typed codes -----

  lemma {:induction false} SpacesDropped(a: string, b: string)
    ensures WithoutSpaces(a + b) == WithoutSpaces(a) + WithoutSpaces(b)
  {
    if a == "" {
      assert a + b == b;
    } else {
      assert (a + b)[1..] == a[1..] + b;
      SpacesDropped(a[1..], b);
    }
  }

  lemma {:induction false} NoSpacesLeft(s: string)
    ensures forall i :: 0 <= i < |WithoutSpaces(s)| ==> !IsSpace(WithoutSpaces(s)[i])
    ensures (forall i :: 0 <= i < |s| ==> !IsSpace(s[i])) ==> WithoutSpaces(s) == s
  {
    if s != "" {
      NoSpacesLeft(s[1..]);
      if forall i :: 0 <= i < |s| ==> !IsSpace(s[i]) {
        assert forall i :: 0 <= i < |s[1..]| ==> !IsSpace(s[1..][i]);
      }
    }
  }

  lemma NormalIsUpper(text: string, upper: string -> string)
    ensures NormalizeCode(TypedCode(text, upper)) == upper(WithoutSpaces(text))
  {
    NoSpacesLeft(text);
    var _, _ := TrimIsSlice(WithoutSpaces(text));
  }

  /** White space typed anywhere in a code does not matter, and a code without it is taken as typed, in upper case. */
  lemma TypedCodeMeaning(a: string, space: char, b: string, upper: string -> string)
    ensures IsSpace(space) ==>
      NormalizeCode(TypedCode(a + [space] + b, upper)) == NormalizeCode(TypedCode(a + b, upper))
    ensures (forall i :: 0 <= i < |a| ==> !IsSpace(a[i])) ==> NormalizeCode(TypedCode(a, upper)) == upper(a)
  {
    NormalIsUpper(a, upper);
    NormalIsUpper(a + b, upper);
    NormalIsUpper(a + [space] + b, upper);
    NoSpacesLeft(a);
    SpacesDropped(a, b);
    SpacesDropped(a + [space], b);
    SpacesDropped(a, [space]);
    assert [space][1..] == "" && WithoutSpaces(a) + "" == WithoutSpaces(a);
  }
}
