/** The two tables of the web login store, and what each storage operation does to them.
    Every operation runs under the connection mutex, so a history is a sequence of calls. */
module WebAuthTables {
  import opened Common
  import Timestamps

  // ----- text and hashes -----

  /** Presented or stored text. SHA-256 is a free constructor: injective, and never the text of a generated value. */
  datatype Text = Plain(chars: string) | Digest(of: Text)

  function TrimText(t: Text): Text {
    if t.Plain? then Plain(Trim(t.chars)) else t
  }

  function KeyHash(key: Text): Text {
    Digest(TrimText(key))
  }

  function SessionKey(token: string): Text {
    Digest(Plain(token))
  }

  function KeyPrefix(key: string): string {
    if |key| <= 12 then key else key[..12]
  }

  /** The eight values that a retry loop may draw. */
  type Draws = s: seq<string> | |s| == 8 witness ["", "", "", "", "", "", "", ""]

  // ----- invite codes and phone numbers -----

  function WithoutSpaces(s: string): string {
    if s == "" then "" else (if IsSpace(s[0]) then "" else [s[0]]) + WithoutSpaces(s[1..])
  }

  /** An invite code as typed, and how the runtime upper-cases text. */
  datatype TypedCode = TypedCode(text: string, upper: string -> string)

  function NormalizeCode(code: TypedCode): string {
    code.upper(Trim(WithoutSpaces(code.text)))
  }

  predicate IsDigit(c: char) {
    '0' <= c <= '9'
  }

  function KeepPhone(s: string, kept: string): string {
    if s == "" then kept
    else KeepPhone(s[1..], if IsDigit(s[0]) || (s[0] == '+' && kept == "") then kept + [s[0]] else kept)
  }

  function NormalizePhone(phone: string): string {
    KeepPhone(Trim(phone), "")
  }

  function Digits(s: string): string {
    if s == "" then "" else (if IsDigit(s[0]) then [s[0]] else "") + Digits(s[1..])
  }

  predicate PhoneAccepted(phone: string) {
    6 <= |Digits(NormalizePhone(phone))| <= 20
  }

  // ----- tables -----

  type UserId = string

  datatype User = User(
    inviteCode: string, phone: string, createdAt: int, lastLoginAt: Option<int>, revokedAt: Option<int>,
    passwordHash: Option<string>, passwordSetAt: Option<int>,
    tosAcceptedAt: Option<int>, tosVersion: Option<string>,
    keyHash: Option<Text>, keyPrefix: Option<string>, keyCreatedAt: Option<int>, keyLastUsedAt: Option<int>)

  datatype Session = Session(userId: UserId, createdAt: int, expiresAt: int, lastSeenAt: int)

  datatype Tables = Tables(users: map<UserId, User>, sessions: map<Text, Session>)

  const EMPTY := Tables(map[], map[])
  const DAY: int := 86400 * Timestamps.SECOND
  const LONG_DAYS := 30

  function Codes(users: map<UserId, User>): set<string> {
    set u | u in users :: users[u].inviteCode
  }

  function KeyHashes(users: map<UserId, User>): set<Text> {
    set u | u in users && users[u].keyHash.Some? :: users[u].keyHash.value
  }

  function FreshUser(code: string, phone: string, key: string, now: int): User {
    User(code, phone, now, None, None, None, None, None, None,
         Some(KeyHash(Plain(key))), Some(KeyPrefix(key)), Some(now), None)
  }

  function WithKey(user: User, key: string, now: int): User {
    user.(keyHash := Some(KeyHash(Plain(key))), keyPrefix := Some(KeyPrefix(key)),
          keyCreatedAt := Some(now), keyLastUsedAt := None)
  }

  function Unexpired(sessions: map<Text, Session>, now: int): map<Text, Session> {
    map k | k in sessions && now < sessions[k].expiresAt :: sessions[k]
  }

  function RowsOf(sessions: map<Text, Session>, user: UserId): set<Text> {
    set k | k in sessions && sessions[k].userId == user
  }

  function WithoutUser(sessions: map<Text, Session>, user: UserId): map<Text, Session> {
    map k | k in sessions && sessions[k].userId != user :: sessions[k]
  }

  /** `WHERE session_token = hash OR session_token = raw`. */
  function RowFor(sessions: map<Text, Session>, presented: Text): Option<Text> {
    if Digest(presented) in sessions then Some(Digest(presented))
    else if presented in sessions then Some(presented)
    else None
  }

  // ----- time stamps -----

  /** The stored texts of expiry and clock, compared as the code does: `expires_at <= now`. */
  predicate ExpiredByText(expiresAt: string, now: string) {
    !Timestamps.Less(now, expiresAt)
  }

  /** On rendered times the test on texts is the test on instants. */
  lemma ExpiryDecidesTime(expiresAt: int, now: int)
    requires Timestamps.InRange(expiresAt) && Timestamps.InRange(now)
    ensures ExpiredByText(Timestamps.Stamp(expiresAt), Timestamps.Stamp(now)) <==> expiresAt <= now
  {
    Timestamps.StampOrder(expiresAt, now);
  }

  ghost predicate StampsInRange(sessions: map<Text, Session>, now: int) {
    Timestamps.InRange(now) && forall k :: k in sessions ==> Timestamps.InRange(sessions[k].expiresAt)
  }

  /** A purge by texts removes exactly the rows that a purge by instants removes. */
  lemma PurgeDecidesTime(sessions: map<Text, Session>, now: int, k: Text)
    requires StampsInRange(sessions, now) && k in sessions
    ensures k in Unexpired(sessions, now)
       <==> !ExpiredByText(Timestamps.Stamp(sessions[k].expiresAt), Timestamps.Stamp(now))
  {
    ExpiryDecidesTime(sessions[k].expiresAt, now);
  }

  // ----- operations -----

  datatype Op =
    | CreateInvite(userId: UserId, phone: string, codes: Draws, keys: Draws)
    | FindByKey(key: Text)
    | EnsureKey(userId: UserId, keys: Draws)
    | ResetKey(userId: UserId, keys: Draws)
    | LoginByInvite(code: TypedCode, phone: string, token: string)
    | LoginByUser(userId: UserId, ttlDays: int, token: string)
    | Authenticate(presented: Text)
    | DeleteSession(presented: Text)
    | CountSessions(userId: UserId)
    | SetRevoked(userId: UserId, revoked: bool)
    | ResetCode(userId: UserId, codes: Draws)
    | SetPassword(userId: UserId, hash: string, tos: string)
    | ChangePassword(userId: UserId, hash: string)
    | RecordTos(userId: UserId, tos: string)

  /** One call: the clock it read and the operation with its random draws. */
  datatype Call = Call(now: int, op: Op)

  datatype Outcome =
    | Failed                                                        // an error: the transaction is rolled back
    | Nothing                                                       // Ok(None)
    | Done(changed: bool)                                           // Ok(bool) or Ok(())
    | Counted(n: nat)
    | Invited(userId: UserId, code: string, phone: string, key: string)
    | KeyUser(userId: UserId, user: User)
    | KeyIssued(userId: UserId, key: string)
    | KeyKept(userId: UserId)
    | LoggedIn(token: string, userId: UserId, expiresAt: int)
    | Authenticated(userId: UserId, user: User)
    | Missing
    | Expired(userId: UserId)
    | UserRevoked(userId: UserId)
    | UserMissing(userId: UserId)
    | Mutated(userId: UserId, user: User, cleared: nat)

  datatype Effect = Effect(tables: Tables, outcome: Outcome)

  /** The first drawn code that no user has. */
  function FreeCode(taken: set<string>, draws: seq<string>): (r: Option<string>)
    ensures r.Some? ==> r.value in draws && r.value !in taken
    ensures r.None? ==> forall d :: d in draws ==> d in taken
  {
    if draws == [] then None
    else if draws[0] !in taken then Some(draws[0])
    else FreeCode(taken, draws[1..])
  }

  /** The first drawn key whose hash no user has. */
  function FreeKey(taken: set<Text>, draws: seq<string>): (r: Option<string>)
    ensures r.Some? ==> r.value in draws && KeyHash(Plain(r.value)) !in taken
    ensures r.None? ==> forall d :: d in draws ==> KeyHash(Plain(d)) in taken
  {
    if draws == [] then None
    else if KeyHash(Plain(draws[0])) !in taken then Some(draws[0])
    else FreeKey(taken, draws[1..])
  }

  /** Insert a session row and note the login; a taken primary key is an error. */
  function OpenSession(t: Tables, user: UserId, token: string, now: int, expiresAt: int): Effect
    requires user in t.users
  {
    if SessionKey(token) in t.sessions then Effect(t, Failed)
    else Effect(Tables(t.users[user := t.users[user].(lastLoginAt := Some(now))],
                       t.sessions[SessionKey(token) := Session(user, now, expiresAt, now)]),
                LoggedIn(token, user, expiresAt))
  }

  function IssueKey(t: Tables, user: UserId, keys: Draws, now: int): Effect
    requires user in t.users
  {
    match FreeKey(KeyHashes(t.users), keys)
    case None => Effect(t, Failed)
    case Some(key) => Effect(t.(users := t.users[user := WithKey(t.users[user], key, now)]), KeyIssued(user, key))
  }

  predicate OpensWith(users: map<UserId, User>, u: UserId, code: string, phone: string) {
    u in users && users[u].inviteCode == code && users[u].phone == phone && users[u].revokedAt.None?
  }

  predicate AcceptsKey(users: map<UserId, User>, u: UserId, hash: Text) {
    u in users && users[u].keyHash == Some(hash) && users[u].revokedAt.None?
  }

  /** The row that `WHERE invite_code = .. AND phone_number = .. AND revoked_at IS NULL` selects. */
  ghost function Opener(users: map<UserId, User>, code: string, phone: string): (r: Option<UserId>)
    ensures r.Some? ==> OpensWith(users, r.value, code, phone)
    ensures r.None? ==> forall u :: !OpensWith(users, u, code, phone)
  {
    if u :| OpensWith(users, u, code, phone) then Some(u) else None
  }

  /** The row that `WHERE api_key_hash = .. AND revoked_at IS NULL` selects. */
  ghost function KeyOwner(users: map<UserId, User>, hash: Text): (r: Option<UserId>)
    ensures r.Some? ==> AcceptsKey(users, r.value, hash)
    ensures r.None? ==> forall u :: !AcceptsKey(users, u, hash)
  {
    if u :| AcceptsKey(users, u, hash) then Some(u) else None
  }

  function Create(t: Tables, id: UserId, phone: string, codes: Draws, keys: Draws, now: int): Effect {
    if !PhoneAccepted(phone) then Effect(t, Failed) else
    match (FreeCode(Codes(t.users), codes), FreeKey(KeyHashes(t.users), keys))
    case (Some(code), Some(key)) =>
      if id in t.users then Effect(t, Failed)
      else Effect(PutRow(t, id, FreshUser(code, NormalizePhone(phone), key, now)),
                  Invited(id, code, NormalizePhone(phone), key))
    case _ => Effect(t, Failed)
  }

  function PutRow(t: Tables, u: UserId, user: User): Tables {
    t.(users := t.users[u := user])
  }

  function Purge(t: Tables, now: int): Tables {
    t.(sessions := Unexpired(t.sessions, now))
  }

  function Check(t: Tables, presented: Text, now: int): Effect {
    match RowFor(t.sessions, presented)
    case None => Effect(t, Missing)
    case Some(k) =>
      var row := t.sessions[k];
      if row.expiresAt <= now then Effect(t.(sessions := t.sessions - {k}), Expired(row.userId))
      else if row.userId !in t.users then Effect(t, UserMissing(row.userId))
      else if t.users[row.userId].revokedAt.Some? then Effect(t, UserRevoked(row.userId))
      else Effect(t.(sessions := t.sessions[k := row.(lastSeenAt := now)]),
                  Authenticated(row.userId, t.users[row.userId]))
  }

  function Revoke(t: Tables, id: UserId, revoked: bool, now: int): Effect {
    if id !in t.users then Effect(t, Nothing) else
    var user := t.users[id].(revokedAt := if revoked then Some(now) else None);
    if revoked then Effect(Tables(t.users[id := user], WithoutUser(t.sessions, id)),
                           Mutated(id, user, |RowsOf(t.sessions, id)|))
    else Effect(PutRow(t, id, user), Mutated(id, user, 0))
  }

  function Rotate(t: Tables, id: UserId, codes: Draws): Effect {
    if id !in t.users then Effect(t, Nothing) else
    match FreeCode(Codes(t.users), codes)
    case None => Effect(t, Failed)
    case Some(code) =>
      var user := t.users[id].(inviteCode := code, revokedAt := None);
      Effect(Tables(t.users[id := user], WithoutUser(t.sessions, id)), Mutated(id, user, |RowsOf(t.sessions, id)|))
  }

  ghost function LookupKey(t: Tables, key: Text, now: int): Effect {
    if TrimText(key) == Plain("") then Effect(t, Nothing) else
    match KeyOwner(t.users, KeyHash(key))
    case None => Effect(t, Nothing)
    case Some(u) =>
      var user := t.users[u].(keyLastUsedAt := Some(now));
      Effect(PutRow(t, u, user), KeyUser(u, user))
  }

  function Ensure(t: Tables, id: UserId, keys: Draws, now: int): Effect {
    if id !in t.users then Effect(t, Nothing)
    else if t.users[id].keyPrefix.Some? then Effect(t, KeyKept(id))
    else IssueKey(t, id, keys, now)
  }

  function Reset(t: Tables, id: UserId, keys: Draws, now: int): Effect {
    if id !in t.users then Effect(t, Nothing) else IssueKey(t, id, keys, now)
  }

  ghost function InviteLogin(t: Tables, code: TypedCode, phone: string, token: string, now: int): Effect {
    match Opener(t.users, NormalizeCode(code), NormalizePhone(phone))
    case None => Effect(t, Nothing)
    case Some(u) => OpenSession(t, u, token, now, now + LONG_DAYS * DAY)
  }

  function UserLogin(t: Tables, id: UserId, ttlDays: int, token: string, now: int): Effect {
    if id !in t.users || t.users[id].revokedAt.Some? then Effect(t, Nothing)
    else OpenSession(t, id, token, now, now + ttlDays * DAY)
  }

  function FirstPassword(t: Tables, id: UserId, hash: string, tos: string, now: int): Effect {
    if id !in t.users || t.users[id].passwordHash.Some? then Effect(t, Done(false))
    else Effect(PutRow(t, id, t.users[id].(passwordHash := Some(hash), passwordSetAt := Some(now),
                                           tosAcceptedAt := Some(now), tosVersion := Some(tos))), Done(true))
  }

  function NextPassword(t: Tables, id: UserId, hash: string, now: int): Effect {
    if id !in t.users || t.users[id].passwordHash.None? then Effect(t, Done(false))
    else Effect(PutRow(t, id, t.users[id].(passwordHash := Some(hash), passwordSetAt := Some(now))), Done(true))
  }

  function AcceptTos(t: Tables, id: UserId, tos: string, now: int): Effect {
    if id !in t.users || t.users[id].revokedAt.Some? then Effect(t, Done(false))
    else Effect(PutRow(t, id, t.users[id].(tosAcceptedAt := Some(now), tosVersion := Some(tos))), Done(true))
  }

  /** One call. The purge of expired rows runs before, and outside, the transaction of the calls that do it. */
  ghost function Step(t: Tables, c: Call): Effect {
    match c.op
    case CreateInvite(id, phone, codes, keys) => Create(t, id, phone, codes, keys, c.now)
    case FindByKey(key) => LookupKey(t, key, c.now)
    case EnsureKey(id, keys) => Ensure(t, id, keys, c.now)
    case ResetKey(id, keys) => Reset(t, id, keys, c.now)
    case LoginByInvite(code, phone, token) => InviteLogin(Purge(t, c.now), code, phone, token, c.now)
    case LoginByUser(id, ttlDays, token) => UserLogin(Purge(t, c.now), id, ttlDays, token, c.now)
    case Authenticate(presented) => Check(t, presented, c.now)
    case DeleteSession(presented) => Effect(t.(sessions := t.sessions - {Digest(presented), presented}), Done(true))
    case CountSessions(id) => Effect(Purge(t, c.now), Counted(|RowsOf(Purge(t, c.now).sessions, id)|))
    case SetRevoked(id, revoked) => Revoke(Purge(t, c.now), id, revoked, c.now)
    case ResetCode(id, codes) => Rotate(Purge(t, c.now), id, codes)
    case SetPassword(id, hash, tos) => FirstPassword(t, id, hash, tos, c.now)
    case ChangePassword(id, hash) => NextPassword(t, id, hash, c.now)
    case RecordTos(id, tos) => AcceptTos(t, id, tos, c.now)
  }

  // ----- what every operation keeps -----

  ghost predicate SameCode(users: map<UserId, User>, u: UserId, v: UserId) {
    u in users && v in users && users[u].inviteCode == users[v].inviteCode
  }

  ghost predicate SameKey(users: map<UserId, User>, u: UserId, v: UserId) {
    u in users && v in users && users[u].keyHash.Some? && users[u].keyHash == users[v].keyHash
  }

  ghost predicate UniqueCodes(users: map<UserId, User>) {
    forall u, v :: SameCode(users, u, v) ==> u == v
  }

  ghost predicate UniqueKeys(users: map<UserId, User>) {
    forall u, v :: SameKey(users, u, v) ==> u == v
  }

  ghost predicate SoundUser(user: User) {
    && (user.keyHash.Some? <==> user.keyPrefix.Some?)
    && (user.passwordHash.Some? <==> user.passwordSetAt.Some?)
    && (user.passwordHash.Some? ==> user.tosAcceptedAt.Some? && user.tosVersion.Some?)
    && NormalizePhone(user.phone) == user.phone && PhoneAccepted(user.phone)
  }

  /** Every session row is stored under a hash, and belongs to a present, unrevoked user. */
  ghost predicate SoundSessions(t: Tables) {
    forall k :: k in t.sessions ==>
      k.Digest? && k.of.Plain? && t.sessions[k].userId in t.users && t.users[t.sessions[k].userId].revokedAt.None?
  }

  ghost predicate Sound(t: Tables) {
    && UniqueCodes(t.users) && UniqueKeys(t.users) && SoundSessions(t)
    && forall u :: u in t.users ==> SoundUser(t.users[u])
  }

  // ----- phone numbers -----

  ghost predicate PhoneShape(s: string) {
    forall i :: 0 <= i < |s| ==> IsDigit(s[i]) || (i == 0 && s[i] == '+')
  }

  predicate PlusFirst(s: string) {
    s != "" && !IsDigit(s[0]) && (s[0] == '+' || PlusFirst(s[1..]))
  }

  /** Loop form of the normalizer. */
  method NormalizePhoneNumber(phone: string) returns (normalized: string)
    ensures normalized == NormalizePhone(phone)
  {
    var trimmed := Trim(phone);
    normalized := "";
    for i := 0 to |trimmed|
      invariant KeepPhone(trimmed[i..], normalized) == NormalizePhone(phone)
    {
      if IsDigit(trimmed[i]) || (trimmed[i] == '+' && normalized == "") {
        normalized := normalized + [trimmed[i]];
      }
      assert trimmed[i..][1..] == trimmed[i + 1..];
    }
  }

  lemma {:induction false} KeepPhoneMeaning(s: string, kept: string)
    ensures KeepPhone(s, kept) == kept + (if kept == "" && PlusFirst(s) then "+" else "") + Digits(s)
    ensures PhoneShape(kept) ==> PhoneShape(KeepPhone(s, kept))
  {
    if s != "" {
      var next := if IsDigit(s[0]) || (s[0] == '+' && kept == "") then kept + [s[0]] else kept;
      KeepPhoneMeaning(s[1..], next);
    }
  }

  lemma {:induction false} ShapeMeaning(s: string)
    requires PhoneShape(s)
    ensures s == (if PlusFirst(s) then "+" else "") + Digits(s)
  {
    if s != "" {
      ShapeMeaning(s[1..]);
      assert !PlusFirst(s[1..]) by { assert s[1..] != "" ==> IsDigit(s[1]); }
    }
  }

  /** A normalized number is its digits behind an optional leading plus, whatever separators were typed,
      and normalizing the stored form again changes nothing. */
  lemma PhoneMeaning(phone: string)
    ensures NormalizePhone(phone) == (if PlusFirst(Trim(phone)) then "+" else "") + Digits(Trim(phone))
    ensures NormalizePhone(NormalizePhone(phone)) == NormalizePhone(phone)
    ensures PhoneAccepted(NormalizePhone(phone)) <==> PhoneAccepted(phone)
  {
    KeepPhoneMeaning(Trim(phone), "");
    ShapedIsNormal(NormalizePhone(phone));
  }

  lemma ShapedIsNormal(s: string)
    requires PhoneShape(s)
    ensures NormalizePhone(s) == s
  {
    assert forall i :: 0 <= i < |s| ==> !IsSpace(s[i]);
    var _, _ := TrimIsSlice(s);
    KeepPhoneMeaning(s, "");
    ShapeMeaning(s);
  }

  // ----- preservation -----

  lemma FreeCodeKeepsUnique(users: map<UserId, User>, u: UserId, user: User)
    requires UniqueCodes(users)
    requires user.inviteCode !in Codes(users) || (u in users && users[u].inviteCode == user.inviteCode)
    ensures UniqueCodes(users[u := user])
  {
    var after := users[u := user];
    forall v, w | SameCode(after, v, w)
      ensures v == w
    {
      if v != u && w != u {
        assert SameCode(users, v, w);
      } else if v != w {
        var other := if v == u then w else v;
        assert users[other].inviteCode in Codes(users);
        assert u in users && users[u].inviteCode == user.inviteCode ==> SameCode(users, u, other);
      }
    }
  }

  lemma FreeKeyKeepsUnique(users: map<UserId, User>, u: UserId, user: User)
    requires UniqueKeys(users)
    requires || user.keyHash.None? || user.keyHash.value !in KeyHashes(users)
             || (u in users && users[u].keyHash == user.keyHash)
    ensures UniqueKeys(users[u := user])
  {
    var after := users[u := user];
    forall v, w | SameKey(after, v, w)
      ensures v == w
    {
      if v != u && w != u {
        assert SameKey(users, v, w);
      } else if v != w {
        var other := if v == u then w else v;
        assert users[other].keyHash.value in KeyHashes(users);
        assert u in users && users[u].keyHash == user.keyHash ==> SameKey(users, u, other);
      }
    }
  }

  /** Replacing one user row by a sound one with a free or unchanged code and key keeps the user table sound. */
  lemma PutUser(t: Tables, u: UserId, user: User, sessions: map<Text, Session>)
    requires Sound(t) && SoundUser(user)
    requires user.inviteCode !in Codes(t.users) || (u in t.users && t.users[u].inviteCode == user.inviteCode)
    requires || user.keyHash.None? || user.keyHash.value !in KeyHashes(t.users)
             || (u in t.users && t.users[u].keyHash == user.keyHash)
    requires SoundSessions(Tables(t.users[u := user], sessions))
    ensures Sound(Tables(t.users[u := user], sessions))
  {
    FreeCodeKeepsUnique(t.users, u, user);
    FreeKeyKeepsUnique(t.users, u, user);
  }

  lemma PurgeKeepsSound(t: Tables, now: int)
    requires Sound(t)
    ensures Sound(Purge(t, now))
  {
  }

  /** An edit that leaves the code, phone, key and revocation of a user alone. */
  lemma EditKeepsSound(t: Tables, u: UserId, user: User)
    requires Sound(t) && u in t.users && SoundUser(user)
    requires user.inviteCode == t.users[u].inviteCode && user.keyHash == t.users[u].keyHash
    requires user.revokedAt == t.users[u].revokedAt
    ensures Sound(PutRow(t, u, user))
  {
    PutUser(t, u, user, t.sessions);
  }

  lemma CreateKeepsSound(t: Tables, id: UserId, phone: string, codes: Draws, keys: Draws, now: int)
    requires Sound(t)
    ensures Sound(Create(t, id, phone, codes, keys, now).tables)
  {
    var e := Create(t, id, phone, codes, keys, now);
    if e.outcome.Invited? {
      PhoneMeaning(phone);
      PutUser(t, id, FreshUser(e.outcome.code, NormalizePhone(phone), e.outcome.key, now), t.sessions);
    }
  }

  lemma LookupKeyKeepsSound(t: Tables, key: Text, now: int)
    requires Sound(t)
    ensures Sound(LookupKey(t, key, now).tables)
  {
    var owner := KeyOwner(t.users, KeyHash(key));
    if owner.Some? {
      EditKeepsSound(t, owner.value, t.users[owner.value].(keyLastUsedAt := Some(now)));
    }
  }

  lemma WithKeyIsSound(user: User, key: string, now: int)
    requires SoundUser(user)
    ensures SoundUser(WithKey(user, key, now)) && WithKey(user, key, now).inviteCode == user.inviteCode
    ensures WithKey(user, key, now).revokedAt == user.revokedAt
  {
  }

  lemma IssueKeyKeepsSound(t: Tables, id: UserId, keys: Draws, now: int)
    requires Sound(t) && id in t.users
    ensures Sound(IssueKey(t, id, keys, now).tables)
  {
    var e := IssueKey(t, id, keys, now);
    if e.outcome.KeyIssued? {
      var user := WithKey(t.users[id], e.outcome.key, now);
      WithKeyIsSound(t.users[id], e.outcome.key, now);
      assert SoundSessions(Tables(t.users[id := user], t.sessions));
      PutUser(t, id, user, t.sessions);
    }
  }

  lemma OpenSessionKeepsSound(t: Tables, id: UserId, token: string, now: int, expiresAt: int)
    requires Sound(t) && id in t.users && t.users[id].revokedAt.None?
    ensures Sound(OpenSession(t, id, token, now, expiresAt).tables)
  {
    var e := OpenSession(t, id, token, now, expiresAt);
    if e.outcome.LoggedIn? {
      PutUser(t, id, t.users[id].(lastLoginAt := Some(now)), e.tables.sessions);
    }
  }

  lemma InviteLoginKeepsSound(t: Tables, code: TypedCode, phone: string, token: string, now: int)
    requires Sound(t)
    ensures Sound(InviteLogin(t, code, phone, token, now).tables)
  {
    var u := Opener(t.users, NormalizeCode(code), NormalizePhone(phone));
    if u.Some? {
      OpenSessionKeepsSound(t, u.value, token, now, now + LONG_DAYS * DAY);
    }
  }

  lemma UserLoginKeepsSound(t: Tables, id: UserId, ttlDays: int, token: string, now: int)
    requires Sound(t)
    ensures Sound(UserLogin(t, id, ttlDays, token, now).tables)
  {
    if id !in t.users || t.users[id].revokedAt.Some? {
      assert UserLogin(t, id, ttlDays, token, now).tables == t;
    } else {
      OpenSessionKeepsSound(t, id, token, now, now + ttlDays * DAY);
      assert UserLogin(t, id, ttlDays, token, now) == OpenSession(t, id, token, now, now + ttlDays * DAY);
    }
  }

  lemma DeleteKeepsSound(t: Tables, keys: set<Text>)
    requires Sound(t)
    ensures Sound(t.(sessions := t.sessions - keys))
  {
  }

  lemma CheckKeepsSound(t: Tables, presented: Text, now: int)
    requires Sound(t)
    ensures Sound(Check(t, presented, now).tables)
  {
    var k := RowFor(t.sessions, presented);
    if k.Some? {
      var row := t.sessions[k.value];
      DeleteKeepsSound(t, {k.value});
      assert SoundSessions(t.(sessions := t.sessions[k.value := row.(lastSeenAt := now)]));
    }
  }

  lemma RevokeKeepsSound(t: Tables, id: UserId, revoked: bool, now: int)
    requires Sound(t)
    ensures Sound(Revoke(t, id, revoked, now).tables)
  {
    if id in t.users {
      var user := t.users[id].(revokedAt := if revoked then Some(now) else None);
      var sessions := if revoked then WithoutUser(t.sessions, id) else t.sessions;
      assert SoundSessions(Tables(t.users[id := user], sessions));
      PutUser(t, id, user, sessions);
    }
  }

  lemma RotateKeepsSound(t: Tables, id: UserId, codes: Draws)
    requires Sound(t)
    ensures Sound(Rotate(t, id, codes).tables)
  {
    var e := Rotate(t, id, codes);
    if e.outcome.Mutated? {
      PutUser(t, id, e.outcome.user, e.tables.sessions);
    }
  }

  lemma ProfileKeepsSound(t: Tables, id: UserId, text: string, tos: string, now: int)
    requires Sound(t)
    ensures Sound(FirstPassword(t, id, text, tos, now).tables)
    ensures Sound(NextPassword(t, id, text, now).tables)
    ensures Sound(AcceptTos(t, id, tos, now).tables)
  {
    if id in t.users {
      var user := t.users[id];
      EditKeepsSound(t, id, user.(passwordHash := Some(text), passwordSetAt := Some(now),
                                  tosAcceptedAt := Some(now), tosVersion := Some(tos)));
      EditKeepsSound(t, id, user.(tosAcceptedAt := Some(now), tosVersion := Some(tos)));
      if user.passwordHash.Some? {
        EditKeepsSound(t, id, user.(passwordHash := Some(text), passwordSetAt := Some(now)));
      }
    }
  }

  lemma AdminKeepsSound(t: Tables, c: Call)
    requires Sound(t) && (c.op.SetRevoked? || c.op.ResetCode? || c.op.CountSessions?)
    ensures Sound(Step(t, c).tables)
  {
    PurgeKeepsSound(t, c.now);
    match c.op
    case SetRevoked(id, revoked) => RevokeKeepsSound(Purge(t, c.now), id, revoked, c.now);
    case ResetCode(id, codes) => RotateKeepsSound(Purge(t, c.now), id, codes);
    case CountSessions(_) =>
  }

  lemma UserOnlyKeepsSound(t: Tables, c: Call)
    requires Sound(t) && UserOnly(c.op)
    ensures Sound(Step(t, c).tables)
  {
    match c.op
    case CreateInvite(id, phone, codes, keys) => CreateKeepsSound(t, id, phone, codes, keys, c.now);
    case FindByKey(key) => LookupKeyKeepsSound(t, key, c.now);
    case EnsureKey(id, keys) => if id in t.users { IssueKeyKeepsSound(t, id, keys, c.now); }
    case ResetKey(id, keys) => if id in t.users { IssueKeyKeepsSound(t, id, keys, c.now); }
    case SetPassword(id, hash, tos) => ProfileKeepsSound(t, id, hash, tos, c.now);
    case ChangePassword(id, hash) => ProfileKeepsSound(t, id, hash, "", c.now);
    case RecordTos(id, tos) => ProfileKeepsSound(t, id, "", tos, c.now);
  }

  /** The operations that leave the session table alone. */
  predicate UserOnly(op: Op) {
    || op.CreateInvite? || op.FindByKey? || op.EnsureKey? || op.ResetKey?
    || op.SetPassword? || op.ChangePassword? || op.RecordTos?
  }

  /** No operation, on any input, breaks the table invariant. */
  lemma StepKeepsSound(t: Tables, c: Call)
    requires Sound(t)
    ensures Sound(Step(t, c).tables)
  {
    if UserOnly(c.op) {
      UserOnlyKeepsSound(t, c);
    } else if c.op.LoginByInvite? {
      PurgeKeepsSound(t, c.now);
      InviteLoginKeepsSound(Purge(t, c.now), c.op.code, c.op.phone, c.op.token, c.now);
    } else if c.op.LoginByUser? {
      PurgeKeepsSound(t, c.now);
      UserLoginKeepsSound(Purge(t, c.now), c.op.userId, c.op.ttlDays, c.op.token, c.now);
    } else if c.op.Authenticate? {
      CheckKeepsSound(t, c.op.presented, c.now);
    } else if c.op.DeleteSession? {
      DeleteKeepsSound(t, {Digest(c.op.presented), c.op.presented});
    } else {
      AdminKeepsSound(t, c);
    }
  }
}
