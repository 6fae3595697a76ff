/** Invite codes and API keys against the values that were drawn for them: which draw is taken, and that a replaced code
    or key no longer works. */
module WebAuthDraws {
  import opened Common
  import opened WebAuthTables
  import opened WebAuthHistory

  ghost predicate CodeTaken(users: map<UserId, User>, code: string) {
    exists u :: u in users && users[u].inviteCode == code
  }

  ghost predicate HashTaken(users: map<UserId, User>, hash: Text) {
    exists u :: u in users && users[u].keyHash == Some(hash)
  }

  /** The stored form of a generated key: the hash of its trimmed text. */
  function StoredForm(key: string): Text {
    Digest(Plain(Trim(key)))
  }

  /** The first draw that no user has as invite code. */
  ghost predicate FirstUntakenCode(users: map<UserId, User>, draws: seq<string>, code: string) {
    exists k: nat :: k < |draws| && draws[k] == code && !CodeTaken(users, code)
                  && forall j :: 0 <= j < k ==> CodeTaken(users, draws[j])
  }

  ghost predicate FirstUntakenKey(users: map<UserId, User>, draws: seq<string>, key: string) {
    exists k: nat :: k < |draws| && draws[k] == key && !HashTaken(users, StoredForm(key))
                  && forall j :: 0 <= j < k ==> HashTaken(users, StoredForm(draws[j]))
  }

  lemma CodesAreTaken(users: map<UserId, User>, code: string)
    ensures code in Codes(users) <==> CodeTaken(users, code)
  {
  }

  lemma HashesAreTaken(users: map<UserId, User>, key: string)
    ensures KeyHash(Plain(key)) in KeyHashes(users) <==> HashTaken(users, StoredForm(key))
  {
    if HashTaken(users, StoredForm(key)) {
      var u :| u in users && users[u].keyHash == Some(StoredForm(key));
      assert users[u].keyHash.value in KeyHashes(users);
    }
  }

  lemma {:induction false} FreeCodeIsFirst(users: map<UserId, User>, draws: seq<string>)
    ensures match FreeCode(Codes(users), draws)
            case Some(code) => FirstUntakenCode(users, draws, code)
            case None => forall d :: d in draws ==> CodeTaken(users, d)
  {
    if draws != [] {
      CodesAreTaken(users, draws[0]);
      FreeCodeIsFirst(users, draws[1..]);
      assert draws == [draws[0]] + draws[1..];
      var r := FreeCode(Codes(users), draws);
      if draws[0] !in Codes(users) {
        assert draws[0] == r.value;
      } else if r.Some? {
        var k: nat :| k < |draws[1..]| && draws[1..][k] == r.value && !CodeTaken(users, r.value)
                      && forall j :: 0 <= j < k ==> CodeTaken(users, draws[1..][j]);
        assert draws[k + 1] == r.value;
        forall j | 0 <= j < k + 1
          ensures CodeTaken(users, draws[j])
        {
          assert j > 0 ==> draws[j] == draws[1..][j - 1];
        }
      }
    }
  }

  lemma {:induction false} FreeKeyIsFirst(users: map<UserId, User>, draws: seq<string>)
    ensures match FreeKey(KeyHashes(users), draws)
            case Some(key) => FirstUntakenKey(users, draws, key)
            case None => forall d :: d in draws ==> HashTaken(users, StoredForm(d))
  {
    if draws != [] {
      HashesAreTaken(users, draws[0]);
      FreeKeyIsFirst(users, draws[1..]);
      assert draws == [draws[0]] + draws[1..];
      var r := FreeKey(KeyHashes(users), draws);
      if KeyHash(Plain(draws[0])) !in KeyHashes(users) {
        assert draws[0] == r.value;
      } else if r.Some? {
        var k: nat :| k < |draws[1..]| && draws[1..][k] == r.value && !HashTaken(users, StoredForm(r.value))
                      && forall j :: 0 <= j < k ==> HashTaken(users, StoredForm(draws[1..][j]));
        assert draws[k + 1] == r.value;
        forall j | 0 <= j < k + 1
          ensures HashTaken(users, StoredForm(draws[j]))
        {
          assert j > 0 ==> draws[j] == draws[1..][j - 1];
        }
      }
    }
  }

  // ----- what a call does with its draws -----

  /** All users but one stay as they are. */
  ghost predicate OthersKept(before: map<UserId, User>, after: map<UserId, User>, u: UserId) {
    forall v :: v != u ==> (v in after <==> v in before) && (v in before ==> after[v] == before[v])
  }

  /** A reset of the invite code gives a known user the first drawn code that nobody had, this user included, and lifts
      a revocation. It fails only when all draws are taken. */
  lemma ResetCodeIsDrawn(t: Tables, now: int, id: UserId, codes: Draws)
    ensures var e := Step(t, Call(now, ResetCode(id, codes)));
            match e.outcome
            case Mutated(u, user, _) =>
              && u == id && id in t.users && id in e.tables.users && e.tables.users[id] == user
              && FirstUntakenCode(t.users, codes, user.inviteCode)
              && user == t.users[id].(inviteCode := user.inviteCode, revokedAt := None)
              && OthersKept(t.users, e.tables.users, id)
            case Nothing => id !in t.users && e.tables.users == t.users
            case Failed =>
              id in t.users && e.tables.users == t.users && forall d :: d in codes ==> CodeTaken(t.users, d)
            case _ => false
  {
    FreeCodeIsFirst(t.users, codes);
  }

  /** The user's key is the first drawn one whose hash nobody had, just created and never used. */
  ghost predicate KeyIsNew(before: map<UserId, User>, user: User, keys: Draws, key: string, now: int) {
    && FirstUntakenKey(before, keys, key)
    && user.keyHash == Some(StoredForm(key)) && user.keyPrefix == Some(if |key| <= 12 then key else key[..12])
    && user.keyCreatedAt == Some(now) && user.keyLastUsedAt == None
  }

  function ExceptKey(user: User): User {
    user.(keyHash := None, keyPrefix := None, keyCreatedAt := None, keyLastUsedAt := None)
  }

  /** A reset of the API key gives a known user a new key and changes nothing else. */
  lemma ResetKeyIsDrawn(t: Tables, now: int, id: UserId, keys: Draws)
    ensures var e := Step(t, Call(now, ResetKey(id, keys)));
            && e.tables.sessions == t.sessions
            && match e.outcome
               case KeyIssued(u, key) =>
                 && u == id && id in t.users && id in e.tables.users
                 && KeyIsNew(t.users, e.tables.users[id], keys, key, now)
                 && ExceptKey(e.tables.users[id]) == ExceptKey(t.users[id])
                 && OthersKept(t.users, e.tables.users, id)
               case Nothing => id !in t.users && e.tables == t
               case Failed =>
                 id in t.users && e.tables == t && forall d :: d in keys ==> HashTaken(t.users, StoredForm(d))
               case _ => false
  {
    FreeKeyIsFirst(t.users, keys);
  }

  /** An API key is ensured by doing nothing for a user who has one, and by a reset for a user who has none. */
  lemma EnsuredKey(t: Tables, now: int, id: UserId, keys: Draws)
    ensures var e := Step(t, Call(now, EnsureKey(id, keys)));
            if id in t.users && t.users[id].keyPrefix.Some? then e == Effect(t, KeyKept(id))
            else e == Step(t, Call(now, ResetKey(id, keys)))
  {
  }

  /** A creation gives a new id the first drawn code and key that nobody had, with the phone number in normal form. It
      fails exactly when the number has fewer than 6 or more than 20 digits, all codes or all keys drawn are taken, or
      the id is. */
  lemma CreationIsDrawn(t: Tables, now: int, id: UserId, phone: string, codes: Draws, keys: Draws)
    ensures var e := Step(t, Call(now, CreateInvite(id, phone, codes, keys)));
            && e.tables.sessions == t.sessions
            && (e.outcome.Invited? || e == Effect(t, Failed))
            && (e.outcome == Failed <==>
                  || !(6 <= |Digits(Trim(phone))| <= 20)
                  || (forall d :: d in codes ==> CodeTaken(t.users, d))
                  || (forall d :: d in keys ==> HashTaken(t.users, StoredForm(d)))
                  || id in t.users)
            && (e.outcome.Invited? ==>
                  && e.outcome.userId == id && id in e.tables.users && OthersKept(t.users, e.tables.users, id)
                  && FirstUntakenCode(t.users, codes, e.outcome.code)
                  && KeyIsNew(t.users, e.tables.users[id], keys, e.outcome.key, now)
                  && e.outcome.phone == NormalizePhone(phone)
                  && ExceptKey(e.tables.users[id]) == User(e.outcome.code, e.outcome.phone, now, None, None, None, None,
                                                           None, None, None, None, None, None))
  {
    FreeCodeIsFirst(t.users, codes);
    FreeKeyIsFirst(t.users, keys);
    DigitCount(phone);
  }

  lemma {:induction false} DigitsOfDigits(s: string)
    ensures Digits(Digits(s)) == Digits(s) && Digits("+" + Digits(s)) == Digits(s)
  {
    if s != "" {
      DigitsOfDigits(s[1..]);
      if IsDigit(s[0]) {
        assert Digits(s)[1..] == Digits(s[1..]);
      }
    }
    assert ("+" + Digits(s))[1..] == Digits(s);
  }

  lemma DigitCount(phone: string)
    ensures PhoneAccepted(phone) <==> 6 <= |Digits(Trim(phone))| <= 20
  {
    PhoneMeaning(phone);
    DigitsOfDigits(Trim(phone));
    assert "" + Digits(Trim(phone)) == Digits(Trim(phone));
  }

  // ----- replaced codes -----

  ghost predicate DrawsCode(c: Call, code: string) {
    (c.op.CreateInvite? || c.op.ResetCode?) && code in c.op.codes
  }

  /** A code that nobody has stays so until a call draws it. */
  lemma UntakenCodeStays(t: Tables, c: Call, code: string)
    requires !CodeTaken(t.users, code) && !DrawsCode(c, code)
    ensures !CodeTaken(Step(t, c).tables.users, code)
  {
    match c.op
    case CreateInvite(id, phone, codes, keys) =>
      CreationIsDrawn(t, c.now, id, phone, codes, keys);
    case ResetCode(id, codes) =>
      ResetCodeIsDrawn(t, c.now, id, codes);
    case _ =>
      CodesKept(t, c);
  }

  lemma CodesKept(t: Tables, c: Call)
    requires !c.op.CreateInvite? && !c.op.ResetCode?
    ensures forall u :: Code(Step(t, c).tables, u) == Code(t, u)
  {
    forall u
      ensures Code(Step(t, c).tables, u) == Code(t, u)
    {
      UserStepHolds(t, c, u);
    }
  }

  lemma UntakenIsRefused(t: Tables, now: int, code: TypedCode, phone: string, token: string)
    requires !CodeTaken(t.users, NormalizeCode(code))
    ensures Step(t, Call(now, LoginByInvite(code, phone, token))).outcome == Nothing
  {
    assert Purge(t, now).users == t.users;
  }

  lemma {:induction false} UntakenSince(calls: seq<Call>, i: nat, code: string)
    requires i <= |calls| && !CodeTaken(Exec(calls[..i]).users, code)
    requires forall j :: i <= j < |calls| ==> !DrawsCode(calls[j], code)
    ensures !CodeTaken(Exec(calls).users, code)
    decreases |calls| - i
  {
    if i == |calls| {
      assert calls[..i] == calls;
    } else {
      assert calls[..i + 1][..i] == calls[..i];
      UntakenCodeStays(Exec(calls[..i]), calls[i], code);
      UntakenSince(calls, i + 1, code);
    }
  }

  lemma {:induction false} LogPrefix(calls: seq<Call>, i: nat)
    requires i < |calls|
    ensures Log(calls)[i] == Event(calls[i], Step(Exec(calls[..i]), calls[i]).outcome)
    decreases |calls|
  {
    var n := |calls| - 1;
    if i < n {
      LogPrefix(calls[..n], i);
      assert calls[..n][..i] == calls[..i];
    }
  }

  lemma ReplacedCodeIsFree(t: Tables, now: int, id: UserId, codes: Draws)
    requires Sound(t) && Step(t, Call(now, ResetCode(id, codes))).outcome.Mutated?
    ensures id in t.users && !CodeTaken(Step(t, Call(now, ResetCode(id, codes))).tables.users, t.users[id].inviteCode)
  {
    ResetCodeIsDrawn(t, now, id, codes);
    var after, old_code := Step(t, Call(now, ResetCode(id, codes))).tables.users, t.users[id].inviteCode;
    assert CodeTaken(t.users, old_code);
    forall v | v in after
      ensures after[v].inviteCode != old_code
    {
      assert v != id ==> !SameCode(t.users, v, id);
    }
  }

  /** After a reset of the invite code at call i, a login with the replaced code is refused, for as long as no later
      call draws that code again. */
  lemma {:induction false} ReplacedCodeIsRefused(calls: seq<Call>, i: nat, now: int, code: TypedCode, phone: string,
                                                 token: string)
    requires i < |calls| && calls[i].op.ResetCode? && Log(calls)[i].outcome.Mutated?
    requires LatestCode(Log(calls[..i]), calls[i].op.userId) == Some(NormalizeCode(code))
    requires forall j :: i < j < |calls| ==> !DrawsCode(calls[j], NormalizeCode(code))
    ensures Step(Exec(calls), Call(now, LoginByInvite(code, phone, token))).outcome == Nothing
  {
    var c, t := calls[i], Exec(calls[..i]);
    LogPrefix(calls, i);
    ExecSound(calls[..i]);
    UserTableIsHistory(calls[..i], c.op.userId);
    ReplacedCodeIsFree(t, c.now, c.op.userId, c.op.codes);
    assert calls[..i + 1][..i] == calls[..i];
    UntakenSince(calls, i + 1, NormalizeCode(code));
    UntakenIsRefused(Exec(calls), now, code, phone, token);
  }

  // ----- replaced keys -----

  ghost predicate DrawsKey(c: Call, hash: Text) {
    (c.op.CreateInvite? || c.op.EnsureKey? || c.op.ResetKey?) && exists d :: d in c.op.keys && StoredForm(d) == hash
  }

  lemma HashesKept(t: Tables, c: Call)
    requires !c.op.CreateInvite? && !c.op.EnsureKey? && !c.op.ResetKey?
    ensures forall u :: StoredKey(Step(t, c).tables, u) == StoredKey(t, u)
  {
    forall u
      ensures StoredKey(Step(t, c).tables, u) == StoredKey(t, u)
    {
      UserStepHolds(t, c, u);
      NoKeySet(t, c, u);
    }
  }

  lemma NoKeySet(t: Tables, c: Call, u: UserId)
    requires !c.op.CreateInvite? && !c.op.EnsureKey? && !c.op.ResetKey?
    ensures KeySetBy(Event(c, Step(t, c).outcome), u) == None
  {
  }

  lemma UntakenKeyStays(t: Tables, c: Call, hash: Text)
    requires !HashTaken(t.users, hash) && !DrawsKey(c, hash)
    ensures !HashTaken(Step(t, c).tables.users, hash)
  {
    match c.op
    case CreateInvite(id, phone, codes, keys) =>
      CreationIsDrawn(t, c.now, id, phone, codes, keys);
    case EnsureKey(id, keys) =>
      EnsuredKey(t, c.now, id, keys);
      ResetKeyIsDrawn(t, c.now, id, keys);
    case ResetKey(id, keys) =>
      ResetKeyIsDrawn(t, c.now, id, keys);
    case _ =>
      HashesKept(t, c);
      var after := Step(t, c).tables;
      forall u | u in after.users
        ensures after.users[u].keyHash != Some(hash)
      {
        assert StoredKey(after, u) == StoredKey(t, u);
      }
  }

  lemma {:induction false} UntakenKeySince(calls: seq<Call>, i: nat, hash: Text)
    requires i <= |calls| && !HashTaken(Exec(calls[..i]).users, hash)
    requires forall j :: i <= j < |calls| ==> !DrawsKey(calls[j], hash)
    ensures !HashTaken(Exec(calls).users, hash)
    decreases |calls| - i
  {
    if i == |calls| {
      assert calls[..i] == calls;
    } else {
      assert calls[..i + 1][..i] == calls[..i];
      UntakenKeyStays(Exec(calls[..i]), calls[i], hash);
      UntakenKeySince(calls, i + 1, hash);
    }
  }

  lemma ReplacedKeyIsFree(t: Tables, now: int, id: UserId, keys: Draws)
    requires Sound(t) && Step(t, Call(now, ResetKey(id, keys))).outcome.KeyIssued?
    ensures id in t.users
    ensures t.users[id].keyHash.Some? ==>
      !HashTaken(Step(t, Call(now, ResetKey(id, keys))).tables.users, t.users[id].keyHash.value)
  {
    ResetKeyIsDrawn(t, now, id, keys);
    var after, replaced := Step(t, Call(now, ResetKey(id, keys))).tables.users, t.users[id].keyHash;
    if replaced.Some? {
      assert HashTaken(t.users, replaced.value);
      forall v | v in after
        ensures after[v].keyHash != replaced
      {
        assert v != id && after[v].keyHash == replaced ==> SameKey(t.users, v, id);
      }
    }
  }

  /** After a reset of the API key at call i, the replaced key finds nobody, for as long as no later call draws a key
      with that hash. */
  lemma {:induction false} ReplacedKeyFindsNobody(calls: seq<Call>, i: nat, now: int, key: string)
    requires i < |calls| && calls[i].op.ResetKey? && Log(calls)[i].outcome.KeyIssued?
    requires LatestKey(Log(calls[..i]), calls[i].op.userId) == Some(key)
    requires forall j :: i < j < |calls| ==> !DrawsKey(calls[j], StoredForm(key))
    ensures Step(Exec(calls), Call(now, FindByKey(Plain(key)))) == Effect(Exec(calls), Nothing)
  {
    var c, t := calls[i], Exec(calls[..i]);
    LogPrefix(calls, i);
    ExecSound(calls[..i]);
    UserTableIsHistory(calls[..i], c.op.userId);
    ReplacedKeyIsFree(t, c.now, c.op.userId, c.op.keys);
    assert calls[..i + 1][..i] == calls[..i];
    UntakenKeySince(calls, i + 1, StoredForm(key));
  }
}
