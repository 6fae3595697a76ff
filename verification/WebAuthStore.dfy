/** The SQLite login store as an object: each method updates the two tables in place the way its SQL statements do.
    Every method performs exactly the step that the history theorems are about, and keeps the tables sound. */
module WebAuthStore {
  import opened Common
  import opened WebAuthTables

  ghost predicate Performs(before: Tables, c: Call, after: Tables, o: Outcome) {
    Step(before, c) == Effect(after, o)
  }

  lemma StillSound(before: Tables, c: Call, after: Tables, o: Outcome)
    requires Sound(before) && Performs(before, c, after, o)
    ensures Sound(after)
  {
    StepKeepsSound(before, c);
  }

  lemma InviteOpens(before: Tables, now: int, code: TypedCode, phone: string, token: string, u: UserId)
    requires UniqueCodes(before.users) && OpensWith(before.users, u, NormalizeCode(code), NormalizePhone(phone))
    ensures Step(before, Call(now, LoginByInvite(code, phone, token)))
         == OpenSession(Purge(before, now), u, token, now, now + LONG_DAYS * DAY)
  {
    assert SameCode(before.users, u, Opener(before.users, NormalizeCode(code), NormalizePhone(phone)).value);
  }

  lemma InviteUnknown(before: Tables, now: int, code: TypedCode, phone: string, token: string)
    requires forall u :: !OpensWith(before.users, u, NormalizeCode(code), NormalizePhone(phone))
    ensures Step(before, Call(now, LoginByInvite(code, phone, token))) == Effect(Purge(before, now), Nothing)
  {
  }

  /** In sound tables the owner of a session row is there and not revoked. */
  lemma CheckPerformed(before: Tables, presented: Text, now: int, after: Tables, o: Outcome)
    requires Sound(before) && Effect(after, o) == Check(before, presented, now)
    ensures Sound(after) && Performs(before, Call(now, Authenticate(presented)), after, o)
    ensures !o.UserRevoked? && !o.UserMissing?
  {
    StillSound(before, Call(now, Authenticate(presented)), after, o);
  }

  class Store {
    var users: map<UserId, User>
    var sessions: map<Text, Session>

    ghost function Db(): Tables
      reads this
    {
      Tables(users, sessions)
    }

    ghost predicate Valid()
      reads this
    {
      Sound(Db())
    }

    constructor ()
      ensures Valid() && Db() == EMPTY
    {
      users, sessions := map[], map[];
    }

    method GenerateUniqueInviteCode(draws: Draws) returns (code: Option<string>)
      ensures code == FreeCode(Codes(users), draws)
    {
      for i := 0 to 8
        invariant FreeCode(Codes(users), draws) == FreeCode(Codes(users), draws[i..])
      {
        if forall u :: u in users ==> users[u].inviteCode != draws[i] {
          assert draws[i] !in Codes(users);
          return Some(draws[i]);
        }
        assert draws[i] in Codes(users);
        assert draws[i..][1..] == draws[i + 1..];
      }
      return None;
    }

    method GenerateUniqueApiKey(draws: Draws) returns (key: Option<string>)
      ensures key == FreeKey(KeyHashes(users), draws)
    {
      for i := 0 to 8
        invariant FreeKey(KeyHashes(users), draws) == FreeKey(KeyHashes(users), draws[i..])
      {
        var hash := KeyHash(Plain(draws[i]));
        if forall u :: u in users ==> users[u].keyHash != Some(hash) {
          assert hash !in KeyHashes(users);
          return Some(draws[i]);
        }
        assert hash in KeyHashes(users);
        assert draws[i..][1..] == draws[i + 1..];
      }
      return None;
    }

    method CreateInviteUser(now: int, id: UserId, phone: string, codes: Draws, keys: Draws) returns (o: Outcome)
      requires Valid()
      modifies this`users
      ensures Valid() && Performs(old(Db()), Call(now, CreateInvite(id, phone, codes, keys)), Db(), o)
    {
      var normalized := NormalizePhoneNumber(phone);
      var code := GenerateUniqueInviteCode(codes);
      var key := GenerateUniqueApiKey(keys);
      if !PhoneAccepted(phone) || code.None? || key.None? || id in users {
        o := Failed;
      } else {
        users := users[id := FreshUser(code.value, normalized, key.value, now)];
        o := Invited(id, code.value, normalized, key.value);
      }
      StillSound(old(Db()), Call(now, CreateInvite(id, phone, codes, keys)), Db(), o);
    }

    method FindInviteUserByApiKey(now: int, key: Text) returns (o: Outcome)
      requires Valid()
      modifies this`users
      ensures Valid() && Performs(old(Db()), Call(now, FindByKey(key)), Db(), o)
    {
      var hash := KeyHash(key);
      o := Nothing;
      if TrimText(key) != Plain("") {
        if u :| u in users && users[u].keyHash == Some(hash) && users[u].revokedAt.None? {
          assert KeyOwner(users, hash) == Some(u) by {
            assert AcceptsKey(users, u, hash);
            assert SameKey(users, u, KeyOwner(users, hash).value);
          }
          users := users[u := users[u].(keyLastUsedAt := Some(now))];
          o := KeyUser(u, users[u]);
        } else {
          assert forall u :: !AcceptsKey(users, u, hash);
        }
      }
      StillSound(old(Db()), Call(now, FindByKey(key)), Db(), o);
    }

    method WriteKey(now: int, id: UserId, keys: Draws) returns (o: Outcome)
      requires id in users
      modifies this`users
      ensures Effect(Db(), o) == IssueKey(old(Db()), id, keys, now)
    {
      var key := GenerateUniqueApiKey(keys);
      if key.None? {
        return Failed;
      }
      users := users[id := WithKey(users[id], key.value, now)];
      return KeyIssued(id, key.value);
    }

    method EnsureApiKeyForUser(now: int, id: UserId, keys: Draws) returns (o: Outcome)
      requires Valid()
      modifies this`users
      ensures Valid() && Performs(old(Db()), Call(now, EnsureKey(id, keys)), Db(), o)
    {
      if id !in users {
        o := Nothing;
      } else if users[id].keyPrefix.Some? {
        o := KeyKept(id);
      } else {
        o := WriteKey(now, id, keys);
      }
      StillSound(old(Db()), Call(now, EnsureKey(id, keys)), Db(), o);
    }

    method ResetApiKeyForUser(now: int, id: UserId, keys: Draws) returns (o: Outcome)
      requires Valid()
      modifies this`users
      ensures Valid() && Performs(old(Db()), Call(now, ResetKey(id, keys)), Db(), o)
    {
      if id !in users {
        o := Nothing;
      } else {
        o := WriteKey(now, id, keys);
      }
      StillSound(old(Db()), Call(now, ResetKey(id, keys)), Db(), o);
    }

    method PurgeExpired(now: int)
      modifies this`sessions
      ensures Db() == Purge(old(Db()), now)
    {
      sessions := map k | k in sessions && !(sessions[k].expiresAt <= now) :: sessions[k];
    }

    /** The login transaction: an already taken session key is an error, and then nothing is written. */
    method InsertSession(now: int, id: UserId, token: string, expiresAt: int) returns (o: Outcome)
      requires id in users
      modifies this
      ensures Effect(Db(), o) == OpenSession(old(Db()), id, token, now, expiresAt)
    {
      var key := SessionKey(token);
      if key in sessions {
        return Failed;
      }
      users := users[id := users[id].(lastLoginAt := Some(now))];
      sessions := sessions[key := Session(id, now, expiresAt, now)];
      return LoggedIn(token, id, expiresAt);
    }

    method CreateSessionForInvite(now: int, code: TypedCode, phone: string, token: string) returns (o: Outcome)
      requires Valid()
      modifies this
      ensures Valid() && Performs(old(Db()), Call(now, LoginByInvite(code, phone, token)), Db(), o)
    {
      var wantedCode := NormalizeCode(code);
      var wantedPhone := NormalizePhoneNumber(phone);
      PurgeExpired(now);
      if u :| u in users && users[u].inviteCode == wantedCode && users[u].phone == wantedPhone
              && users[u].revokedAt.None? {
        InviteOpens(old(Db()), now, code, phone, token, u);
        o := InsertSession(now, u, token, now + LONG_DAYS * DAY);
      } else {
        assert forall u :: !OpensWith(users, u, wantedCode, wantedPhone);
        InviteUnknown(old(Db()), now, code, phone, token);
        o := Nothing;
      }
      StillSound(old(Db()), Call(now, LoginByInvite(code, phone, token)), Db(), o);
    }

    method CreateSessionForUser(now: int, id: UserId, ttlDays: int, token: string) returns (o: Outcome)
      requires Valid()
      modifies this
      ensures Valid() && Performs(old(Db()), Call(now, LoginByUser(id, ttlDays, token)), Db(), o)
    {
      PurgeExpired(now);
      if id !in users || users[id].revokedAt.Some? {
        o := Nothing;
      } else {
        o := InsertSession(now, id, token, now + ttlDays * DAY);
      }
      StillSound(old(Db()), Call(now, LoginByUser(id, ttlDays, token)), Db(), o);
    }

    method AuthenticateSessionDetailed(now: int, presented: Text) returns (o: Outcome)
      requires Valid()
      modifies this`sessions
      ensures Valid() && Performs(old(Db()), Call(now, Authenticate(presented)), Db(), o)
      ensures !o.UserRevoked? && !o.UserMissing?
    {
      var key := RowFor(sessions, presented);
      if key.None? {
        o := Missing;
      } else {
        var row := sessions[key.value];
        if row.expiresAt <= now {
          sessions := sessions - {key.value};
          o := Expired(row.userId);
        } else if row.userId !in users {
          o := UserMissing(row.userId);
        } else if users[row.userId].revokedAt.Some? {
          o := UserRevoked(row.userId);
        } else {
          sessions := sessions[key.value := row.(lastSeenAt := now)];
          o := Authenticated(row.userId, users[row.userId]);
        }
      }
      CheckPerformed(old(Db()), presented, now, Db(), o);
    }

    method DeleteSession(now: int, presented: Text) returns (o: Outcome)
      requires Valid()
      modifies this`sessions
      ensures Valid() && Performs(old(Db()), Call(now, Op.DeleteSession(presented)), Db(), o)
    {
      sessions := sessions - {Digest(presented), presented};
      o := Done(true);
      StillSound(old(Db()), Call(now, Op.DeleteSession(presented)), Db(), o);
    }

    method CountActiveSessionsForUser(now: int, id: UserId) returns (o: Outcome)
      requires Valid()
      modifies this`sessions
      ensures Valid() && Performs(old(Db()), Call(now, CountSessions(id)), Db(), o)
    {
      PurgeExpired(now);
      var rows := set k | k in sessions && sessions[k].userId == id && now < sessions[k].expiresAt;
      assert rows == RowsOf(sessions, id);
      o := Counted(|rows|);
      StillSound(old(Db()), Call(now, CountSessions(id)), Db(), o);
    }

    method DeleteSessionsForUser(id: UserId) returns (cleared: nat)
      modifies this`sessions
      ensures sessions == WithoutUser(old(sessions), id) && cleared == |RowsOf(old(sessions), id)|
    {
      cleared := |set k | k in sessions && sessions[k].userId == id|;
      sessions := map k | k in sessions && sessions[k].userId != id :: sessions[k];
    }

    /** The transaction of a revocation or a restoration. */
    method RevokeUser(now: int, id: UserId, revoked: bool) returns (o: Outcome)
      modifies this
      ensures Effect(Db(), o) == Revoke(old(Db()), id, revoked, now)
    {
      if id !in users {
        return Nothing;
      }
      var cleared := 0;
      if revoked {
        cleared := DeleteSessionsForUser(id);
      }
      var user := users[id].(revokedAt := if revoked then Some(now) else None);
      users := users[id := user];
      return Mutated(id, user, cleared);
    }

    method SetInviteRevoked(now: int, id: UserId, revoked: bool) returns (o: Outcome)
      requires Valid()
      modifies this
      ensures Valid() && Performs(old(Db()), Call(now, SetRevoked(id, revoked)), Db(), o)
    {
      PurgeExpired(now);
      o := RevokeUser(now, id, revoked);
      StillSound(old(Db()), Call(now, SetRevoked(id, revoked)), Db(), o);
    }

    method ResetInviteCode(now: int, id: UserId, codes: Draws) returns (o: Outcome)
      requires Valid()
      modifies this
      ensures Valid() && Performs(old(Db()), Call(now, ResetCode(id, codes)), Db(), o)
    {
      PurgeExpired(now);
      o := Nothing;
      if id in users {
        var code := GenerateUniqueInviteCode(codes);
        if code.None? {
          o := Failed;
        } else {
          var cleared := DeleteSessionsForUser(id);
          users := users[id := users[id].(inviteCode := code.value, revokedAt := None)];
          o := Mutated(id, users[id], cleared);
        }
      }
      StillSound(old(Db()), Call(now, ResetCode(id, codes)), Db(), o);
    }

    method SetPassword(now: int, id: UserId, hash: string, tos: string) returns (o: Outcome)
      requires Valid()
      modifies this`users
      ensures Valid() && Performs(old(Db()), Call(now, Op.SetPassword(id, hash, tos)), Db(), o)
    {
      o := Done(id in users && users[id].passwordHash.None?);
      if o.changed {
        users := users[id := users[id].(passwordHash := Some(hash), passwordSetAt := Some(now),
                                        tosAcceptedAt := Some(now), tosVersion := Some(tos))];
      }
      StillSound(old(Db()), Call(now, Op.SetPassword(id, hash, tos)), Db(), o);
    }

    method ChangePassword(now: int, id: UserId, hash: string) returns (o: Outcome)
      requires Valid()
      modifies this`users
      ensures Valid() && Performs(old(Db()), Call(now, Op.ChangePassword(id, hash)), Db(), o)
    {
      o := Done(id in users && users[id].passwordHash.Some?);
      if o.changed {
        users := users[id := users[id].(passwordHash := Some(hash), passwordSetAt := Some(now))];
      }
      StillSound(old(Db()), Call(now, Op.ChangePassword(id, hash)), Db(), o);
    }

    method RecordTosAcceptance(now: int, id: UserId, tos: string) returns (o: Outcome)
      requires Valid()
      modifies this`users
      ensures Valid() && Performs(old(Db()), Call(now, RecordTos(id, tos)), Db(), o)
    {
      o := Done(id in users && users[id].revokedAt.None?);
      if o.changed {
        users := users[id := users[id].(tosAcceptedAt := Some(now), tosVersion := Some(tos))];
      }
      StillSound(old(Db()), Call(now, RecordTos(id, tos)), Db(), o);
    }
  }
}
