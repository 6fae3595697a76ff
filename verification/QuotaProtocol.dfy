/** The quota operations run by any number of threads. Every step of a thread (asking the lock registry, locking,
    reading the file, deciding in memory, writing, unlocking) may interleave with steps of all other threads, and any
    read or write may fail. */
module QuotaProtocol {
  import opened Common
  import opened Quota

  type Tid = nat
  type LockId = nat

  /** A reservation handed out to a caller. */
  datatype Ticket = Ticket(key: Key, serial: nat)

  datatype Op = Reserve(key: Key, limit: u32) | Settle(ticket: Ticket, committed: bool)

  function KeyOf(op: Op): Key {
    match op case Reserve(key, _) => key case Settle(ticket, _) => ticket.key
  }

  datatype Pc =
    | Idle
    | Called(op: Op)
    | GotLock(op: Op, lock: LockId)                                  // holds the shared mutex object, not yet locked
    | Locked(op: Op, lock: LockId)
    | HasRead(op: Op, lock: LockId, seen: Option<QuotaFile>)
    | Writing(op: Op, lock: LockId, file: QuotaFile)
    | Leaving(op: Op, lock: LockId)

  datatype State = State(
    files: map<Key, QuotaFile>,
    registry: map<Key, LockId>,
    owner: map<LockId, Tid>,
    threads: map<Tid, Pc>,
    open: set<Ticket>,             // ledger: reservations granted and not yet settled
    commits: map<Key, nat>,        // ledger: reservations committed so far
    serials: nat)

  predicate Initial(s: State) {
    && s.files == map[] && s.registry == map[] && s.owner == map[] && s.open == {} && s.commits == map[]
    && forall t :: t in s.threads ==> s.threads[t] == Idle
  }

  function Commits(s: State, key: Key): nat {
    if key in s.commits then s.commits[key] else 0
  }

  function OpenAt(s: State, key: Key): set<Ticket> {
    set k | k in s.open && k.key == key
  }

  function At(s: State, t: Tid, pc: Pc): State {
    s.(threads := s.threads[t := pc])
  }

  /** The thread is running an operation that has not yet settled this ticket. */
  predicate Settling(pc: Pc, ticket: Ticket) {
    && (pc.Called? || pc.GotLock? || pc.Locked? || pc.HasRead? || pc.Writing?)
    && pc.op.Settle? && pc.op.ticket == ticket
  }

  /** Callers never ask for more than `cap`, settle only what they were granted, and settle it once. */
  ghost predicate MayCall(s: State, op: Op, cap: u32) {
    match op
    case Reserve(_, limit) => limit <= cap
    case Settle(ticket, _) => ticket in s.open && forall t :: t in s.threads ==> !Settling(s.threads[t], ticket)
  }

  ghost predicate Call(s: State, s': State, t: Tid, cap: u32) {
    t in s.threads && s.threads[t].Idle? && exists op :: MayCall(s, op, cap) && s' == At(s, t, Called(op))
  }

  /** `get_quota_lock`: the registry's own mutex makes lookup-or-insert one step; a new lock is a fresh object. */
  ghost predicate GetLock(s: State, s': State, t: Tid) {
    && t in s.threads && s.threads[t].Called?
    && var key := KeyOf(s.threads[t].op);
       if key in s.registry then s' == At(s, t, GotLock(s.threads[t].op, s.registry[key]))
       else exists l :: l !in s.registry.Values && l !in s.owner
              && s' == At(s, t, GotLock(s.threads[t].op, l)).(registry := s.registry[key := l])
  }

  predicate Acquire(s: State, s': State, t: Tid) {
    && t in s.threads && s.threads[t].GotLock? && s.threads[t].lock !in s.owner
    && s' == At(s, t, Locked(s.threads[t].op, s.threads[t].lock)).(owner := s.owner[s.threads[t].lock := t])
  }

  predicate ReadFile(s: State, s': State, t: Tid) {
    && t in s.threads && s.threads[t].Locked?
    && var pc := s.threads[t];
       || s' == At(s, t, HasRead(pc.op, pc.lock, Lookup(s.files, KeyOf(pc.op))))
       || s' == At(s, t, Leaving(pc.op, pc.lock))                                     // read or parse error
  }

  function Plan(pc: Pc): Pc
    requires pc.HasRead?
  {
    match pc.op
    case Reserve(key, limit) =>
      (match Decide(pc.seen, key.date, limit)
       case Reject(_, _) => Leaving(pc.op, pc.lock)
       case Write(file) => Writing(pc.op, pc.lock, file))
    case Settle(ticket, committed) =>
      if pc.seen.None? then Leaving(pc.op, pc.lock)
      else Writing(pc.op, pc.lock, Finish(pc.seen.value, committed))
  }

  predicate Decides(s: State, s': State, t: Tid) {
    t in s.threads && s.threads[t].HasRead? && s' == At(s, t, Plan(s.threads[t]))
  }

  /** A successful write and its entry in the ledger. */
  function Written(s: State, t: Tid): State
    requires t in s.threads && s.threads[t].Writing?
  {
    var pc := s.threads[t];
    var key := KeyOf(pc.op);
    var next := At(s, t, Leaving(pc.op, pc.lock)).(files := s.files[PathOf(key.actor, pc.file) := pc.file]);
    match pc.op
    case Reserve(_, _) => next.(open := s.open + {Ticket(key, s.serials)}, serials := s.serials + 1)
    case Settle(ticket, committed) =>
      next.(open := s.open - {ticket},
            commits := if committed then s.commits[key := Commits(s, key) + 1] else s.commits)
  }

  predicate WriteFile(s: State, s': State, t: Tid) {
    && t in s.threads && s.threads[t].Writing?
    && (s' == Written(s, t) || s' == At(s, t, Leaving(s.threads[t].op, s.threads[t].lock)))   // or a write error
  }

  predicate Unlock(s: State, s': State, t: Tid) {
    && t in s.threads && s.threads[t].Leaving?
    && s' == At(s, t, Idle).(owner := s.owner - {s.threads[t].lock})
  }

  ghost predicate ThreadStep(s: State, s': State, t: Tid, cap: u32) {
    || Call(s, s', t, cap) || GetLock(s, s', t) || Acquire(s, s', t) || ReadFile(s, s', t) || Decides(s, s', t)
    || WriteFile(s, s', t) || Unlock(s, s', t)
  }

  ghost predicate Next(s: State, s': State, cap: u32) {
    exists t :: ThreadStep(s, s', t, cap)
  }

  /** A run: any finite sequence of steps from an initial state. */
  ghost predicate Run(run: seq<State>, cap: u32) {
    run != [] && Initial(run[0]) && forall i :: 0 <= i < |run| - 1 ==> Next(run[i], run[i + 1], cap)
  }

  // ----- the invariant -----

  predicate InSection(pc: Pc) {
    pc.Locked? || pc.HasRead? || pc.Writing? || pc.Leaving?
  }

  /** What one thread may rely on. */
  ghost predicate ThreadOk(s: State, t: Tid, cap: u32)
    requires t in s.threads
  {
    var pc := s.threads[t];
    && (!pc.Idle? && pc.op.Reserve? ==> pc.op.limit <= cap)
    && (!pc.Idle? && !pc.Leaving? && pc.op.Settle? ==> pc.op.ticket in s.open)
    && (pc.GotLock? || InSection(pc) ==> KeyOf(pc.op) in s.registry && s.registry[KeyOf(pc.op)] == pc.lock)
    && (InSection(pc) ==> pc.lock in s.owner && s.owner[pc.lock] == t)
    && (pc.HasRead? ==> pc.seen == Lookup(s.files, KeyOf(pc.op)))
    && (pc.Writing? ==> Plan(HasRead(pc.op, pc.lock, Lookup(s.files, KeyOf(pc.op)))) == pc)
  }

  /** The file of a key tells the truth about its ledger, within the cap. */
  ghost predicate Ledger(s: State, key: Key, cap: u32) {
    match Lookup(s.files, key)
    case None => OpenAt(s, key) == {} && Commits(s, key) == 0
    case Some(f) => f.date == key.date && f.success == Commits(s, key) && f.inFlight == |OpenAt(s, key)|
                    && f.success + f.inFlight <= cap
  }

  ghost predicate Injective(registry: map<Key, LockId>) {
    forall k, l :: k in registry && l in registry && registry[k] == registry[l] ==> k == l
  }

  ghost predicate Inv(s: State, cap: u32) {
    && (forall t :: t in s.threads ==> ThreadOk(s, t, cap))
    && (forall key :: Ledger(s, key, cap))
    && Injective(s.registry)
    && (forall k :: k in s.open ==> k.serial < s.serials)
    && (forall t, u, k ::
          (t in s.threads && u in s.threads && Settling(s.threads[t], k) && Settling(s.threads[u], k)) ==> t == u)
  }

  /** Two threads are never both between lock and unlock for one key. */
  lemma MutualExclusion(s: State, t: Tid, u: Tid, cap: u32)
    requires Inv(s, cap) && t in s.threads && u in s.threads
    requires InSection(s.threads[t]) && InSection(s.threads[u]) && KeyOf(s.threads[t].op) == KeyOf(s.threads[u].op)
    ensures t == u
  {
    assert ThreadOk(s, t, cap) && ThreadOk(s, u, cap);
  }

  // ----- every step keeps the invariant -----

  /** A step of t that leaves files and ledger alone, and takes no lock entry or ownership away from others. */
  lemma QuietStep(s: State, s': State, t: Tid, cap: u32)
    requires Inv(s, cap) && t in s.threads
    requires t in s'.threads && s'.threads == s.threads[t := s'.threads[t]] && s'.files == s.files && s'.open == s.open
    requires s'.commits == s.commits && s'.serials == s.serials
    requires forall k :: k in s.registry ==> k in s'.registry && s'.registry[k] == s.registry[k]
    requires forall l :: l in s.owner && s.owner[l] != t ==> l in s'.owner && s'.owner[l] == s.owner[l]
    requires Injective(s'.registry)
    requires ThreadOk(s', t, cap)
    requires forall k, u :: Settling(s'.threads[t], k) && u != t && u in s.threads ==> !Settling(s.threads[u], k)
    ensures Inv(s', cap)
  {
    forall u | u in s'.threads
      ensures ThreadOk(s', u, cap)
    {
      assert u != t ==> ThreadOk(s, u, cap);
    }
    forall key
      ensures Ledger(s', key, cap)
    {
      assert Ledger(s, key, cap) && OpenAt(s', key) == OpenAt(s, key);
    }
  }

  lemma CallKeepsInv(s: State, s': State, t: Tid, cap: u32)
    requires Inv(s, cap) && Call(s, s', t, cap)
    ensures Inv(s', cap)
  {
    QuietStep(s, s', t, cap);
  }

  lemma UnusedLock(registry: map<Key, LockId>, key: Key, l: LockId)
    requires Injective(registry) && l !in registry.Values
    ensures Injective(registry[key := l])
  {
    assert forall k :: k in registry ==> registry[k] in registry.Values;
  }

  lemma GetLockKeepsInv(s: State, s': State, t: Tid, cap: u32)
    requires Inv(s, cap) && GetLock(s, s', t)
    ensures Inv(s', cap)
  {
    assert ThreadOk(s, t, cap);
    var key := KeyOf(s.threads[t].op);
    if key !in s.registry {
      UnusedLock(s.registry, key, s'.registry[key]);
    }
    QuietStep(s, s', t, cap);
  }

  lemma AcquireKeepsInv(s: State, s': State, t: Tid, cap: u32)
    requires Inv(s, cap) && Acquire(s, s', t)
    ensures Inv(s', cap)
  {
    assert ThreadOk(s, t, cap);
    QuietStep(s, s', t, cap);
  }

  lemma ReadingKeepsInv(s: State, s': State, t: Tid, cap: u32)
    requires Inv(s, cap) && (ReadFile(s, s', t) || Decides(s, s', t))
    ensures Inv(s', cap)
  {
    assert ThreadOk(s, t, cap);
    QuietStep(s, s', t, cap);
  }

  lemma UnlockKeepsInv(s: State, s': State, t: Tid, cap: u32)
    requires Inv(s, cap) && Unlock(s, s', t)
    ensures Inv(s', cap)
  {
    assert ThreadOk(s, t, cap);
    QuietStep(s, s', t, cap);
  }

  /** What the writing thread is about to do to its own key, in terms of the ledger. */
  lemma WriteMeaning(s: State, t: Tid, cap: u32)
    requires Inv(s, cap) && t in s.threads && s.threads[t].Writing?
    ensures var pc := s.threads[t];
            var key := KeyOf(pc.op);
            && pc.file.date == key.date && pc.file.success + pc.file.inFlight <= cap
            && (pc.op.Reserve? ==> pc.file.success == Commits(s, key) && pc.file.inFlight == |OpenAt(s, key)| + 1)
            && (pc.op.Settle? ==> (
                  && pc.op.ticket in OpenAt(s, key) && pc.file.inFlight == |OpenAt(s, key)| - 1
                  && pc.file.success == Commits(s, key) + if pc.op.committed then 1 else 0))
  {
    var pc := s.threads[t];
    var key := KeyOf(pc.op);
    assert ThreadOk(s, t, cap) && Ledger(s, key, cap);
    if pc.op.Reserve? {
      DecideWithinLimit(Lookup(s.files, key), key.date, pc.op.limit);
    } else {
      assert pc.op.ticket in OpenAt(s, key);
      assert OpenAt(s, key) == {pc.op.ticket} + (OpenAt(s, key) - {pc.op.ticket});
    }
  }

  lemma GrantOpens(s: State, next: State, granted: Ticket)
    requires next.open == s.open + {granted} && granted !in s.open
    ensures |OpenAt(next, granted.key)| == |OpenAt(s, granted.key)| + 1
  {
    assert OpenAt(next, granted.key) == OpenAt(s, granted.key) + {granted};
  }

  lemma SettlingCloses(s: State, next: State, ticket: Ticket)
    requires next.open == s.open - {ticket} && ticket in s.open
    ensures |OpenAt(next, ticket.key)| == |OpenAt(s, ticket.key)| - 1
  {
    assert OpenAt(next, ticket.key) == OpenAt(s, ticket.key) - {ticket};
  }

  /** The reservations outstanding for the key, after the write of a reservation or of its settlement. */
  lemma WrittenOpen(s: State, t: Tid, cap: u32)
    requires Inv(s, cap) && t in s.threads && s.threads[t].Writing?
    ensures var key, op := KeyOf(s.threads[t].op), s.threads[t].op;
            && (op.Reserve? ==> |OpenAt(Written(s, t), key)| == |OpenAt(s, key)| + 1)
            && (op.Settle? && op.ticket in OpenAt(s, key) ==> |OpenAt(Written(s, t), key)| == |OpenAt(s, key)| - 1)
  {
    match s.threads[t].op
    case Reserve(key, _) =>
      assert Ticket(key, s.serials) !in s.open;
      GrantOpens(s, Written(s, t), Ticket(key, s.serials));
    case Settle(ticket, _) =>
      if ticket in s.open {
        SettlingCloses(s, Written(s, t), ticket);
      }
  }

  lemma WrittenOwnLedger(s: State, t: Tid, cap: u32)
    requires Inv(s, cap) && t in s.threads && s.threads[t].Writing?
    ensures Ledger(Written(s, t), KeyOf(s.threads[t].op), cap)
  {
    WriteMeaning(s, t, cap);
    WrittenOpen(s, t, cap);
    assert Lookup(Written(s, t).files, KeyOf(s.threads[t].op)) == Some(s.threads[t].file);
  }

  lemma WrittenLedger(s: State, t: Tid, key: Key, cap: u32)
    requires Inv(s, cap) && t in s.threads && s.threads[t].Writing?
    ensures Ledger(Written(s, t), key, cap)
  {
    if key == KeyOf(s.threads[t].op) {
      WrittenOwnLedger(s, t, cap);
    } else {
      WriteMeaning(s, t, cap);
      assert ThreadOk(s, t, cap) && Ledger(s, key, cap);
      assert OpenAt(Written(s, t), key) == OpenAt(s, key);
      assert Lookup(Written(s, t).files, key) == Lookup(s.files, key);
    }
  }

  lemma WrittenThread(s: State, t: Tid, u: Tid, cap: u32)
    requires Inv(s, cap) && t in s.threads && s.threads[t].Writing? && u in s.threads
    ensures ThreadOk(Written(s, t), u, cap)
  {
    var s' := Written(s, t);
    WriteMeaning(s, t, cap);
    assert ThreadOk(s, t, cap) && ThreadOk(s, u, cap);
    if u != t {
      var pc := s.threads[u];
      if InSection(pc) {
        assert KeyOf(pc.op) != KeyOf(s.threads[t].op) by {
          if KeyOf(pc.op) == KeyOf(s.threads[t].op) {
            MutualExclusion(s, t, u, cap);
          }
        }
        assert Lookup(s'.files, KeyOf(pc.op)) == Lookup(s.files, KeyOf(pc.op));
      }
      if s.threads[t].op.Settle? {
        assert Settling(s.threads[t], s.threads[t].op.ticket);
        assert !Settling(pc, s.threads[t].op.ticket);
      }
    }
  }

  lemma WrittenKeepsInv(s: State, t: Tid, cap: u32)
    requires Inv(s, cap) && t in s.threads && s.threads[t].Writing?
    ensures Inv(Written(s, t), cap)
  {
    forall u | u in Written(s, t).threads
      ensures ThreadOk(Written(s, t), u, cap)
    {
      WrittenThread(s, t, u, cap);
    }
    forall key
      ensures Ledger(Written(s, t), key, cap)
    {
      WrittenLedger(s, t, key, cap);
    }
  }

  lemma FailedWriteKeepsInv(s: State, s': State, t: Tid, cap: u32)
    requires Inv(s, cap) && t in s.threads && s.threads[t].Writing?
    requires s' == At(s, t, Leaving(s.threads[t].op, s.threads[t].lock))
    ensures Inv(s', cap)
  {
    assert ThreadOk(s, t, cap);
    QuietStep(s, s', t, cap);
  }

  lemma NextKeepsInv(s: State, s': State, cap: u32)
    requires Inv(s, cap) && Next(s, s', cap)
    ensures Inv(s', cap)
  {
    var t :| ThreadStep(s, s', t, cap);
    if Call(s, s', t, cap) {
      CallKeepsInv(s, s', t, cap);
    } else if GetLock(s, s', t) {
      GetLockKeepsInv(s, s', t, cap);
    } else if Acquire(s, s', t) {
      AcquireKeepsInv(s, s', t, cap);
    } else if ReadFile(s, s', t) || Decides(s, s', t) {
      ReadingKeepsInv(s, s', t, cap);
    } else if WriteFile(s, s', t) {
      if s' == Written(s, t) {
        WrittenKeepsInv(s, t, cap);
      } else {
        FailedWriteKeepsInv(s, s', t, cap);
      }
    } else {
      UnlockKeepsInv(s, s', t, cap);
    }
  }

  lemma {:induction false} RunKeepsInv(run: seq<State>, cap: u32, i: nat)
    requires Run(run, cap) && i < |run|
    ensures Inv(run[i], cap)
  {
    if i > 0 {
      RunKeepsInv(run, cap, i - 1);
      NextKeepsInv(run[i - 1], run[i], cap);
    } else {
      assert forall key :: OpenAt(run[0], key) == {};
    }
  }

  // ----- main results -----

  /** At every moment of every run, for every actor and day: the file shows exactly the commits so far and the
      reservations outstanding, and their sum is within the cap. No file means that nothing happened. */
  lemma QuotaSafety(run: seq<State>, cap: u32, i: nat, key: Key)
    requires Run(run, cap) && i < |run|
    ensures var s := run[i];
            && Commits(s, key) + |OpenAt(s, key)| <= cap
            && (key in s.files ==> s.files[key] == QuotaFile(key.date, Commits(s, key), |OpenAt(s, key)|))
            && (key !in s.files ==> Commits(s, key) == 0 && OpenAt(s, key) == {})
  {
    RunKeepsInv(run, cap, i);
    assert Ledger(run[i], key, cap);
  }

  /** When a thread decides: the 32-bit sum does not wrap, a rejection is true of the ledger at that moment, and a
      settlement finds a file whose counters move by exactly one, so no saturating update saturates. */
  lemma DecisionsAreExact(run: seq<State>, cap: u32, i: nat, t: Tid)
    requires Run(run, cap) && i < |run| && t in run[i].threads && run[i].threads[t].HasRead?
    ensures var s := run[i];
            var pc := s.threads[t];
            var key := KeyOf(pc.op);
            && (pc.op.Reserve? ==>
                  && (Plan(pc).Leaving? <==> pc.op.limit <= Commits(s, key) + |OpenAt(s, key)|)
                  && var f := Current(pc.seen, key.date);
                     f.success + f.inFlight < U32_LIMIT - (if Plan(pc).Writing? then 1 else 0))
            && (pc.op.Settle? ==>
                  && Plan(pc).Writing? && pc.seen.Some?
                  && Plan(pc).file.inFlight == pc.seen.value.inFlight - 1
                  && Plan(pc).file.success == pc.seen.value.success + if pc.op.committed then 1 else 0)
  {
    RunKeepsInv(run, cap, i);
    var s := run[i];
    var pc := s.threads[t];
    var key := KeyOf(pc.op);
    assert ThreadOk(s, t, cap) && Ledger(s, key, cap);
    if pc.op.Reserve? {
      DecideWithinLimit(pc.seen, key.date, pc.op.limit);
    } else {
      assert pc.op.ticket in OpenAt(s, key);
    }
  }
}
