/** Daily conversation quotas on local files: one record per (actor, date). */
module Quota {
  import opened Common

  const U32_LIMIT := 0x1_0000_0000
  type u32 = n: int | 0 <= n < 0x1_0000_0000

  datatype Key = Key(actor: string, date: string)

  /** The stored record. It carries its own date, and a write goes to the path of that date. */
  datatype QuotaFile = QuotaFile(date: string, success: u32, inFlight: u32)

  datatype Decision = Reject(success: u32, inFlight: u32) | Write(file: QuotaFile)

  /** What callers are shown of a record. */
  datatype Snapshot = Snapshot(date: string, success: u32, inFlight: u32, limit: u32)

  datatype ReserveResult = Bypassed | Reserved(key: Key) | Rejected(snapshot: Snapshot)

  function Lookup(files: map<Key, QuotaFile>, key: Key): Option<QuotaFile> {
    if key in files then Some(files[key]) else None
  }

  function PathOf(actor: string, file: QuotaFile): Key {
    Key(actor, file.date)
  }

  /** The record that a reservation starts from: a missing file, or one without a date, belongs to the asked date. */
  function Current(file: Option<QuotaFile>, date: string): QuotaFile {
    match file
    case None => QuotaFile(date, 0, 0)
    case Some(f) => if f.date == "" then f.(date := date) else f
  }

  /** The test `success + in_flight >= limit` in 32-bit arithmetic, then the increment. */
  function Decide(file: Option<QuotaFile>, date: string, limit: u32): Decision {
    var f := Current(file, date);
    if (f.success + f.inFlight) % U32_LIMIT >= limit then Reject(f.success, f.inFlight)
    else Write(f.(inFlight := (f.inFlight + 1) % U32_LIMIT))
  }

  function SaturatingDecrement(n: u32): u32 {
    if n == 0 then 0 else n - 1
  }

  function SaturatingIncrement(n: u32): u32 {
    if n == U32_LIMIT - 1 then n else n + 1
  }

  function Finish(f: QuotaFile, committed: bool): QuotaFile {
    f.(inFlight := SaturatingDecrement(f.inFlight),
       success := if committed then SaturatingIncrement(f.success) else f.success)
  }

  /** What one reservation makes of the record of its key. */
  lemma DecideWithinLimit(file: Option<QuotaFile>, date: string, limit: u32)
    requires file.Some? ==> file.value.date == date && file.value.success + file.value.inFlight < U32_LIMIT
    ensures var f := if file.Some? then file.value else QuotaFile(date, 0, 0);
      match Decide(file, date, limit)
      case Reject(s, i) => s == f.success && i == f.inFlight && limit <= s + i
      case Write(g) =>
        g.date == date && g.success == f.success && g.inFlight == f.inFlight + 1 && g.success + g.inFlight <= limit
  {
  }

  /** The storage object, each operation under its key's lock. */
  class ConversationQuotaStorage {
    var files: map<Key, QuotaFile>

    constructor ()
      ensures files == map[]
    {
      files := map[];
    }

    method TryReserve(actor: string, date: string, limit: u32, bypass: bool) returns (r: ReserveResult)
      modifies this
      ensures bypass ==> r == Bypassed && files == old(files)
      ensures !bypass ==>
        match Decide(Lookup(old(files), Key(actor, date)), date, limit)
        case Reject(s, i) => r == Rejected(Snapshot(date, s, i, limit)) && files == old(files)
        case Write(f) => r == Reserved(Key(actor, date)) && files == old(files)[PathOf(actor, f) := f]
    {
      if bypass {
        return Bypassed;
      }
      var key := Key(actor, date);
      var current := QuotaFile("", 0, 0);
      if key in files {
        current := files[key];
      }
      if current.date == "" {
        current := current.(date := date);
      }
      if (current.success + current.inFlight) % U32_LIMIT >= limit {
        return Rejected(Snapshot(date, current.success, current.inFlight, limit));
      }
      current := current.(inFlight := (current.inFlight + 1) % U32_LIMIT);
      files := files[PathOf(actor, current) := current];
      return Reserved(key);
    }

    method FinishReservation(key: Key, committed: bool)
      modifies this
      ensures key !in old(files) ==> files == old(files)
      ensures key in old(files) ==>
        files == old(files)[PathOf(key.actor, old(files)[key]) := Finish(old(files)[key], committed)]
    {
      if key !in files {
        return;
      }
      var current := files[key];
      current := current.(inFlight := SaturatingDecrement(current.inFlight));
      if committed {
        current := current.(success := SaturatingIncrement(current.success));
      }
      files := files[PathOf(key.actor, current) := current];
    }

    /** The date is the one that the record carries; the limit is not stored and shown as 0. */
    method SnapshotForDate(key: Key) returns (snapshot: Option<Snapshot>)
      ensures match Lookup(files, key)
              case None => snapshot == None
              case Some(f) => snapshot == Some(Snapshot(f.date, f.success, f.inFlight, 0))
    {
      if key in files {
        var file := files[key];
        return Some(Snapshot(file.date, file.success, file.inFlight, 0));
      }
      return None;
    }
  }
}
