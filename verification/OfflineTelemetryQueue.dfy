/**
 The spool as the firmware runs it: a memory card whose operations may fail, and a queue object
 that caches counts and ids. The card remembers every state it passes through, so a power cut at
 any point is a prefix of that history.
 */
module OfflineTelemetryQueue {
  import opened Bits
  import opened Clock
  import opened OfflineQueuePolicy
  import opened Spool

  const SD_RETRY_INTERVAL_MS: nat := 30000
  const MAINTENANCE_INTERVAL_MS: nat := 1000

  /** The files the spool directory holds: records by id, and possibly a temporary file. */
  datatype Disk = Disk(files: Files, temp: Option<File>)

  class Card {
    var files: Files
    var temp: Option<File>
    /** Every state of the directory so far, oldest first. */
    ghost var history: seq<Disk>
    /** How many operations on existing files the card has refused so far. */
    ghost var faults: nat

    constructor (files: Files, temp: Option<File>)
      ensures this.files == files && this.temp == temp && history == [Disk(files, temp)]
    {
      this.files, this.temp, faults := files, temp, 0;
      history := [Disk(files, temp)];
    }

    method RemoveTemp() returns (ok: bool)
      modifies this
      ensures files == old(files) && (temp == None || temp == old(temp)) && faults == old(faults)
      ensures history == old(history) + [Disk(files, temp)]
    {
      ok := false;
      if * {
        temp := None;
        ok := true;
      }
      history := history + [Disk(files, temp)];
    }

    /** Opens, writes and closes the temporary file; when it fails, any part of it may be left. */
    method WriteTemp(f: File) returns (ok: bool)
      modifies this
      ensures files == old(files) && (ok ==> temp == Some(f)) && faults == old(faults) + if ok then 0 else 1
      ensures |history| >= |old(history)| && history[..|old(history)|] == old(history)
      ensures forall i :: |old(history)| <= i < |history| ==> history[i].files == files
    {
      var length: nat := *;
      if * {
        faults := faults + 1;
        return false;
      }
      temp := Some(Short(length));
      history := history + [Disk(files, temp)];
      if * {
        faults := faults + 1;
        return false;
      }
      temp := Some(f);
      history := history + [Disk(files, temp)];
      return true;
    }

    method RenameTemp(id: nat) returns (ok: bool)
      requires temp.Some?
      modifies this
      ensures ok ==> files == old(files)[id := old(temp).value] && temp == None
      ensures !ok ==> files == old(files) && temp == old(temp)
      ensures faults == old(faults) + if ok then 0 else 1
      ensures history == old(history) + [Disk(files, temp)]
    {
      ok := false;
      if * {
        files, temp := files[id := temp.value], None;
        ok := true;
      } else {
        faults := faults + 1;
      }
      history := history + [Disk(files, temp)];
    }

    method Remove(id: nat) returns (ok: bool)
      modifies this
      ensures temp == old(temp)
      ensures ok ==> id in old(files) && files == old(files) - {id}
      ensures !ok ==> files == old(files)
      ensures faults == old(faults) + if ok || id !in old(files) then 0 else 1
      ensures history == old(history) + [Disk(files, temp)]
    {
      ok := false;
      if id in files {
        if * {
          files := files - {id};
          ok := true;
        } else {
          faults := faults + 1;
        }
      }
      history := history + [Disk(files, temp)];
    }

    /** Reading may fail; when it succeeds it returns what is stored. */
    method Read(id: nat) returns (f: Option<File>)
      modifies this`faults
      ensures f.Some? ==> id in files && f.value == files[id]
      ensures faults == old(faults) + if f.Some? || id !in files then 0 else 1
    {
      f := None;
      if id in files {
        if * {
          f := Some(files[id]);
        } else {
          faults := faults + 1;
        }
      }
    }

    method RewriteHeader(id: nat, h: Header) returns (ok: bool)
      requires id in files && files[id].Record?
      modifies this
      ensures temp == old(temp)
      ensures ok ==> files == old(files)[id := old(files)[id].(header := h)]
      ensures !ok ==> files == old(files)
      ensures faults == old(faults) + if ok then 0 else 1
      ensures history == old(history) + [Disk(files, temp)]
    {
      ok := false;
      if * {
        files := files[id := files[id].(header := h)];
        ok := true;
      } else {
        faults := faults + 1;
      }
      history := history + [Disk(files, temp)];
    }
  }

  /** A record that is put behind what a number of evictions leaves. */
  datatype Added = Added(evicted: nat, file: File)

  /**
     What a power cut may leave of a FIFO: all but the first few, at most `most`, with the new record
     at the end or not.
   */
  ghost predicate Survivor(before: seq<File>, after: seq<File>, added: Option<Added>, most: nat) {
    exists k: nat :: k <= most && SurvivorFrom(before, after, added, k)
  }

  ghost predicate SurvivorFrom(before: seq<File>, after: seq<File>, added: Option<Added>, k: nat) {
    k <= |before|
    && (after == before[k..] || (added.Some? && k == added.value.evicted && after == before[k..] + [added.value.file]))
  }

  /** Every file is an intact record with an id in range. */
  ghost predicate Clean(files: Files) {
    forall id :: id in files ==> 1 <= id <= RECORD_ID_MASK && WellFormed(id, files[id])
  }

  ghost predicate SafeState(files: Files, before: seq<File>, added: Option<Added>, most: nat) {
    Clean(files) && Survivor(before, Fifo(files), added, most)
  }

  /** Every disk state from `from` on is a survivor. */
  ghost predicate CrashSafe(history: seq<Disk>, from: nat, before: seq<File>, added: Option<Added>, most: nat) {
    forall i :: from <= i < |history| ==> SafeState(history[i].files, before, added, most)
  }

  /** A card with these files can be mounted: there is a boot number, the directory is there, and an id is left. */
  ghost predicate Mountable(bootId: nat, cardPresent: bool, directoryReady: bool, files: Files) {
    bootId != 0 && cardPresent && directoryReady && forall id :: id in Intact(files) ==> id < RECORD_ID_MASK
  }

  /** What the boot scan keeps: a whole header with its marks, under its own name, and a payload of its length. */
  lemma IntactIsExactly(files: Files, id: nat)
    ensures id in Intact(files) <==>
            id in files && match files[id]
                           case Short(_) => false
                           case Record(h, body) =>
                             h.magic == 0x5653_5131 && h.version == 1 && h.recordId == id
                             && 1 <= h.payloadLength <= 2047 && |body| == h.payloadLength
  {
  }

  function FloorSub(a: nat, b: nat): nat {
    if b <= a then a - b else 0
  }

  /** The payload that a record sends, given the boot it is sent in. */
  function OutgoingOf(f: File, bootId: nat): Option<string>
    requires f.Record?
  {
    Outgoing(f.body, ShouldMarkReplayed(f.header.deferred, f.header.attempts, f.header.bootId, bootId))
  }

  /** A record that can be sent: its payload hashes to the stored checksum and can be marked if it must be. */
  predicate Sendable(f: File, bootId: nat) {
    f.Record? && Checksum(f.body) == f.header.checksum && OutgoingOf(f, bootId).Some?
  }

  class Queue {
    const card: Card
    var ready: bool
    var queued: nat
    var bytes: nat
    var oldest: nat
    var next: nat
    var dropped: nat
    var replayed: nat
    var oldestAge: nat
    var bootId: nat
    var lastBeginAttemptMs: nat
    var lastMaintenanceMs: nat

    ghost function State(): Spool
      reads this, card
    {
      Spool(ready, card.files, queued, bytes, oldest, next, dropped, replayed, oldestAge, bootId)
    }

    /** While the queue is ready its cache tells the truth about the card. */
    ghost predicate Valid()
      reads this, card
    {
      ready ==> Coherent(State())
    }

    constructor (card: Card)
      ensures this.card == card && !ready && dropped == 0 && replayed == 0 && bootId == 0
    {
      this.card := card;
      ready, queued, bytes, oldest, next := false, 0, 0, 0, 1;
      dropped, replayed, oldestAge, bootId := 0, 0, 0, 0;
      lastBeginAttemptMs, lastMaintenanceMs := 0, 0;
    }

    method SetUnavailable(nowMs: nat)
      modifies this`ready, this`lastBeginAttemptMs
      ensures !ready
    {
      ready, lastBeginAttemptMs := false, nowMs;
    }

    /** Looks through the directory for the smallest id. */
    method FindOldest()
      requires 0 !in card.files
      modifies this`oldest
      ensures oldest == if card.files.Keys == {} then 0 else MinOf(card.files.Keys)
    {
      hide MinOf;
      oldest := 0;
      var rest, seen := card.files.Keys, {};
      while rest != {}
        invariant rest + seen == card.files.Keys
        invariant oldest == 0 ==> seen == {}
        invariant oldest != 0 ==> oldest in seen && forall id :: id in seen ==> oldest <= id
        decreases rest
      {
        var id: nat :| id in rest;
        rest, seen := rest - {id}, seen + {id};
        if oldest == 0 || id < oldest {
          oldest := id;
        }
      }
      assert seen == card.files.Keys;
    }

    /** Takes the head off the queue; when the card refuses, nothing changes. */
    method RemoveHead(countAsDropped: bool) returns (ok: bool)
      requires ready && Coherent(State())
      modifies this`queued, this`bytes, this`dropped, this`oldest, this`next, this`oldestAge, card
      ensures ok ==> old(card.files) != map[] && State() == RemoveOldest(old(State()), countAsDropped)
      ensures !ok ==> State() == old(State())
      ensures card.faults == old(card.faults) + if ok || old(card.files) == map[] then 0 else 1
      ensures card.temp == old(card.temp)
      ensures card.history == old(card.history) || card.history == old(card.history) + [Disk(card.files, card.temp)]
    {
      hide MinOf, TotalBytes, WellFormed;
      if oldest == 0 || queued == 0 {
        return false;
      }
      HeadBytes(State());
      var fileSize := Size(card.files[oldest]);
      var removed := card.Remove(oldest);
      if !removed {
        return false;
      }
      queued := queued - 1;
      bytes := FloorSub(bytes, fileSize);
      if countAsDropped {
        dropped := dropped + 1;
      }
      SmallerMap(old(card.files), oldest);
      if queued == 0 {
        assert card.files.Keys == {};
        oldest, next, oldestAge := 0, 1, 0;
      } else {
        FindOldest();
      }
      return true;
    }

    /** Every state of the card since `base` lacks at most the first `most` records of `before`. */
    ghost predicate Trail(base: seq<Disk>, before: seq<File>, added: Option<Added>, most: nat)
      reads card
    {
      base <= card.history && CrashSafe(card.history, |base|, before, added, most)
    }

    /** One counted drop from the front, `n` drops after the state `s`. */
    method DropOne(ghost s: Spool, ghost n: nat, ghost base: seq<Disk>) returns (ok: bool)
      requires ready && Coherent(s) && n < |s.files| && State() == DropFront(s, n)
      requires Trail(base, Fifo(s.files), None, n)
      modifies this`queued, this`bytes, this`dropped, this`oldest, this`next, this`oldestAge, card
      ensures State() == DropFront(s, if ok then n + 1 else n) && card.faults == old(card.faults) + if ok then 0 else 1
      ensures card.temp == old(card.temp) && Trail(base, Fifo(s.files), None, if ok then n + 1 else n)
    {
      hide Coherent, DropFront, RemoveOldest, CrashSafe, Fifo, SurvivorFrom;
      ghost var history := card.history;
      ok := RemoveHead(true);
      DropFrontNext(s, n);
      CoherentIsClean(State());
      DroppedSurvives(s, if ok then n + 1 else n, None);
      CrashStep(history, card.history, |base|, Fifo(s.files), None, Disk(card.files, card.temp), n,
                if ok then n + 1 else n);
    }

    /**
     Evicts from the front until one more record of this size fits: exactly as many as needed,
     and fewer only when the card refuses to remove one.
     */
    method EnsureCapacity(nextRecordBytes: nat) returns (ok: bool, ghost evicted: nat)
      requires ready && Coherent(State()) && nextRecordBytes <= 2087
      modifies this`queued, this`bytes, this`dropped, this`oldest, this`next, this`oldestAge, card
      ensures evicted <= |old(card.files)| && State() == DropFront(old(State()), evicted)
      ensures ok <==> !Crowded(State(), nextRecordBytes)
      ensures card.faults == old(card.faults) + if ok then 0 else 1
      ensures AllCrowded(old(State()), evicted, nextRecordBytes)
      ensures card.temp == old(card.temp) && Trail(old(card.history), Fifo(old(card.files)), None, evicted)
    {
      hide Coherent, DropFront, CrashSafe, Fifo, ExceedsLimits, AllCrowded;
      ghost var s, base := State(), card.history;
      evicted := 0;
      NothingYet(base, Fifo(s.files), None, 0);
      NothingDropped(s, nextRecordBytes);
      while queued > 0 && ExceedsLimits(queued, bytes, nextRecordBytes, MAX_RECORDS, MAX_BYTES)
        invariant evicted <= |s.files| && State() == DropFront(s, evicted)
        invariant AllCrowded(s, evicted, nextRecordBytes)
        invariant card.temp == old(card.temp) && Trail(base, Fifo(s.files), None, evicted)
        invariant card.faults == old(card.faults)
        decreases |s.files| - evicted
      {
        CrowdedHasMore(s, evicted, nextRecordBytes);
        OneMoreCrowded(s, evicted, nextRecordBytes);
        var removed := DropOne(s, evicted, base);
        if !removed {
          return false, evicted;
        }
        evicted := evicted + 1;
      }
      EmptyHasRoom(State(), nextRecordBytes);
      return !ExceedsLimits(queued, bytes, nextRecordBytes, MAX_RECORDS, MAX_BYTES), evicted;
    }

    /** Writes a record through the temporary file and the rename that makes it part of the queue. */
    method WriteRecord(f: File, ghost base: seq<Disk>, ghost before: seq<File>, ghost k: nat) returns (ok: bool)
      requires Coherent(State()) && next <= RECORD_ID_MASK && WellFormed(next, f)
      requires Trail(base, before, None, k) && k <= |before| && Fifo(card.files) == before[k..]
      modifies card
      ensures card.files == if ok then old(card.files)[next := f] else old(card.files)
      ensures card.faults == old(card.faults) + if ok then 0 else 1
      ensures Trail(base, before, if ok then Some(Added(k, f)) else None, k)
    {
      hide Coherent, CrashSafe, Fifo, MinOf, TotalBytes, WellFormed, Clean;
      ghost var s := State();
      CoherentIsClean(s);
      ghost var h := card.history;
      var cleared := card.RemoveTemp();
      UnchangedFiles(h, card.history, |base|, before, k, card.files);
      h := card.history;
      var written := card.WriteTemp(f);
      UnchangedFiles(h, card.history, |base|, before, k, card.files);
      if written {
        h := card.history;
        ok := card.RenameTemp(next);
        if ok {
          FifoAppended(s, f);
          TrailWidens(h, |base|, before, Added(k, f), k);
          CrashStep(h, card.history, |base|, before, Some(Added(k, f)), Disk(card.files, card.temp), k, k);
          return;
        }
        UnchangedFiles(h, card.history, |base|, before, k, card.files);
      }
      h := card.history;
      cleared := card.RemoveTemp();
      UnchangedFiles(h, card.history, |base|, before, k, card.files);
      return false;
    }

    method Store(f: File, nowMs: nat, ghost base: seq<Disk>, ghost before: seq<File>, ghost k: nat) returns (ok: bool)
      requires ready && Coherent(State()) && next <= RECORD_ID_MASK && WellFormed(next, f)
      requires Trail(base, before, None, k) && k <= |before| && Fifo(card.files) == before[k..]
      modifies this`ready, this`lastBeginAttemptMs, this`queued, this`bytes, this`oldest, this`next, card
      ensures State() == if ok then Append(old(State()), f) else old(State()).(ready := false)
      ensures card.faults == old(card.faults) + if ok then 0 else 1
      ensures Trail(base, before, if ok then Some(Added(k, f)) else None, k)
    {
      hide Coherent, CrashSafe, Fifo, WellFormed;
      ok := WriteRecord(f, base, before, k);
      if !ok {
        SetUnavailable(nowMs);
        return;
      }
      if queued == 0 {
        oldest := next;
      }
      queued, bytes, next := queued + 1, bytes + Size(f), next + 1;
    }

    /**
     Accepts a sample, or refuses it. A power cut at any moment leaves a suffix of the old queue,
     with the new record only once its rename is done.
     */
    method Enqueue(payload: string, nowMs: nat, nowEpochSeconds: nat, deferred: bool)
      returns (ok: bool, ghost evicted: nat)
      requires Valid()
      modifies this, card
      ensures Valid()
      ensures !Acceptable(old(State()), payload) ==> !ok && State() == old(State()) && card.history == old(card.history)
      ensures old(card.faults) <= card.faults
      ensures card.faults == old(card.faults) ==>
                (ok <==> old(ready) && 1 <= |payload| <= 2047 && old(next) <= 0x7FFF_FFFF)
      ensures Acceptable(old(State()), payload) ==>
                evicted <= |old(card.files)|
                && Enqueued(old(State()), State(), payload, nowMs, nowEpochSeconds, deferred, ok, evicted)
                && Trail(old(card.history), Fifo(old(card.files)),
                         AddedBy(old(State()), payload, nowMs, nowEpochSeconds, deferred, ok, evicted), evicted)
    {
      if !(ready && 0 < |payload| < PAYLOAD_BUFFER && next <= RECORD_ID_MASK) {
        return false, 0;
      }
      ok, evicted := EnqueueAcceptable(payload, nowMs, nowEpochSeconds, deferred);
      hide *;
    }

    method EnqueueAcceptable(payload: string, nowMs: nat, nowEpochSeconds: nat, deferred: bool)
      returns (ok: bool, ghost evicted: nat)
      requires Coherent(State()) && Acceptable(State(), payload)
      modifies this, card
      ensures Coherent(State()) && evicted <= |old(card.files)|
      ensures Enqueued(old(State()), State(), payload, nowMs, nowEpochSeconds, deferred, ok, evicted)
      ensures card.faults == old(card.faults) + if ok then 0 else 1
      ensures Trail(old(card.history), Fifo(old(card.files)),
                    AddedBy(old(State()), payload, nowMs, nowEpochSeconds, deferred, ok, evicted), evicted)
    {
      hide DropFront, CrashSafe, Fifo, AllCrowded, ExceedsLimits, Coherent, NewRecord;
      ghost var s, base := State(), card.history;
      var fits: bool;
      fits, evicted := EnsureCapacity(HEADER_BYTES + |payload|);
      KeptNext(s, evicted);
      ghost var kept := State();
      var f := NewRecord(Spool(ready, card.files, queued, bytes, oldest, next, dropped, replayed, oldestAge, bootId),
                         payload, nowMs, nowEpochSeconds, deferred);
      if !fits {
        dropped := dropped + 1;
        CountedDrop(kept);
        return false, evicted;
      }
      NewRecordFits(kept, payload, nowMs, nowEpochSeconds, deferred);
      ok := Store(f, nowMs, base, Fifo(s.files), evicted);
      AppendKeeps(kept, f);
    }

    /**
     Offers the head for sending. The payload in the buffer is the stored one, marked as replayed
     exactly when the policy says so; the queue is unchanged. Without an offer the queue is
     unchanged or has dropped, and counted, a head that could not be read or sent.
     */
    method Peek(output: array<char>)
      returns (ok: bool, written: nat, recordId: nat, marked: bool, ghost unread: bool)
      requires Valid()
      modifies this`queued, this`bytes, this`dropped, this`oldest, this`next, this`oldestAge, card, output
      ensures Valid()
      ensures ok ==> State() == old(State()) && Offered(State(), output.Length, recordId, marked)
                     && written <= output.Length
                     && output[..written] == OutgoingOf(State().files[recordId], bootId).value
      ensures !ok ==> State() == old(State())
                      || (ready && old(card.files) != map[] && State() == RemoveOldest(old(State()), true)
                          && (unread || !CanOffer(old(State()), output.Length)))
      ensures !unread && CanOffer(old(State()), output.Length) ==> ok
      ensures old(card.faults) <= card.faults
      ensures card.faults == old(card.faults) ==>
                !unread
                && (!ok && old(ready) && old(card.files) != map[] && output.Length > 0 ==> State() != old(State()))
      ensures Trail(old(card.history), Fifo(old(card.files)), None, if card.files == old(card.files) then 0 else 1)
    {
      hide CrashSafe, Fifo;
      NothingYet(card.history, Fifo(card.files), None, 0);
      ok, written, recordId, marked, unread := false, 0, 0, false, false;
      if !ready || queued == 0 || output.Length == 0 || oldest == 0 {
        return;
      }
      HeadBytes(State());
      hide Coherent, RemoveOldest, MarkReplayed, Checksum;
      var file := card.Read(oldest);
      if file.None? {
        unread := true;
        var removed := DropHead();
        return;
      }
      HeadIsRecord(State());
      var header, body := file.value.header, file.value.body;
      if header.payloadLength + 1 > output.Length {
        var removed := DropHead();
        return;
      }
      var length := header.payloadLength;
      CopyIn(output, 0, body);
      output[length] := '\0';
      assert output[..length] == body;
      if Checksum(body) != header.checksum {
        var removed := DropHead();
        return;
      }
      var outgoingLength := length;
      var shouldReplay := ShouldMarkReplayed(header.deferred, header.attempts, header.bootId, bootId);
      if shouldReplay {
        var edited: bool;
        edited, outgoingLength := MarkPayloadReplayed(output, length);
        if !edited {
          var removed := DropHead();
          return;
        }
      }
      ok, written, recordId, marked := true, outgoingLength, header.recordId, shouldReplay;
    }

    /** Drops the head and counts it, if the card lets it. */
    method DropHead() returns (removed: bool)
      requires ready && Coherent(State()) && card.files != map[]
      modifies this`queued, this`bytes, this`dropped, this`oldest, this`next, this`oldestAge, card
      ensures State() == if removed then RemoveOldest(old(State()), true) else old(State())
      ensures card.faults == old(card.faults) + if removed then 0 else 1
      ensures card.files == old(card.files) <==> !removed
      ensures Coherent(State()) && Trail(old(card.history), Fifo(old(card.files)), None, if removed then 1 else 0)
    {
      hide Coherent, CrashSafe, Fifo, DropFront, RemoveOldest;
      ghost var s, base := State(), card.history;
      NothingDropped(s, 0);
      NothingYet(base, Fifo(s.files), None, 0);
      AnyFiles(s);
      DropFrontNext(s, 0);
      RemoveOldestIsDequeue(s, true);
      removed := DropOne(s, 0, base);
    }

    /** Counts an attempt in the stored header, before the publish it announces. */
    method MarkAttempted(recordId: nat, replayedFlag: bool) returns (ok: bool)
      requires Valid()
      modifies card
      ensures Valid()
      ensures ok ==> ready && recordId in old(card.files) && old(card.files)[recordId].Record?
                     && State() == Stamp(old(State()), recordId, replayedFlag)
      ensures !ok ==> State() == old(State())
      ensures card.faults == old(card.faults) + if ok || !ready || recordId !in old(card.files) then 0 else 1
      ensures card.history == old(card.history) || card.history == old(card.history) + [Disk(card.files, card.temp)]
    {
      if !ready || recordId == 0 {
        return false;
      }
      var file := card.Read(recordId);
      if file.None? || file.value.Short? || file.value.header.magic != MAGIC || file.value.header.recordId != recordId {
        return false;
      }
      StampKeepsQueue(State(), recordId, replayedFlag);
      hide Coherent;
      ok := card.RewriteHeader(recordId, Stamped(file.value, replayedFlag).header);
    }

    /** Removes the head once its PUBACK has arrived; any other id is refused. */
    method Acknowledge(recordId: nat) returns (ok: bool)
      requires Valid()
      modifies this`queued, this`bytes, this`dropped, this`oldest, this`next, this`oldestAge, this`replayed, card
      ensures Valid()
      ensures ok ==> old(ready) && old(card.files) != map[] && recordId == old(oldest)
                     && State() == Acknowledged(old(State()))
      ensures !ok ==> State() == old(State())
      ensures recordId != old(oldest) ==> !ok
      ensures card.faults
           == old(card.faults) + if ok || !ready || recordId == 0 || recordId != old(oldest) then 0 else 1
      ensures card.history == old(card.history) || card.history == old(card.history) + [Disk(card.files, card.temp)]
    {
      ok := false;
      if ready && recordId != 0 && recordId == oldest {
        ok := AcknowledgeHead();
      }
    }

    method AcknowledgeHead() returns (ok: bool)
      requires ready && Coherent(State()) && oldest != 0
      modifies this`queued, this`bytes, this`dropped, this`oldest, this`next, this`oldestAge, this`replayed, card
      ensures ok ==> old(card.files) != map[] && State() == Acknowledged(old(State()))
      ensures !ok ==> State() == old(State())
      ensures Coherent(State()) && card.faults == old(card.faults) + if ok then 0 else 1
      ensures card.history == old(card.history) || card.history == old(card.history) + [Disk(card.files, card.temp)]
    {
      hide Coherent, RemoveOldest, Acknowledged, Fifo, TotalBytes, MinOf, WellFormed, Size;
      HeadExists(State());
      AcknowledgedIsDequeue(State());
      var file := card.Read(oldest);
      if file.None? || file.value.Short? {
        return false;
      }
      var wasReplay := file.value.header.lastPublishReplayed;
      var removed := RemoveHead(false);
      if !removed {
        return false;
      }
      if wasReplay {
        replayed := replayed + 1;
      }
      AcknowledgedIs(old(State()));
      return true;
    }

    /** What the boot scan knows once it has seen the files `done` of those that were there at first. */
    ghost predicate Scanning(before: Files, base: seq<Disk>, droppedBefore: nat, faultsBefore: nat, done: set<nat>,
                             largest: nat)
      reads this, card
    {
      && done <= before.Keys
      && Counted(Part(before, done), queued, bytes, oldest, largest)
      && dropped == droppedBefore + |BadAmong(before, done)|
      && Between(Intact(before), card.files, before)
      && base <= card.history && AllBetween(card.history, |base|, before)
      && faultsBefore <= card.faults && (card.faults == faultsBefore <==> OnlyWellFormed(card.files, done, before))
    }

    method CountRecord(id: nat, largest: nat, ghost before: Files, ghost base: seq<Disk>, ghost droppedBefore: nat,
                       ghost faultsBefore: nat, ghost done: set<nat>)
      returns (newLargest: nat)
      requires Scanning(before, base, droppedBefore, faultsBefore, done, largest)
      requires id in card.files && id !in done && id >= 1 && WellFormed(id, before[id])
      modifies this`queued, this`bytes, this`oldest
      ensures Scanning(before, base, droppedBefore, faultsBefore, done + {id}, newLargest)
    {
      hide WellFormed, Size, Counted, Part, AllBetween, BadAmong, Intact;
      BadStays(before, done, id);
      CountOne(before, done, id, queued, bytes, oldest, largest);
      queued, bytes := queued + 1, bytes + Size(card.files[id]);
      if oldest == 0 || id < oldest {
        oldest := id;
      }
      newLargest := if id > largest then id else largest;
    }

    method Discard(id: nat, ghost before: Files, ghost base: seq<Disk>, ghost droppedBefore: nat,
                   ghost faultsBefore: nat, ghost done: set<nat>, ghost largest: nat)
      requires Scanning(before, base, droppedBefore, faultsBefore, done, largest)
      requires id in card.files && id !in done && !WellFormed(id, before[id])
      modifies this`dropped, card
      ensures Scanning(before, base, droppedBefore, faultsBefore, done + {id}, largest)
      ensures card.temp == old(card.temp) && old(card.files).Keys - {id} <= card.files.Keys
    {
      hide WellFormed, Counted, Part, AllBetween, BadAmong, Intact;
      BadGrows(before, done, id);
      CountNone(before, done, id);
      ghost var h, files := card.history, card.files;
      var removed := card.Remove(id);
      OneRemoved(h, |base|, before, files, Disk(card.files, card.temp));
      dropped := dropped + 1;
    }

    /** Looks at every file of the directory once. */
    method ScanFiles() returns (largest: nat)
      requires forall id :: id in card.files ==> 1 <= id <= RECORD_ID_MASK
      modifies this`queued, this`bytes, this`oldest, this`dropped, card
      ensures Scanning(old(card.files), old(card.history), old(dropped), old(card.faults), old(card.files).Keys,
                       largest)
      ensures card.temp == old(card.temp)
    {
      hide WellFormed, Counted, Intact, Part, AllBetween, BadAmong, OnlyWellFormed;
      ghost var before, base := card.files, card.history;
      queued, bytes, oldest := 0, 0, 0;
      largest := 0;
      var rest := card.files.Keys;
      ghost var done: set<nat> := {};
      NothingScanned(base);
      while rest != {}
        invariant rest !! done && rest + done == before.Keys
        invariant Scanning(before, base, old(dropped), old(card.faults), done, largest) && rest <= card.files.Keys
        invariant card.temp == old(card.temp)
        decreases rest
      {
        var id: nat :| id in rest;
        rest := rest - {id};
        if WellFormed(id, card.files[id]) {
          largest := CountRecord(id, largest, before, base, old(dropped), old(card.faults), done);
        } else {
          Discard(id, before, base, old(dropped), old(card.faults), done, largest);
        }
        done := done + {id};
      }
      assert done == before.Keys;
    }

    lemma NothingScanned(base: seq<Disk>)
      requires card.history == base && queued == bytes == oldest == 0
      ensures Scanning(card.files, base, dropped, card.faults, {}, 0)
    {
      hide WellFormed, Intact;
      NothingCounted(card.files);
      AllStayed(base, base, card.files);
    }

    /**
     The boot scan: counts the intact records and removes every other record file. Removal may
     fail file by file.
     */
    method ScanRecords() returns (ok: bool)
      requires forall id :: id in card.files ==> 1 <= id <= RECORD_ID_MASK
      modifies this`queued, this`bytes, this`oldest, this`next, this`dropped, card
      ensures Scanned(Intact(old(card.files)), queued, bytes, oldest, next)
      ensures ok <==> forall id :: id in Intact(old(card.files)) ==> id < RECORD_ID_MASK
      ensures ok ==> next <= RECORD_ID_MASK
      ensures Between(Intact(old(card.files)), card.files, old(card.files))
      ensures dropped == old(dropped) + |old(card.files).Keys - Intact(old(card.files)).Keys|
      ensures card.temp == old(card.temp)
      ensures old(card.faults) <= card.faults
      ensures card.faults == old(card.faults) <==> card.files == Intact(old(card.files))
      ensures old(card.history) <= card.history && AllBetween(card.history, |old(card.history)|, old(card.files))
    {
      hide MinOf, WellFormed, Counted, Intact, Part, AllBetween, Scanned, BadAmong, Between, OnlyWellFormed;
      ghost var before := card.files;
      var largest := ScanFiles();
      OnlyIntactLeft(card.files, before);
      WholePart(before);
      BadIds(before, BadAmong(before, before.Keys));
      next := if largest == 0 then 1 else largest + 1;
      CountedIsScanned(Intact(before), queued, bytes, oldest, largest);
      ScannedLeavesId(Intact(before), queued, bytes, oldest, next);
      return next <= RECORD_ID_MASK;
    }

    /**
     Mounts the spool. Every record that is intact on the card is in the queue afterwards. The cache
     tells the truth exactly when the card did not refuse to remove a file that is no intact record.
     */
    method Begin(nowMs: nat, currentBootId: nat, cardPresent: bool, directoryReady: bool) returns (ok: bool)
      requires forall id :: id in card.files ==> 1 <= id <= RECORD_ID_MASK
      modifies this, card
      ensures ok == ready && bootId == currentBootId && lastBeginAttemptMs == nowMs
      ensures ok <==> Mountable(currentBootId, cardPresent, directoryReady, old(card.files))
      ensures Between(Intact(old(card.files)), card.files, old(card.files))
      ensures ok ==> (Coherent(State()) <==> card.files == Intact(card.files))
      ensures ok ==> Scanned(Intact(old(card.files)), queued, bytes, oldest, next)
                     && dropped == old(dropped) + |old(card.files).Keys - Intact(old(card.files)).Keys|
      ensures old(card.faults) <= card.faults && (ok ==> (Coherent(State()) <==> card.faults == old(card.faults)))
      ensures old(card.history) <= card.history && AllBetween(card.history, |old(card.history)|, old(card.files))
    {
      lastBeginAttemptMs, bootId, ready := nowMs, currentBootId, false;
      if currentBootId == 0 || !cardPresent || !directoryReady {
        return false;
      }
      hide Intact, Coherent, Scanned, Between, AllBetween;
      ghost var before, base := card.files, card.history;
      if card.temp.Some? {
        var cleared := card.RemoveTemp();
      }
      ghost var middle := card.history;
      AllStayed(base, middle, before);
      ok := MountRecords();
      AllJoined(base, middle, card.history, before);
    }

    /** Mounts what the directory holds, if an id is left. */
    method MountRecords() returns (ok: bool)
      requires !ready && forall id :: id in card.files ==> 1 <= id <= RECORD_ID_MASK
      modifies this`ready, this`queued, this`bytes, this`oldest, this`next, this`dropped, card
      ensures ok == ready
      ensures ok <==> forall id :: id in Intact(old(card.files)) ==> id < RECORD_ID_MASK
      ensures Between(Intact(old(card.files)), card.files, old(card.files))
      ensures ok ==> (Coherent(State()) <==> card.files == Intact(card.files))
      ensures ok ==> Scanned(Intact(old(card.files)), queued, bytes, oldest, next)
                     && dropped == old(dropped) + |old(card.files).Keys - Intact(old(card.files)).Keys|
      ensures old(card.faults) <= card.faults && (ok ==> (Coherent(State()) <==> card.faults == old(card.faults)))
      ensures old(card.history) <= card.history && AllBetween(card.history, |old(card.history)|, old(card.files))
    {
      hide Intact, Coherent, Scanned, Between, AllBetween;
      ghost var before := card.files;
      next := 1;
      ok := ScanRecords();
      if ok {
        ready := true;
        ScannedIsCoherent(State(), before);
        IntactOfLess(before, card.files);
      }
    }

    /** Reads the age of the head; an unreadable head counts as new. */
    method RefreshOldestAge(nowEpochSeconds: nat) returns (ghost read: bool)
      requires ready && Coherent(State())
      modifies this`oldestAge, card`faults
      ensures State() == old(State()).(oldestAge := oldestAge)
      ensures card.faults == old(card.faults) + if read then 0 else 1
      ensures oldestAge == if read then HeadAge(card.files, nowEpochSeconds) else 0
    {
      read := true;
      oldestAge := 0;
      if oldest != 0 {
        var file := card.Read(oldest);
        if file.Some? && file.value.Record? {
          oldestAge := AgeSeconds(file.value.header.enqueuedEpochSeconds, nowEpochSeconds);
        } else {
          read := false;
        }
      }
    }

    /** One counted drop from the front, `n` drops after the state `s` and whatever the noted age. */
    method DropAged(ghost s: Spool, ghost n: nat, ghost base: seq<Disk>) returns (ok: bool)
      requires ready && Coherent(s) && n < |s.files| && Coherent(State())
      requires State() == DropFront(s, n).(oldestAge := oldestAge) && Trail(base, Fifo(s.files), None, n)
      modifies this`queued, this`bytes, this`dropped, this`oldest, this`next, this`oldestAge, card
      ensures Coherent(State()) && State() == DropFront(s, if ok then n + 1 else n).(oldestAge := oldestAge)
      ensures !ok ==> State() == old(State())
      ensures Trail(base, Fifo(s.files), None, if ok then n + 1 else n)
      ensures card.faults == old(card.faults) + if ok then 0 else 1
    {
      hide Coherent, DropFront, RemoveOldest, CrashSafe, Fifo, SurvivorFrom;
      ghost var history, age := card.history, oldestAge;
      AgelessStep(s, n, age);
      RemoveOldestIsDequeue(State(), true);
      ok := RemoveHead(true);
      CoherentIsClean(State());
      DroppedSurvives(s, if ok then n + 1 else n, None);
      CrashStep(history, card.history, |base|, Fifo(s.files), None, Disk(card.files, card.temp), n,
                if ok then n + 1 else n);
    }

    /** Drops expired heads until the head is young enough, cannot be read, or cannot be removed. */
    method DropExpired(nowMs: nat, nowEpochSeconds: nat, ghost readBefore: bool)
      returns (ghost n: nat, ghost read: bool)
      requires ready && Coherent(State())
      requires oldestAge == if readBefore then HeadAge(card.files, nowEpochSeconds) else 0
      modifies this, card
      ensures n <= |old(card.files)|
              && State() == DropFront(old(State()), n).(oldestAge := oldestAge, ready := ready)
      ensures Coherent(State())
      ensures forall j :: 0 <= j < n ==> Expired(Fifo(old(card.files))[j], nowEpochSeconds)
      ensures ready && read ==> HeadIsYoung(card.files, nowEpochSeconds)
      ensures Trail(old(card.history), Fifo(old(card.files)), None, n)
      ensures !ready ==> n < |old(card.files)| && Expired(Fifo(old(card.files))[n], nowEpochSeconds)
      ensures old(card.faults) <= card.faults && (card.faults == old(card.faults) ==> ready && (readBefore ==> read))
    {
      hide Coherent, DropFront, Fifo, HeadAge, Expired, CrashSafe, HeadIsYoung;
      ghost var s, base := State(), card.history;
      NothingDropped(s, 0);
      NothingYet(base, Fifo(s.files), None, 0);
      n, read := 0, readBefore;
      while queued > 0 && oldestAge > MAX_AGE_SECONDS
        invariant ready && Coherent(State()) && n <= |s.files| && State() == DropFront(s, n).(oldestAge := oldestAge)
        invariant forall j :: 0 <= j < n ==> Expired(Fifo(s.files)[j], nowEpochSeconds)
        invariant oldestAge == if read then HeadAge(card.files, nowEpochSeconds) else 0
        invariant Trail(base, Fifo(s.files), None, n)
        invariant old(card.faults) <= card.faults && (card.faults == old(card.faults) && readBefore ==> read)
        decreases |s.files| - n
      {
        ExpiredHead(s, n, oldestAge, nowEpochSeconds);
        var removed := DropAged(s, n, base);
        if !removed {
          SetUnavailable(nowMs);
          UnavailableIsCoherent(State(), true);
          return;
        }
        n := n + 1;
        AnyAgeIsCoherent(State());
        read := RefreshOldestAge(nowEpochSeconds);
      }
      EmptyHasNoAge(State(), nowEpochSeconds);
      HeadAgeDecides(card.files, nowEpochSeconds);
    }

    /**
     The periodic work: losing the card makes the queue unavailable, an unavailable queue is mounted
     again after the retry interval, and an available one drops what is too old.
     */
    method Update(nowMs: nat, nowEpochSeconds: nat, storageReady: bool, cardPresent: bool, directoryReady: bool)
      returns (ghost n: nat, ghost read: bool)
      requires Valid() && forall id :: id in card.files ==> 1 <= id <= RECORD_ID_MASK
      modifies this, card
      ensures !storageReady ==> State() == old(State()).(ready := false)
      ensures storageReady && !old(ready) && Elapsed(nowMs, old(lastBeginAttemptMs)) < SD_RETRY_INTERVAL_MS ==>
                State() == old(State())
      ensures storageReady && !old(ready) && Elapsed(nowMs, old(lastBeginAttemptMs)) >= SD_RETRY_INTERVAL_MS ==>
                Remounted(old(card.files), State())
                && (ready <==> Mountable(bootId, cardPresent, directoryReady, old(card.files)))
                && (ready ==> (Coherent(State()) <==> card.faults == old(card.faults)))
      ensures storageReady && old(ready) && Elapsed(nowMs, old(lastMaintenanceMs)) < MAINTENANCE_INTERVAL_MS ==>
                State() == old(State()).(oldestAge := oldestAge)
      ensures storageReady && old(ready) && Elapsed(nowMs, old(lastMaintenanceMs)) >= MAINTENANCE_INTERVAL_MS ==>
                Maintained(old(State()), State(), n, read, nowEpochSeconds)
      ensures old(card.faults) <= card.faults
      ensures storageReady && old(ready) && card.faults == old(card.faults) ==> ready && read
      ensures storageReady && old(ready) && card.faults == old(card.faults)
              && Elapsed(nowMs, old(lastMaintenanceMs)) >= MAINTENANCE_INTERVAL_MS ==>
                HeadIsYoung(card.files, nowEpochSeconds)
      ensures old(ready) ==> Valid() && Trail(old(card.history), Fifo(old(card.files)), None, n)
      ensures !old(ready) ==>
                old(card.history) <= card.history && AllBetween(card.history, |old(card.history)|, old(card.files))
      ensures bootId == old(bootId)
      ensures n > 0 ==>
                storageReady && old(ready) && Elapsed(nowMs, old(lastMaintenanceMs)) >= MAINTENANCE_INTERVAL_MS
    {
      hide Coherent, Between, Intact, Scanned, DropFront, Fifo, HeadAge, Expired, AllBetween, CrashSafe, Mountable,
           HeadIsYoung;
      n, read := 0, false;
      NothingYet(card.history, Fifo(card.files), None, 0);
      AllStayed(card.history, card.history, card.files);
      if !storageReady {
        SetUnavailable(nowMs);
        return;
      }
      if !ready {
        if Elapsed(nowMs, lastBeginAttemptMs) >= SD_RETRY_INTERVAL_MS {
          var mounted := Begin(nowMs, bootId, cardPresent, directoryReady);
        }
        return;
      }
      read := RefreshOldestAge(nowEpochSeconds);
      AnyAgeIsCoherent(old(State()));
      if Elapsed(nowMs, lastMaintenanceMs) < MAINTENANCE_INTERVAL_MS {
        return;
      }
      lastMaintenanceMs := nowMs;
      ghost var aged := State();
      n, read := DropExpired(nowMs, nowEpochSeconds, read);
      DropIgnoresAge(old(State()), aged, n);
    }
  }

  /** Of these ids only intact records are left. */
  ghost predicate OnlyWellFormed(files: Files, done: set<nat>, before: Files) {
    forall id :: id in files && id in done ==> id in before && WellFormed(id, before[id])
  }

  lemma IntactOfLess(all: Files, files: Files)
    requires Between(Intact(all), files, all)
    ensures Intact(files) == Intact(all)
  {
    hide WellFormed;
  }

  lemma OnlyIntactLeft(files: Files, before: Files)
    requires Between(Intact(before), files, before)
    ensures OnlyWellFormed(files, before.Keys, before) <==> files == Intact(before)
  {
    hide WellFormed;
  }

  /** A torn file among the records. */
  const TORN: Files := map[5 := Short(10)]

  /**
     A damaged record whose removal the card refuses: mounting succeeds, the queue holds nothing and
     counts nothing, and the file is still there. If the card removes it, the queue is coherent.
   */
  method TornFileStays(card: Card, nowMs: nat, bootId: nat) returns (queue: Queue)
    requires card.files == TORN && bootId != 0
    modifies card
    ensures fresh(queue) && queue.card == card && queue.ready && queue.queued == 0 && queue.next == 1
    ensures queue.dropped == 1
    ensures card.faults != old(card.faults) ==> card.files == TORN && !Coherent(queue.State())
    ensures card.faults == old(card.faults) ==> card.files == map[] && Coherent(queue.State())
  {
    hide Coherent, AllBetween, Intact, WellFormed, MinOf, TotalBytes;
    TornIsNotIntact();
    queue := new Queue(card);
    var ok := queue.Begin(nowMs, bootId, true, true);
    assert TORN.Keys - Intact(TORN).Keys == {5};
    OneFileOrNone(card.files);
  }

  lemma TornIsNotIntact()
    ensures Intact(TORN) == map[] && Intact(map[]) == map[]
  {
  }

  lemma OneFileOrNone(files: Files)
    requires files.Keys <= TORN.Keys && forall id :: id in files ==> files[id] == TORN[id]
    ensures files == TORN || files == map[]
  {
    if 5 in files {
      assert files == TORN;
    } else {
      assert files == map[];
    }
  }

  /** The queue after the card was mounted: every intact record is in it. */
  ghost predicate Remounted(before: Files, now: Spool) {
    && Between(Intact(before), now.files, before)
    && (now.ready ==> Scanned(Intact(before), now.queued, now.bytes, now.oldest, now.next)
                      && (Coherent(now) <==> now.files == Intact(now.files)))
  }

  /**
     The queue after maintenance: `n` expired records left from the front, each counted as dropped,
     and unless the head cannot be read it is young enough.
   */
  ghost predicate Maintained(before: Spool, now: Spool, n: nat, read: bool, nowEpochSeconds: nat) {
    && Coherent(before) && n <= |before.files|
    && Ageless(now) == Ageless(DropFront(before, n)).(ready := now.ready)
    && (forall j :: 0 <= j < n ==> Expired(Fifo(before.files)[j], nowEpochSeconds))
    && (now.ready && read ==> HeadIsYoung(now.files, nowEpochSeconds))
    && (!now.ready ==> n < |before.files| && Expired(Fifo(before.files)[n], nowEpochSeconds))
  }

  /** When stamps do not decrease along the FIFO and the head has one, a young head means that every record is young. */
  lemma YoungHeadYoungQueue(files: Files, nowEpochSeconds: nat)
    requires files != map[] && HeadIsYoung(files, nowEpochSeconds)
    requires forall i :: 0 <= i < |Fifo(files)| ==> Fifo(files)[i].Record?
    requires Fifo(files)[0].header.enqueuedEpochSeconds > 0
    requires forall i, j :: 0 <= i < j < |Fifo(files)| ==>
               Fifo(files)[i].header.enqueuedEpochSeconds <= Fifo(files)[j].header.enqueuedEpochSeconds
    ensures forall i :: 0 <= i < |Fifo(files)| ==> !Expired(Fifo(files)[i], nowEpochSeconds)
  {
    hide MinOf, Fifo;
    OldestFirst(files);
  }

  function Ageless(s: Spool): Spool {
    s.(oldestAge := 0)
  }

  lemma {:induction false} DropIgnoresAge(s: Spool, t: Spool, n: nat)
    requires Coherent(s) && Coherent(t) && n <= |s.files| && n <= |t.files| && Ageless(s) == Ageless(t)
    ensures Ageless(DropFront(s, n)) == Ageless(DropFront(t, n))
    decreases n
  {
    hide *;
    if n == 0 {
      NothingDropped(s, 0);
      NothingDropped(t, 0);
    } else {
      DropIgnoresAge(s, t, n - 1);
      DropIgnoresAgeOnce(s, t, n - 1);
    }
  }

  lemma DropIgnoresAgeOnce(s: Spool, t: Spool, n: nat)
    requires Coherent(s) && Coherent(t) && n < |s.files| && n < |t.files|
    requires Ageless(DropFront(s, n)) == Ageless(DropFront(t, n))
    ensures Ageless(DropFront(s, n + 1)) == Ageless(DropFront(t, n + 1))
  {
    hide *;
    DropFrontNext(s, n);
    DropFrontNext(t, n);
    RemoveIgnoresAge(DropFront(s, n), DropFront(t, n));
  }

  lemma RemoveIgnoresAge(s: Spool, t: Spool)
    requires Coherent(s) && Coherent(t) && s.files != map[] && t.files != map[] && Ageless(s) == Ageless(t)
    ensures Ageless(RemoveOldest(s, true)) == Ageless(RemoveOldest(t, true))
  {
    hide Coherent, MinOf;
    assert t == s.(oldestAge := t.oldestAge);
  }

  function AgeOf(f: File, nowEpochSeconds: nat): nat {
    if f.Record? then AgeSeconds(f.header.enqueuedEpochSeconds, nowEpochSeconds) else 0
  }

  /** The age of the first record of the FIFO. */
  ghost function HeadAge(files: Files, nowEpochSeconds: nat): nat {
    if files.Keys == {} then 0 else AgeOf(files[MinOf(files.Keys)], nowEpochSeconds)
  }

  /** The record was stored by a clock, the clock runs now, and it is more than seven days past the stamp. */
  predicate Expired(f: File, nowEpochSeconds: nat) {
    && f.Record? && f.header.enqueuedEpochSeconds != 0 && nowEpochSeconds != 0
    && nowEpochSeconds > f.header.enqueuedEpochSeconds + 604800
  }

  /** The age that maintenance looks at exceeds the limit for exactly those records. */
  lemma AgeDecides(f: File, nowEpochSeconds: nat)
    ensures AgeOf(f, nowEpochSeconds) > MAX_AGE_SECONDS <==> Expired(f, nowEpochSeconds)
    ensures AgeOf(f, nowEpochSeconds) > 0 && AgeOf(f, nowEpochSeconds) < TWO_32 - 1 ==>
              f.Record? && f.header.enqueuedEpochSeconds + AgeOf(f, nowEpochSeconds) == nowEpochSeconds
  {
  }

  /** The first record of the FIFO, if there is one, is not expired. */
  ghost predicate HeadIsYoung(files: Files, nowEpochSeconds: nat) {
    files != map[] ==> !Expired(Fifo(files)[0], nowEpochSeconds)
  }

  lemma HeadAgeDecides(files: Files, nowEpochSeconds: nat)
    ensures HeadAge(files, nowEpochSeconds) <= MAX_AGE_SECONDS <==> HeadIsYoung(files, nowEpochSeconds)
  {
    hide Fifo, MinOf, AgeOf, Expired;
    if files != map[] {
      OldestFirst(files);
      AgeDecides(Fifo(files)[0], nowEpochSeconds);
    }
  }

  /** No maintenance at any time drops a record that was stored without a clock. */
  lemma UnstampedIsKept(before: Spool, now: Spool, n: nat, read: bool, nowEpochSeconds: nat, i: nat)
    requires Maintained(before, now, n, read, nowEpochSeconds) && i < |Fifo(before.files)|
    requires Fifo(before.files)[i].Record? && Fifo(before.files)[i].header.enqueuedEpochSeconds == 0
    ensures n <= i && |Fifo(now.files)| == |Fifo(before.files)| - n
    ensures Fifo(now.files)[i - n] == Fifo(before.files)[i]
  {
    hide Fifo, Coherent, DropFront;
    KeptAfter(before, n);
    assert now.files == DropFront(before, n).files;
  }

  lemma KeptAfter(s: Spool, n: nat)
    requires Coherent(s) && n <= |s.files|
    ensures Fifo(DropFront(s, n).files) == Fifo(s.files)[n..] && |Fifo(s.files)| == |s.files|
  {
    hide Fifo;
  }

  lemma OldestFirst(files: Files)
    requires files != map[]
    ensures files.Keys != {} && Fifo(files)[0] == files[MinOf(files.Keys)]
  {
    FifoHead(files);
  }

  lemma ExpiredHead(s: Spool, n: nat, age: nat, nowEpochSeconds: nat)
    requires Coherent(s) && n <= |s.files|
    requires HeadAge(DropFront(s, n).files, nowEpochSeconds) > MAX_AGE_SECONDS
    ensures n < |s.files| && Expired(Fifo(s.files)[n], nowEpochSeconds)
    ensures DropFront(s, n).files != map[]
    ensures Coherent(DropFront(s, n).(oldestAge := age))
  {
    hide Coherent, MinOf, Fifo, DropFront, AgeOf, Expired;
    var files := DropFront(s, n).files;
    assert files != map[];
    OldestFirst(files);
    AgeDecides(Fifo(files)[0], nowEpochSeconds);
    assert Fifo(files)[0] == Fifo(s.files)[n..][0];
    AnyAgeIsCoherent(DropFront(s, n));
  }

  lemma AgelessStep(s: Spool, n: nat, age: nat)
    requires Coherent(s) && n < |s.files|
    ensures DropFront(s, n).files != map[] && Coherent(DropFront(s, n).(oldestAge := age))
    ensures Ageless(RemoveOldest(DropFront(s, n).(oldestAge := age), true)) == Ageless(DropFront(s, n + 1))
  {
    hide Coherent, Fifo, DropFront, RemoveOldest;
    DropFrontNext(s, n);
    var t := DropFront(s, n);
    AnyAgeIsCoherent(t);
    RemoveIgnoresAge(t, t.(oldestAge := age));
  }

  lemma UnavailableIsCoherent(s: Spool, ready: bool)
    requires Coherent(s.(ready := ready))
    ensures Coherent(s)
  {
  }

  lemma AnyAgeIsCoherent(s: Spool)
    ensures forall age: nat :: Coherent(s.(oldestAge := age)) <==> Coherent(s)
  {
  }

  lemma EmptyHasNoAge(s: Spool, nowEpochSeconds: nat)
    requires Coherent(s)
    ensures s.queued == 0 ==> HeadAge(s.files, nowEpochSeconds) == 0
  {
  }

  /** Before each of the `n` evictions the record did not fit: none of them was more than needed. */
  ghost predicate AllCrowded(s: Spool, n: nat, nextRecordBytes: nat)
    requires Coherent(s) && n <= |s.files|
  {
    forall j: nat :: j < n ==> Crowded(DropFront(s, j), nextRecordBytes)
  }

  lemma CrowdedHasMore(s: Spool, n: nat, nextRecordBytes: nat)
    requires Coherent(s) && n <= |s.files| && Crowded(DropFront(s, n), nextRecordBytes)
    ensures n < |s.files|
  {
  }

  /** The head can be sent through a buffer of this size. */
  ghost predicate CanOffer(s: Spool, size: nat) {
    && s.ready && s.files != map[] && s.oldest in s.files && Sendable(s.files[s.oldest], s.bootId)
    && |s.files[s.oldest].body| < size
  }

  ghost predicate Offered(s: Spool, size: nat, recordId: nat, marked: bool) {
    && CanOffer(s, size) && recordId == s.oldest
    && var h := s.files[recordId].header;
       marked == ShouldMarkReplayed(h.deferred, h.attempts, h.bootId, s.bootId)
  }

  /** The queue after the head was acknowledged. */
  ghost function Acknowledged(s: Spool): Spool
    requires Coherent(s) && s.files != map[]
  {
    HeadBytes(s);
    var f := s.files[s.oldest];
    var rest := RemoveOldest(s, false);
    if f.Record? && f.header.lastPublishReplayed then rest.(replayed := rest.replayed + 1) else rest
  }

  lemma HeadIsRecord(s: Spool)
    requires Coherent(s) && s.files != map[]
    ensures s.oldest in s.files && WellFormed(s.oldest, s.files[s.oldest])
  {
    HeadBytes(s);
  }

  lemma HeadExists(s: Spool)
    requires Coherent(s) && s.oldest != 0
    ensures s.files != map[]
  {
  }

  lemma AcknowledgedIs(s: Spool)
    requires Coherent(s) && s.files != map[] && s.oldest in s.files && s.files[s.oldest].Record?
    ensures var rest := RemoveOldest(s, false);
            Acknowledged(s) ==
            rest.(replayed := if s.files[s.oldest].header.lastPublishReplayed then rest.replayed + 1 else rest.replayed)
  {
  }

  /** An acknowledgement takes the head off the FIFO and counts nothing as dropped. */
  lemma AcknowledgedIsDequeue(s: Spool)
    requires Coherent(s) && s.files != map[]
    ensures s.oldest in s.files && s.files[s.oldest].Record?
    ensures Coherent(Acknowledged(s)) && Fifo(Acknowledged(s).files) == Fifo(s.files)[1..]
    ensures Acknowledged(s).dropped == s.dropped
    ensures Acknowledged(s).replayed == s.replayed + if s.files[s.oldest].header.lastPublishReplayed then 1 else 0
  {
    hide Fifo, TotalBytes, MinOf;
    HeadIsRecord(s);
    RemoveOldestIsDequeue(s, false);
  }

  /** The files between the intact ones and all of them. */
  ghost predicate Between(intact: Files, files: Files, all: Files) {
    intact.Keys <= files.Keys <= all.Keys && forall id :: id in files ==> files[id] == all[id]
  }

  /** Every state of the directory from `from` on holds all intact files of `all`, and no other files than `all`. */
  ghost predicate AllBetween(history: seq<Disk>, from: nat, all: Files) {
    forall i :: from <= i < |history| ==> Between(Intact(all), history[i].files, all)
  }

  lemma AllStayed(history: seq<Disk>, now: seq<Disk>, all: Files)
    requires history <= now && forall i :: |history| <= i < |now| ==> now[i].files == all
    ensures AllBetween(now, |history|, all) && Between(Intact(all), all, all)
  {
  }

  lemma AllJoined(history: seq<Disk>, middle: seq<Disk>, now: seq<Disk>, all: Files)
    requires history <= middle <= now && AllBetween(middle, |history|, all) && AllBetween(now, |middle|, all)
    ensures AllBetween(now, |history|, all)
  {
    hide Between, Intact;
    forall i | |history| <= i < |now|
      ensures Between(Intact(all), now[i].files, all)
    {
      if i < |middle| {
        assert now[i] == middle[i];
      }
    }
  }

  lemma OneRemoved(history: seq<Disk>, from: nat, all: Files, files: Files, now: Disk)
    requires AllBetween(history, from, all) && Between(Intact(all), files, all)
    requires now.files == files || exists id :: id in files && !WellFormed(id, files[id]) && now.files == files - {id}
    ensures AllBetween(history + [now], from, all) && Between(Intact(all), now.files, all)
  {
    hide WellFormed;
  }

  lemma NothingCounted(files: Files)
    ensures Counted(Part(files, {}), 0, 0, 0, 0) && BadAmong(files, {}) == {}
  {
    assert Part(files, {}) == map[];
  }

  /** The intact files among some ids. */
  ghost function Part(files: Files, ids: set<nat>): Files {
    map id | id in ids && id in files && WellFormed(id, files[id]) :: files[id]
  }

  /** The running counts of the scan describe the records seen so far. */
  ghost predicate Counted(kept: Files, queued: nat, bytes: nat, oldest: nat, largest: nat) {
    && queued == |kept| && bytes == TotalBytes(kept)
    && (forall id :: id in kept ==> 1 <= oldest <= id <= largest)
    && (kept != map[] ==> oldest in kept && largest in kept)
    && (kept == map[] ==> oldest == 0 && largest == 0)
  }

  lemma CountOne(files: Files, done: set<nat>, id: nat, queued: nat, bytes: nat, oldest: nat, largest: nat)
    requires id in files && id !in done && id >= 1 && WellFormed(id, files[id])
    requires Counted(Part(files, done), queued, bytes, oldest, largest)
    ensures Counted(Part(files, done + {id}), queued + 1, bytes + Size(files[id]),
                    if oldest == 0 || id < oldest then id else oldest, if id > largest then id else largest)
  {
    hide TotalBytes, WellFormed, Size;
    var kept := Part(files, done);
    assert Part(files, done + {id}) == kept[id := files[id]];
    TotalBytesWith(kept, id, files[id]);
  }

  lemma CountNone(files: Files, done: set<nat>, id: nat)
    requires id in files && !WellFormed(id, files[id])
    ensures Part(files, done + {id}) == Part(files, done)
  {
    hide WellFormed;
  }

  lemma WholePart(files: Files)
    ensures Part(files, files.Keys) == Intact(files)
  {
    hide WellFormed;
  }

  /** What the cache holds after a scan that kept these files. */
  ghost predicate Scanned(kept: Files, queued: nat, bytes: nat, oldest: nat, next: nat) {
    && queued == |kept| && bytes == TotalBytes(kept)
    && oldest == (if kept.Keys == {} then 0 else MinOf(kept.Keys))
    && next >= 1 && (forall id :: id in kept ==> id < next)
    && if kept == map[] then next == 1 else next - 1 in kept
  }

  lemma CountedIsScanned(kept: Files, queued: nat, bytes: nat, oldest: nat, largest: nat)
    requires Counted(kept, queued, bytes, oldest, largest)
    ensures Scanned(kept, queued, bytes, oldest, if largest == 0 then 1 else largest + 1)
  {
    hide TotalBytes;
    if kept != map[] {
      MinUnique(kept.Keys, oldest);
    }
  }

  lemma ScannedLeavesId(kept: Files, queued: nat, bytes: nat, oldest: nat, next: nat)
    requires Scanned(kept, queued, bytes, oldest, next)
    ensures next <= RECORD_ID_MASK <==> forall id :: id in kept ==> id < RECORD_ID_MASK
  {
    hide MinOf, TotalBytes;
  }

  /** The ids of files that are not intact records, among some ids. */
  ghost function BadAmong(files: Files, ids: set<nat>): set<nat>
    requires ids <= files.Keys
  {
    set id | id in ids && !WellFormed(id, files[id])
  }

  lemma BadIds(files: Files, bad: set<nat>)
    requires bad == BadAmong(files, files.Keys)
    ensures bad == files.Keys - Intact(files).Keys
  {
    hide WellFormed;
  }

  lemma BadStays(files: Files, done: set<nat>, id: nat)
    requires done <= files.Keys && id in files && WellFormed(id, files[id])
    ensures BadAmong(files, done + {id}) == BadAmong(files, done)
  {
    hide WellFormed;
  }

  lemma BadGrows(files: Files, done: set<nat>, id: nat)
    requires done <= files.Keys && id in files && id !in done && !WellFormed(id, files[id])
    ensures BadAmong(files, done + {id}) == BadAmong(files, done) + {id} && id !in BadAmong(files, done)
    ensures |BadAmong(files, done + {id})| == |BadAmong(files, done)| + 1
  {
    hide WellFormed;
    assert BadAmong(files, done + {id}) == BadAmong(files, done) + {id};
  }

  lemma ScannedIsCoherent(s: Spool, before: Files)
    requires Scanned(Intact(before), s.queued, s.bytes, s.oldest, s.next) && s.next <= RECORD_ID_MASK
    requires Between(Intact(before), s.files, before)
    requires forall id :: id in before ==> 1 <= id <= RECORD_ID_MASK
    ensures Coherent(s) <==> s.files == Intact(s.files)
  {
    hide MinOf, TotalBytes;
    assert Intact(s.files) == Intact(before);
    if s.files == Intact(s.files) {
      assert Coherent(s);
    } else {
      var id :| id in s.files && !WellFormed(id, s.files[id]);
      assert !Coherent(s);
    }
  }

  predicate Acceptable(s: Spool, payload: string) {
    s.ready && 0 < |payload| < PAYLOAD_BUFFER && s.next <= RECORD_ID_MASK
  }

  /** The record a sample becomes. */
  function NewRecord(s: Spool, payload: string, nowMs: nat, nowEpochSeconds: nat, deferred: bool): File {
    Record(Header(MAGIC, RECORD_VERSION, deferred, false, s.next, s.bootId, 0, nowMs, nowEpochSeconds,
                  |payload|, Checksum(payload)), payload)
  }

  lemma KeptNext(s: Spool, n: nat)
    requires Coherent(s) && n <= |s.files| && s.next <= RECORD_ID_MASK
    ensures Coherent(DropFront(s, n)) && DropFront(s, n).next <= RECORD_ID_MASK
    ensures Fifo(DropFront(s, n).files) == Fifo(s.files)[n..]
    ensures DropFront(s, n).ready == s.ready
    ensures WithinLimits(s) ==> WithinLimits(DropFront(s, n))
    decreases n
  {
    if n > 0 {
      KeptNext(s, n - 1);
      DropFrontNext(s, n - 1);
    }
  }

  lemma CountedDrop(s: Spool)
    requires Coherent(s)
    ensures Coherent(s.(dropped := s.dropped + 1)) && (WithinLimits(s) ==> WithinLimits(s.(dropped := s.dropped + 1)))
  {
  }

  /** The record that storing a sample adds to the card, if it does. */
  ghost function AddedBy(before: Spool, payload: string, nowMs: nat, nowEpochSeconds: nat, deferred: bool, ok: bool,
                         evicted: nat): Option<Added>
    requires Coherent(before) && evicted <= |before.files|
  {
    if ok then Some(Added(evicted, NewRecord(DropFront(before, evicted), payload, nowMs, nowEpochSeconds, deferred)))
    else None
  }

  /** The outcomes of an acceptable sample: stored, refused for lack of room, or lost to a card failure. */
  ghost predicate Enqueued(before: Spool, now: Spool, payload: string, nowMs: nat, nowEpochSeconds: nat, deferred: bool,
                           ok: bool, evicted: nat)
    requires Coherent(before) && evicted <= |before.files|
  {
    var kept := DropFront(before, evicted);
    && AllCrowded(before, evicted, HEADER_BYTES + |payload|)
    && (ok ==> !Crowded(kept, HEADER_BYTES + |payload|)
               && now == Append(kept, NewRecord(kept, payload, nowMs, nowEpochSeconds, deferred)))
    && (!ok ==> now == kept.(ready := false)
                || (Crowded(kept, HEADER_BYTES + |payload|) && now == kept.(dropped := kept.dropped + 1)))
  }

  /** A stored sample is the last of the FIFO after exactly the evictions it needed, and the limits hold. */
  lemma EnqueuedIsFifo(before: Spool, now: Spool, payload: string, nowMs: nat, nowEpochSeconds: nat, deferred: bool,
                       ok: bool, evicted: nat)
    requires Coherent(before) && Acceptable(before, payload) && evicted <= |before.files|
    requires Enqueued(before, now, payload, nowMs, nowEpochSeconds, deferred, ok, evicted)
    ensures var f := NewRecord(DropFront(before, evicted), payload, nowMs, nowEpochSeconds, deferred);
            Fifo(now.files) == Fifo(before.files)[evicted..] + (if ok then [f] else [])
    ensures ok ==> now.dropped == before.dropped + evicted
    ensures WithinLimits(before) ==> WithinLimits(now)
    ensures WithinLimits(before) && ok ==> evicted == (if before.queued == MAX_RECORDS then 1 else 0)
  {
    hide Fifo, TotalBytes, MinOf, WellFormed, Checksum;
    KeptNext(before, evicted);
    var kept := DropFront(before, evicted);
    NewRecordFits(kept, payload, nowMs, nowEpochSeconds, deferred);
    if ok {
      AppendIsEnqueue(kept, NewRecord(kept, payload, nowMs, nowEpochSeconds, deferred));
      EmptyHasRoom(kept, HEADER_BYTES + |payload|);
      if WithinLimits(before) {
        EvictionsAreFew(before, |payload|, evicted);
      }
    }
  }

  /** A queue within limits needs one eviction when it is full and none otherwise. */
  lemma EvictionsAreFew(s: Spool, length: nat, evicted: nat)
    requires Coherent(s) && WithinLimits(s) && length < PAYLOAD_BUFFER && evicted <= |s.files|
    requires AllCrowded(s, evicted, HEADER_BYTES + length) && !Crowded(DropFront(s, evicted), HEADER_BYTES + length)
    ensures evicted == if s.queued == MAX_RECORDS then 1 else 0
  {
    hide TotalBytes, Fifo, MinOf, RemoveOldest;
    var some := DropFront(s, if evicted == 0 then 0 else evicted - 1);
    ByteLimitNeverBinds(some, length);
    ByteLimitNeverBinds(DropFront(s, evicted), length);
    assert evicted > 0 ==> Crowded(DropFront(s, evicted - 1), HEADER_BYTES + length);
  }

  lemma NewRecordFits(s: Spool, payload: string, nowMs: nat, nowEpochSeconds: nat, deferred: bool)
    requires 0 < |payload| < PAYLOAD_BUFFER
    ensures var f := NewRecord(s, payload, nowMs, nowEpochSeconds, deferred);
            f.Record? && WellFormed(s.next, f) && Size(f) == HEADER_BYTES + |payload|
  {
  }

  /**
     The round trip of a sample through the card. A sample stored behind any others is the next head
     once those have left. Whenever it is the head, in the boot that stored it it goes out as it was,
     or marked if it was deferred; in another boot it goes out marked; it cannot be offered only when
     it would have to be marked and has no mark. Its age counts from the time it was stored.
   */
  lemma StoredIsOffered(s: Spool, payload: string, nowMs: nat, nowEpochSeconds: nat, deferred: bool, q: Spool,
                        size: nat, later: nat)
    requires Coherent(s) && s.ready && 1 <= |payload| <= 2047 && s.next <= 0x7FFF_FFFF && |payload| < size
    requires Coherent(q) && q.ready && q.files != map[]
    requires Fifo(q.files)[0] == NewRecord(s, payload, nowMs, nowEpochSeconds, deferred)
    ensures var f := NewRecord(s, payload, nowMs, nowEpochSeconds, deferred);
            && Fifo(Append(s, f).files) == Fifo(s.files) + [f]
            && q.oldest in q.files && q.files[q.oldest] == f
            && OutgoingOf(f, q.bootId) == Outgoing(payload, deferred || q.bootId != s.bootId)
            && (CanOffer(q, size) <==> (deferred || q.bootId != s.bootId ==> MarkReplayed(payload).Some?))
            && HeadAge(q.files, later) == AgeSeconds(nowEpochSeconds, later)
            && (Expired(f, later) <==> nowEpochSeconds > 0 && later > nowEpochSeconds + 604800)
  {
    hide MarkReplayed, Checksum, MinOf, Fifo, TotalBytes;
    var f := NewRecord(s, payload, nowMs, nowEpochSeconds, deferred);
    NewRecordFits(s, payload, nowMs, nowEpochSeconds, deferred);
    AppendIsEnqueue(s, f);
    OldestFirst(q.files);
  }

  /** The records in front of a stored sample leave one by one, and then it is the head. */
  lemma StoredBecomesHead(s: Spool, payload: string, nowMs: nat, nowEpochSeconds: nat, deferred: bool)
    requires Coherent(s) && Acceptable(s, payload)
    ensures var f := NewRecord(s, payload, nowMs, nowEpochSeconds, deferred);
            && Coherent(Append(s, f)) && |s.files| < |Append(s, f).files|
            && Fifo(DropFront(Append(s, f), |s.files|).files) == [f]
  {
    hide MinOf, TotalBytes, DropFront, Checksum, Fifo;
    var f := NewRecord(s, payload, nowMs, nowEpochSeconds, deferred);
    NewRecordFits(s, payload, nowMs, nowEpochSeconds, deferred);
    AppendIsEnqueue(s, f);
    TotalBytesWith(s.files, s.next, f);
    assert |Fifo(s.files)| == |s.files|;
    assert (Fifo(s.files) + [f])[|s.files|..] == [f];
  }

  lemma AppendKeeps(s: Spool, f: File)
    requires Coherent(s) && s.next <= RECORD_ID_MASK && WellFormed(s.next, f)
    ensures Coherent(Append(s, f)) && Coherent(s.(ready := false))
  {
    AppendIsEnqueue(s, f);
  }

  lemma FifoAppended(s: Spool, f: File)
    requires Coherent(s) && s.next <= RECORD_ID_MASK && WellFormed(s.next, f)
    ensures Fifo(s.files[s.next := f]) == Fifo(s.files) + [f] && Clean(s.files[s.next := f])
  {
    hide WellFormed;
    FifoAppend(s.files, s.next, f);
  }

  lemma TrailWidens(history: seq<Disk>, from: nat, before: seq<File>, a: Added, most: nat)
    requires CrashSafe(history, from, before, None, most)
    ensures CrashSafe(history, from, before, Some(a), most)
  {
    hide Fifo, Clean;
    forall i | from <= i < |history|
      ensures SafeState(history[i].files, before, Some(a), most)
    {
      assert SafeState(history[i].files, before, None, most);
      var k: nat :| k <= most && SurvivorFrom(before, Fifo(history[i].files), None, k);
      assert SurvivorFrom(before, Fifo(history[i].files), Some(a), k);
    }
  }

  /** Steps that leave the record files alone keep a history safe. */
  lemma UnchangedFiles(history: seq<Disk>, now: seq<Disk>, from: nat, before: seq<File>, k: nat, files: Files)
    requires CrashSafe(history, from, before, None, k) && from <= |history| <= |now|
    requires now[..|history|] == history && forall i :: |history| <= i < |now| ==> now[i].files == files
    requires k <= |before| && Fifo(files) == before[k..] && Clean(files)
    ensures CrashSafe(now, from, before, None, k) && history <= now
  {
    hide Fifo, Clean;
    forall i | from <= i < |now|
      ensures SafeState(now[i].files, before, None, k)
    {
      if i < |history| {
        assert now[i] == now[..|history|][i] == history[i];
      } else {
        assert SurvivorFrom(before, Fifo(now[i].files), None, k);
      }
    }
  }

  lemma CoherentIsClean(s: Spool)
    requires Coherent(s)
    ensures Clean(s.files)
  {
  }

  /**
   Mounting the card after a power cut at any moment of an operation: the queue is coherent, and of
   the old FIFO it lacks at most the first records that the operation takes, `most` of them; it has
   the new record at the end or not.
   */
  lemma RecoveryAfterPowerCut(history: seq<Disk>, from: nat, before: seq<File>, added: Option<Added>, most: nat,
                              cut: nat, now: Spool)
    requires CrashSafe(history, from, before, added, most) && from <= cut < |history|
    requires Between(Intact(history[cut].files), now.files, history[cut].files)
    requires Scanned(Intact(history[cut].files), now.queued, now.bytes, now.oldest, now.next)
    requires now.next <= RECORD_ID_MASK
    ensures Coherent(now) && Survivor(before, Fifo(now.files), added, most)
  {
    hide Fifo, WellFormed, TotalBytes, MinOf;
    var files := history[cut].files;
    assert SafeState(files, before, added, most);
    assert Intact(files) == files;
    assert now.files == files;
  }

  lemma AnyFiles(s: Spool)
    requires s.files != map[]
    ensures |s.files| > 0
  {
  }

  lemma NothingYet(history: seq<Disk>, before: seq<File>, added: Option<Added>, most: nat)
    ensures CrashSafe(history, |history|, before, added, most)
  {
  }

  lemma NothingDropped(s: Spool, nextRecordBytes: nat)
    requires Coherent(s)
    ensures DropFront(s, 0) == s && AllCrowded(s, 0, nextRecordBytes)
  {
  }

  lemma OneMoreCrowded(s: Spool, n: nat, nextRecordBytes: nat)
    requires Coherent(s) && n < |s.files| && AllCrowded(s, n, nextRecordBytes)
    requires Crowded(DropFront(s, n), nextRecordBytes)
    ensures AllCrowded(s, n + 1, nextRecordBytes)
  {
    hide DropFront, Crowded;
  }

  /** A history stays safe when the state it ends with is a survivor. */
  lemma CrashStep(history: seq<Disk>, now: seq<Disk>, from: nat, before: seq<File>, added: Option<Added>,
                  last: Disk, most: nat, k: nat)
    requires CrashSafe(history, from, before, added, most) && from <= |history| && most <= k
    requires now == history || now == history + [last]
    requires SurvivorFrom(before, Fifo(last.files), added, k) && Clean(last.files)
    ensures CrashSafe(now, from, before, added, k)
  {
    hide Fifo, Clean, SurvivorFrom;
    forall i | from <= i < |now|
      ensures SafeState(now[i].files, before, added, k)
    {
      if i < |history| {
        assert now[i] == history[i] && SafeState(history[i].files, before, added, most);
      }
    }
  }

  lemma DroppedSurvives(s: Spool, n: nat, added: Option<Added>)
    requires Coherent(s) && n <= |s.files|
    ensures SurvivorFrom(Fifo(s.files), Fifo(DropFront(s, n).files), added, n)
  {
  }

  /** One more record of this size would not fit. */
  predicate Crowded(s: Spool, nextRecordBytes: nat) {
    s.queued > 0 && ExceedsLimits(s.queued, s.bytes, nextRecordBytes, MAX_RECORDS, MAX_BYTES)
  }

  lemma DropFrontNext(s: Spool, n: nat)
    requires Coherent(s) && n < |s.files|
    ensures DropFront(s, n).files != map[]
    ensures DropFront(s, n + 1) == RemoveOldest(DropFront(s, n), true)
  {
  }

  lemma EmptyHasRoom(s: Spool, nextRecordBytes: nat)
    requires Coherent(s) && nextRecordBytes <= 2087
    ensures s.queued == 0 ==> !ExceedsLimits(s.queued, s.bytes, nextRecordBytes, MAX_RECORDS, MAX_BYTES)
  {
    if s.queued == 0 {
      assert s.files == map[];
    }
  }
}
