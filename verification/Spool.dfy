/**
 The durable spool as a value: the record files on the card and what the queue caches of them
 in memory. Each operation of the queue is a function on this state, and the records in order
 of id are a FIFO that the operations extend and shorten.
 */
module Spool {
  import opened Bits
  import opened OfflineQueuePolicy

  const HEADER_BYTES: nat := 40
  const MAGIC: nat := 0x5653_5131
  const RECORD_VERSION: nat := 1
  const PAYLOAD_BUFFER: nat := 2048
  const MAX_RECORDS: nat := 256
  const MAX_BYTES: nat := 786432
  const MAX_AGE_SECONDS: nat := 604800

  datatype Header = Header(
    magic: nat, version: nat, deferred: bool, lastPublishReplayed: bool, recordId: nat, bootId: nat,
    attempts: nat, enqueuedUptimeMs: nat, enqueuedEpochSeconds: nat, payloadLength: nat, checksum: nat)

  /** A file: too short to hold a header, or a header and the bytes after it. */
  datatype File = Short(length: nat) | Record(header: Header, body: string)

  function Size(f: File): nat {
    if f.Short? then f.length else HEADER_BYTES + |f.body|
  }

  type Files = map<nat, File>

  /** The FNV-1a hash of the payload bytes. */
  function Checksum(data: string): nat {
    ChecksumFrom(data, 2166136261)
  }

  function ChecksumFrom(data: string, value: nat): nat {
    if data == "" then value
    else ChecksumFrom(data[1..], BitXor(value, data[0] as int % 256) * 16777619 % TWO_32)
  }

  /** What the boot scan accepts as record `id`. */
  predicate WellFormed(id: nat, f: File) {
    && f.Record? && f.header.magic == MAGIC && f.header.version == RECORD_VERSION && f.header.recordId == id
    && 0 < f.header.payloadLength < PAYLOAD_BUFFER && |f.body| == f.header.payloadLength
  }

  /** The queue's memory and the card behind it. */
  datatype Spool = Spool(
    ready: bool, files: Files, queued: nat, bytes: nat, oldest: nat, next: nat,
    dropped: nat, replayed: nat, oldestAge: nat, bootId: nat)

  // ---------- order and size of the files ----------

  ghost function MinOf(s: set<nat>): (m: nat)
    requires s != {}
    ensures m in s && forall x :: x in s ==> m <= x
    decreases |s|
  {
    var x :| x in s;
    assert forall z :: z in s ==> z == x || z in s - {x};
    if s - {x} == {} then x
    else
      var y := MinOf(s - {x});
      if x < y then x else y
  }

  lemma MinUnique(s: set<nat>, m: nat)
    requires m in s && forall x :: x in s ==> m <= x
    ensures s != {} && MinOf(s) == m
  {
  }

  /** The records of the card, oldest first. */
  ghost function Fifo(files: Files): (r: seq<File>)
    ensures |r| == |files|
    decreases |files|
  {
    if files == map[] then []
    else
      var m := MinOf(files.Keys);
      SmallerMap(files, m);
      [files[m]] + Fifo(files - {m})
  }

  lemma SmallerMap(files: Files, m: nat)
    requires m in files
    ensures files.Keys != {} && (files - {m}).Keys == files.Keys - {m} && |files - {m}| == |files| - 1
  {
    assert (files - {m}).Keys == files.Keys - {m};
    assert |(files - {m}).Keys| == |files.Keys| - 1;
  }

  ghost function TotalBytes(files: Files): nat
    decreases |files|
  {
    if files == map[] then 0
    else
      var m := MinOf(files.Keys);
      SmallerMap(files, m);
      Size(files[m]) + TotalBytes(files - {m})
  }

  /** The total does not depend on the order of summation. */
  lemma {:induction false} TotalBytesWithout(files: Files, k: nat)
    requires k in files
    ensures TotalBytes(files) == Size(files[k]) + TotalBytes(files - {k})
    decreases |files|
  {
    var m := MinOf(files.Keys);
    SmallerMap(files, m);
    if k != m {
      var rest := files - {k};
      SmallerMap(files, k);
      TotalBytesWithout(files - {m}, k);
      assert m in rest;
      MinUnique(rest.Keys, m);
      assert rest - {m} == files - {m} - {k};
    }
  }

  lemma TotalBytesWith(files: Files, k: nat, f: File)
    requires k !in files
    ensures TotalBytes(files[k := f]) == TotalBytes(files) + Size(f)
    ensures |files[k := f]| == |files| + 1
  {
    TotalBytesWithout(files[k := f], k);
    assert files[k := f] - {k} == files;
    SmallerMap(files[k := f], k);
  }

  /** A file with a larger id than all others goes to the end of the FIFO. */
  lemma {:induction false} FifoAppend(files: Files, k: nat, f: File)
    requires forall id :: id in files ==> id < k
    ensures Fifo(files[k := f]) == Fifo(files) + [f]
    decreases |files|
  {
    hide MinOf, Fifo;
    if files == map[] {
      FifoOne(k, f);
      assert files[k := f] == map[k := f];
      FifoEmpty();
    } else {
      var m := MinOf(files.Keys);
      SmallerMap(files, m);
      FifoAppend(files - {m}, k, f);
      FifoMinExtended(files, k, f);
      FifoCons(files);
      FifoCons(files[k := f]);
      assert Fifo(files[k := f]) == [files[m]] + (Fifo(files - {m}) + [f]);
    }
  }

  lemma FifoEmpty()
    ensures Fifo(map[]) == []
  {
  }

  lemma FifoOne(k: nat, f: File)
    ensures Fifo(map[k := f]) == [f]
  {
    var files := map[k := f];
    MinUnique(files.Keys, k);
    assert files - {k} == map[];
    FifoCons(files);
    FifoEmpty();
  }

  lemma FifoMinExtended(files: Files, k: nat, f: File)
    requires files != map[] && forall id :: id in files ==> id < k
    ensures var all, m := files[k := f], MinOf(files.Keys);
            && files.Keys != {} && m in files && all.Keys != {} && MinOf(all.Keys) == m && m != k
            && all - {m} == (files - {m})[k := f]
  {
    hide MinOf;
    var all, m := files[k := f], MinOf(files.Keys);
    assert all.Keys == files.Keys + {k};
    MinUnique(all.Keys, m);
  }

  lemma FifoCons(files: Files)
    requires files != map[]
    ensures files.Keys != {} && Fifo(files) == [files[MinOf(files.Keys)]] + Fifo(files - {MinOf(files.Keys)})
  {
  }

  lemma FifoHead(files: Files)
    requires files != map[]
    ensures var m := MinOf(files.Keys);
            && Fifo(files)[0] == files[m]
            && Fifo(files - {m}) == Fifo(files)[1..]
  {
  }

  /** Rewriting one file changes one place of the FIFO; for the oldest, the first place. */
  lemma FifoHeadUpdate(files: Files, f: File)
    requires files != map[]
    ensures Fifo(files[MinOf(files.Keys) := f]) == [f] + Fifo(files)[1..]
  {
    var m := MinOf(files.Keys);
    var all := files[m := f];
    assert all.Keys == files.Keys;
    assert all - {m} == files - {m};
    assert all != map[];
  }

  // ---------- coherence of the cache ----------

  /** The cached values say what is on the card. */
  ghost predicate Coherent(s: Spool) {
    && (forall id :: id in s.files ==> 1 <= id <= RECORD_ID_MASK && WellFormed(id, s.files[id]))
    && s.queued == |s.files| && s.bytes == TotalBytes(s.files)
    && s.oldest == (if s.files.Keys == {} then 0 else MinOf(s.files.Keys))
    && 1 <= s.next <= RECORD_ID_MASK + 1 && forall id :: id in s.files ==> id < s.next
  }

  ghost predicate WithinLimits(s: Spool) {
    |s.files| <= MAX_RECORDS && TotalBytes(s.files) <= MAX_BYTES
  }

  // ---------- operations ----------

  /** The head leaves the queue. When the last record leaves, ids start again at one. */
  ghost function RemoveOldest(s: Spool, countAsDropped: bool): Spool
    requires Coherent(s) && s.files != map[]
  {
    var files := s.files - {s.oldest};
    var empty := s.queued == 1;
    s.(files := files, queued := s.queued - 1, bytes := s.bytes - Size(s.files[s.oldest]),
       dropped := if countAsDropped then s.dropped + 1 else s.dropped,
       oldest := if files.Keys == {} then 0 else MinOf(files.Keys),
       next := if empty then 1 else s.next,
       oldestAge := if empty then 0 else s.oldestAge)
  }

  lemma HeadBytes(s: Spool)
    requires Coherent(s) && s.files != map[]
    ensures s.oldest in s.files && s.oldest == MinOf(s.files.Keys) && Size(s.files[s.oldest]) <= s.bytes
    ensures s.queued >= 1
  {
    TotalBytesWithout(s.files, s.oldest);
  }

  /** Removing the head keeps the cache coherent and takes the first record off the FIFO. */
  lemma RemoveOldestIsDequeue(s: Spool, countAsDropped: bool)
    requires Coherent(s) && s.files != map[]
    ensures Coherent(RemoveOldest(s, countAsDropped))
    ensures Fifo(RemoveOldest(s, countAsDropped).files) == Fifo(s.files)[1..]
    ensures WithinLimits(s) ==> WithinLimits(RemoveOldest(s, countAsDropped))
  {
    hide MinOf, Fifo, TotalBytes, WellFormed, Size;
    TotalBytesWithout(s.files, s.oldest);
    SmallerMap(s.files, s.oldest);
    FifoHead(s.files);
    var rest := s.files - {s.oldest};
    assert rest.Keys == {} <==> s.queued == 1;
  }

  /** A new record gets the next id. */
  function Append(s: Spool, f: File): Spool {
    s.(files := s.files[s.next := f], queued := s.queued + 1, bytes := s.bytes + Size(f),
       oldest := if s.queued == 0 then s.next else s.oldest, next := s.next + 1)
  }

  /** Appending keeps the cache coherent and puts the record at the end of the FIFO. */
  lemma AppendIsEnqueue(s: Spool, f: File)
    requires Coherent(s) && s.next <= RECORD_ID_MASK && WellFormed(s.next, f)
    ensures Coherent(Append(s, f))
    ensures Fifo(Append(s, f).files) == Fifo(s.files) + [f]
    ensures !ExceedsLimits(s.queued, s.bytes, Size(f), MAX_RECORDS, MAX_BYTES) ==> WithinLimits(Append(s, f))
  {
    hide MinOf, Fifo, TotalBytes, WellFormed, Size;
    TotalBytesWith(s.files, s.next, f);
    FifoAppend(s.files, s.next, f);
    var files := s.files[s.next := f];
    assert files.Keys == s.files.Keys + {s.next};
    assert s.queued == 0 <==> s.files.Keys == {};
    MinUnique(files.Keys, if s.files.Keys == {} then s.next else MinOf(s.files.Keys));
  }

  /** A record whose publish is about to be attempted; the counter is 32 bits wide. */
  function Stamped(f: File, replayed: bool): File
    requires f.Record?
  {
    f.(header := f.header.(attempts := (f.header.attempts + 1) % TWO_32, lastPublishReplayed := replayed))
  }

  function Stamp(s: Spool, id: nat, replayed: bool): Spool
    requires id in s.files && s.files[id].Record?
  {
    s.(files := s.files[id := Stamped(s.files[id], replayed)])
  }

  lemma StampKeepsQueue(s: Spool, id: nat, replayed: bool)
    requires Coherent(s) && id in s.files
    ensures Coherent(Stamp(s, id, replayed))
    ensures id == s.oldest ==>
              Fifo(Stamp(s, id, replayed).files) == [Stamped(s.files[id], replayed)] + Fifo(s.files)[1..]
    ensures WithinLimits(s) ==> WithinLimits(Stamp(s, id, replayed))
  {
    hide MinOf, Fifo, TotalBytes;
    var files := Stamp(s, id, replayed).files;
    assert files.Keys == s.files.Keys;
    assert |files| == |files.Keys| == |s.files.Keys|;
    TotalBytesWithout(s.files, id);
    TotalBytesWithout(files, id);
    assert files - {id} == s.files - {id};
    FifoHeadUpdate(s.files, Stamped(s.files[id], replayed));
  }

  /** The files the boot scan keeps. */
  function Intact(files: Files): (r: Files)
    ensures r.Keys <= files.Keys
  {
    map id | id in files && WellFormed(id, files[id]) :: files[id]
  }

  /** Dropping from the front until the queue fits. */
  ghost function DropFront(s: Spool, n: nat): (r: Spool)
    requires Coherent(s) && n <= |s.files|
    ensures Coherent(r) && Fifo(r.files) == Fifo(s.files)[n..] && r.dropped == s.dropped + n
    ensures r.ready == s.ready && r.bootId == s.bootId && r.replayed == s.replayed
    ensures |r.files| == |s.files| - n && (WithinLimits(s) ==> WithinLimits(r))
    ensures r.files.Keys <= s.files.Keys && forall id :: id in r.files ==> r.files[id] == s.files[id]
    ensures n < |s.files| ==> r.next == s.next
  {
    if n == 0 then s
    else
      var before := DropFront(s, n - 1);
      RemoveOldestIsDequeue(before, true);
      SmallerMap(before.files, before.oldest);
      RemoveOldest(before, true)
  }

  /** A record is at most 2087 bytes long: the header and a payload that fits the buffer with its NUL. */
  predicate SmallFile(f: File) {
    Size(f) <= 2087
  }

  lemma {:induction false} SmallRecords(files: Files)
    requires forall id :: id in files ==> WellFormed(id, files[id])
    ensures TotalBytes(files) <= 2087 * |files|
    decreases |files|
  {
    if files != map[] {
      var m := MinOf(files.Keys);
      assert SmallFile(files[m]);
      hide WellFormed, Size, MinOf;
      SmallerMap(files, m);
      SmallRecords(files - {m});
      hide SmallFile;
      SmallStep(TotalBytes(files - {m}), Size(files[m]), |files - {m}|, files[m]);
    }
  }

  lemma SmallStep(bytes: nat, size: nat, count: nat, f: File)
    requires bytes <= 2087 * count && size == Size(f) && SmallFile(f)
    ensures bytes + size <= 2087 * (count + 1)
  {
  }

  /** With the configured limits the byte limit never binds: a queue within limits is full exactly at 256 records. */
  lemma ByteLimitNeverBinds(s: Spool, length: nat)
    requires Coherent(s) && WithinLimits(s) && length < PAYLOAD_BUFFER
    ensures ExceedsLimits(s.queued, s.bytes, HEADER_BYTES + length, MAX_RECORDS, MAX_BYTES) <==> s.queued == MAX_RECORDS
  {
    SmallRecords(s.files);
    hide TotalBytes;
    assert s.bytes <= 2087 * s.queued;
  }
}
