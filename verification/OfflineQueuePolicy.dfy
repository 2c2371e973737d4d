/**
 The pure rules of the durable spool: publish tokens, replay marking, limits, age, file names,
 and the in-place edit of an outgoing payload.
 */
module OfflineQueuePolicy {

  datatype Option<+T> = None | Some(value: T)

  const TWO_31: nat := 0x8000_0000
  const TWO_32: nat := 0x1_0000_0000
  const RECORD_ID_MASK: nat := 0x7FFF_FFFF

  // ---------- tokens: the low 31 bits are the number, the top bit says "replay" ----------

  function ReplayToken(recordId: nat): (token: nat)
    ensures token < TWO_32
  {
    TWO_31 + recordId % TWO_31
  }

  function LiveToken(sequence: nat): nat {
    sequence % TWO_31
  }

  predicate IsReplayToken(token: nat) {
    token / TWO_31 % 2 == 1
  }

  function RecordIdFromToken(token: nat): nat {
    token % TWO_31
  }

  /** Every record id survives its token, and no live publish can be taken for a spooled one. */
  lemma TokensAreUnambiguous(recordId: nat, sequence: nat)
    requires recordId <= RECORD_ID_MASK
    ensures IsReplayToken(ReplayToken(recordId)) && RecordIdFromToken(ReplayToken(recordId)) == recordId
    ensures !IsReplayToken(LiveToken(sequence)) && LiveToken(sequence) != ReplayToken(recordId)
  {
  }

  // ---------- rules ----------

  predicate ShouldMarkReplayed(deferred: bool, attempts: nat, recordBootId: nat, currentBootId: nat) {
    deferred || attempts > 0 || recordBootId != currentBootId
  }

  /** The limit test, written so that no unsigned subtraction or sum overflows. */
  predicate ExceedsLimits(queued: nat, bytes: nat, nextRecordBytes: nat, maxRecords: nat, maxBytes: nat) {
    queued >= maxRecords || nextRecordBytes > maxBytes || bytes > maxBytes - nextRecordBytes
  }

  lemma LimitTestIsExact(queued: nat, bytes: nat, nextRecordBytes: nat, maxRecords: nat, maxBytes: nat)
    ensures ExceedsLimits(queued, bytes, nextRecordBytes, maxRecords, maxBytes)
       <==> queued + 1 > maxRecords || bytes + nextRecordBytes > maxBytes
  {
  }

  function AgeSeconds(enqueued: nat, now: nat): nat {
    if enqueued == 0 || now == 0 || now <= enqueued then 0
    else if now - enqueued > TWO_32 - 1 then TWO_32 - 1 else now - enqueued
  }

  // ---------- file names ----------

  const DIGITS := "0123456789"

  function Decimal(n: nat): (s: string)
    ensures |s| > 0
  {
    if n < 10 then [DIGITS[n]] else Decimal(n / 10) + [DIGITS[n % 10]]
  }

  function ZeroPadded(s: string, width: nat): string
    decreases width - |s|
  {
    if |s| >= width then s else ZeroPadded("0" + s, width)
  }

  function FileName(recordId: nat): string {
    "q_" + ZeroPadded(Decimal(recordId), 10) + ".msg"
  }

  function RecordPath(recordId: nat): string {
    "/spool/" + FileName(recordId)
  }

  predicate IsDigit(c: char) {
    '0' <= c <= '9'
  }

  function Digit(c: char): nat
    requires IsDigit(c)
  {
    c as int - '0' as int
  }

  /** The number read from the digits at the front of `s`, continuing from `value`, and what follows them. */
  function ScanNumber(s: string, value: nat): (nat, string) {
    if s == "" || !IsDigit(s[0]) then (value, s)
    else ScanNumber(s[1..], value * 10 + Digit(s[0]))
  }

  /** The part of a path after its last slash. */
  function BaseName(path: string): string {
    if path == "" then ""
    else if '/' in path[1..] then BaseName(path[1..])
    else if path[0] == '/' then path[1..] else path
  }

  /** The record id a path names: the number after "q_", unless something follows ".msg". */
  function ParseRecordId(path: string): Option<nat> {
    var name := BaseName(path);
    if |name| < 3 || name[..2] != "q_" || !IsDigit(name[2]) then None
    else
      var (parsed, rest) := ScanNumber(name[2..], 0);
      if (|rest| > 4 && rest[..4] == ".msg") || parsed == 0 || parsed > RECORD_ID_MASK then None
      else Some(parsed)
  }

  predicate AllDigits(s: string) {
    forall c :: c in s ==> IsDigit(c)
  }

  function Value(s: string, value: nat): nat
    requires AllDigits(s)
  {
    if s == "" then value else Value(s[1..], value * 10 + Digit(s[0]))
  }

  lemma {:induction false} ScanAll(s: string, rest: string, value: nat)
    requires AllDigits(s) && (rest == "" || !IsDigit(rest[0]))
    ensures ScanNumber(s + rest, value) == (Value(s, value), rest)
  {
    if s == "" {
      assert s + rest == rest;
    } else {
      assert (s + rest)[1..] == s[1..] + rest;
      ScanAll(s[1..], rest, value * 10 + Digit(s[0]));
    }
  }

  lemma {:induction false} ValueSnoc(s: string, c: char, value: nat)
    requires AllDigits(s) && IsDigit(c)
    ensures AllDigits(s + [c]) && Value(s + [c], value) == Value(s, value) * 10 + Digit(c)
  {
    if s == "" {
      assert [c][1..] == "";
    } else {
      assert (s + [c])[1..] == s[1..] + [c];
      ValueSnoc(s[1..], c, value * 10 + Digit(s[0]));
    }
  }

  lemma DigitFacts(d: nat)
    requires d < 10
    ensures IsDigit(DIGITS[d]) && Digit(DIGITS[d]) == d
  {
  }

  lemma {:induction false} DecimalValue(n: nat)
    ensures AllDigits(Decimal(n)) && Value(Decimal(n), 0) == n
  {
    DigitFacts(n % 10);
    if n < 10 {
      assert [DIGITS[n]][1..] == "";
    } else {
      DecimalValue(n / 10);
      ValueSnoc(Decimal(n / 10), DIGITS[n % 10], 0);
    }
  }

  lemma {:induction false} PaddedValue(s: string, width: nat)
    requires AllDigits(s) && |s| > 0
    ensures var p := ZeroPadded(s, width);
            AllDigits(p) && |p| > 0 && Value(p, 0) == Value(s, 0)
    decreases width - |s|
  {
    if |s| < width {
      assert ("0" + s)[1..] == s;
      PaddedValue("0" + s, width);
    }
  }

  lemma {:induction false} BaseNameOf(prefix: string, name: string)
    requires '/' !in name && |name| > 0
    ensures BaseName(prefix + "/" + name) == name
  {
    var path := prefix + "/" + name;
    if prefix == "" {
      assert path[1..] == name;
    } else {
      assert path[1..] == prefix[1..] + "/" + name;
      assert (prefix[1..] + "/" + name)[|prefix| - 1] == '/';
      BaseNameOf(prefix[1..], name);
    }
  }

  /** Reading back the name of a record file gives the record id, for every id in use. */
  lemma NameRoundTrip(recordId: nat)
    requires 1 <= recordId <= RECORD_ID_MASK
    ensures ParseRecordId(RecordPath(recordId)) == Some(recordId)
  {
    DecimalValue(recordId);
    PaddedValue(Decimal(recordId), 10);
    var digits := ZeroPadded(Decimal(recordId), 10);
    var name := FileName(recordId);
    assert name == "q_" + (digits + ".msg");
    assert name[..2] == "q_" && name[2..] == digits + ".msg" && name[2] == digits[0];
    assert forall c :: c in digits ==> c != '/';
    assert forall c :: c in ".msg" ==> c != '/';
    assert forall c :: c in name ==> c in "q_" || c in digits || c in ".msg";
    assert RecordPath(recordId) == "/spool" + "/" + name;
    BaseNameOf("/spool", name);
    ScanAll(digits, ".msg", 0);
  }

  // ---------- marking a payload as replayed ----------

  const FALSE_MARK := "\"replayed\":false"
  const TRUE_MARK := "\"replayed\":true"

  predicate MatchAt(s: string, i: nat) {
    i + |FALSE_MARK| <= |s| && s[i..i + |FALSE_MARK|] == FALSE_MARK
  }

  /** The first occurrence of the mark at or after `i`, searching as far as the first NUL. */
  function FindMark(s: string, i: nat): (r: Option<nat>)
    requires i <= |s|
    ensures r.Some? ==> i <= r.value && MatchAt(s, r.value)
    decreases |s| - i
  {
    if MatchAt(s, i) then Some(i)
    else if i == |s| || s[i] == '\0' then None
    else FindMark(s, i + 1)
  }

  /** The payload with its first mark changed, or nothing when there is none. */
  function MarkReplayed(payload: string): Option<string> {
    match FindMark(payload, 0)
    case None => None
    case Some(i) => Some(Splice(payload, i))
  }

  /** What is sent of a stored payload: the payload itself, or the payload marked as replayed. */
  function Outgoing(payload: string, replayed: bool): Option<string> {
    if replayed then MarkReplayed(payload) else Some(payload)
  }

  /** The payload with the mark at `i` changed. */
  function Splice(payload: string, i: nat): string
    requires i + |FALSE_MARK| <= |payload|
  {
    payload[..i] + TRUE_MARK + payload[i + |FALSE_MARK|..]
  }

  /** No occurrence starts from `i` to `n`, where the text ends. */
  ghost predicate NoMark(s: string, i: nat, n: nat) {
    i <= n <= |s| && (n == |s| || s[n] == '\0') && forall j: nat :: i <= j <= n ==> !MatchAt(s, j)
  }

  /** The search finds the first occurrence before any NUL, or there is none. */
  lemma {:induction false} FindMarkIsFirst(s: string, i: nat)
    requires i <= |s|
    ensures match FindMark(s, i)
            case Some(m) => MatchAt(s, m) && forall j: nat :: i <= j < m ==> !MatchAt(s, j) && s[j] != '\0'
            case None => exists n: nat :: NoMark(s, i, n)
    decreases |s| - i
  {
    if MatchAt(s, i) {
    } else if i == |s| || s[i] == '\0' {
      assert NoMark(s, i, i);
    } else {
      FindMarkIsFirst(s, i + 1);
      if FindMark(s, i + 1).None? {
        var n: nat :| NoMark(s, i + 1, n);
        assert NoMark(s, i, n);
      }
    }
  }

  /** A marked payload is one character shorter and keeps everything before and after the mark. */
  lemma MarkedPayload(payload: string)
    requires MarkReplayed(payload).Some?
    ensures var i := FindMark(payload, 0).value;
            var marked := MarkReplayed(payload).value;
            && |marked| == |payload| - 1
            && marked[..i] == payload[..i] && marked[i..i + |TRUE_MARK|] == TRUE_MARK
            && marked[i + |TRUE_MARK|..] == payload[i + |FALSE_MARK|..]
  {
    FindMarkIsFirst(payload, 0);
  }

  /** Copies `count` characters down the buffer, front to back, as an overlapping move to lower addresses may. */
  method MoveDown(buffer: array<char>, to: nat, from: nat, count: nat)
    requires to <= from && from + count <= buffer.Length
    modifies buffer
    ensures forall p :: to <= p < to + count ==> buffer[p] == old(buffer[..])[p + (from - to)]
    ensures forall p :: 0 <= p < to || to + count <= p < buffer.Length ==> buffer[p] == old(buffer[..])[p]
  {
    ghost var was := buffer[..];
    for k := 0 to count
      invariant forall p :: to <= p < to + k ==> buffer[p] == was[p + (from - to)]
      invariant forall p :: 0 <= p < to || to + k <= p < buffer.Length ==> buffer[p] == was[p]
    {
      buffer[to + k] := buffer[from + k];
    }
  }

  method CopyIn(buffer: array<char>, at: nat, text: string)
    requires at + |text| <= buffer.Length
    modifies buffer
    ensures forall p :: at <= p < at + |text| ==> buffer[p] == text[p - at]
    ensures forall p :: 0 <= p < at || at + |text| <= p < buffer.Length ==> buffer[p] == old(buffer[..])[p]
  {
    ghost var was := buffer[..];
    for k := 0 to |text|
      invariant forall p :: at <= p < at + k ==> buffer[p] == text[p - at]
      invariant forall p :: 0 <= p < at || at + k <= p < buffer.Length ==> buffer[p] == was[p]
    {
      buffer[at + k] := text[k];
    }
  }

  /**
   Rewrites the delivery copy in place. The first mark before any NUL becomes true, the tail and
   its terminating NUL move up, and without a mark nothing changes.
   */
  method MarkPayloadReplayed(buffer: array<char>, length: nat) returns (ok: bool, newLength: nat)
    requires length < buffer.Length && buffer[length] == '\0'
    modifies buffer
    ensures ok <==> length > 0 && MarkReplayed(old(buffer[..length])).Some?
    ensures ok ==> newLength < length && buffer[newLength] == '\0'
    ensures ok ==> buffer[..newLength] == MarkReplayed(old(buffer[..length])).value
    ensures ok ==> buffer[length + 1..] == old(buffer[length + 1..])
    ensures !ok ==> newLength == length && buffer[..] == old(buffer[..])
  {
    ok, newLength := false, length;
    if length == 0 {
      return;
    }
    var found, position := Search(buffer, length);
    if !found {
      return;
    }
    hide FindMark, Splice;
    ChangeMark(buffer, length, position);
    ok, newLength := true, length - (|FALSE_MARK| - |TRUE_MARK|);
  }

  /** Changes the mark at a position: the new mark is copied in, and the tail with its NUL moves up. */
  method ChangeMark(buffer: array<char>, length: nat, position: nat)
    requires position + |FALSE_MARK| <= length < buffer.Length && buffer[length] == '\0'
    modifies buffer
    ensures buffer[length - 1] == '\0' && buffer[..length - 1] == Splice(old(buffer[..length]), position)
    ensures buffer[length + 1..] == old(buffer[length + 1..])
  {
    ghost var was := buffer[..];
    hide Splice;
    var falseLength, trueLength := |FALSE_MARK|, |TRUE_MARK|;
    CopyIn(buffer, position, TRUE_MARK);
    ghost var copied := buffer[..];
    MoveDown(buffer, position + trueLength, position + falseLength, length - position - falseLength + 1);
    Spliced(was, copied, buffer[..], position, length);
    assert was[..length] == old(buffer[..length]) && was[length + 1..] == old(buffer[length + 1..]);
    assert buffer[..][..length - 1] == buffer[..length - 1] && buffer[..][length + 1..] == buffer[length + 1..];
  }

  lemma SameSlice(text: string, length: nat, from: nat, to: nat)
    requires from <= to <= length <= |text|
    ensures text[..length][from..to] == text[from..to]
  {
  }

  /** The search of the firmware: from the front, up to the mark or to the end of the text. */
  method Search(buffer: array<char>, length: nat) returns (found: bool, position: nat)
    requires length < buffer.Length && buffer[length] == '\0'
    ensures FindMark(buffer[..length], 0) == if found then Some(position) else None
    ensures found ==> position + |FALSE_MARK| <= length
  {
    ghost var payload := buffer[..length];
    position := 0;
    while position < length && buffer[position] != '\0'
      invariant position <= length
      invariant FindMark(payload, position) == FindMark(payload, 0)
    {
      if position + |FALSE_MARK| <= length {
        SameSlice(buffer[..], length, position, position + |FALSE_MARK|);
        assert buffer[..][position..position + |FALSE_MARK|] == buffer[position..position + |FALSE_MARK|];
        assert buffer[..][..length] == payload;
      }
      if position + |FALSE_MARK| <= length && buffer[position..position + |FALSE_MARK|] == FALSE_MARK {
        return true, position;
      }
      position := position + 1;
    }
    MarkStartsWithQuote(payload, position);
    return false, position;
  }

  lemma MarkStartsWithQuote(s: string, i: nat)
    ensures MatchAt(s, i) ==> i < |s| && s[i] == '"'
  {
    if MatchAt(s, i) {
      assert s[i..i + |FALSE_MARK|][0] == s[i];
    }
  }

  lemma Spliced(was: string, copied: string, now: string, position: nat, length: nat)
    requires |was| == |copied| == |now| && position + |FALSE_MARK| <= length < |was|
    requires forall p :: position <= p < position + |TRUE_MARK| ==> copied[p] == TRUE_MARK[p - position]
    requires forall p :: 0 <= p < position || position + |TRUE_MARK| <= p < |was| ==> copied[p] == was[p]
    requires forall p :: position + |TRUE_MARK| <= p < length ==> now[p] == copied[p + 1]
    requires forall p :: 0 <= p < position + |TRUE_MARK| || length <= p < |was| ==> now[p] == copied[p]
    requires was[length] == '\0'
    ensures now[length - 1] == '\0'
    ensures now[..length - 1] == Splice(was[..length], position)
    ensures now[length + 1..] == was[length + 1..]
  {
    assert |FALSE_MARK| == |TRUE_MARK| + 1;
    var s := was[..length];
    var target := Splice(s, position);
    forall p | 0 <= p < length - 1
      ensures now[p] == target[p]
    {
      if p >= position + |TRUE_MARK| {
        assert copied[p + 1] == was[p + 1];
      }
    }
  }
}
