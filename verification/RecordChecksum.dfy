/** The checksum of a record detects every change of a single byte, so that a damaged payload is never sent. */
module RecordChecksum {
  import opened Bits
  import opened OfflineQueuePolicy
  import opened Spool
  import opened OfflineTelemetryQueue

  const PRIME: nat := 16777619
  /** The inverse of the prime modulo 2^32. */
  const INVERSE: nat := 899433627

  lemma XorDigits(a: nat, b: nat)
    ensures BitXor(a, b) % 2 == (a + b) % 2 && BitXor(a, b) / 2 == BitXor(a / 2, b / 2)
  {
    if a == 0 {
      assert BitXor(0, b / 2) == b / 2;
    } else if b == 0 {
      assert BitXor(a / 2, 0) == a / 2;
    } else {
      var rest := BitXor(a / 2, b / 2);
      var bit := if a % 2 == b % 2 then 0 else 1;
      assert BitXor(a, b) == bit + 2 * rest;
      hide BitXor;
      LastDigit(bit, rest);
      SumDigit(a, b);
    }
  }

  lemma LastDigit(bit: nat, rest: nat)
    requires bit < 2
    ensures (bit + 2 * rest) % 2 == bit && (bit + 2 * rest) / 2 == rest
  {
  }

  lemma SumDigit(a: nat, b: nat)
    ensures (a + b) % 2 == if a % 2 == b % 2 then 0 else 1
  {
  }

  /** Exclusive or with the same number can be undone. */
  lemma {:induction false} XorCancels(a: nat, b: nat, c: nat)
    requires BitXor(a, b) == BitXor(a, c)
    ensures b == c
    decreases b + c
  {
    XorDigits(a, b);
    XorDigits(a, c);
    if b + c > 0 {
      XorCancels(a / 2, b / 2, c / 2);
    }
  }

  lemma {:induction false} XorSwaps(a: nat, b: nat)
    ensures BitXor(a, b) == BitXor(b, a)
    decreases a + b
  {
    if a > 0 && b > 0 {
      XorSwaps(a / 2, b / 2);
    }
  }

  lemma {:induction false} XorBelow(a: nat, b: nat, p: nat)
    requires IsPow2(p) && a < p && b < p
    ensures BitXor(a, b) < p
    decreases p
  {
    XorDigits(a, b);
    if p > 1 {
      XorBelow(a / 2, b / 2, p / 2);
    }
  }

  lemma ModOf(x: nat, k: int)
    requires x < TWO_32
    ensures (x + k * TWO_32) % TWO_32 == x
  {
  }

  /** Multiplication by the prime modulo 2^32 can be undone. */
  lemma PrimeCancels(x: nat)
    requires x < TWO_32
    ensures x * PRIME % TWO_32 * INVERSE % TWO_32 == x
  {
    var a, r := x * PRIME / TWO_32, x * PRIME % TWO_32;
    assert r == x * PRIME - a * TWO_32;
    assert PRIME * INVERSE == 1 + 3513497 * TWO_32;
    assert r * INVERSE == x * (PRIME * INVERSE) - a * INVERSE * TWO_32;
    ModOf(x, x * 3513497 - a * INVERSE);
  }

  /** One step of the hash. */
  function Mixed(value: nat, byte: nat): nat {
    BitXor(value, byte) * PRIME % TWO_32
  }

  lemma MixedDiffers(value: nat, byte: nat, other: nat, change: nat)
    requires value < TWO_32 && byte < 256 && other < TWO_32 && change < 256
    requires (value == other && byte != change) || (value != other && byte == change)
    ensures Mixed(value, byte) != Mixed(other, change)
  {
    TwoTo32();
    XorBelow(value, byte, TWO_32);
    XorBelow(other, change, TWO_32);
    PrimeCancels(BitXor(value, byte));
    PrimeCancels(BitXor(other, change));
    hide BitXor;
    if BitXor(value, byte) == BitXor(other, change) {
      XorSwaps(value, byte);
      XorSwaps(other, change);
      if value == other {
        XorCancels(value, byte, change);
      } else {
        XorCancels(byte, value, other);
      }
    }
  }

  lemma TwoTo32()
    ensures IsPow2(TWO_32)
  {
    assert IsPow2(1);
    hide IsPow2;
    TimesSixteen(1);
    TimesSixteen(0x10);
    TimesSixteen(0x100);
    TimesSixteen(0x1000);
    TimesSixteen(0x1_0000);
    TimesSixteen(0x10_0000);
    TimesSixteen(0x100_0000);
    TimesSixteen(0x1000_0000);
  }

  lemma TimesSixteen(n: nat)
    requires IsPow2(n)
    ensures IsPow2(16 * n)
  {
    TimesTwo(n);
    TimesTwo(2 * n);
    TimesTwo(4 * n);
    TimesTwo(8 * n);
    hide IsPow2;
  }

  lemma TimesTwo(n: nat)
    requires IsPow2(n)
    ensures IsPow2(2 * n)
  {
  }

  /** Different states never meet again over the same bytes. */
  lemma {:induction false} StatesStayApart(data: string, value: nat, other: nat)
    requires value < TWO_32 && other < TWO_32 && value != other
    ensures ChecksumFrom(data, value) != ChecksumFrom(data, other)
    decreases |data|
  {
    if data != "" {
      var byte := data[0] as int % 256;
      MixedDiffers(value, byte, other, byte);
      hide BitXor;
      StatesStayApart(data[1..], Mixed(value, byte), Mixed(other, byte));
    }
  }

  /** Changing one byte changes the hash. */
  lemma {:induction false} ByteChangesHash(data: string, value: nat, i: nat, c: char)
    requires value < TWO_32 && i < |data| && c as int % 256 != data[i] as int % 256
    ensures ChecksumFrom(data[i := c], value) != ChecksumFrom(data, value)
    decreases |data|
  {
    var now := data[i := c];
    var byte := data[0] as int % 256;
    hide BitXor;
    if i == 0 {
      assert now[1..] == data[1..];
      MixedDiffers(value, byte, value, c as int % 256);
      StatesStayApart(data[1..], Mixed(value, byte), Mixed(value, c as int % 256));
    } else {
      assert now[1..] == data[1..][i - 1 := c];
      ByteChangesHash(data[1..], Mixed(value, byte), i - 1, c);
    }
  }

  /** A record as it was stored, of whose payload one byte was changed since, is never offered for sending. */
  lemma DamagedIsRefused(q: Spool, s: Spool, payload: string, nowMs: nat, nowEpochSeconds: nat, deferred: bool, i: nat,
                         c: char, size: nat)
    requires q.oldest in q.files && i < |payload| && c as int % 256 != payload[i] as int % 256
    requires q.files[q.oldest]
          == Record(NewRecord(s, payload, nowMs, nowEpochSeconds, deferred).header, payload[i := c])
    ensures !CanOffer(q, size)
  {
    ByteChangesHash(payload, 2166136261, i, c);
    hide ChecksumFrom, OutgoingOf;
  }
}
