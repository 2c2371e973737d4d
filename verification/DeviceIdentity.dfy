/**
 The identity of samples: a boot counter kept in flash, a sequence counter kept in memory, and the
 sample id printed from both. Both counters are 32 bits wide and skip zero when they wrap.
 */
module DeviceIdentity {
  import opened OfflineQueuePolicy

  /** The counter after one more, which is never zero. */
  function Bumped(counter: nat): (r: nat)
    ensures 1 <= r < TWO_32
    ensures counter < TWO_32 - 1 ==> r == counter + 1
    ensures counter == TWO_32 - 1 ==> r == 1
  {
    if (counter + 1) % TWO_32 == 0 then 1 else (counter + 1) % TWO_32
  }

  function SampleId(device: string, bootId: nat, sequence: nat): string {
    device + ":" + Decimal(bootId) + ":" + Decimal(sequence)
  }

  /** An id that was handed out: the boot and the number within it. */
  datatype Issued = Issued(bootId: nat, sequence: nat)

  class Identity {
    const device: string
    /** The boot counter in flash. */
    var stored: nat
    var bootId: nat
    var sequence: nat
    var valid: bool
    ghost var issued: seq<Issued>
    /** Whether a counter has passed its end. */
    ghost var wrapped: bool

    /** Until a counter wraps, no id was handed out twice, and the next one will be new. */
    ghost predicate Valid()
      reads this
    {
      && stored < TWO_32 && sequence < TWO_32
      && (valid ==> bootId >= 1) && (!wrapped ==> AllNew())
    }

    ghost predicate AllNew()
      reads this
    {
      && (valid ==> bootId <= stored)
      && (forall i, j :: 0 <= i < j < |issued| ==> issued[i] != issued[j])
      && forall i :: 0 <= i < |issued| ==>
           1 <= issued[i].bootId <= stored && issued[i].sequence >= 1
           && (valid && issued[i].bootId == bootId ==> issued[i].sequence <= sequence)
    }

    constructor (device: string, stored: nat)
      requires stored < TWO_32
      ensures Valid() && this.device == device && this.stored == stored && !valid && issued == [] && !wrapped
    {
      this.device, this.stored := device, stored;
      bootId, sequence, valid, issued, wrapped := 0, 0, false, [], false;
    }

    /** Power comes back: memory is lost, flash is not. */
    method PowerUp()
      requires Valid()
      modifies this`bootId, this`sequence, this`valid
      ensures Valid() && !valid
    {
      bootId, sequence, valid := 0, 0, false;
    }

    /**
     Takes the next boot number and keeps it in flash first. The flash opens or not, the write reaches it
     or not, and may go unconfirmed although it did.
     */
    method Begin(opens: bool, written: bool, confirmed: bool) returns (ok: bool)
      requires Valid() && !valid && (confirmed ==> written)
      modifies this`stored, this`bootId, this`sequence, this`valid, this`wrapped
      ensures Valid() && ok == valid && (ok <==> opens && confirmed)
      ensures wrapped ==> old(wrapped) || old(stored) == TWO_32 - 1
      ensures ok ==> bootId == stored && sequence == 0
      ensures stored == if !opens || !written then old(stored)
                        else if old(stored) == 0xFFFF_FFFF then 1 else old(stored) + 1
    {
      if !opens {
        return false;
      }
      var next := Bumped(stored);
      if written {
        wrapped := wrapped || stored == TWO_32 - 1;
        stored := next;
      }
      if !confirmed {
        return false;
      }
      bootId, sequence, valid := next, 0, true;
      return true;
    }

    /** The number of the next sample, zero without an identity. */
    method NextSequence() returns (r: nat)
      requires Valid()
      modifies this`sequence, this`wrapped
      ensures Valid() && wrapped == (old(wrapped) || (valid && old(sequence) == TWO_32 - 1))
      ensures r == if !valid then 0 else if old(sequence) == 0xFFFF_FFFF then 1 else old(sequence) + 1
      ensures sequence == if valid then r else old(sequence)
    {
      if !valid {
        return 0;
      }
      wrapped := wrapped || sequence == TWO_32 - 1;
      sequence := Bumped(sequence);
      return sequence;
    }

    /** Prints the id of a sample into a buffer of this size. */
    method FormatSampleId(number: nat, size: nat) returns (id: Option<string>)
      ensures id == if valid && number != 0 && |SampleId(device, bootId, number)| < size
                    then Some(SampleId(device, bootId, number)) else None
    {
      if !valid || number == 0 || size == 0 {
        return None;
      }
      var text := SampleId(device, bootId, number);
      return if |text| < size then Some(text) else None;
    }

    /** Numbers a sample: its id is none of those handed out before, in this boot or any earlier one. */
    method Identify(size: nat) returns (id: Option<string>)
      requires Valid()
      modifies this`sequence, this`issued, this`wrapped
      ensures Valid() && old(issued) <= issued
      ensures wrapped == (old(wrapped) || (valid && old(sequence) == TWO_32 - 1))
      ensures id.Some? <==> valid && |device + ":" + Decimal(bootId) + ":" + Decimal(sequence)| < size
      ensures id.Some? ==> id.value == device + ":" + Decimal(bootId) + ":" + Decimal(sequence)
      ensures id.Some? ==> |issued| == |old(issued)| + 1 && id.value == Printed(device, issued[|issued| - 1])
      ensures id.Some? && !wrapped ==> forall i :: 0 <= i < |old(issued)| ==>
                Printed(device, old(issued)[i]) != id.value
    {
      var number := NextSequence();
      id := FormatSampleId(number, size);
      if id.Some? {
        ghost var latest := Issued(bootId, number);
        forall i | 0 <= i < |issued| && !wrapped
          ensures Printed(device, issued[i]) != id.value
        {
          SampleIdsAreDistinct(device, issued[i].bootId, issued[i].sequence, bootId, number);
        }
        issued := issued + [latest];
      }
    }
  }

  function Printed(device: string, i: Issued): string {
    SampleId(device, i.bootId, i.sequence)
  }

  /** A separator that is no digit shows where the first number ends. */
  lemma {:induction false} SplitsAtColon(a: string, b: string, c: string, d: string)
    requires AllDigits(a) && AllDigits(c) && a + ":" + b == c + ":" + d
    ensures a == c && b == d
    decreases |a|
  {
    if a == "" || c == "" {
      assert (a + ":" + b)[0] == (c + ":" + d)[0];
      assert a != "" ==> a[0] in a && IsDigit(a[0]);
      assert c != "" ==> c[0] in c && IsDigit(c[0]);
      assert a == "" && c == "";
      assert (a + ":" + b)[1..] == b && (c + ":" + d)[1..] == d;
    } else {
      assert (a + ":" + b)[0] == a[0] && (c + ":" + d)[0] == c[0];
      assert (a + ":" + b)[1..] == a[1..] + ":" + b && (c + ":" + d)[1..] == c[1..] + ":" + d;
      SplitsAtColon(a[1..], b, c[1..], d);
    }
  }

  /** Equal sample ids of a device have equal boots and equal numbers. */
  lemma SampleIdsAreDistinct(device: string, boot1: nat, number1: nat, boot2: nat, number2: nat)
    ensures SampleId(device, boot1, number1) == SampleId(device, boot2, number2)
            <==> boot1 == boot2 && number1 == number2
  {
    if SampleId(device, boot1, number1) == SampleId(device, boot2, number2) {
      var one := Decimal(boot1) + ":" + Decimal(number1);
      var two := Decimal(boot2) + ":" + Decimal(number2);
      assert SampleId(device, boot1, number1) == (device + ":") + one;
      assert SampleId(device, boot2, number2) == (device + ":") + two;
      hide Decimal, AllDigits, SampleId;
      SamePrefix(device + ":", one, two);
      DecimalDigits(boot1);
      DecimalDigits(boot2);
      SplitsAtColon(Decimal(boot1), Decimal(number1), Decimal(boot2), Decimal(number2));
      DecimalIsInjective(boot1, boot2);
      DecimalIsInjective(number1, number2);
    }
  }

  lemma SamePrefix(prefix: string, a: string, b: string)
    requires prefix + a == prefix + b
    ensures a == b
  {
    assert a == (prefix + a)[|prefix|..] && b == (prefix + b)[|prefix|..];
  }

  lemma DecimalDigits(n: nat)
    ensures AllDigits(Decimal(n))
  {
    DecimalValue(n);
  }

  lemma DecimalIsInjective(m: nat, n: nat)
    ensures Decimal(m) == Decimal(n) <==> m == n
  {
    hide Decimal, Value, AllDigits;
    DecimalValue(m);
    DecimalValue(n);
  }
}
