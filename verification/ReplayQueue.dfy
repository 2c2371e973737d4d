/**
 The simulator's bounded replay queue. One thread flushes it, another may add to it at any moment
 when the lock is free, also while an envelope taken from the queue is being published.
 */
module ReplayQueue {
  import opened OfflineQueuePolicy

  datatype Envelope = Envelope(topic: string, body: string, replayed: Option<bool>, status: bool, qos: nat,
                               retain: bool)

  /** An envelope and its number in the order of all that were ever queued. */
  datatype Entry = Entry(serial: nat, envelope: Envelope)

  /** The envelope as it is sent from the queue: marked, if it has the field at all. */
  function AsReplay(e: Envelope): Envelope {
    if e.replayed.Some? then e.(replayed := Some(true)) else e
  }

  /** A sent envelope is the queued one, except that the field, if there is one, says that it is a replay. */
  ghost predicate IsReplayOf(sent: Envelope, queued: Envelope) {
    && sent.topic == queued.topic && sent.body == queued.body && sent.status == queued.status
    && sent.qos == queued.qos && sent.retain == queued.retain
    && (queued.replayed == None ==> sent.replayed == None)
    && (queued.replayed != None ==> sent.replayed == Some(true))
  }

  ghost predicate Increasing(line: seq<Entry>) {
    forall i, j :: 0 <= i < j < |line| ==> line[i].serial < line[j].serial
  }

  ghost predicate Below(line: seq<Entry>, bound: nat) {
    forall i :: 0 <= i < |line| ==> line[i].serial < bound
  }

  class DevicePublisher {
    const queueLimit: nat
    /** The network: whether the n-th publish made outside the queue, or from it, is confirmed in time. */
    const confirmsDirect: nat -> bool
    const confirmsReplay: nat -> bool
    var directs: nat
    var replays: nat
    var connected: bool
    var queue: seq<Envelope>
    var dropped: nat
    var replayed: nat
    ghost var enqueued: nat
    /** The queue with the number of each envelope. */
    ghost var waiting: seq<Entry>
    ghost var inFlight: seq<Entry>
    ghost var sent: seq<Entry>
    ghost var wire: seq<Envelope>

    /** Everything that was queued and not dropped: sent, being sent, waiting. */
    ghost function Line(): seq<Entry>
      reads this
    {
      sent + inFlight + waiting
    }

    /** The bound, the count of envelopes, and their order. */
    ghost predicate Valid()
      reads this
    {
      && 1 <= queueLimit && |inFlight| <= 1
      && |queue| + |inFlight| <= queueLimit + 1
      && |waiting| == |queue| && (forall i :: 0 <= i < |queue| ==> waiting[i].envelope == queue[i])
      && enqueued == replayed + dropped + |queue| + |inFlight|
      && Increasing(Line()) && Below(Line(), enqueued)
      && |sent| == replayed && |wire| == replayed
      && forall i :: 0 <= i < |sent| ==> IsReplayOf(wire[i], sent[i].envelope)
    }

    constructor (queueLimit: nat, confirmsDirect: nat -> bool, confirmsReplay: nat -> bool)
      requires 1 <= queueLimit
      ensures Valid() && this.queueLimit == queueLimit && queue == [] && inFlight == [] && sent == []
      ensures this.confirmsDirect == confirmsDirect && this.confirmsReplay == confirmsReplay
    {
      this.queueLimit, connected, queue, dropped, replayed := queueLimit, false, [], 0, 0;
      this.confirmsDirect, this.confirmsReplay, directs, replays := confirmsDirect, confirmsReplay, 0, 0;
      enqueued, waiting, inFlight, sent, wire := 0, [], [], [], [];
    }

    /** Adds an envelope under the lock; a full queue loses its oldest one first. */
    method Enqueue(envelope: Envelope)
      requires Valid()
      modifies this`queue, this`waiting, this`dropped, this`enqueued
      ensures Valid() && enqueued == old(enqueued) + 1
      ensures dropped == old(dropped) + if |old(queue)| >= queueLimit then 1 else 0
      ensures queue == (if |old(queue)| >= queueLimit then old(queue)[1..] else old(queue)) + [envelope]
    {
      if |queue| >= queueLimit {
        LosesOne(sent + inFlight, waiting, enqueued);
        queue, waiting := queue[1..], waiting[1..];
        dropped := dropped + 1;
      }
      ghost var line := Line();
      queue, waiting := queue + [envelope], waiting + [Entry(enqueued, envelope)];
      assert Line() == line + [Entry(enqueued, envelope)];
      enqueued := enqueued + 1;
    }

    /** Publishes, or keeps for later what is not a status message. */
    method Publish(envelope: Envelope) returns (ok: bool)
      requires Valid()
      modifies this`queue, this`waiting, this`dropped, this`enqueued, this`directs
      ensures Valid() && dropped >= old(dropped)
      ensures ok <==> connected && confirmsDirect(old(directs))
      ensures directs == old(directs) + if connected then 1 else 0
      ensures ok || envelope.status ==> queue == old(queue) && dropped == old(dropped) && enqueued == old(enqueued)
      ensures !ok && !envelope.status ==> enqueued == old(enqueued) + 1 && queue != [] && queue[|queue| - 1] == envelope
    {
      ok := false;
      if connected {
        ok, directs := confirmsDirect(directs), directs + 1;
      }
      if !ok && !envelope.status {
        Enqueue(envelope);
      }
    }

    /** What another thread does while the lock is free. */
    method OtherThread()
      requires Valid()
      modifies this`queue, this`waiting, this`dropped, this`enqueued, this`connected, this`directs
      ensures Valid() && enqueued >= old(enqueued) && dropped >= old(dropped)
    {
      var actions: nat :| true;
      for i := 0 to actions
        invariant Valid() && enqueued >= old(enqueued) && dropped >= old(dropped)
      {
        connected := *;
        var envelope: Envelope := *;
        var ok := Publish(envelope);
      }
    }

    /** Takes the oldest waiting envelope out of the queue. */
    method TakeOldest() returns (e: Envelope)
      requires Valid() && inFlight == [] && queue != []
      modifies this`queue, this`waiting, this`inFlight
      ensures Valid() && |inFlight| == 1 && inFlight[0].envelope == e == old(queue)[0] && queue == old(queue)[1..]
    {
      ghost var line := Line();
      e := queue[0];
      inFlight := [waiting[0]];
      queue, waiting := queue[1..], waiting[1..];
      assert Line() == line;
    }

    method PutBack(e: Envelope)
      requires Valid() && |inFlight| == 1 && inFlight[0].envelope == e
      modifies this`queue, this`waiting, this`inFlight
      ensures Valid() && inFlight == [] && queue == [e] + old(queue) && waiting == old(inFlight) + old(waiting)
    {
      ghost var line := Line();
      queue := [e] + queue;
      waiting, inFlight := inFlight + waiting, [];
      assert Line() == line;
    }

    method Confirm(replay: Envelope)
      requires Valid() && |inFlight| == 1 && IsReplayOf(replay, inFlight[0].envelope)
      modifies this`replayed, this`inFlight, this`sent, this`wire
      ensures Valid() && inFlight == [] && sent == old(sent) + old(inFlight) && wire == old(wire) + [replay]
    {
      ghost var line := Line();
      replayed := replayed + 1;
      sent, wire, inFlight := sent + inFlight, wire + [replay], [];
      assert Line() == line;
    }

    method PublishReplay(replay: Envelope) returns (ok: bool)
      requires Valid()
      modifies this`replays
      ensures Valid() && replays == old(replays) + 1 && ok == confirmsReplay(old(replays))
    {
      ok, replays := confirmsReplay(replays), replays + 1;
    }

    /**
     One round of flushing: takes the oldest envelope under the lock, publishes it without the lock. It
     ends without sending exactly when it finds the queue empty or the network refuses.
     */
    method FlushOne() returns (ok: bool)
      requires Valid() && inFlight == []
      modifies this
      ensures Valid() && inFlight == []
      ensures if ok then sent != [] && sent[..|sent| - 1] == old(sent) && wire != [] && wire[..|wire| - 1] == old(wire)
              else sent == old(sent) && wire == old(wire)
      ensures ok ==> replays == old(replays) + 1 && confirmsReplay(old(replays))
      ensures !ok ==> || (queue == [] && replays == old(replays))
                      || (queue != [] && replays == old(replays) + 1 && !confirmsReplay(old(replays)))
    {
      hide Valid;
      ok := false;
      OtherThread();
      if queue == [] {
        return;
      }
      var e := TakeOldest();
      OtherThread();
      var replay := AsReplay(e);
      ok := PublishReplay(replay);
      OtherThread();
      if ok {
        Confirm(replay);
      } else {
        PutBack(e);
      }
    }

    /**
     Sends queued envelopes, oldest first, until one fails. Those sent follow, in the order they were
     queued, all that were sent before, and each is its envelope marked as a replay. Fewer than the maximum
     are sent only without a connection, when the queue is found empty, or when the network refuses the next.
     */
    method Flush(maximum: nat) returns (completed: nat)
      requires Valid() && inFlight == []
      modifies this
      ensures Valid() && inFlight == [] && completed <= maximum
      ensures old(sent) <= sent && |sent| == |old(sent)| + completed && Increasing(sent)
      ensures old(wire) <= wire && |wire| == |sent|
      ensures forall i :: 0 <= i < |wire| ==> IsReplayOf(wire[i], sent[i].envelope)
      ensures forall n :: old(replays) <= n < old(replays) + completed ==> confirmsReplay(n)
      ensures completed < maximum ==> || !old(connected)
                                      || (queue == [] && replays == old(replays) + completed)
                                      || (queue != [] && replays == old(replays) + completed + 1
                                          && !confirmsReplay(old(replays) + completed))
      ensures completed == maximum || !old(connected) ==> replays == old(replays) + completed
      ensures !old(connected) ==> completed == 0 && queue == old(queue) && unchanged(this)
    {
      hide Valid, IsReplayOf;
      completed := 0;
      if connected {
        while completed < maximum
          invariant Valid() && inFlight == [] && completed <= maximum
          invariant old(sent) <= sent && |sent| == |old(sent)| + completed && old(wire) <= wire
          invariant replays == old(replays) + completed
          invariant forall n :: old(replays) <= n < old(replays) + completed ==> confirmsReplay(n)
          decreases maximum - completed
        {
          var ok := FlushOne();
          if !ok {
            break;
          }
          completed := completed + 1;
        }
      }
      SentInOrder();
    }

    lemma SentInOrder()
      requires Valid()
      ensures Increasing(sent) && |wire| == |sent|
      ensures forall i :: 0 <= i < |wire| ==> IsReplayOf(wire[i], sent[i].envelope)
    {
      assert Line() == sent + (inFlight + waiting);
      PrefixIncreases(sent, inFlight + waiting);
    }
  }

  lemma LosesOne(ahead: seq<Entry>, queue: seq<Entry>, bound: nat)
    requires queue != [] && Increasing(ahead + queue) && Below(ahead + queue, bound)
    ensures Increasing(ahead + queue[1..]) && Below(ahead + queue[1..], bound)
  {
    var all, less := ahead + queue, ahead + queue[1..];
    forall i | 0 <= i < |less|
      ensures less[i] == all[if i < |ahead| then i else i + 1]
    {
    }
    forall i, j | 0 <= i < j < |less|
      ensures less[i].serial < less[j].serial
    {
      var a, b := if i < |ahead| then i else i + 1, if j < |ahead| then j else j + 1;
      assert all[a].serial < all[b].serial;
    }
  }

  lemma PrefixIncreases(prefix: seq<Entry>, rest: seq<Entry>)
    requires Increasing(prefix + rest)
    ensures Increasing(prefix)
  {
    forall i, j | 0 <= i < j < |prefix|
      ensures prefix[i].serial < prefix[j].serial
    {
      assert (prefix + rest)[i].serial < (prefix + rest)[j].serial;
    }
  }
}
