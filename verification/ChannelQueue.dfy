/** The queue of one channel: ready jobs compete, jobs with an eta wait until it
  * has passed.
  */
module ChannelQueues {
  import opened ChannelJobs
  import opened PriorityQueues

  function KeyOf(j: ChannelJob): Key { j.key }

  /** No job of `S` has a smaller priority number, or the same and an earlier creation date,
    * or both the same and a smaller sequence number. */
  ghost predicate IsFirst(S: set<ChannelJob>, j: ChannelJob) {
    forall k | k in S :: NotAfter(j.key, k.key)
  }

  /** Smaller or equal by priority, then creation date, then sequence. */
  predicate NotAfter(a: Key, b: Key) {
    && a.priority <= b.priority
    && (a.priority == b.priority ==> a.created <= b.created)
    && (a.priority == b.priority && a.created == b.created ==> a.seqno <= b.seqno)
  }

  class ChannelQueue {
    const queue: PriorityQueue
    const etaQueue: PriorityQueue
    var sequential: bool

    /** Heap entries (removed ones included) of the eta queue have an eta, those
      * of the ready queue have none. */
    ghost predicate Valid()
      reads this, queue, etaQueue, queue.known, etaQueue.known
    {
      && queue != etaQueue
      && queue.Valid() && etaQueue.Valid()
      && (forall j :: j in queue.known ==> j.eta == 0)
      && (forall j :: j in etaQueue.known ==> j.eta != 0)
    }

    ghost function Ready(): set<ChannelJob>
      reads queue
    {
      queue.live
    }

    ghost function Waiting(): set<ChannelJob>
      reads etaQueue
    {
      etaQueue.live
    }

    ghost function Etas(): map<ChannelJob, int>
      reads etaQueue, etaQueue.live
    {
      map j | j in etaQueue.live :: j.eta
    }

    ghost function Due(now: int): set<ChannelJob>
      reads etaQueue, etaQueue.live
    {
      set j | j in etaQueue.live && j.eta <= now
    }

    constructor (sequential: bool)
      ensures Valid() && fresh(queue) && fresh(etaQueue)
      ensures Ready() == {} && Waiting() == {} && this.sequential == sequential
    {
      queue := new PriorityQueue();
      etaQueue := new PriorityQueue();
      this.sequential := sequential;
    }

    method Length() returns (n: nat)
      requires Valid()
      ensures n == |Ready()| + |Waiting()|
    {
      var a := etaQueue.Length();
      var b := queue.Length();
      n := a + b;
    }

    method Contains(j: ChannelJob) returns (b: bool)
      requires Valid()
      ensures b <==> j in Ready() + Waiting()
    {
      b := etaQueue.Contains(j);
      if !b {
        b := queue.Contains(j);
      }
    }

    method Add(j: ChannelJob)
      requires Valid()
      modifies queue, etaQueue
      ensures Valid()
      ensures j.eta != 0 ==> Waiting() == old(Waiting()) + {j} && Ready() == old(Ready())
      ensures j.eta == 0 ==> Ready() == old(Ready()) + {j} && Waiting() == old(Waiting())
      ensures etaQueue.known == if j.eta != 0 then old(etaQueue.known) + {j} else old(etaQueue.known)
    {
      if j.eta != 0 {
        etaQueue.Add(j);
      } else {
        queue.Add(j);
      }
    }

    method Remove(j: ChannelJob)
      requires Valid()
      modifies queue, etaQueue
      ensures Valid() && Waiting() == old(Waiting()) - {j} && Ready() == old(Ready()) - {j}
    {
      etaQueue.Remove(j);
      queue.Remove(j);
    }

    /** One due job changes sides: it leaves the eta heap, loses its eta while it
      * is in no heap at all, and joins the ready heap. */
    method RipenFirst() returns (j: ChannelJob)
      requires Valid() && Waiting() != {}
      modifies queue, etaQueue, Waiting()`eta
      ensures etaQueue.known <= old(etaQueue.known)
      ensures Valid()
      ensures j in old(Waiting()) && Waiting() == old(Waiting()) - {j} && Ready() == old(Ready()) + {j}
      ensures j.eta == 0 && forall x :: x in Waiting() ==> x.eta == old(x.eta)
      ensures forall x :: x in old(Waiting()) ==> old(j.eta) <= old(x.eta)
    {
      var r := etaQueue.Pop();
      j := r.value;
      assert forall x :: x in old(Waiting()) ==> !Less(x, j);
      assert j !in queue.known && j !in etaQueue.known;
      j.eta := 0;
      queue.Add(j);
    }

    /** `self._eta_queue[0]`: a waiting job with the smallest eta. */
    method FirstWaiting() returns (r: Option<ChannelJob>)
      requires Valid()
      modifies etaQueue
      ensures etaQueue.known <= old(etaQueue.known)
      ensures Valid() && Waiting() == old(Waiting()) && Ready() == old(Ready())
      ensures r.None? <==> Waiting() == {}
      ensures r.Some? ==> r.value in Waiting() && IsEarliest(Waiting(), KeyOf, Etas(), r.value)
      ensures r.Some? ==> forall x :: x in Waiting() ==> r.value.eta <= x.eta
    {
      r := etaQueue.Peek();
      if r.Some? {
        forall x | x in Waiting()
          ensures r.value.eta <= x.eta && !Before(x.eta, KeyOf(x), r.value.eta, KeyOf(r.value))
        {
          assert !Less(x, r.value);
        }
      }
    }

    /** The test and the body of the first loop of `pop`. */
    method RipenNext(now: int) returns (more: bool, ghost moved: set<ChannelJob>)
      requires Valid()
      modifies queue, etaQueue, Waiting()`eta
      ensures etaQueue.known <= old(etaQueue.known)
      ensures Valid()
      ensures moved <= old(Waiting()) && Waiting() == old(Waiting()) - moved && Ready() == old(Ready()) + moved
      ensures forall j :: j in moved ==> j.eta == 0 && old(j.eta) <= now
      ensures forall j :: j in Waiting() ==> j.eta == old(j.eta)
      ensures more <==> moved != {}
      ensures !more ==> forall j :: j in Waiting() ==> j.eta > now
    {
      var first := FirstWaiting();
      more := first.Some? && first.value.eta <= now;
      moved := {};
      if more {
        var j := RipenFirst();
        moved := {j};
      }
    }

    /** The first loop of `pop`: exactly the due jobs change sides. */
    method Ripen(now: int) returns (ghost gone: set<ChannelJob>)
      requires Valid()
      modifies queue, etaQueue, Waiting()`eta
      ensures etaQueue.known <= old(etaQueue.known)
      ensures Valid()
      ensures gone <= old(Waiting()) && Waiting() == old(Waiting()) - gone
      ensures Ready() == old(Ready()) + gone
      ensures forall j :: j in gone ==> j.eta == 0 && old(j.eta) <= now
      ensures forall j :: j in Waiting() ==> j.eta == old(j.eta) && j.eta > now
    {
      ghost var waiting0, ready0 := Waiting(), Ready();
      ghost var moved;
      gone := {};
      var more := true;
      while more
        invariant Valid() && etaQueue.known <= old(etaQueue.known)
        invariant gone <= waiting0 && Waiting() == waiting0 - gone
        invariant Ready() == ready0 + gone
        invariant forall j :: j in Waiting() ==> j.eta == old(j.eta)
        invariant forall j :: j in gone ==> j.eta == 0 && old(j.eta) <= now
        invariant !more ==> forall j :: j in Waiting() ==> j.eta > now
        decreases Waiting(), more
      {
        more, moved := RipenNext(now);
        gone := gone + moved;
      }
    }

    /** `self._queue[0]`: a best ready job. */
    method FirstReady() returns (r: Option<ChannelJob>)
      requires Valid()
      modifies queue
      ensures Valid() && Ready() == old(Ready()) && Waiting() == old(Waiting())
      ensures r.None? <==> Ready() == {}
      ensures r.Some? ==> IsBest(Ready(), KeyOf, r.value)
    {
      r := queue.Peek();
      if r.Some? {
        forall x | x in Ready() ensures !KeyLess(KeyOf(x), KeyOf(r.value)) {
          assert !Less(x, r.value);
        }
      }
    }

    /** `self._queue.pop()`: a best ready job leaves the queue. */
    method TakeBest() returns (r: Option<ChannelJob>)
      requires Valid()
      modifies queue
      ensures Valid() && Waiting() == old(Waiting())
      ensures r.None? ==> old(Ready()) == {} && Ready() == {}
      ensures r.Some? ==> IsBest(old(Ready()), KeyOf, r.value) && Ready() == old(Ready()) - {r.value}
    {
      r := queue.Pop();
      if r.Some? {
        forall x | x in old(Ready()) ensures !KeyLess(KeyOf(x), KeyOf(r.value)) {
          assert !Less(x, r.value);
        }
      }
    }

    /** The test that holds a sequential queue back. */
    method IsHeldBack() returns (held: bool)
      requires Valid()
      modifies queue, etaQueue
      ensures etaQueue.known <= old(etaQueue.known)
      ensures Valid() && Ready() == old(Ready()) && Waiting() == old(Waiting())
      ensures held <==> sequential && HeldBack(Ready(), Waiting(), KeyOf, Etas())
    {
      if !sequential {
        return false;
      }
      var etaJob := FirstWaiting();
      var job := FirstReady();
      if etaJob.None? || job.None? {
        return false;
      }
      HeldBackByAny(Ready(), Waiting(), KeyOf, Etas(), etaJob.value, job.value);
      held := KeyLess(etaJob.value.key, job.value.key);
    }

    /** `pop`: no job is lost or duplicated; see `PopSpec`. A job passes a waiting one of
      * higher rank only as `MayOvertake` says. */
    method Pop(now: int) returns (r: Option<ChannelJob>)
      requires Valid()
      modifies queue, etaQueue, Waiting()`eta
      ensures etaQueue.known <= old(etaQueue.known)
      ensures Valid()
      ensures PopSpec(sequential, now, KeyOf, old(Etas()), old(Ready()), old(Waiting()), Ready(), Waiting(), r)
      ensures Overtakes(Waiting(), KeyOf, r)
        <==> MayOvertake(sequential, old(Ready() + Due(now)), Waiting(), KeyOf, old(Etas()))
      ensures forall j :: j in Waiting() ==> j.eta == old(j.eta)
      ensures forall j :: j in old(Waiting()) - Waiting() ==> j.eta == 0
      ensures r.Some? ==> r.value.eta == 0
      ensures Waiting() == old(Waiting() - Due(now))
      ensures Ready() == old(Ready() + Due(now)) - (if r.Some? then {r.value} else {})
      ensures r.Some? ==> IsBest(old(Ready() + Due(now)), KeyOf, r.value)
      ensures r.Some? ==> IsFirst(old(Ready() + Due(now)), r.value)
    {
      ghost var etas, due := Etas(), Due(now);
      assert due == DueJobs(Waiting(), etas, now);
      r := RipenAndTake(now);
      OvertakesExactly(sequential, now, KeyOf, etas, old(Ready()), old(Waiting()), Ready(), Waiting(), r);
      forall k | r.Some? && k in old(Ready()) + due ensures NotAfter(r.value.key, k.key) {
        KeyOrder(r.value.key, k.key);
      }
    }

    /** The two parts of `pop`. */
    method RipenAndTake(now: int) returns (r: Option<ChannelJob>)
      requires Valid()
      modifies queue, etaQueue, Waiting()`eta
      ensures etaQueue.known <= old(etaQueue.known)
      ensures Valid()
      ensures PopSpec(sequential, now, KeyOf, old(Etas()), old(Ready()), old(Waiting()), Ready(), Waiting(), r)
      ensures forall j :: j in Waiting() ==> j.eta == old(j.eta)
      ensures forall j :: j in old(Waiting()) - Waiting() ==> j.eta == 0
      ensures r.Some? ==> r.value.eta == 0
    {
      ghost var etas := Etas();
      ghost var gone := Ripen(now);
      assert gone == DueJobs(old(Waiting()), etas, now);
      ghost var ready := Ready();
      r := TakeUnlessHeld();
    }

    /** What `pop` does when no waiting job is due. */
    method TakeUnlessHeld() returns (r: Option<ChannelJob>)
      requires Valid()
      modifies queue, etaQueue
      ensures etaQueue.known <= old(etaQueue.known)
      ensures Valid() && Waiting() == old(Waiting())
      ensures r.None? ==> Ready() == old(Ready())
      ensures r.None? ==> Ready() == {} || (sequential && HeldBack(Ready(), Waiting(), KeyOf, Etas()))
      ensures r.Some? ==> IsBest(old(Ready()), KeyOf, r.value) && Ready() == old(Ready()) - {r.value}
      ensures r.Some? ==> !(sequential && HeldBack(old(Ready()), Waiting(), KeyOf, Etas()))
      ensures r.Some? ==> r.value.eta == 0
    {
      var held := IsHeldBack();
      if held {
        return None;
      }
      r := TakeBest();
    }

    /** `get_wakeup_time`: the earlier of `acc` and the first eta waited for. */
    method GetWakeupTime(acc: int) returns (w: int)
      requires Valid()
      modifies etaQueue
      ensures Valid() && Ready() == old(Ready()) && Waiting() == old(Waiting())
      ensures Waiting() == {} ==> w == acc
      ensures Waiting() != {} ==> forall j :: j in Waiting() ==> w <= j.eta
      ensures Waiting() != {} && acc != 0 ==> w <= acc
      ensures w == acc || exists j :: j in Waiting() && w == j.eta
      ensures acc == 0 && Waiting() != {} ==> exists j :: j in Waiting() && w == j.eta
    {
      w := acc;
      var first := FirstWaiting();
      if first.Some? {
        if w == 0 {
          w := first.value.eta;
        } else {
          w := if w < first.value.eta then w else first.value.eta;
        }
      }
    }
  }

  // ---------------------------------------- the queues of several channels

  /** The queues of different channels share job objects, but an entry of one eta heap,
    * removed or not, is in no other: a job waits in its own channel only. */
  ghost predicate Apart(a: ChannelQueue, b: ChannelQueue)
    reads a.etaQueue, b.etaQueue
  {
    && a.queue !in {b.queue, b.etaQueue} && a.etaQueue !in {b.queue, b.etaQueue}
    && a.etaQueue.known !! b.etaQueue.known
  }

  ghost predicate Together(qs: set<ChannelQueue>)
    reads qs, (set q | q in qs :: q.queue), (set q | q in qs :: q.etaQueue)
    reads (set q, j | q in qs && j in q.queue.known :: j), (set q, j | q in qs && j in q.etaQueue.known :: j)
  {
    && (forall q :: q in qs ==> q.Valid())
    && forall a, b :: a in qs && b in qs && a != b ==> Apart(a, b)
  }

  /** `pop` beside other queues: it clears etas of shared job objects, but the heaps of all
    * queues stay ordered and the other queues do not notice. */
  method PopBeside(others: set<ChannelQueue>, q: ChannelQueue, now: int) returns (r: Option<ChannelJob>)
    requires q.Valid() && forall p :: p in others ==> p != q && p.Valid() && Apart(p, q)
    modifies q.queue, q.etaQueue, q.Waiting()`eta
    ensures q.Valid() && q.etaQueue.known <= old(q.etaQueue.known) && (r.Some? ==> r.value.eta == 0)
    ensures forall p :: p in others ==> p.Valid()
    ensures q.Waiting() == old(q.Waiting() - q.Due(now))
    ensures q.Ready() == old(q.Ready() + q.Due(now)) - (if r.Some? then {r.value} else {})
    ensures r.Some? ==> IsBest(old(q.Ready() + q.Due(now)), KeyOf, r.value)
  {
    forall p | p in others ensures q.Waiting() !! p.queue.known + p.etaQueue.known {
      assert p.Valid() && Apart(p, q);
    }
    r := q.Pop(now);
  }

  /** `pop` on one of several queues: all of them stay together and the others as they are. */
  method PopAmong(qs: set<ChannelQueue>, q: ChannelQueue, now: int) returns (r: Option<ChannelJob>)
    requires q in qs && Together(qs)
    modifies q.queue, q.etaQueue, q.Waiting()`eta
    ensures Together(qs) && (r.Some? ==> r.value.eta == 0)
    ensures q.Waiting() == old(q.Waiting() - q.Due(now))
    ensures q.Ready() == old(q.Ready() + q.Due(now)) - (if r.Some? then {r.value} else {})
    ensures r.Some? ==> IsBest(old(q.Ready() + q.Due(now)), KeyOf, r.value)
    ensures forall p :: p in qs && p != q ==> p.Ready() == old(p.Ready()) && p.Waiting() == old(p.Waiting())
  {
    forall p | p in qs && p != q ensures Apart(p, q) {
    }
    r := PopBeside(qs - {q}, q, now);
    forall a, b | a in qs && b in qs && a != b ensures Apart(a, b) {
      assert old(Apart(a, b));
    }
  }

  /** What a channel yields is queued in its parent: one job passes from one queue of
    * the tree to another, still without disturbing any heap. */
  method PassOn(qs: set<ChannelQueue>, q: ChannelQueue, parent: ChannelQueue, now: int) returns (r: Option<ChannelJob>)
    requires q in qs && parent in qs && parent != q && Together(qs)
    modifies q.queue, q.etaQueue, parent.queue, parent.etaQueue, q.Waiting()`eta
    ensures Together(qs)
    ensures q.Waiting() == old(q.Waiting() - q.Due(now))
    ensures q.Ready() == old(q.Ready() + q.Due(now)) - (if r.Some? then {r.value} else {})
    ensures r.Some? ==> IsBest(old(q.Ready() + q.Due(now)), KeyOf, r.value)
    ensures parent.Waiting() == old(parent.Waiting())
    ensures parent.Ready() == old(parent.Ready()) + if r.Some? then {r.value} else {}
    ensures forall p :: p in qs && p != q && p != parent ==> p.Ready() == old(p.Ready()) && p.Waiting() == old(p.Waiting())
  {
    r := PopAmong(qs, q, now);
    if r.Some? {
      AddAmong(qs, parent, r.value);
    }
  }

  /** `add` on one of several queues, of a job without eta. */
  method AddAmong(qs: set<ChannelQueue>, q: ChannelQueue, j: ChannelJob)
    requires q in qs && Together(qs) && j.eta == 0
    modifies q.queue, q.etaQueue
    ensures Together(qs) && q.Ready() == old(q.Ready()) + {j} && q.Waiting() == old(q.Waiting())
    ensures forall p :: p in qs && p != q ==> p.Ready() == old(p.Ready()) && p.Waiting() == old(p.Waiting())
  {
    forall p | p in qs && p != q ensures Apart(p, q) {
    }
    q.Add(j);
  }
}
