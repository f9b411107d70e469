/** The properties of a job that order it inside the channels, and the
  * comparison the heaps use (`ChannelJob.__lt__`).
  *
  * Times are integers; an eta of 0 stands for "no eta" (the program treats
  * `None` and 0 alike: both are falsy).
  */
module ChannelJobs {

  /** `sorting_key_ignoring_eta`: priority, then creation date, then sequence. */
  datatype Key = Key(priority: int, created: int, seqno: int)

  predicate KeyLess(a: Key, b: Key) {
    || a.priority < b.priority
    || (a.priority == b.priority && a.created < b.created)
    || (a.priority == b.priority && a.created == b.created && a.seqno < b.seqno)
  }

  /** `__lt__`: a job with an eta comes before a job without one; otherwise the
    * eta (if any) is compared first and the key after it. */
  predicate Before(etaA: int, a: Key, etaB: int, b: Key) {
    if etaA != 0 && etaB == 0 then true
    else if etaA == 0 && etaB != 0 then false
    else etaA < etaB || (etaA == etaB && KeyLess(a, b))
  }

  /** The order is a strict weak order even over jobs with and without eta:
    * irreflexive, transitive, and incomparability is transitive too. */
  lemma BeforeIsStrictWeakOrder(ea: int, a: Key, eb: int, b: Key, ec: int, c: Key)
    ensures !Before(ea, a, ea, a)
    ensures Before(ea, a, eb, b) && Before(eb, b, ec, c) ==> Before(ea, a, ec, c)
    ensures !Before(ea, a, eb, b) && !Before(eb, b, ec, c) ==> !Before(ea, a, ec, c)
    ensures !Before(ea, a, eb, b) && !Before(eb, b, ea, a) ==> ea == eb && a == b
  {
  }

  /** In words: the smaller priority number first, then the earlier creation date, then
    * the smaller sequence number. */
  lemma KeyOrder(a: Key, b: Key)
    ensures a.priority != b.priority ==> (!KeyLess(b, a) <==> a.priority < b.priority)
    ensures a.priority == b.priority && a.created != b.created ==> (!KeyLess(b, a) <==> a.created < b.created)
    ensures a.priority == b.priority && a.created == b.created ==> (!KeyLess(b, a) <==> a.seqno <= b.seqno)
  {
  }

  /** Jobs with an eta come before jobs without; of two with etas the earlier comes first,
    * and the key decides between equal etas and between jobs without eta. */
  lemma EtaOrder(ea: int, a: Key, eb: int, b: Key)
    ensures ea != 0 && eb == 0 ==> Before(ea, a, eb, b) && !Before(eb, b, ea, a)
    ensures ea != 0 && eb != 0 && ea < eb ==> Before(ea, a, eb, b) && !Before(eb, b, ea, a)
    ensures ea == eb ==> (Before(ea, a, eb, b) <==> KeyLess(a, b))
  {
  }

  /** A popped job is first by priority, creation date and sequence of all that were ready
    * or due. */
  lemma PoppedIsFirst<J>(sequential: bool, now: int, key: J -> Key, eta: map<J, int>,
                         ready: set<J>, waiting: set<J>, ready': set<J>, waiting': set<J>, r: Option<J>, k: J)
    requires waiting <= eta.Keys && PopSpec(sequential, now, key, eta, ready, waiting, ready', waiting', r)
    requires r.Some? && (k in ready || (k in waiting && eta[k] <= now))
    ensures key(r.value).priority <= key(k).priority
    ensures key(r.value).priority == key(k).priority ==> key(r.value).created <= key(k).created
    ensures key(r.value).priority == key(k).priority && key(r.value).created == key(k).created ==>
      key(r.value).seqno <= key(k).seqno
  {
    assert k in ready + DueJobs(waiting, eta, now);
    KeyOrder(key(r.value), key(k));
  }

  datatype Option<+T> = None | Some(value: T)

  /** The states of a job. */
  datatype JobState = WaitDependencies | Pending | Enqueued | Started | Done | Cancelled | Failed

  /** How often a serialization failure of `enqueue_waiting` is followed by another try. */
  const DEPENDS_MAX_TRIES: nat := 5

  // ------------------------------------------------ what `ChannelQueue.pop` does

  /** `j` is a member of `S` that no other member precedes, ignoring etas. */
  ghost predicate IsBest<J>(S: set<J>, key: J -> Key, j: J) {
    j in S && forall k | k in S :: !KeyLess(key(k), key(j))
  }

  /** `j` is a member of `S` that no other member precedes in heap order. */
  ghost predicate IsEarliest<J>(S: set<J>, key: J -> Key, eta: map<J, int>, j: J)
    requires S <= eta.Keys
  {
    j in S && forall k | k in S :: !Before(eta[k], key(k), eta[j], key(j))
  }

  /** A sequential queue holds its ready jobs back when the waiting job with the
    * earliest eta outranks the best ready one. */
  ghost predicate HeldBack<J>(ready: set<J>, waiting: set<J>, key: J -> Key, eta: map<J, int>)
    requires waiting <= eta.Keys
  {
    exists e, b | e in waiting && b in ready ::
      IsEarliest(waiting, key, eta, e) && IsBest(ready, key, b) && KeyLess(key(e), key(b))
  }

  ghost function DueJobs<J>(waiting: set<J>, eta: map<J, int>, now: int): set<J>
    requires waiting <= eta.Keys
  {
    set j | j in waiting && eta[j] <= now
  }

  /** The contract of `ChannelQueue.pop(now)`: exactly the waiting jobs that are
    * due become ready; then either the best ready job is taken out, or nothing
    * is because no job is ready or a sequential queue is held back. */
  ghost predicate PopSpec<J>(sequential: bool, now: int, key: J -> Key, eta: map<J, int>,
                             ready: set<J>, waiting: set<J>, ready': set<J>, waiting': set<J>, r: Option<J>)
    requires waiting <= eta.Keys
  {
    var due := DueJobs(waiting, eta, now);
    && waiting' == waiting - due
    && match r
       case None =>
         && ready' == ready + due
         && (ready' == {} || (sequential && HeldBack(ready', waiting', key, eta)))
       case Some(j) =>
         && IsBest(ready + due, key, j)
         && ready' == (ready + due) - {j}
         && !(sequential && HeldBack(ready + due, waiting', key, eta))
  }

  /** Whether a sequential queue is held back can be read off any earliest
    * waiting job and any best ready one, as the program does. */
  lemma HeldBackByAny<J>(ready: set<J>, waiting: set<J>, key: J -> Key, eta: map<J, int>, e: J, b: J)
    requires waiting <= eta.Keys
    requires IsEarliest(waiting, key, eta, e) && IsBest(ready, key, b)
    ensures HeldBack(ready, waiting, key, eta) <==> KeyLess(key(e), key(b))
  {
    forall e2, b2 | e2 in waiting && b2 in ready && IsEarliest(waiting, key, eta, e2) && IsBest(ready, key, b2)
      ensures key(e2) == key(e) && key(b2) == key(b)
    {
      assert !Before(eta[e], key(e), eta[e2], key(e2)) && !Before(eta[e2], key(e2), eta[e], key(e));
      assert !KeyLess(key(b), key(b2)) && !KeyLess(key(b2), key(b));
    }
  }

  // ------------------------------- what a sequential queue does not guarantee

  /** The popped job is outranked by a job that goes on waiting. */
  ghost predicate Overtakes<J>(waiting: set<J>, key: J -> Key, r: Option<J>) {
    r.Some? && exists w :: w in waiting && KeyLess(key(w), key(r.value))
  }

  /** Some waiting job outranks the best ready one; in a sequential queue, though, the
    * one with the earliest eta does not. */
  ghost predicate MayOvertake<J>(sequential: bool, ready: set<J>, waiting: set<J>, key: J -> Key, eta: map<J, int>)
    requires waiting <= eta.Keys
  {
    && !(sequential && HeldBack(ready, waiting, key, eta))
    && exists b, w | b in ready && w in waiting :: IsBest(ready, key, b) && KeyLess(key(w), key(b))
  }

  /** `pop` lets a job pass a waiting one of higher rank exactly when that is so before
    * the call, for the ready and the due jobs together. */
  lemma OvertakesExactly<J>(sequential: bool, now: int, key: J -> Key, eta: map<J, int>,
                            ready: set<J>, waiting: set<J>, ready': set<J>, waiting': set<J>, r: Option<J>)
    requires waiting <= eta.Keys && PopSpec(sequential, now, key, eta, ready, waiting, ready', waiting', r)
    ensures waiting' <= eta.Keys
    ensures Overtakes(waiting', key, r) <==> MayOvertake(sequential, ready + DueJobs(waiting, eta, now), waiting', key, eta)
  {
    var all := ready + DueJobs(waiting, eta, now);
    if MayOvertake(sequential, all, waiting', key, eta) {
      var b, w :| b in all && w in waiting' && IsBest(all, key, b) && KeyLess(key(w), key(b));
      assert r.Some?;
      assert !KeyLess(key(b), key(r.value)) && !KeyLess(key(r.value), key(b));
    }
  }

  /** In terms of the two jobs that the program compares: `e` is the waiting job it looks
    * at, `b` the ready one. */
  lemma SequentialOvertakesExactly<J>(now: int, key: J -> Key, eta: map<J, int>,
                                      ready: set<J>, waiting: set<J>, ready': set<J>, waiting': set<J>, r: Option<J>, e: J, b: J)
    requires waiting <= eta.Keys && PopSpec(true, now, key, eta, ready, waiting, ready', waiting', r)
    requires waiting' <= eta.Keys && IsEarliest(waiting', key, eta, e) && IsBest(ready + DueJobs(waiting, eta, now), key, b)
    ensures Overtakes(waiting', key, r) <==> !KeyLess(key(e), key(b)) && exists w :: w in waiting' && KeyLess(key(w), key(b))
  {
    var all := ready + DueJobs(waiting, eta, now);
    HeldBackByAny(all, waiting', key, eta, e, b);
    if r.Some? {
      assert !KeyLess(key(b), key(r.value)) && !KeyLess(key(r.value), key(b));
    }
  }

  /** Three jobs: a ready one of priority 5, and two that wait, one of priority 9 until
    * 10 and one of priority 1 until 20. */
  function ThreeKeys(j: int): Key {
    Key(if j == 0 then 5 else if j == 1 then 9 else 1, 0, j)
  }

  /** At time 0 a sequential queue of these gives the ready job, although the last one
    * outranks it: only the one with the earliest eta is compared. */
  lemma SequentialQueueOvertakes()
    ensures PopSpec(true, 0, ThreeKeys, map[1 := 10, 2 := 20], {0}, {1, 2}, {}, {1, 2}, Some(0))
    ensures Overtakes({1, 2}, ThreeKeys, Some(0))
  {
    var eta := map[1 := 10, 2 := 20];
    assert DueJobs({1, 2}, eta, 0) == {};
    assert IsEarliest({1, 2}, ThreeKeys, eta, 1) && IsBest({0}, ThreeKeys, 0);
    HeldBackByAny({0}, {1, 2}, ThreeKeys, eta, 1, 0);
    assert {0} + {} == {0} && {1, 2} - {} == {1, 2};
    assert KeyLess(ThreeKeys(2), ThreeKeys(0));
  }
}
