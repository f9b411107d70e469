/** One job object as a worker handles it: its dependencies, the attempts to perform
  * it, and the waiting time after an attempt that is to be repeated.
  */
module JobAttempts {
  import opened ChannelJobs

  /** Seconds to wait, or an interval to choose them from. */
  datatype Wait = Fixed(seconds: int) | Between(lo: int, hi: int)

  /** How the function of a job, or a database conflict, ends an attempt. The last two
    * come before the row is committed as started, so `perform` is not reached. */
  datatype Outcome =
    | Succeeds
    | NothingToDo
    | Retryable(ignoreRetry: bool, wait: Option<Wait>)
    | Conflict
    | Fails
    | ConflictBefore
    | FailsBefore

  /** What the end of an attempt makes of the job. */
  datatype Ending = Over(state: JobState) | Again

  // ------------------------------------------------------------ the job object

  class JobRecord {
    var state: JobState
    var retry: nat
    /** 0 means that retryable errors may repeat without end. */
    const maxRetries: nat
    var eta: int
    var dependsOn: set<JobRecord>
    var reverseDependsOn: set<JobRecord>

    constructor (maxRetries: nat)
      ensures state == Pending && retry == 0 && eta == 0 && this.maxRetries == maxRetries
      ensures dependsOn == {} && reverseDependsOn == {}
    {
      state, retry, eta := Pending, 0, 0;
      this.maxRetries := maxRetries;
      dependsOn, reverseDependsOn := {}, {};
    }

    /** `add_depends`; `all` is any set of jobs that holds this job and the parents.
      * It refuses a dependency on the job itself, keeps the links between the jobs
      * of `all` mutual, and makes a job with an unfinished new parent wait. */
    method AddDepends(parents: set<JobRecord>, ghost all: set<JobRecord>) returns (ok: bool)
      requires this in all && parents <= all && Linked(all)
      modifies this`dependsOn, this`state, parents`reverseDependsOn
      ensures ok <==> this !in parents
      ensures !ok ==> unchanged(all)
      ensures ok ==> dependsOn == old(dependsOn) + parents
      ensures ok ==> state == if old(AnyUnfinished(parents)) then WaitDependencies else old(state)
      ensures Linked(all)
    {
      if this in parents {
        return false;
      }
      dependsOn := dependsOn + parents;
      EnterIn(parents);
      if exists p :: p in parents && p.state != Done {
        state := WaitDependencies;
      }
      ok := true;
    }

    /** The loop of `add_depends`. */
    method EnterIn(parents: set<JobRecord>)
      modifies parents`reverseDependsOn
      ensures forall p :: p in parents ==> p.reverseDependsOn == old(p.reverseDependsOn) + {this}
    {
      var rest := parents;
      while rest != {}
        invariant rest <= parents
        invariant forall p :: p in rest ==> p.reverseDependsOn == old(p.reverseDependsOn)
        invariant forall p :: p in parents - rest ==> p.reverseDependsOn == old(p.reverseDependsOn) + {this}
        decreases rest
      {
        var parent :| parent in rest;
        parent.reverseDependsOn := parent.reverseDependsOn + {this};
        rest := rest - {parent};
      }
    }

    /** `set_pending` without the dates. */
    method SetPending(resetRetry: bool)
      modifies this
      ensures state == if old(AnyUnfinished(dependsOn)) then WaitDependencies else Pending
      ensures retry == if resetRetry then 0 else old(retry)
      ensures eta == old(eta) && dependsOn == old(dependsOn) && reverseDependsOn == old(reverseDependsOn)
    {
      state := if exists p :: p in dependsOn && p.state != Done then WaitDependencies else Pending;
      if resetRetry {
        retry := 0;
      }
    }

    /** `_try_perform_job` and what `runjob` makes of its end: a retryable error is repeated
      * unless it is the one that exhausts `max_retries`; a conflict is repeated without
      * looking at `max_retries`. `w` is what the waiting time was chosen from. */
    method Attempt(outcome: Outcome, now: int, pattern: seq<(int, Wait)>) returns (ending: Ending, ghost w: Wait)
      requires state == Enqueued && ProperPattern(pattern) && ProperOutcome(outcome)
      modifies this
      ensures (ending, retry) == AfterAttempt(old(retry), maxRetries, outcome)
      ensures outcome.Succeeds? || outcome.NothingToDo? ==> state == Done && retry == old(retry) + 1
      ensures outcome.Fails? ==> state == JobState.Failed && retry == old(retry) + 1
      ensures outcome.FailsBefore? ==> state == JobState.Failed && retry == old(retry)
      ensures outcome.Retryable? && !outcome.ignoreRetry ==> retry == old(retry) + 1
      ensures outcome.Retryable? ==>
        (state == JobState.Failed <==> !outcome.ignoreRetry && maxRetries != 0 && old(retry) + 1 >= maxRetries)
      ensures outcome.Retryable? && outcome.ignoreRetry ==> retry == old(retry)
      ensures outcome.Conflict? ==> retry == old(retry) + 1 && eta == now + 5
      ensures outcome.ConflictBefore? ==> retry == old(retry) && eta == now + 5
      ensures ending.Over? <==> state == Done || state == JobState.Failed
      ensures state == Done <==> outcome.Succeeds? || outcome.NothingToDo?
      ensures ending.Over? ==> state == ending.state && eta == old(eta)
      ensures ending.Again? ==> RightWait(GivenWait(outcome), pattern, retry, w) && Admits(w, eta - now)
      ensures ending.Again? ==> state == if old(AnyUnfinished(dependsOn)) then WaitDependencies else Pending
      ensures dependsOn == old(dependsOn) && reverseDependsOn == old(reverseDependsOn)
    {
      w := Fixed(0);
      state := Started;
      if outcome.FailsBefore? {
        state := JobState.Failed;
        return Over(JobState.Failed), w;
      }
      if outcome.ConflictBefore? {
        w := RetryPostpone(GivenWait(outcome), now, pattern);
        return Again, w;
      }
      retry := retry + 1;
      var error := outcome;
      match outcome {
        case Retryable(ignoreRetry, _) =>
          if ignoreRetry {
            retry := retry - 1;
          } else if maxRetries != 0 && retry >= maxRetries {
            error := Fails;
          }
        case _ =>
      }
      if error.Retryable? || error.Conflict? {
        w := RetryPostpone(GivenWait(outcome), now, pattern);
        ending := Again;
      } else if error.Fails? {
        state := JobState.Failed;
        ending := Over(JobState.Failed);
      } else {
        state := Done;
        ending := Over(Done);
      }
    }

    /** `retry_postpone`. */
    method RetryPostpone(given: Option<Wait>, now: int, pattern: seq<(int, Wait)>) returns (ghost w: Wait)
      requires state == Started && ProperPattern(pattern) && (given.Some? ==> Proper(given.value))
      modifies this
      ensures RightWait(given, pattern, retry, w) && Admits(w, eta - now)
      ensures state == if old(AnyUnfinished(dependsOn)) then WaitDependencies else Pending
      ensures retry == old(retry) && dependsOn == old(dependsOn) && reverseDependsOn == old(reverseDependsOn)
    {
      var seconds;
      seconds, w := GetRetrySeconds(given, pattern, retry);
      eta := now + seconds;
      SetPending(false);
    }
  }

  const PG_RETRY: int := 5

  /** The waiting time that an error carries. */
  function GivenWait(o: Outcome): Option<Wait> {
    match o
    case Retryable(_, wait) => wait
    case Conflict => Some(Fixed(PG_RETRY))
    case ConflictBefore => Some(Fixed(PG_RETRY))
    case _ => None
  }

  /** Children know their parents exactly as the parents know their children. */
  ghost predicate Linked(all: set<JobRecord>)
    reads all
  {
    forall a, b :: a in all && b in all ==> (b in a.dependsOn <==> a in b.reverseDependsOn)
  }

  ghost predicate AnyUnfinished(parents: set<JobRecord>)
    reads parents
  {
    exists p :: p in parents && p.state != Done
  }

  // --------------------------------------------------------- repeated attempts

  /** The end of an attempt and the new retry count. */
  function AfterAttempt(retry: nat, maxRetries: nat, outcome: Outcome): (Ending, nat) {
    match outcome
    case Succeeds => (Over(Done), retry + 1)
    case NothingToDo => (Over(Done), retry + 1)
    case Fails => (Over(JobState.Failed), retry + 1)
    case Conflict => (Again, retry + 1)
    case Retryable(true, _) => (Again, retry)
    case Retryable(false, _) =>
      if maxRetries != 0 && retry + 1 >= maxRetries then (Over(JobState.Failed), retry + 1) else (Again, retry + 1)
    case ConflictBefore => (Again, retry)
    case FailsBefore => (Over(JobState.Failed), retry)
  }

  /** The retry count after a number of attempts that were all to be repeated. */
  function RetriesAfter(outcomes: seq<Outcome>, maxRetries: nat): Option<nat> {
    if outcomes == [] then Some(0)
    else
      match RetriesAfter(outcomes[..|outcomes| - 1], maxRetries)
      case None => None
      case Some(n) =>
        var (ending, m) := AfterAttempt(n, maxRetries, outcomes[|outcomes| - 1]);
        if ending.Again? then Some(m) else None
  }

  predicate CountsAsRetry(o: Outcome) { o.Retryable? && !o.ignoreRetry }

  predicate IsConflict(o: Outcome) { o.Conflict? }

  function Count(outcomes: seq<Outcome>, p: Outcome -> bool): nat {
    if outcomes == [] then 0
    else Count(outcomes[..|outcomes| - 1], p) + if p(outcomes[|outcomes| - 1]) then 1 else 0
  }

  predicate Repeatable(o: Outcome) { o.Retryable? || o.Conflict? || o.ConflictBefore? }

  /** A retryable error that counts and comes when the budget is used up. */
  predicate Exhausts(before: seq<Outcome>, o: Outcome, maxRetries: nat) {
    maxRetries != 0 && CountsAsRetry(o) && Count(before, CountsAsRetry) + Count(before, IsConflict) + 1 >= maxRetries
  }

  /** A job is attempted again after every one of `outcomes` if and only if each of
    * them is a retryable error or a conflict, and no counting error came at a moment
    * when, with the conflicts during `perform` before it, it made up `max_retries`. */
  lemma {:induction false} RepeatedExactly(outcomes: seq<Outcome>, maxRetries: nat)
    ensures RetriesAfter(outcomes, maxRetries).Some? <==>
      forall i :: 0 <= i < |outcomes| ==> Repeatable(outcomes[i]) && !Exhausts(outcomes[..i], outcomes[i], maxRetries)
    ensures RetriesAfter(outcomes, maxRetries).Some? ==>
      RetriesAfter(outcomes, maxRetries).value == Count(outcomes, CountsAsRetry) + Count(outcomes, IsConflict)
  {
    if outcomes != [] {
      var n := |outcomes| - 1;
      var init := outcomes[..n];
      RepeatedExactly(init, maxRetries);
      forall i | 0 <= i < n ensures outcomes[i] == init[i] && outcomes[..i] == init[..i] {
      }
    }
  }

  /** Without conflicts during `perform`, `max_retries` bounds the counting attempts: a
    * job that is still to be repeated has had fewer of them. */
  lemma RetriesAreBounded(outcomes: seq<Outcome>, maxRetries: nat)
    requires maxRetries != 0 && RetriesAfter(outcomes, maxRetries).Some?
    requires Count(outcomes, IsConflict) == 0
    ensures Count(outcomes, CountsAsRetry) < maxRetries
  {
    BoundedUnlessConflict(outcomes, maxRetries);
  }

  lemma {:induction false} BoundedUnlessConflict(outcomes: seq<Outcome>, maxRetries: nat)
    requires maxRetries != 0 && RetriesAfter(outcomes, maxRetries).Some?
    ensures Count(outcomes, IsConflict) == 0 ==> RetriesAfter(outcomes, maxRetries).value < maxRetries
    ensures Count(outcomes, IsConflict) == 0 ==> RetriesAfter(outcomes, maxRetries).value == Count(outcomes, CountsAsRetry)
  {
    if outcomes != [] {
      BoundedUnlessConflict(outcomes[..|outcomes| - 1], maxRetries);
    }
  }

  /** Conflicts are not bounded: they can be repeated any number of times. */
  lemma {:induction false} ConflictsRepeatForever(n: nat, maxRetries: nat)
    ensures RetriesAfter(seq(n, _ => Conflict), maxRetries) == Some(n)
  {
    if n > 0 {
      ConflictsRepeatForever(n - 1, maxRetries);
      var outcomes := seq(n, _ => Conflict);
      assert outcomes[..n - 1] == seq(n - 1, _ => Conflict);
    }
  }

  // --------------------------------------------------- the seconds to wait for

  const RETRY_INTERVAL: int := 600

  /** `randint` demands an ordered interval. */
  predicate Proper(w: Wait) { w.Between? ==> w.lo <= w.hi }

  predicate ProperOutcome(o: Outcome) { GivenWait(o).Some? ==> Proper(GivenWait(o).value) }

  /** A retry pattern in the order of its retry counts. */
  predicate ProperPattern(pattern: seq<(int, Wait)>) {
    && (forall i, j :: 0 <= i < j < |pattern| ==> pattern[i].0 < pattern[j].0)
    && forall i :: 0 <= i < |pattern| ==> Proper(pattern[i].1)
  }

  /** The seconds that may be chosen. */
  predicate Admits(w: Wait, seconds: int) {
    match w
    case Fixed(n) => seconds == n
    case Between(lo, hi) => lo <= seconds <= hi
  }

  /** The entry of the highest retry count that is reached, if any. */
  predicate Applies(pattern: seq<(int, Wait)>, retry: int, w: Wait) {
    if forall i :: 0 <= i < |pattern| ==> pattern[i].0 > retry then w == Fixed(RETRY_INTERVAL)
    else exists i :: 0 <= i < |pattern| && w == pattern[i].1 && IsReached(pattern, retry, i)
  }

  predicate IsReached(pattern: seq<(int, Wait)>, retry: int, i: int)
    requires 0 <= i < |pattern|
  {
    pattern[i].0 <= retry && forall j :: 0 <= j < |pattern| && pattern[j].0 <= retry ==> pattern[j].0 <= pattern[i].0
  }

  /** A given waiting time wins (0 counts as not given), then the pattern, then the
    * default. */
  predicate RightWait(given: Option<Wait>, pattern: seq<(int, Wait)>, retry: int, w: Wait) {
    if given.Some? && given.value != Fixed(0) then w == given.value else Applies(pattern, retry, w)
  }

  /** `_get_retry_seconds`. */
  method GetRetrySeconds(given: Option<Wait>, pattern: seq<(int, Wait)>, retry: int) returns (seconds: int, ghost w: Wait)
    requires ProperPattern(pattern) && (given.Some? ==> Proper(given.value))
    ensures RightWait(given, pattern, retry, w) && Admits(w, seconds)
    ensures given.Some? && given.value != Fixed(0) ==> Admits(given.value, seconds)
    ensures (given.None? || given.value == Fixed(0)) && (forall i :: 0 <= i < |pattern| ==> pattern[i].0 > retry) ==>
      seconds == 600
    ensures given.None? || given.value == Fixed(0) ==> exists v :: Applies(pattern, retry, v) && Admits(v, seconds)
  {
    var chosen := Fixed(RETRY_INTERVAL);
    if given.Some? && given.value != Fixed(0) {
      chosen := given.value;
    } else {
      chosen := PatternWait(pattern, retry);
      assert Applies(pattern, retry, chosen);
    }
    w := chosen;
    match chosen {
      case Fixed(n) => seconds := n;
      case Between(lo, hi) => seconds :| lo <= seconds <= hi;
    }
  }

  /** The loop over the retry pattern. */
  method PatternWait(pattern: seq<(int, Wait)>, retry: int) returns (w: Wait)
    requires ProperPattern(pattern)
    ensures Applies(pattern, retry, w) && Proper(w)
  {
    w := Fixed(RETRY_INTERVAL);
    var i := 0;
    while i < |pattern| && retry >= pattern[i].0
      invariant 0 <= i <= |pattern|
      invariant forall j :: 0 <= j < i ==> pattern[j].0 <= retry
      invariant w == if i == 0 then Fixed(RETRY_INTERVAL) else pattern[i - 1].1
    {
      w := pattern[i].1;
      i := i + 1;
    }
    if i > 0 {
      forall j | 0 <= j < |pattern| && pattern[j].0 <= retry ensures pattern[j].0 <= pattern[i - 1].0 {
        assert i < |pattern| ==> pattern[i].0 > retry;
      }
      assert IsReached(pattern, retry, i - 1);
    }
  }

  // ------------------------------------------------------ waking the children

  /** What becomes of one execution of `enqueue_waiting`. */
  datatype Try = Works | SerializationFailure | OtherError

  predicate WorksAt(tried: nat -> Try, n: nat) {
    tried(n) == Works && forall i: nat :: i < n ==> tried(i) == SerializationFailure
  }

  /** `_enqueue_dependent_jobs`: `tried(i)` is what becomes of the i-th execution. It
    * works at the first execution that is not a serialization failure, if that is
    * one of the first six and no other error. */
  method EnqueueDependentJobs(tried: nat -> Try) returns (works: bool, executions: nat)
    ensures 1 <= executions <= 6
    ensures forall i: nat :: i < executions - 1 ==> tried(i) == SerializationFailure
    ensures works <==> tried(executions - 1) == Works
    ensures !works ==> tried(executions - 1) == OtherError || executions == 6
    ensures works <==> exists n: nat :: n <= 5 && WorksAt(tried, n)
  {
    var tries: nat := 0;
    while true
      invariant tries <= DEPENDS_MAX_TRIES
      invariant forall i: nat :: i < tries ==> tried(i) == SerializationFailure
      decreases DEPENDS_MAX_TRIES - tries
    {
      match tried(tries)
      case Works =>
        assert WorksAt(tried, tries);
        return true, tries + 1;
      case OtherError => return false, tries + 1;
      case SerializationFailure =>
        if tries >= DEPENDS_MAX_TRIES {
          return false, tries + 1;
        }
        tries := tries + 1;
    }
  }
}
