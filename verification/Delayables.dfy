/** Chains and groups of delayed jobs, and the flat job graph they are compiled
  * to (`DelayableGraph._connect_graphs`).
  */
module Delayables {
  import G = Graphs

  /** A delayable: one job, a chain (members in series), or a group (members in
    * parallel). */
  datatype Term = Leaf(id: nat) | Chain(members: seq<Term>) | Group(members: seq<Term>)

  function Members(t: Term): seq<Term> {
    if t.Leaf? then [] else t.members
  }

  function Leaves(t: Term): set<nat> {
    if t.Leaf? then {t.id}
    else set i, x | 0 <= i < |t.members| && x in Leaves(t.members[i]) :: x
  }

  /** Different members share no job, and nothing is empty. */
  ghost predicate WellFormed(t: Term) {
    t.Leaf? ||
    (&& |t.members| > 0
     && (forall i :: 0 <= i < |t.members| ==> WellFormed(t.members[i]))
     && forall i, k :: 0 <= i < |t.members| && 0 <= k < |t.members| && i != k ==> Leaves(t.members[i]) !! Leaves(t.members[k]))
  }

  // ------------------------------------------------------ what the program does

  /** `_head`: a chain answers with the `_tail` of its first member. */
  function Head(t: Term): set<nat> {
    match t
    case Leaf(id) => {id}
    case Group(ms) => set i, x | 0 <= i < |ms| && x in Head(ms[i]) :: x
    case Chain(ms) => if ms == [] then {} else Tail(ms[0])
  }

  /** `_tail`: a chain answers with the `_head` of its last member. */
  function Tail(t: Term): set<nat> {
    match t
    case Leaf(id) => {id}
    case Group(ms) => set i, x | 0 <= i < |ms| && x in Tail(ms[i]) :: x
    case Chain(ms) => if ms == [] then {} else Head(ms[|ms|-1])
  }

  /** Adjacent members `i` and `i + 1` of a chain give the edge from `x` to `y`. */
  predicate Link(t: Term, i: nat, x: nat, y: nat) {
    t.Chain? && i + 1 < |t.members| && x in Tail(t.members[i]) && y in Head(t.members[i+1])
  }

  /** The edges that the compiled graph has because of `t` and its parts. */
  ghost predicate HasEdge(t: Term, x: nat, y: nat) {
    || (exists i: nat :: Link(t, i, x, y))
    || exists i :: 0 <= i < |Members(t)| && HasEdge(Members(t)[i], x, y)
  }

  /** `y` is reached from `x` by `n` edges. */
  ghost predicate ReachIn(t: Term, n: nat, x: nat, y: nat) {
    if n == 0 then x == y else exists z :: HasEdge(t, x, z) && ReachIn(t, n - 1, z, y)
  }

  ghost predicate Reaches(t: Term, x: nat, y: nat) {
    exists n :: ReachIn(t, n, x, y)
  }

  // ---------------------------------------------------------- what is intended

  /** The members `i` and `k` of a chain hold `x` and `y`, in this order. */
  predicate InSeries(t: Term, i: nat, k: nat, x: nat, y: nat) {
    t.Chain? && i < k < |t.members| && x in Leaves(t.members[i]) && y in Leaves(t.members[k])
  }

  /** The series order: job `x` has to be done before job `y` starts. */
  ghost predicate Before(t: Term, x: nat, y: nat) {
    || (exists i: nat, k: nat :: InSeries(t, i, k, x, y))
    || exists i :: 0 <= i < |Members(t)| && Before(Members(t)[i], x, y)
  }

  lemma {:induction false} BeforeInLeaves(t: Term, x: nat, y: nat)
    requires Before(t, x, y)
    ensures x in Leaves(t) && y in Leaves(t)
  {
    if i: nat, k: nat :| InSeries(t, i, k, x, y) {
    } else {
      var i :| 0 <= i < |Members(t)| && Before(Members(t)[i], x, y);
      BeforeInLeaves(Members(t)[i], x, y);
    }
  }

  lemma {:induction false} EndsInLeaves(t: Term)
    ensures Head(t) <= Leaves(t) && Tail(t) <= Leaves(t)
  {
    match t
    case Leaf(_) =>
    case Group(ms) =>
      forall i | 0 <= i < |ms| ensures Head(ms[i]) <= Leaves(ms[i]) && Tail(ms[i]) <= Leaves(ms[i]) {
        EndsInLeaves(ms[i]);
      }
    case Chain(ms) =>
      if ms != [] {
        EndsInLeaves(ms[0]);
        EndsInLeaves(ms[|ms|-1]);
        assert Leaves(ms[0]) <= Leaves(t) && Leaves(ms[|ms|-1]) <= Leaves(t);
      }
  }

  /** Before, seen from a well-formed term: inside one member, or across two. */
  lemma {:induction false} BeforeIrreflexive(t: Term, x: nat)
    requires WellFormed(t)
    ensures !Before(t, x, x)
  {
    if Before(t, x, x) {
      if i: nat, k: nat :| InSeries(t, i, k, x, x) {
      } else {
        var i :| 0 <= i < |Members(t)| && Before(Members(t)[i], x, x);
        BeforeIrreflexive(Members(t)[i], x);
      }
    }
  }

  lemma {:induction false} BeforeTransitive(t: Term, x: nat, y: nat, z: nat)
    requires WellFormed(t) && Before(t, x, y) && Before(t, y, z)
    ensures Before(t, x, z)
  {
    if i: nat, k: nat :| InSeries(t, i, k, x, y) {
      if k2: nat, l: nat :| InSeries(t, k2, l, y, z) {
        assert k2 == k;
        assert InSeries(t, i, l, x, z);
      } else {
        var k2 :| 0 <= k2 < |Members(t)| && Before(Members(t)[k2], y, z);
        BeforeInLeaves(Members(t)[k2], y, z);
        assert k2 == k;
        assert InSeries(t, i, k, x, z);
      }
    } else {
      var i :| 0 <= i < |Members(t)| && Before(Members(t)[i], x, y);
      BeforeInLeaves(Members(t)[i], x, y);
      if k2: nat, l: nat :| InSeries(t, k2, l, y, z) {
        assert k2 == i;
        assert InSeries(t, i, l, x, z);
      } else {
        var k2 :| 0 <= k2 < |Members(t)| && Before(Members(t)[k2], y, z);
        BeforeInLeaves(Members(t)[k2], y, z);
        assert k2 == i;
        BeforeTransitive(Members(t)[i], x, y, z);
      }
    }
  }

  // ------------------------------------------------- edges respect the order

  lemma {:induction false} EdgeIsBefore(t: Term, x: nat, y: nat)
    requires HasEdge(t, x, y)
    ensures Before(t, x, y)
  {
    if i: nat :| Link(t, i, x, y) {
      EndsInLeaves(t.members[i]);
      EndsInLeaves(t.members[i+1]);
      assert InSeries(t, i, i + 1, x, y);
    } else {
      var i :| 0 <= i < |Members(t)| && HasEdge(Members(t)[i], x, y);
      EdgeIsBefore(Members(t)[i], x, y);
    }
  }

  /** Whatever depends on a job in the compiled graph comes after it in the series
    * order; in particular the compiled graph has no cycle. */
  lemma {:induction false} ReachedIsBefore(t: Term, n: nat, x: nat, y: nat)
    requires WellFormed(t) && ReachIn(t, n, x, y) && n > 0
    ensures Before(t, x, y) && x != y
  {
    var z :| HasEdge(t, x, z) && ReachIn(t, n - 1, z, y);
    EdgeIsBefore(t, x, z);
    if n > 1 {
      ReachedIsBefore(t, n - 1, z, y);
      BeforeTransitive(t, x, z, y);
    }
    BeforeIrreflexive(t, x);
  }

  // -------------------------------------- when the whole order is preserved

  /** The jobs with which a term ends and starts in the intended order. */
  function Last(t: Term): set<nat> {
    match t
    case Leaf(id) => {id}
    case Group(ms) => set i, x | 0 <= i < |ms| && x in Last(ms[i]) :: x
    case Chain(ms) => if ms == [] then {} else Last(ms[|ms|-1])
  }

  function First(t: Term): set<nat> {
    match t
    case Leaf(id) => {id}
    case Group(ms) => set i, x | 0 <= i < |ms| && x in First(ms[i]) :: x
    case Chain(ms) => if ms == [] then {} else First(ms[0])
  }

  /** `_tail` answers with all jobs the term ends with (`TailOk`), or `_head` does
    * (`TailInHead`); and the same for the jobs it starts with. A caller can read
    * this off the term: the two answers of a chain are crossed, so a chain of two
    * or more members must not be the last (first) thing inside another chain. */
  predicate TailOk(t: Term) {
    match t
    case Leaf(_) => true
    case Group(ms) => forall i :: 0 <= i < |ms| ==> TailOk(ms[i])
    case Chain(ms) => |ms| > 0 && TailInHead(ms[|ms|-1])
  }

  predicate TailInHead(t: Term) {
    match t
    case Leaf(_) => true
    case Group(ms) => forall i :: 0 <= i < |ms| ==> TailInHead(ms[i])
    case Chain(ms) => |ms| == 1 && TailOk(ms[0])
  }

  predicate HeadOk(t: Term) {
    match t
    case Leaf(_) => true
    case Group(ms) => forall i :: 0 <= i < |ms| ==> HeadOk(ms[i])
    case Chain(ms) => |ms| > 0 && HeadInTail(ms[0])
  }

  predicate HeadInTail(t: Term) {
    match t
    case Leaf(_) => true
    case Group(ms) => forall i :: 0 <= i < |ms| ==> HeadInTail(ms[i])
    case Chain(ms) => |ms| == 1 && HeadOk(ms[0])
  }

  predicate Joined(t: Term, i: nat)
    requires t.Chain? && i + 1 < |t.members|
  {
    TailOk(t.members[i]) && HeadOk(t.members[i+1])
  }

  /** Everywhere in the term, adjacent chain members are linked completely. */
  predicate Good(t: Term) {
    t.Leaf? ||
    (&& (forall i :: 0 <= i < |t.members| ==> Good(t.members[i]))
     && (t.Chain? ==> forall i: nat :: i + 1 < |t.members| ==> Joined(t, i)))
  }

  lemma {:induction false} LastFirstInLeaves(t: Term)
    requires WellFormed(t)
    ensures Last(t) <= Leaves(t) && First(t) <= Leaves(t) && Last(t) != {} && First(t) != {}
  {
    match t
    case Leaf(_) =>
    case Group(ms) =>
      forall i | 0 <= i < |ms|
        ensures Last(ms[i]) <= Leaves(ms[i]) && First(ms[i]) <= Leaves(ms[i]) && Last(ms[i]) != {} && First(ms[i]) != {}
      {
        LastFirstInLeaves(ms[i]);
      }
      var x :| x in Last(ms[0]);
      var y :| y in First(ms[0]);
      assert x in Last(t) && y in First(t);
    case Chain(ms) =>
      LastFirstInLeaves(ms[0]);
      LastFirstInLeaves(ms[|ms|-1]);
      assert Leaves(ms[0]) <= Leaves(t) && Leaves(ms[|ms|-1]) <= Leaves(t);
  }

  /** The four predicates say what they are meant to say. */
  lemma {:induction false} EndsMeaning(t: Term)
    requires WellFormed(t)
    ensures TailOk(t) <==> Last(t) <= Tail(t)
    ensures TailInHead(t) <==> Last(t) <= Head(t)
    ensures HeadOk(t) <==> First(t) <= Head(t)
    ensures HeadInTail(t) <==> First(t) <= Tail(t)
    decreases t, 1
  {
    match t
    case Leaf(_) =>
    case Group(ms) => GroupEndsMeaning(t);
    case Chain(ms) =>
      EndsMeaning(ms[0]);
      EndsMeaning(ms[|ms|-1]);
      if |ms| > 1 {
        LastFirstInLeaves(ms[0]);
        LastFirstInLeaves(ms[|ms|-1]);
        EndsInLeaves(ms[0]);
        EndsInLeaves(ms[|ms|-1]);
        assert Leaves(ms[0]) !! Leaves(ms[|ms|-1]);
        var x :| x in Last(t);
        var y :| y in First(t);
        assert x !in Tail(ms[0]) && y !in Head(ms[|ms|-1]);
      }
  }

  lemma {:induction false} GroupEndsMeaning(t: Term)
    requires WellFormed(t) && t.Group?
    ensures TailOk(t) <==> Last(t) <= Tail(t)
    ensures TailInHead(t) <==> Last(t) <= Head(t)
    ensures HeadOk(t) <==> First(t) <= Head(t)
    ensures HeadInTail(t) <==> First(t) <= Tail(t)
    decreases t, 0
  {
    var ms := t.members;
    forall i | 0 <= i < |ms|
      ensures TailOk(ms[i]) <==> Last(ms[i]) <= Tail(t)
      ensures TailInHead(ms[i]) <==> Last(ms[i]) <= Head(t)
      ensures HeadOk(ms[i]) <==> First(ms[i]) <= Head(t)
      ensures HeadInTail(ms[i]) <==> First(ms[i]) <= Tail(t)
    {
      EndsMeaning(ms[i]);
      MemberEnds(t, i);
    }
    GroupLast(t, Tail(t));
    GroupLast(t, Head(t));
    GroupFirst(t, Head(t));
    GroupFirst(t, Tail(t));
  }

  lemma GroupLast(t: Term, S: set<nat>)
    requires t.Group?
    ensures Last(t) <= S <==> forall i :: 0 <= i < |t.members| ==> Last(t.members[i]) <= S
  {
    forall i | 0 <= i < |t.members| ensures Last(t.members[i]) <= Last(t) {
    }
  }

  lemma GroupFirst(t: Term, S: set<nat>)
    requires t.Group?
    ensures First(t) <= S <==> forall i :: 0 <= i < |t.members| ==> First(t.members[i]) <= S
  {
    forall i | 0 <= i < |t.members| ensures First(t.members[i]) <= First(t) {
    }
  }

  /** In a group, the ends of the whole that lie in a member are that member's. */
  lemma MemberEnds(t: Term, i: nat)
    requires WellFormed(t) && t.Group? && i < |t.members|
    ensures forall x :: x in Leaves(t.members[i]) ==>
              (x in Tail(t) <==> x in Tail(t.members[i])) && (x in Head(t) <==> x in Head(t.members[i]))
    ensures Last(t.members[i]) <= Leaves(t.members[i]) && First(t.members[i]) <= Leaves(t.members[i])
  {
    LastFirstInLeaves(t.members[i]);
    forall k | 0 <= k < |t.members| && k != i
      ensures Tail(t.members[k]) !! Leaves(t.members[i]) && Head(t.members[k]) !! Leaves(t.members[i])
    {
      EndsInLeaves(t.members[k]);
      assert Leaves(t.members[k]) !! Leaves(t.members[i]);
    }
  }

  lemma {:induction false} ReachTransitive(t: Term, n: nat, x: nat, y: nat, z: nat)
    requires ReachIn(t, n, x, y) && Reaches(t, y, z)
    ensures Reaches(t, x, z)
  {
    if n > 0 {
      var w :| HasEdge(t, x, w) && ReachIn(t, n - 1, w, y);
      ReachTransitive(t, n - 1, w, y, z);
      var m: nat :| ReachIn(t, m, w, z);
      assert ReachIn(t, m + 1, x, z);
    }
  }

  lemma EdgeReaches(t: Term, x: nat, y: nat)
    requires HasEdge(t, x, y)
    ensures Reaches(t, x, y)
  {
    assert ReachIn(t, 0, y, y);
    assert ReachIn(t, 1, x, y);
  }

  lemma {:induction false} MemberReaches(t: Term, i: nat, n: nat, x: nat, y: nat)
    requires i < |Members(t)| && ReachIn(Members(t)[i], n, x, y)
    ensures ReachIn(t, n, x, y)
  {
    if n > 0 {
      var z :| HasEdge(Members(t)[i], x, z) && ReachIn(Members(t)[i], n - 1, z, y);
      assert HasEdge(t, x, z);
      MemberReaches(t, i, n - 1, z, y);
    }
  }

  /** In a good term every job reaches an end and is reached from a start. */
  lemma {:induction false} EndsReached(t: Term, x: nat) returns (last: nat, first: nat)
    requires WellFormed(t) && Good(t) && x in Leaves(t)
    ensures last in Last(t) && Reaches(t, x, last)
    ensures first in First(t) && Reaches(t, first, x)
    decreases t, 0
  {
    if t.Leaf? {
      last, first := x, x;
      assert ReachIn(t, 0, x, x);
    } else {
      var i :| 0 <= i < |t.members| && x in Leaves(t.members[i]);
      var l, f := EndsReached(t.members[i], x);
      LiftReaches(t, i, x, l);
      LiftReaches(t, i, f, x);
      if t.Group? {
        last, first := l, f;
      } else {
        last := WalkToEnd(t, i, l);
        first := WalkToStart(t, i, f);
        var n: nat :| ReachIn(t, n, x, l);
        ReachTransitive(t, n, x, l, last);
        var m: nat :| ReachIn(t, m, first, f);
        ReachTransitive(t, m, first, f, x);
      }
    }
  }

  lemma LiftReaches(t: Term, i: nat, x: nat, y: nat)
    requires i < |Members(t)| && Reaches(Members(t)[i], x, y)
    ensures Reaches(t, x, y)
  {
    var n: nat :| ReachIn(Members(t)[i], n, x, y);
    MemberReaches(t, i, n, x, y);
  }

  /** From an end of member `i` of a chain on to every start of the next member. */
  lemma Crossing(t: Term, i: nat, l: nat, f: nat)
    requires WellFormed(t) && Good(t) && t.Chain? && i + 1 < |t.members|
    requires l in Last(t.members[i]) && f in First(t.members[i+1])
    ensures Reaches(t, l, f)
  {
    EndsMeaning(t.members[i]);
    EndsMeaning(t.members[i+1]);
    assert Joined(t, i);
    assert Link(t, i, l, f);
    EdgeReaches(t, l, f);
  }

  lemma Via(t: Term, x: nat, y: nat, z: nat)
    requires Reaches(t, x, y) && Reaches(t, y, z)
    ensures Reaches(t, x, z)
  {
    var n: nat :| ReachIn(t, n, x, y);
    ReachTransitive(t, n, x, y, z);
  }

  /** From an end of a member of a chain on to an end of the next member. */
  lemma NextMember(t: Term, i: nat, l: nat) returns (l2: nat)
    requires WellFormed(t) && Good(t) && t.Chain? && i + 1 < |t.members| && l in Last(t.members[i])
    ensures l2 in Last(t.members[i+1]) && Reaches(t, l, l2)
    decreases t, 0, 0
  {
    LastFirstInLeaves(t.members[i+1]);
    var f :| f in First(t.members[i+1]);
    Crossing(t, i, l, f);
    var f2;
    l2, f2 := EndsReached(t.members[i+1], f);
    LiftReaches(t, i + 1, f, l2);
    Via(t, l, f, l2);
  }

  /** And back from a start of a member to a start of the previous one. */
  lemma PreviousMember(t: Term, i: nat, f: nat) returns (f2: nat)
    requires WellFormed(t) && Good(t) && t.Chain? && 0 < i < |t.members| && f in First(t.members[i])
    ensures f2 in First(t.members[i-1]) && Reaches(t, f2, f)
    decreases t, 0, 0
  {
    LastFirstInLeaves(t.members[i-1]);
    var l :| l in Last(t.members[i-1]);
    Crossing(t, i - 1, l, f);
    var l2;
    l2, f2 := EndsReached(t.members[i-1], l);
    LiftReaches(t, i - 1, f2, l);
    Via(t, f2, l, f);
  }

  lemma {:induction false} WalkToEnd(t: Term, i: nat, l: nat) returns (last: nat)
    requires WellFormed(t) && Good(t) && t.Chain? && i < |t.members| && l in Last(t.members[i])
    ensures last in Last(t) && Reaches(t, l, last)
    decreases t, 0, |t.members| - i
  {
    if i + 1 == |t.members| {
      last := l;
      assert ReachIn(t, 0, l, l);
    } else {
      var l2 := NextMember(t, i, l);
      last := WalkToEnd(t, i + 1, l2);
      Via(t, l, l2, last);
    }
  }

  lemma {:induction false} WalkToStart(t: Term, i: nat, f: nat) returns (first: nat)
    requires WellFormed(t) && Good(t) && t.Chain? && i < |t.members| && f in First(t.members[i])
    ensures first in First(t) && Reaches(t, first, f)
    decreases t, 0, i + 1
  {
    if i == 0 {
      first := f;
      assert ReachIn(t, 0, f, f);
    } else {
      var f2 := PreviousMember(t, i, f);
      first := WalkToStart(t, i - 1, f2);
      Via(t, first, f2, f);
    }
  }

  /** From an end of member `i` to any job of a later member. */
  lemma {:induction false} AcrossMembers(t: Term, i: nat, k: nat, l: nat, y: nat)
    requires WellFormed(t) && Good(t) && t.Chain? && i < k < |t.members|
    requires l in Last(t.members[i]) && y in Leaves(t.members[k])
    ensures Reaches(t, l, y)
    decreases k - i
  {
    if k == i + 1 {
      var l2, f := EndsReached(t.members[k], y);
      LiftReaches(t, k, f, y);
      Crossing(t, i, l, f);
      Via(t, l, f, y);
    } else {
      var l2 := NextMember(t, i, l);
      AcrossMembers(t, i + 1, k, l2, y);
      Via(t, l, l2, y);
    }
  }

  /** The series order is reached in the compiled graph of a good term. */
  lemma {:induction false} GoodIsComplete(t: Term, x: nat, y: nat)
    requires WellFormed(t) && Good(t) && Before(t, x, y)
    ensures Reaches(t, x, y)
  {
    if i: nat, k: nat :| InSeries(t, i, k, x, y) {
      var l, f := EndsReached(t.members[i], x);
      LiftReaches(t, i, x, l);
      AcrossMembers(t, i, k, l, y);
      Via(t, x, l, y);
    } else {
      var i :| 0 <= i < |Members(t)| && Before(Members(t)[i], x, y);
      GoodIsComplete(Members(t)[i], x, y);
      LiftReaches(t, i, x, y);
    }
  }

  // ----------------------------------------------------------- ... and only then

  lemma {:induction false} LastIsSink(t: Term, x: nat, y: nat)
    requires WellFormed(t) && x in Last(t)
    ensures !Before(t, x, y)
  {
    if Before(t, x, y) {
      var k: nat := if t.Chain? then |t.members| - 1 else MemberWithLast(t, x);
      LastFirstInLeaves(t.members[k]);
      assert x in Leaves(t.members[k]);
      if i: nat, l: nat :| InSeries(t, i, l, x, y) {
      } else {
        var i :| 0 <= i < |Members(t)| && Before(Members(t)[i], x, y);
        BeforeInLeaves(Members(t)[i], x, y);
        assert i == k;
        LastIsSink(Members(t)[i], x, y);
      }
    }
  }

  ghost function MemberWithLast(t: Term, x: nat): (i: nat)
    requires t.Group? && x in Last(t)
    ensures i < |t.members| && x in Last(t.members[i])
  {
    var i: nat :| i < |t.members| && x in Last(t.members[i]);
    i
  }

  ghost function MemberWithFirst(t: Term, x: nat): (i: nat)
    requires t.Group? && x in First(t)
    ensures i < |t.members| && x in First(t.members[i])
  {
    var i: nat :| i < |t.members| && x in First(t.members[i]);
    i
  }

  lemma {:induction false} FirstIsSource(t: Term, x: nat, y: nat)
    requires WellFormed(t) && y in First(t)
    ensures !Before(t, x, y)
  {
    if Before(t, x, y) {
      var k: nat := if t.Chain? then 0 else MemberWithFirst(t, y);
      LastFirstInLeaves(t.members[k]);
      assert y in Leaves(t.members[k]);
      if i: nat, l: nat :| InSeries(t, i, l, x, y) {
      } else {
        var i :| 0 <= i < |Members(t)| && Before(Members(t)[i], x, y);
        BeforeInLeaves(Members(t)[i], x, y);
        assert i == k;
        FirstIsSource(Members(t)[i], x, y);
      }
    }
  }

  /** The order never goes back from a member to an earlier one. */
  lemma MembersInOrder(t: Term, p: nat, q: nat, a: nat, b: nat)
    requires WellFormed(t) && p < |Members(t)| && q < |Members(t)| && Before(t, a, b)
    requires a in Leaves(Members(t)[p]) && b in Leaves(Members(t)[q])
    ensures p <= q
  {
    if i: nat, k: nat :| InSeries(t, i, k, a, b) {
      assert i == p && k == q;
    } else {
      var k :| 0 <= k < |Members(t)| && Before(Members(t)[k], a, b);
      BeforeInLeaves(Members(t)[k], a, b);
      assert k == p && k == q;
    }
  }

  /** Nothing outside a member lies between two of its jobs. */
  lemma Convex(t: Term, i: nat, x: nat, z: nat, y: nat)
    requires WellFormed(t) && i < |Members(t)| && Before(t, x, z) && Before(t, z, y)
    requires x in Leaves(Members(t)[i]) && y in Leaves(Members(t)[i])
    ensures z in Leaves(Members(t)[i])
  {
    BeforeInLeaves(t, x, z);
    var k: nat :| k < |Members(t)| && z in Leaves(Members(t)[k]);
    MembersInOrder(t, i, k, x, z);
    MembersInOrder(t, k, i, z, y);
  }

  lemma EdgeInsideMember(t: Term, i: nat, x: nat, y: nat)
    requires WellFormed(t) && i < |Members(t)| && HasEdge(t, x, y)
    requires x in Leaves(Members(t)[i]) && y in Leaves(Members(t)[i])
    ensures HasEdge(Members(t)[i], x, y)
  {
    if k: nat :| Link(t, k, x, y) {
      EndsInLeaves(t.members[k]);
      EndsInLeaves(t.members[k+1]);
    } else {
      var k :| 0 <= k < |Members(t)| && HasEdge(Members(t)[k], x, y);
      EdgeIsBefore(Members(t)[k], x, y);
      BeforeInLeaves(Members(t)[k], x, y);
      assert k == i;
    }
  }

  lemma {:induction false} ReachInsideMember(t: Term, i: nat, n: nat, x: nat, y: nat)
    requires WellFormed(t) && i < |Members(t)| && ReachIn(t, n, x, y)
    requires x in Leaves(Members(t)[i]) && y in Leaves(Members(t)[i])
    ensures ReachIn(Members(t)[i], n, x, y)
  {
    if n > 0 {
      var z :| HasEdge(t, x, z) && ReachIn(t, n - 1, z, y);
      if n > 1 {
        EdgeIsBefore(t, x, z);
        ReachedIsBefore(t, n - 1, z, y);
        Convex(t, i, x, z, y);
      }
      EdgeInsideMember(t, i, x, z);
      ReachInsideMember(t, i, n - 1, z, y);
    }
  }

  /** The compiled graph reaches the whole series order. */
  ghost predicate Complete(t: Term) {
    forall x, y :: Before(t, x, y) ==> Reaches(t, x, y)
  }

  lemma MemberComplete(t: Term, i: nat)
    requires WellFormed(t) && Complete(t) && i < |Members(t)|
    ensures Complete(Members(t)[i])
  {
    forall x, y | Before(Members(t)[i], x, y) ensures Reaches(Members(t)[i], x, y) {
      assert Before(t, x, y);
      BeforeInLeaves(Members(t)[i], x, y);
      var n: nat :| ReachIn(t, n, x, y);
      ReachInsideMember(t, i, n, x, y);
    }
  }

  lemma {:induction false} LastEdge(t: Term, n: nat, x: nat, y: nat) returns (w: nat)
    requires ReachIn(t, n, x, y) && n > 0
    ensures HasEdge(t, w, y)
  {
    var z :| HasEdge(t, x, z) && ReachIn(t, n - 1, z, y);
    if n == 1 {
      w := x;
    } else {
      w := LastEdge(t, n - 1, z, y);
    }
  }

  /** Only from `_tail` does an edge leave an end of a chain member. */
  lemma EdgeLeavesTail(t: Term, i: nat, z: nat, w: nat)
    requires WellFormed(t) && t.Chain? && i < |t.members| && z in Last(t.members[i]) && HasEdge(t, z, w)
    ensures z in Tail(t.members[i])
  {
    LastFirstInLeaves(t.members[i]);
    if k: nat :| Link(t, k, z, w) {
      EndsInLeaves(t.members[k]);
      assert k == i;
    } else {
      var k :| 0 <= k < |t.members| && HasEdge(t.members[k], z, w);
      EdgeIsBefore(t.members[k], z, w);
      BeforeInLeaves(t.members[k], z, w);
      LastIsSink(t.members[i], z, w);
    }
  }

  /** Only into `_head` does an edge reach a start of a chain member. */
  lemma EdgeReachesHead(t: Term, i: nat, w: nat, y: nat)
    requires WellFormed(t) && t.Chain? && i < |t.members| && y in First(t.members[i]) && HasEdge(t, w, y)
    ensures y in Head(t.members[i])
  {
    LastFirstInLeaves(t.members[i]);
    if k: nat :| Link(t, k, w, y) {
      EndsInLeaves(t.members[k+1]);
      assert k + 1 == i;
    } else {
      var k :| 0 <= k < |t.members| && HasEdge(t.members[k], w, y);
      EdgeIsBefore(t.members[k], w, y);
      BeforeInLeaves(t.members[k], w, y);
      FirstIsSource(t.members[i], w, y);
    }
  }

  /** Between two jobs of adjacent members something leaves the first and
    * something reaches the second. */
  lemma CompleteLinks(t: Term, i: nat, x: nat, y: nat) returns (w: nat, v: nat)
    requires WellFormed(t) && Complete(t) && t.Chain? && i + 1 < |t.members|
    requires x in Leaves(t.members[i]) && y in Leaves(t.members[i+1])
    ensures HasEdge(t, x, w) && HasEdge(t, v, y)
  {
    assert InSeries(t, i, i + 1, x, y);
    assert Before(t, x, y) && Reaches(t, x, y);
    var n: nat :| ReachIn(t, n, x, y);
    assert x != y;
    w :| HasEdge(t, x, w) && ReachIn(t, n - 1, w, y);
    v := LastEdge(t, n, x, y);
  }

  lemma CompleteIsJoined(t: Term, i: nat)
    requires WellFormed(t) && Complete(t) && t.Chain? && i + 1 < |t.members|
    ensures Joined(t, i)
  {
    EndsMeaning(t.members[i]);
    EndsMeaning(t.members[i+1]);
    LastFirstInLeaves(t.members[i]);
    LastFirstInLeaves(t.members[i+1]);
    var x0 :| x0 in Last(t.members[i]);
    var y0 :| y0 in First(t.members[i+1]);
    forall x | x in Last(t.members[i]) ensures x in Tail(t.members[i]) {
      var w, v := CompleteLinks(t, i, x, y0);
      EdgeLeavesTail(t, i, x, w);
    }
    var next := t.members[i+1];
    forall y | y in First(next) ensures y in Head(next) {
      var w, v := CompleteLinks(t, i, x0, y);
      EdgeReachesHead(t, i + 1, v, y);
    }
  }

  lemma {:induction false} CompleteIsGood(t: Term)
    requires WellFormed(t) && Complete(t)
    ensures Good(t)
  {
    if !t.Leaf? {
      forall i | 0 <= i < |t.members| ensures Good(t.members[i]) {
        MemberComplete(t, i);
        CompleteIsGood(t.members[i]);
      }
      if t.Chain? {
        forall i: nat | i + 1 < |t.members| ensures Joined(t, i) {
          CompleteIsJoined(t, i);
        }
      }
    }
  }

  /** The compiled graph never orders two jobs against the series order. */
  lemma CompilationSound(t: Term, x: nat, y: nat)
    requires WellFormed(t) && Reaches(t, x, y) && x != y
    ensures Before(t, x, y)
  {
    var n: nat :| ReachIn(t, n, x, y);
    ReachedIsBefore(t, n, x, y);
  }

  /** The compiled graph reaches the whole series order exactly when adjacent chain
    * members are joined completely. */
  lemma CompleteExactly(t: Term)
    requires WellFormed(t)
    ensures Complete(t) <==> Good(t)
  {
    if Good(t) {
      forall x, y | Before(t, x, y) ensures Reaches(t, x, y) {
        GoodIsComplete(t, x, y);
      }
    }
    if Complete(t) {
      CompleteIsGood(t);
    }
  }

  /** Reachability in the compiled graph is the series order exactly when adjacent
    * chain members are joined completely. One direction never fails: the graph
    * never orders two jobs against the series order. */
  lemma CompilationExact(t: Term)
    requires WellFormed(t)
    ensures forall x, y :: Reaches(t, x, y) && x != y ==> Before(t, x, y)
    ensures forall x :: !Before(t, x, x)
    ensures Complete(t) <==> Good(t)
  {
    forall x, y | Reaches(t, x, y) && x != y ensures Before(t, x, y) {
      CompilationSound(t, x, y);
    }
    forall x ensures !Before(t, x, x) {
      BeforeIrreflexive(t, x);
    }
    CompleteExactly(t);
  }

  predicate HasChain(t: Term) {
    match t
    case Leaf(_) => false
    case Chain(_) => true
    case Group(ms) => exists i :: 0 <= i < |ms| && HasChain(ms[i])
  }

  /** The first and the last member of every chain contain no chain. */
  predicate SimpleEnds(t: Term) {
    t.Leaf? ||
    (&& (forall i :: 0 <= i < |t.members| ==> SimpleEnds(t.members[i]))
     && (t.Chain? && |t.members| > 0 ==> !HasChain(t.members[0]) && !HasChain(t.members[|t.members|-1])))
  }

  lemma {:induction false} NoChainAllOk(t: Term)
    requires !HasChain(t)
    ensures TailOk(t) && TailInHead(t) && HeadOk(t) && HeadInTail(t)
  {
    match t
    case Leaf(_) =>
    case Group(ms) =>
      forall i | 0 <= i < |ms| ensures TailOk(ms[i]) && TailInHead(ms[i]) && HeadOk(ms[i]) && HeadInTail(ms[i]) {
        NoChainAllOk(ms[i]);
      }
  }

  /** A simple rule that is enough: no chain at either end of a chain. */
  lemma {:induction false} SimpleEndsAreGood(t: Term)
    requires WellFormed(t) && SimpleEnds(t)
    ensures Good(t) && TailOk(t) && HeadOk(t)
  {
    if !t.Leaf? {
      forall i | 0 <= i < |t.members| ensures Good(t.members[i]) && TailOk(t.members[i]) && HeadOk(t.members[i]) {
        SimpleEndsAreGood(t.members[i]);
      }
      if t.Chain? {
        NoChainAllOk(t.members[0]);
        NoChainAllOk(t.members[|t.members|-1]);
        forall i: nat | i + 1 < |t.members| ensures Joined(t, i) {
        }
      }
    }
  }

  function TwoInSeries(a: Term, b: Term): Term { Chain([a, b]) }

  lemma TwoInSeriesFacts(a: Term, b: Term)
    requires WellFormed(a) && WellFormed(b) && Leaves(a) !! Leaves(b)
    ensures var t := TwoInSeries(a, b);
      && WellFormed(t) && Leaves(t) == Leaves(a) + Leaves(b)
      && Last(t) == Last(b) && Tail(t) == Head(b) && Head(t) == Tail(a)
  {
    var t := TwoInSeries(a, b);
    assert t.members[0] == a && t.members[1] == b;
    forall x | x in Leaves(a) + Leaves(b) ensures x in Leaves(t) {
      if x in Leaves(a) {
        assert x in Leaves(t.members[0]);
      } else {
        assert x in Leaves(t.members[1]);
      }
    }
  }

  /** A chain at the end of a chain loses ordering: here job 4 is meant to follow
    * job 3, but nothing in the compiled graph makes it wait for it. */
  lemma NestedChainLosesOrder()
    ensures var t := TwoInSeries(TwoInSeries(Leaf(1), TwoInSeries(Leaf(2), Leaf(3))), Leaf(4));
            WellFormed(t) && Before(t, 3, 4) && !Reaches(t, 3, 4)
  {
    var inner := TwoInSeries(Leaf(2), Leaf(3));
    TwoInSeriesFacts(Leaf(2), Leaf(3));
    var outer := TwoInSeries(Leaf(1), inner);
    TwoInSeriesFacts(Leaf(1), inner);
    var t := TwoInSeries(outer, Leaf(4));
    TwoInSeriesFacts(outer, Leaf(4));
    assert 3 in Leaves(t.members[0]) && 4 in Leaves(t.members[1]);
    assert InSeries(t, 0, 1, 3, 4);
    if Reaches(t, 3, 4) {
      var n: nat :| ReachIn(t, n, 3, 4);
      var w :| HasEdge(t, 3, w) && ReachIn(t, n - 1, w, 4);
      EdgeLeavesTail(t, 0, 3, w);
    }
  }

  // -------------------------------------------------- the compiling worklist

  /** All parts of a term, itself included. */
  function Parts(t: Term): set<Term> {
    {t} + (if t.Leaf? then {} else set i, n | 0 <= i < |t.members| && n in Parts(t.members[i]) :: n)
  }

  /** The vertices of the graph object of `t`: its members, or the job itself. */
  function OwnVertices(t: Term): set<Term> {
    if t.Leaf? then {t} else set i | 0 <= i < |t.members| :: t.members[i]
  }

  predicate NextTo(t: Term, i: nat, v: Term, n: Term) {
    t.Chain? && i + 1 < |t.members| && t.members[i] == v && t.members[i+1] == n
  }

  /** The neighbours of `v` in that graph: the next members of a chain. */
  function Neighbours(t: Term, v: Term): set<Term> {
    if t.Leaf? then {} else set n | n in OwnVertices(t) && exists i | 0 <= i < |t.members| :: NextTo(t, i, v, n)
  }

  function HeadsOf(ns: set<Term>): set<nat> {
    set n, x | n in ns && x in Head(n) :: x
  }

  /** `setdefault(tail, set()).update(heads)` for every tail. */
  function WithEdges(g: map<nat, set<nat>>, tails: set<nat>, heads: set<nat>): map<nat, set<nat>> {
    map x | x in g.Keys + tails :: (if x in g then g[x] else {}) + (if x in tails then heads else {})
  }

  /** `x` becomes a vertex, or the edge from `x` to `y` appears, when the graph of
    * `n` is merged. */
  ghost predicate MergesVertex(n: Term, x: nat) {
    exists v :: v in OwnVertices(n) && x in Tail(v)
  }

  ghost predicate MergesEdge(n: Term, x: nat, y: nat) {
    exists i: nat :: Link(n, i, x, y)
  }

  lemma EdgesOfVertex(n: Term, v: Term, x: nat, y: nat)
    requires v in OwnVertices(n)
    ensures x in Tail(v) && y in HeadsOf(Neighbours(n, v)) ==> MergesEdge(n, x, y)
  {
    if x in Tail(v) && y in HeadsOf(Neighbours(n, v)) {
      var m :| m in Neighbours(n, v) && y in Head(m);
      var i: nat :| i < |n.members| && NextTo(n, i, v, m);
      assert Link(n, i, x, y);
    }
  }

  lemma EdgeHasVertex(n: Term, x: nat, y: nat) returns (v: Term)
    requires MergesEdge(n, x, y)
    ensures v in OwnVertices(n) && x in Tail(v) && y in HeadsOf(Neighbours(n, v))
  {
    var i: nat :| Link(n, i, x, y);
    v := n.members[i];
    assert NextTo(n, i, v, n.members[i+1]) && n.members[i+1] in Neighbours(n, v);
  }

  /** The same, restricted to the vertices in `vs`. */
  ghost predicate VertexFrom(vs: set<Term>, x: nat) {
    exists v :: v in vs && x in Tail(v)
  }

  ghost predicate EdgeFrom(n: Term, vs: set<Term>, x: nat, y: nat) {
    exists v :: v in vs && x in Tail(v) && y in HeadsOf(Neighbours(n, v))
  }

  lemma EdgeFromAll(n: Term, x: nat, y: nat)
    ensures EdgeFrom(n, OwnVertices(n), x, y) <==> MergesEdge(n, x, y)
  {
    if MergesEdge(n, x, y) {
      var v := EdgeHasVertex(n, x, y);
    }
    if EdgeFrom(n, OwnVertices(n), x, y) {
      var v :| v in OwnVertices(n) && x in Tail(v) && y in HeadsOf(Neighbours(n, v));
      EdgesOfVertex(n, v, x, y);
    }
  }

  lemma MergeOneVertex(g: map<nat, set<nat>>, n: Term, v: Term, x: nat, y: nat)
    ensures var g' := WithEdges(g, Tail(v), HeadsOf(Neighbours(n, v)));
      && (x in g' <==> x in g || x in Tail(v))
      && (G.Edge(g', x, y) <==> G.Edge(g, x, y) || (x in Tail(v) && y in HeadsOf(Neighbours(n, v))))
  {
  }

  /** `_merge_graph`: exactly the links and the tails of `n` are added. */
  method MergeGraph(g: G.Graph<nat>, n: Term)
    modifies g
    ensures forall x :: x in g.graph <==> x in old(g.graph) || MergesVertex(n, x)
    ensures forall x, y :: G.Edge(g.graph, x, y) <==> G.Edge(old(g.graph), x, y) || MergesEdge(n, x, y)
  {
    var todo := OwnVertices(n);
    ghost var g0, done := g.graph, {};
    while todo != {}
      invariant todo + done == OwnVertices(n)
      invariant forall x :: x in g.graph <==> x in g0 || VertexFrom(done, x)
      invariant forall x, y :: G.Edge(g.graph, x, y) <==> G.Edge(g0, x, y) || EdgeFrom(n, done, x, y)
      decreases |todo|
    {
      var v :| v in todo;
      ghost var g1 := g.graph;
      g.graph := WithEdges(g.graph, Tail(v), HeadsOf(Neighbours(n, v)));
      forall x, y
        ensures x in g.graph <==> x in g0 || VertexFrom(done + {v}, x)
        ensures G.Edge(g.graph, x, y) <==> G.Edge(g0, x, y) || EdgeFrom(n, done + {v}, x, y)
      {
        MergeOneVertex(g1, n, v, x, y);
        OneVertexMore(n, done, v, x, y);
      }
      todo, done := todo - {v}, done + {v};
    }
    assert done == OwnVertices(n);
    forall x, y {
      EdgeFromAll(n, x, y);
    }
  }

  lemma OneVertexMore(n: Term, vs: set<Term>, v: Term, x: nat, y: nat)
    ensures VertexFrom(vs + {v}, x) <==> VertexFrom(vs, x) || x in Tail(v)
    ensures EdgeFrom(n, vs + {v}, x, y) <==> EdgeFrom(n, vs, x, y) || (x in Tail(v) && y in HeadsOf(Neighbours(n, v)))
  {
    if VertexFrom(vs, x) {
      var u :| u in vs && x in Tail(u);
      assert u in vs + {v};
    }
    if EdgeFrom(n, vs, x, y) {
      var u :| u in vs && x in Tail(u) && y in HeadsOf(Neighbours(n, u));
      assert u in vs + {v};
    }
    assert v in vs + {v};
  }

  // ------------------------------------------------------------- the worklist

  ghost predicate VertexOfAny(ns: set<Term>, x: nat) {
    exists n :: n in ns && MergesVertex(n, x)
  }

  ghost predicate EdgeOfAny(ns: set<Term>, x: nat, y: nat) {
    exists n :: n in ns && MergesEdge(n, x, y)
  }

  lemma OneMoreMerged(ns: set<Term>, n: Term, x: nat, y: nat)
    ensures VertexOfAny(ns + {n}, x) <==> VertexOfAny(ns, x) || MergesVertex(n, x)
    ensures EdgeOfAny(ns + {n}, x, y) <==> EdgeOfAny(ns, x, y) || MergesEdge(n, x, y)
  {
    if VertexOfAny(ns, x) {
      var m :| m in ns && MergesVertex(m, x);
      assert m in ns + {n};
    }
    if EdgeOfAny(ns, x, y) {
      var m :| m in ns && MergesEdge(m, x, y);
      assert m in ns + {n};
    }
    assert n in ns + {n};
  }

  /** Parts are closed under taking own vertices. */
  lemma {:induction false} PartsClosed(t: Term, n: Term)
    requires n in Parts(t)
    ensures OwnVertices(n) <= Parts(t)
  {
    if n == t {
      forall v | v in OwnVertices(t) ensures v in Parts(t) {
        if !t.Leaf? {
          var i :| 0 <= i < |t.members| && t.members[i] == v;
          assert v in Parts(t.members[i]);
        }
      }
    } else {
      var i :| 0 <= i < |t.members| && n in Parts(t.members[i]);
      PartsClosed(t.members[i], n);
    }
  }

  /** A set that holds `t` and is closed under own vertices holds all parts. */
  lemma {:induction false} ClosedHoldsParts(t: Term, S: set<Term>)
    requires t in S && forall n :: n in S ==> OwnVertices(n) <= S
    ensures Parts(t) <= S
  {
    if !t.Leaf? {
      forall i | 0 <= i < |t.members| ensures Parts(t.members[i]) <= S {
        assert t.members[i] in OwnVertices(t);
        ClosedHoldsParts(t.members[i], S);
      }
    }
  }

  /** The links of all parts are the edges meant by `HasEdge`. */
  lemma {:induction false} EdgesOfParts(t: Term, x: nat, y: nat)
    ensures EdgeOfAny(Parts(t), x, y) <==> HasEdge(t, x, y)
  {
    forall i | 0 <= i < |Members(t)| ensures EdgeOfAny(Parts(Members(t)[i]), x, y) <==> HasEdge(Members(t)[i], x, y) {
      EdgesOfParts(Members(t)[i], x, y);
    }
    if EdgeOfAny(Parts(t), x, y) {
      var n :| n in Parts(t) && MergesEdge(n, x, y);
      if n != t {
        var i :| 0 <= i < |Members(t)| && n in Parts(Members(t)[i]);
        assert EdgeOfAny(Parts(Members(t)[i]), x, y);
      }
    }
    if HasEdge(t, x, y) {
      if i: nat :| Link(t, i, x, y) {
        assert MergesEdge(t, x, y) && t in Parts(t);
      } else {
        var i :| 0 <= i < |Members(t)| && HasEdge(Members(t)[i], x, y);
        var n :| n in Parts(Members(t)[i]) && MergesEdge(n, x, y);
        assert n in Parts(t);
      }
    }
  }

  lemma {:induction false} VerticesOfParts(t: Term, x: nat)
    ensures VertexOfAny(Parts(t), x) <==> x in Leaves(t)
  {
    if VertexOfAny(Parts(t), x) {
      var n :| n in Parts(t) && MergesVertex(n, x);
      var v :| v in OwnVertices(n) && x in Tail(v);
      PartsClosed(t, n);
      EndsInLeaves(v);
      PartLeaves(t, v);
    }
    if x in Leaves(t) {
      if t.Leaf? {
        assert t in OwnVertices(t) && MergesVertex(t, x) && t in Parts(t);
      } else {
        var i :| 0 <= i < |t.members| && x in Leaves(t.members[i]);
        VerticesOfParts(t.members[i], x);
        var n :| n in Parts(t.members[i]) && MergesVertex(n, x);
        assert n in Parts(t);
      }
    }
  }

  lemma {:induction false} PartLeaves(t: Term, v: Term)
    requires v in Parts(t)
    ensures Leaves(v) <= Leaves(t)
  {
    if v != t {
      var i :| 0 <= i < |t.members| && v in Parts(t.members[i]);
      PartLeaves(t.members[i], v);
    }
  }

  /** What the graph holds once the graphs of `ns` have been merged. */
  ghost predicate Holds(g: map<nat, set<nat>>, ns: set<Term>) {
    && (forall x :: x in g <==> VertexOfAny(ns, x))
    && (forall x, y :: G.Edge(g, x, y) <==> EdgeOfAny(ns, x, y))
  }

  /** Merge one more graph. */
  method MergeMore(g: G.Graph<nat>, ghost ns: set<Term>, n: Term)
    requires Holds(g.graph, ns)
    modifies g
    ensures Holds(g.graph, ns + {n})
  {
    MergeGraph(g, n);
    forall x, y {
      OneMoreMerged(ns, n, x, y);
    }
  }

  lemma ConnectResult(t: Term, g: map<nat, set<nat>>)
    requires Holds(g, Parts(t))
    ensures g.Keys == Leaves(t)
    ensures forall x, y :: G.Edge(g, x, y) <==> HasEdge(t, x, y)
    ensures G.Closed(g)
  {
    forall x ensures x in g.Keys <==> x in Leaves(t) {
      VerticesOfParts(t, x);
    }
    forall x, y
      ensures G.Edge(g, x, y) <==> HasEdge(t, x, y)
      ensures G.Edge(g, x, y) ==> y in g
    {
      EdgesOfParts(t, x, y);
      if HasEdge(t, x, y) {
        EdgeIsBefore(t, x, y);
        BeforeInLeaves(t, x, y);
      }
    }
  }

  /** The inner loop: merge the graphs of the vertices of `current` and push them. */
  method VisitVertices(g: G.Graph<nat>, ghost ns: set<Term>, current: Term, stack: seq<Term>)
      returns (stack': seq<Term>, ghost ns': set<Term>)
    requires Holds(g.graph, ns) && forall n :: n in stack ==> n in ns
    modifies g
    ensures Holds(g.graph, ns') && ns' == ns + OwnVertices(current)
    ensures forall n :: n in stack' ==> n in ns'
    ensures forall n :: n in stack || n in OwnVertices(current) ==> n in stack'
  {
    stack', ns' := stack, ns;
    var vertices := OwnVertices(current);
    while vertices != {}
      invariant vertices <= OwnVertices(current)
      invariant Holds(g.graph, ns') && ns' == ns + (OwnVertices(current) - vertices)
      invariant forall n :: n in stack' ==> n in ns'
      invariant forall n :: n in stack || n in OwnVertices(current) - vertices ==> n in stack'
      decreases |vertices|
    {
      var vertex :| vertex in vertices;
      vertices := vertices - {vertex};
      MergeMore(g, ns', vertex);
      ns' := ns' + {vertex};
      stack' := stack' + [vertex];
    }
  }

  /** `_connect_graphs`: the worklist ends, and the graph it builds has exactly the
    * jobs of the term as vertices and the edges of `HasEdge`. */
  method ConnectGraphs(t: Term) returns (g: G.Graph<nat>)
    ensures fresh(g) && g.graph.Keys == Leaves(t)
    ensures forall x, y :: G.Edge(g.graph, x, y) <==> HasEdge(t, x, y)
    ensures G.Closed(g.graph)
  {
    g := new G.Graph<nat>();
    MergeMore(g, {}, t);
    ghost var merged := {} + {t};
    var seen := {};
    var visitStack := [t];
    while visitStack != []
      invariant fresh(g) && Holds(g.graph, merged)
      invariant t in seen || t in visitStack
      invariant seen <= merged <= Parts(t) && forall n :: n in visitStack ==> n in merged
      invariant forall n, v :: n in seen && v in OwnVertices(n) ==> v in seen || v in visitStack
      decreases Parts(t) - seen, |visitStack|
    {
      var current := visitStack[0];
      ghost var stack0 := visitStack;
      visitStack := visitStack[1..];
      assert forall n :: n in stack0 ==> n == current || n in visitStack;
      if current !in seen {
        PartsClosed(t, current);
        visitStack, merged := VisitVertices(g, merged, current, visitStack);
        seen := seen + {current};
      }
    }
    ClosedHoldsParts(t, seen);
    assert merged == Parts(t);
    ConnectResult(t, g.graph);
  }

  // --------------------------------------------------------- direct execution

  lemma {:induction false} WalkReaches(t: Term, g: map<nat, set<nat>>, p: seq<nat>)
    requires G.IsWalk(g, p) && forall x, y :: G.Edge(g, x, y) ==> HasEdge(t, x, y)
    ensures ReachIn(t, |p| - 1, p[0], p[|p|-1])
    decreases |p|
  {
    if |p| > 1 {
      assert G.StepAt(g, p, 0);
      G.WalkSlice(g, p, 1, |p|);
      WalkReaches(t, g, p[1..|p|]);
      assert HasEdge(t, p[0], p[1]);
    }
  }

  lemma CompiledAcyclic(t: Term, g: map<nat, set<nat>>)
    requires WellFormed(t) && forall x, y :: G.Edge(g, x, y) ==> HasEdge(t, x, y)
    ensures G.Acyclic(g)
  {
    forall p: seq<nat> | G.IsWalk(g, p) && |p| >= 2 ensures p[0] != p[|p|-1] {
      NoClosedWalk(t, g, p);
    }
  }

  lemma NoClosedWalk(t: Term, g: map<nat, set<nat>>, p: seq<nat>)
    requires WellFormed(t) && forall x, y :: G.Edge(g, x, y) ==> HasEdge(t, x, y)
    requires G.IsWalk(g, p) && |p| >= 2
    ensures p[0] != p[|p|-1]
  {
    WalkReaches(t, g, p);
    ReachedIsBefore(t, |p| - 1, p[0], p[|p|-1]);
  }

  lemma {:induction false} ReachedComesFirst(t: Term, out: seq<nat>, n: nat, x: nat, k: nat)
    requires forall v, m: nat :: m < |out| && HasEdge(t, v, out[m]) ==> v in out[..m]
    requires k < |out| && ReachIn(t, n, x, out[k]) && n > 0
    ensures x in out[..k]
  {
    var z :| HasEdge(t, x, z) && ReachIn(t, n - 1, z, out[k]);
    if n > 1 {
      ReachedComesFirst(t, out, n - 1, z, k);
      var m: nat :| m < k && out[m] == z;
      assert x in out[..m];
    }
  }

  /** `_execute_graph_direct`: every job of a well-formed term runs exactly once and
    * after everything the compiled graph makes it depend on; if the term is good,
    * after everything that precedes it in series. */
  method ExecutionOrder(t: Term) returns (out: seq<nat>)
    requires WellFormed(t)
    ensures G.Distinct(out) && G.Elements(out) == Leaves(t)
    ensures forall x, k: nat :: k < |out| && HasEdge(t, x, out[k]) ==> x in out[..k]
    ensures Good(t) ==> forall x, k: nat :: k < |out| && Before(t, x, out[k]) ==> x in out[..k]
  {
    var g := ConnectGraphs(t);
    CompiledAcyclic(t, g.graph);
    out := g.SortAcyclic();
    forall x, k: nat | k < |out| && HasEdge(t, x, out[k]) ensures x in out[..k] {
      assert G.Edge(g.graph, x, out[k]);
    }
    if Good(t) {
      forall x, k: nat | k < |out| && Before(t, x, out[k]) ensures x in out[..k] {
        GoodIsComplete(t, x, out[k]);
        BeforeIrreflexive(t, x);
        var n: nat :| ReachIn(t, n, x, out[k]);
        ReachedComesFirst(t, out, n, x, k);
      }
    }
  }
}
