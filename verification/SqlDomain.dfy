/** Search domains in prefix notation and the SQL conditions they are compiled to
  * (`WhereExpression`).
  */
module SqlDomain {
  import opened ChannelJobs

  datatype Value = Null | Bool(b: bool) | Number(n: int) | Text(s: string) | Items(vs: seq<Value>)

  /** A leaf of a domain; `field` is the column as it is written in the SQL text. */
  datatype Cond = Cond(field: string, op: string, value: Value)

  datatype Op = And | Or

  /** An element of the list that `_resolve` works on: an operator, a leaf that is
    * still a tuple, or an expression already built. */
  datatype Item = Operator(o: Op) | Tuple(c: Cond) | Built(e: Sql)

  /** `SqlAndParams` of a leaf, or `Expression`. */
  datatype Sql = Clause(c: Cond) | Expression(left: Sql, op: Op, right: Sql)

  // ----------------------------------------------------------- a single clause

  const SUPPORTED: set<string> := {"=", "ilike", "like", "is", "is not", "in", "not in", ">", "<", "<=", ">=", "!="}

  /** `_translate_operator` raises NotImplementedError for any other operator. */
  predicate Supported(c: Cond) { c.op in SUPPORTED }

  function TranslateOperator(op: string): string {
    if op == "!=" then "<>" else op
  }

  /** `_translate_value`: null and booleans are written into the text. */
  function TranslateValue(v: Value): Option<string> {
    match v
    case Null => Some("null")
    case Bool(b) => Some(if b then "true" else "false")
    case _ => None
  }

  /** `not value` for a value that is not null and not a boolean. */
  predicate Falsy(v: Value) {
    match v
    case Number(n) => n == 0
    case Text(s) => s == ""
    case Items(vs) => vs == []
    case Null => true
    case Bool(b) => !b
  }

  /** A piece of SQL text; `Hole(v)` is a placeholder meant for the value `v`. */
  datatype Piece = Word(s: string) | Hole(v: Value)

  function ClauseOperator(c: Cond): string {
    var op := TranslateOperator(c.op);
    if c.value == Null && op == "=" then "is"
    else if c.value == Null && op == "<>" then "is not"
    else op
  }

  /** The text of `_interpret_tuple`. */
  function ClausePieces(c: Cond): seq<Piece> {
    match TranslateValue(c.value)
    case Some(text) => [Word("(" + c.field + " " + ClauseOperator(c) + " " + text + ")")]
    case None =>
      if c.op == "in" && Falsy(c.value) then [Word("(1=0)")]
      else [Word("(" + c.field + " " + ClauseOperator(c) + " "), Hole(c.value), Word(")")]
  }

  /** The parameter of `_interpret_tuple`, if it has one. */
  function ClauseParams(c: Cond): seq<Value> {
    if TranslateValue(c.value).Some? || (c.op == "in" && Falsy(c.value)) then [] else [c.value]
  }

  // -------------------------------------------------------- text and parameters

  function OpWord(o: Op): string { if o.And? then "and" else "or" }

  /** `__str__`: every expression is written in parentheses, left part first. */
  function Pieces(e: Sql): seq<Piece> {
    match e
    case Clause(c) => ClausePieces(c)
    case Expression(l, o, r) => [Word("(")] + Pieces(l) + [Word(" " + OpWord(o) + " ")] + Pieces(r) + [Word(")")]
  }

  /** `get_values`: the values of the left part, then those of the right part. */
  function Params(e: Sql): seq<Value> {
    match e
    case Clause(c) => ClauseParams(c)
    case Expression(l, _, r) => Params(l) + Params(r)
  }

  function Holes(ps: seq<Piece>): seq<Value> {
    if ps == [] then []
    else (if ps[0].Hole? then [ps[0].v] else []) + Holes(ps[1..])
  }

  lemma AppendTail<T>(a: seq<T>, b: seq<T>)
    requires a != []
    ensures (a + b)[0] == a[0] && (a + b)[1..] == a[1..] + b
  {
  }

  lemma AppendAssociative<T>(a: seq<T>, b: seq<T>, c: seq<T>)
    ensures a + (b + c) == a + b + c
  {
  }

  lemma {:induction false} HolesAppend(a: seq<Piece>, b: seq<Piece>)
    ensures Holes(a + b) == Holes(a) + Holes(b)
  {
    if a == [] {
      assert a + b == b;
    } else {
      HolesAppend(a[1..], b);
      AppendTail(a, b);
    }
  }

  lemma WordHasNoHole(w: string)
    ensures Holes([Word(w)]) == []
  {
    assert [Word(w)][1..] == [];
  }

  lemma ClauseHoles(c: Cond)
    ensures ClauseParams(c) == Holes(ClausePieces(c))
  {
    var ps := ClausePieces(c);
    if |ps| == 1 {
      WordHasNoHole(ps[0].s);
    } else {
      assert ps[1..][0] == ps[1] && ps[1..][1..] == [ps[2]];
      WordHasNoHole(")");
    }
  }

  lemma HolesOfFive(a: string, l: seq<Piece>, m: string, r: seq<Piece>, z: string)
    ensures Holes([Word(a)] + l + [Word(m)] + r + [Word(z)]) == Holes(l) + Holes(r)
  {
    HolesAppend([Word(a)] + l + [Word(m)] + r, [Word(z)]);
    HolesAppend([Word(a)] + l + [Word(m)], r);
    HolesAppend([Word(a)] + l, [Word(m)]);
    HolesAppend([Word(a)], l);
    forall w | w in {a, m, z} ensures Holes([Word(w)]) == [] {
      WordHasNoHole(w);
    }
  }

  /** The parameters are, one for one and left to right, the values meant for the
    * placeholders of the text. */
  lemma {:induction false} ParamsMatchPlaceholders(e: Sql)
    ensures Params(e) == Holes(Pieces(e))
  {
    match e
    case Clause(c) => ClauseHoles(c);
    case Expression(l, o, r) =>
      ParamsMatchPlaceholders(l);
      ParamsMatchPlaceholders(r);
      HolesOfFive("(", Pieces(l), " " + OpWord(o) + " ", Pieces(r), ")");
  }

  // -------------------------------------------------------------------- meaning

  /** A domain as a tree, its prefix notation, and the condition it stands for. */
  datatype Tree = Leaf(c: Cond) | Node(o: Op, l: Tree, r: Tree)

  function Prefix(t: Tree): seq<Item> {
    match t
    case Leaf(c) => [Tuple(c)]
    case Node(o, l, r) => [Operator(o)] + Prefix(l) + Prefix(r)
  }

  function Apply(o: Op, a: bool, b: bool): bool { if o.And? then a && b else a || b }

  ghost function TreeHolds(t: Tree, truth: Cond -> bool): bool {
    match t
    case Leaf(c) => truth(c)
    case Node(o, l, r) => Apply(o, TreeHolds(l, truth), TreeHolds(r, truth))
  }

  ghost function SqlHolds(e: Sql, truth: Cond -> bool): bool {
    match e
    case Clause(c) => truth(c)
    case Expression(l, o, r) => Apply(o, SqlHolds(l, truth), SqlHolds(r, truth))
  }

  /** What `_resolve` builds: the operands of every operator change sides. */
  function Mirror(t: Tree): Sql {
    match t
    case Leaf(c) => Clause(c)
    case Node(o, l, r) => Expression(Mirror(r), o, Mirror(l))
  }

  function LeavesOf(t: Tree): set<Cond> {
    match t
    case Leaf(c) => {c}
    case Node(_, l, r) => LeavesOf(l) + LeavesOf(r)
  }

  ghost predicate OperatorsKnown(t: Tree) {
    forall c :: c in LeavesOf(t) ==> Supported(c)
  }

  lemma {:induction false} MirrorKeepsTruth(t: Tree, truth: Cond -> bool)
    ensures SqlHolds(Mirror(t), truth) == TreeHolds(t, truth)
  {
    match t
    case Leaf(_) =>
    case Node(_, l, r) =>
      MirrorKeepsTruth(l, truth);
      MirrorKeepsTruth(r, truth);
  }

  // ------------------------------------------------------------------ _resolve

  /** The value of a list read as prefix notation: a stack of expressions, built
    * from the right. `None` when an operator lacks operands. */
  function Stack(d: seq<Item>): Option<seq<Sql>> {
    if d == [] then Some([])
    else
      match Stack(d[1..])
      case None => None
      case Some(st) =>
        match d[0]
        case Tuple(c) => Some([Clause(c)] + st)
        case Built(e) => Some([e] + st)
        case Operator(o) => if |st| < 2 then None else Some([Expression(st[1], o, st[0])] + st[2..])
  }

  lemma PrefixInOrder(o: Op, l: Tree, r: Tree, rest: seq<Item>)
    ensures var d := Prefix(Node(o, l, r)) + rest;
      d[0] == Operator(o) && d[1..] == Prefix(l) + (Prefix(r) + rest)
  {
    assert Prefix(Node(o, l, r)) + rest == [Operator(o)] + (Prefix(l) + (Prefix(r) + rest));
  }

  lemma {:induction false} StackOfPrefix(t: Tree, rest: seq<Item>)
    requires Stack(rest).Some?
    ensures Stack(Prefix(t) + rest) == Some([Mirror(t)] + Stack(rest).value)
  {
    match t
    case Leaf(c) =>
      assert (Prefix(t) + rest)[1..] == rest;
    case Node(o, l, r) =>
      StackOfPrefix(r, rest);
      StackOfPrefix(l, Prefix(r) + rest);
      var d := Prefix(t) + rest;
      PrefixInOrder(o, l, r, rest);
      var st := Stack(d[1..]).value;
      assert st == [Mirror(l)] + ([Mirror(r)] + Stack(rest).value);
      assert st[2..] == Stack(rest).value;
  }

  /** Replacing an end of the list by one with the same value changes nothing. */
  lemma {:induction false} StackCongruent(pre: seq<Item>, a: seq<Item>, b: seq<Item>)
    requires Stack(a) == Stack(b)
    ensures Stack(pre + a) == Stack(pre + b)
  {
    if pre == [] {
      assert pre + a == a && pre + b == b;
    } else {
      StackCongruent(pre[1..], a, b);
      assert (pre + a)[1..] == pre[1..] + a && (pre + b)[1..] == pre[1..] + b;
    }
  }

  function SqlOf(i: Item): Sql
    requires !i.Operator?
  {
    if i.Tuple? then Clause(i.c) else i.e
  }

  lemma PushOperand(x: Item, rest: seq<Item>)
    requires !x.Operator? && Stack(rest).Some?
    ensures Stack([x] + rest) == Some([SqlOf(x)] + Stack(rest).value)
  {
    assert ([x] + rest)[1..] == rest;
  }

  lemma PushOperator(o: Op, a: Item, b: Item, rest: seq<Item>)
    requires !a.Operator? && !b.Operator? && Stack(rest).Some?
    ensures Stack([Operator(o), a, b] + rest) == Some([Expression(SqlOf(b), o, SqlOf(a))] + Stack(rest).value)
  {
    PushOperand(b, rest);
    PushOperand(a, [b] + rest);
    var d := [Operator(o), a, b] + rest;
    assert d[1..] == [a] + ([b] + rest);
    var st := Stack(d[1..]).value;
    assert st == [SqlOf(a)] + ([SqlOf(b)] + Stack(rest).value);
    assert st[2..] == Stack(rest).value;
  }

  lemma SplitAtThree<T>(d: seq<T>, i: nat)
    requires i + 2 < |d|
    ensures d[..i] + ([d[i], d[i+1], d[i+2]] + d[i+3..]) == d
  {
  }

  lemma ReduceKeepsValue(d: seq<Item>, i: nat)
    requires i + 2 < |d| && d[i].Operator? && !d[i+1].Operator? && !d[i+2].Operator?
    requires Stack(d[i+3..]).Some?
    ensures var e := Expression(SqlOf(d[i+2]), d[i].o, SqlOf(d[i+1]));
            Stack(d[..i] + [Built(e)] + d[i+3..]) == Stack(d)
  {
    var rest := d[i+3..];
    var e := Expression(SqlOf(d[i+2]), d[i].o, SqlOf(d[i+1]));
    PushOperator(d[i].o, d[i+1], d[i+2], rest);
    PushOperand(Built(e), rest);
    var before, after := [d[i], d[i+1], d[i+2]] + rest, [Built(e)] + rest;
    StackCongruent(d[..i], before, after);
    SplitAtThree(d, i);
    AppendAssociative(d[..i], [Built(e)], rest);
  }

  lemma {:induction false} StackOfSuffix(d: seq<Item>, i: nat)
    requires i <= |d| && Stack(d).Some?
    ensures Stack(d[i..]).Some?
  {
    if i > 0 {
      StackOfSuffix(d[1..], i - 1);
      assert d[i..] == d[1..][i-1..];
    }
  }

  /** A rightmost operator of a list with a value has its two operands. */
  lemma OperandsThere(d: seq<Item>, i: nat)
    requires i < |d| && Stack(d).Some? && d[i].Operator?
    requires forall k :: i < k < |d| ==> !d[k].Operator?
    ensures i + 2 < |d| && Stack(d[i+3..]).Some?
  {
    StackOfSuffix(d, i);
    assert d[i..][1..] == d[i+1..];
    StackOfOperands(d[i+1..]);
    StackOfSuffix(d, i + 3);
  }

  /** Without operators the list has one expression per item. */
  lemma {:induction false} StackOfOperands(d: seq<Item>)
    requires forall i :: 0 <= i < |d| ==> !d[i].Operator?
    ensures Stack(d).Some? && |Stack(d).value| == |d|
    ensures forall i :: 0 <= i < |d| ==> Stack(d).value[i] == SqlOf(d[i])
  {
    if d != [] {
      StackOfOperands(d[1..]);
    }
  }

  datatype Error = NotImplemented | IndexError

  datatype Resolved = Ok(items: seq<Item>) | Err(error: Error)

  predicate NeedsWork(i: Item) { i.Operator? || i.Tuple? }

  /** `_get_most_right_operator`. */
  method MostRightOperator(d: seq<Item>) returns (r: Option<nat>)
    ensures r.None? ==> forall i :: 0 <= i < |d| ==> !d[i].Operator?
    ensures r.Some? ==> r.value < |d| && d[r.value].Operator? && forall i :: r.value < i < |d| ==> !d[i].Operator?
  {
    var i := |d|;
    while i > 0
      invariant 0 <= i <= |d|
      invariant forall k :: i <= k < |d| ==> !d[k].Operator?
    {
      i := i - 1;
      if d[i].Operator? {
        return Some(i);
      }
    }
    return None;
  }

  /** How much is left to do: operators count, and so does a remaining tuple. */
  function Work(d: seq<Item>): nat {
    if d == [] then 0 else (if NeedsWork(d[0]) then 1 else 0) + Work(d[1..])
  }

  lemma {:induction false} WorkAppend(a: seq<Item>, b: seq<Item>)
    ensures Work(a + b) == Work(a) + Work(b)
  {
    if a == [] {
      assert a + b == b;
    } else {
      WorkAppend(a[1..], b);
      AppendTail(a, b);
    }
  }

  lemma ReduceWorks(d: seq<Item>, i: nat, e: Sql)
    requires i + 2 < |d| && d[i].Operator?
    ensures Work(d[..i] + [Built(e)] + d[i+3..]) < Work(d)
  {
    var tail := d[i+3..];
    var mid := [d[i]] + d[i+1..i+3];
    assert d == d[..i] + mid + tail;
    WorkAppend(d[..i] + mid, tail);
    WorkAppend(d[..i], mid);
    WorkAppend(d[..i] + [Built(e)], tail);
    WorkAppend(d[..i], [Built(e)]);
    WorkAppend([d[i]], d[i+1..i+3]);
    assert Work([Built(e)]) == 0;
  }

  lemma {:induction false} NoWork(d: seq<Item>)
    ensures Work(d) == 0 <==> forall i :: 0 <= i < |d| ==> !NeedsWork(d[i])
  {
    if d != [] {
      NoWork(d[1..]);
      if Work(d) == 0 {
        forall i | 0 <= i < |d| ensures !NeedsWork(d[i]) {
          assert i > 0 ==> d[i] == d[1..][i-1];
        }
      } else if !NeedsWork(d[0]) {
        var i :| 0 <= i < |d[1..]| && NeedsWork(d[1..][i]);
        assert d[i+1] == d[1..][i];
      }
    }
  }

  /** The list still stands for the value it started with, and every leaf that is
    * gone had a known operator. */
  ghost predicate Progress(d0: seq<Item>, d: seq<Item>) {
    && (Stack(d0).Some? && |Stack(d0).value| == 1 ==> Stack(d) == Stack(d0))
    && (forall c :: Tuple(c) in d ==> Tuple(c) in d0)
    && (Stack(d0).Some? && |Stack(d0).value| == 1 ==> forall c :: Tuple(c) in d0 ==> Tuple(c) in d || Supported(c))
  }

  lemma ReduceProgress(d0: seq<Item>, d: seq<Item>, i: nat)
    requires Progress(d0, d) && i + 2 < |d| && d[i].Operator?
    requires forall k :: i < k < |d| ==> !d[k].Operator?
    requires forall k :: i < k <= i + 2 && d[k].Tuple? ==> Supported(d[k].c)
    ensures var e := Expression(SqlOf(d[i+2]), d[i].o, SqlOf(d[i+1]));
            Progress(d0, d[..i] + [Built(e)] + d[i+3..])
  {
    var e := Expression(SqlOf(d[i+2]), d[i].o, SqlOf(d[i+1]));
    var d' := d[..i] + [Built(e)] + d[i+3..];
    if Stack(d).Some? {
      OperandsThere(d, i);
      ReduceKeepsValue(d, i);
    }
    forall c | Tuple(c) in d ensures Tuple(c) in d' || Supported(c) {
      var k :| 0 <= k < |d| && d[k] == Tuple(c);
      if k < i {
        assert d'[k] == d[k];
      } else if k > i + 2 {
        assert d'[k-2] == d[k];
      }
    }
  }

  lemma FinishProgress(d0: seq<Item>, d: seq<Item>)
    requires Progress(d0, d) && d != [] && forall k :: 0 <= k < |d| ==> !d[k].Operator?
    requires d[0].Tuple? ==> Supported(d[0].c)
    ensures Progress(d0, [Built(SqlOf(d[0]))])
  {
    StackOfOperands(d);
    StackOfOperands([Built(SqlOf(d[0]))]);
    if Stack(d0).Some? && |Stack(d0).value| == 1 {
      assert d == [d[0]];
    }
  }

  lemma {:induction false} LeavesAreTuples(t: Tree, c: Cond)
    ensures Tuple(c) in Prefix(t) <==> c in LeavesOf(t)
  {
    match t
    case Leaf(_) =>
    case Node(_, l, r) =>
      LeavesAreTuples(l, c);
      LeavesAreTuples(r, c);
  }

  lemma PrefixValue(t: Tree)
    ensures Stack(Prefix(t)) == Some([Mirror(t)])
  {
    StackOfPrefix(t, []);
    assert Prefix(t) + [] == Prefix(t);
    assert [Mirror(t)] + [] == [Mirror(t)];
  }

  /** The finished list of a well-formed domain is its mirrored expression. */
  lemma ResolvedValue(t: Tree, d: seq<Item>)
    requires Progress(Prefix(t), d) && forall i :: 0 <= i < |d| ==> !NeedsWork(d[i])
    ensures d == [Built(Mirror(t))] && OperatorsKnown(t)
  {
    PrefixValue(t);
    StackOfOperands(d);
    forall c | c in LeavesOf(t) ensures Supported(c) {
      LeavesAreTuples(t, c);
    }
  }

  /** What `_resolve` answers for the prefix notation of a tree. */
  ghost predicate Answers(d0: seq<Item>, r: Resolved) {
    forall t :: d0 == Prefix(t) ==>
      r == if OperatorsKnown(t) then Ok([Built(Mirror(t))]) else Err(NotImplemented)
  }

  /** `_resolve`. It ends on every list. When the list is the prefix notation of a
    * tree, the result is the one expression that mirrors the tree, or the error
    * NotImplementedError exactly when some leaf has an unknown operator. */
  method Resolve(d0: seq<Item>) returns (r: Resolved)
    ensures Answers(d0, r)
  {
    var d := d0;
    while exists i :: 0 <= i < |d| && NeedsWork(d[i])
      invariant Progress(d0, d)
      decreases Work(d)
    {
      var at := MostRightOperator(d);
      if at.Some? {
        var i := at.value;
        if i + 2 >= |d| {
          NotAPrefix(d0, d, i);
          return Err(IndexError);
        }
        var left, right := d[i+1], d[i+2];
        if left.Tuple? && !Supported(left.c) {
          UnknownOperator(d0, d, left.c);
          return Err(NotImplemented);
        }
        if right.Tuple? && !Supported(right.c) {
          UnknownOperator(d0, d, right.c);
          return Err(NotImplemented);
        }
        var e := Expression(SqlOf(right), d[i].o, SqlOf(left));
        ReduceProgress(d0, d, i);
        ReduceWorks(d, i, e);
        d := d[..i] + [Built(e)] + d[i+3..];
      } else {
        if d[0].Tuple? && !Supported(d[0].c) {
          UnknownOperator(d0, d, d[0].c);
          return Err(NotImplemented);
        }
        FinishProgress(d0, d);
        FinishWorks(d, SqlOf(d[0]));
        d := [Built(SqlOf(d[0]))];
      }
    }
    forall t | d0 == Prefix(t)
      ensures Ok(d) == if OperatorsKnown(t) then Ok([Built(Mirror(t))]) else Err(NotImplemented)
    {
      ResolvedValue(t, d);
    }
    return Ok(d);
  }

  lemma FinishWorks(d: seq<Item>, e: Sql)
    requires exists i :: 0 <= i < |d| && NeedsWork(d[i])
    ensures Work([Built(e)]) < Work(d)
  {
    NoWork(d);
    NoWork([Built(e)]);
  }

  /** A missing operand never happens on prefix notation. */
  lemma NotAPrefix(d0: seq<Item>, d: seq<Item>, i: nat)
    requires Progress(d0, d) && i < |d| && d[i].Operator? && i + 2 >= |d|
    requires forall k :: i < k < |d| ==> !d[k].Operator?
    ensures forall t :: d0 != Prefix(t)
  {
    forall t ensures d0 != Prefix(t) {
      if d0 == Prefix(t) {
        PrefixValue(t);
        OperandsThere(d, i);
      }
    }
  }

  lemma UnknownOperator(d0: seq<Item>, d: seq<Item>, c: Cond)
    requires Progress(d0, d) && Tuple(c) in d && !Supported(c)
    ensures Answers(d0, Err(NotImplemented))
  {
    forall t | d0 == Prefix(t) ensures c in LeavesOf(t) {
      LeavesAreTuples(t, c);
    }
  }

  // ------------------------------------------------------- what the text means

  /** The SQL text read by a database that knows the meaning `sem` of the text of a clause:
    * parentheses group, the word "and" is conjunction and "or" disjunction. What is not
    * read is returned as well. */
  ghost function Evaluate(ps: seq<Piece>, sem: seq<Piece> -> bool): (r: Option<(bool, seq<Piece>)>)
    ensures r.Some? ==> |r.value.1| < |ps|
    decreases |ps|
  {
    if ps == [] then None
    else if ps[0] == Word("(") then
      var left := Evaluate(ps[1..], sem);
      if left.None? || left.value.1 == [] then None
      else
        var right := Evaluate(left.value.1[1..], sem);
        if right.None? || right.value.1 == [] || right.value.1[0] != Word(")") then None
        else if left.value.1[0] == Word(" and ") then Some((left.value.0 && right.value.0, right.value.1[1..]))
        else if left.value.1[0] == Word(" or ") then Some((left.value.0 || right.value.0, right.value.1[1..]))
        else None
    else if |ps| >= 3 && ps[1].Hole? then Some((sem(ps[..3]), ps[3..]))
    else Some((sem(ps[..1]), ps[1..]))
  }

  /** What may follow an expression in a text: nothing, or a word. */
  predicate WordFollows(rest: seq<Piece>) { rest == [] || rest[0].Word? }

  lemma ClauseEvaluates(c: Cond, rest: seq<Piece>, sem: seq<Piece> -> bool)
    requires WordFollows(rest)
    ensures Evaluate(ClausePieces(c) + rest, sem) == Some((sem(ClausePieces(c)), rest))
  {
    var ps := ClausePieces(c) + rest;
    assert ps[0].s != "(" by {
      assert |ps[0].s| > 1;
    }
    if TranslateValue(c.value).None? && !(c.op == "in" && Falsy(c.value)) {
      assert ps[..3] == ClausePieces(c) && ps[3..] == rest;
    } else {
      assert ps[..1] == ClausePieces(c) && ps[1..] == rest;
    }
  }

  /** The text of an expression has the value of the expression. */
  lemma {:induction false} TextEvaluates(e: Sql, rest: seq<Piece>, sem: seq<Piece> -> bool)
    requires WordFollows(rest)
    ensures Evaluate(Pieces(e) + rest, sem) == Some((SqlHolds(e, c => sem(ClausePieces(c))), rest))
  {
    match e
    case Clause(c) => ClauseEvaluates(c, rest, sem);
    case Expression(l, o, r) =>
      var afterRight := [Word(")")] + rest;
      var word := Word(" " + OpWord(o) + " ");
      var afterLeft := [word] + (Pieces(r) + afterRight);
      TextEvaluates(l, afterLeft, sem);
      TextEvaluates(r, afterRight, sem);
      PiecesInOrder(l, o, r, rest);
      OperatorWords(o);
      TwoPartsEvaluate(l, o, r, rest, sem);
  }

  lemma OperatorWords(o: Op)
    ensures Word(" " + OpWord(o) + " ") == if o == And then Word(" and ") else Word(" or ")
    ensures Word(" and ") != Word(" or ")
  {
    assert " and "[1] != " or "[1];
  }

  lemma PiecesInOrder(l: Sql, o: Op, r: Sql, rest: seq<Piece>)
    ensures var ps := Pieces(Expression(l, o, r)) + rest;
      && ps[0] == Word("(")
      && ps[1..] == Pieces(l) + ([Word(" " + OpWord(o) + " ")] + (Pieces(r) + ([Word(")")] + rest)))
  {
    FiveParts([Word("(")], Pieces(l), [Word(" " + OpWord(o) + " ")], Pieces(r), [Word(")")], rest);
  }

  lemma FiveParts<T>(a: seq<T>, b: seq<T>, c: seq<T>, d: seq<T>, e: seq<T>, rest: seq<T>)
    requires |a| == 1
    ensures (a + b + c + d + e + rest)[0] == a[0] && (a + b + c + d + e + rest)[1..] == b + (c + (d + (e + rest)))
  {
  }

  lemma TwoPartsEvaluate(l: Sql, o: Op, r: Sql, rest: seq<Piece>, sem: seq<Piece> -> bool)
    requires var truth := (c: Cond) => sem(ClausePieces(c));
      var afterRight := [Word(")")] + rest;
      var afterLeft := [Word(" " + OpWord(o) + " ")] + (Pieces(r) + afterRight);
      && Evaluate(Pieces(l) + afterLeft, sem) == Some((SqlHolds(l, truth), afterLeft))
      && Evaluate(Pieces(r) + afterRight, sem) == Some((SqlHolds(r, truth), afterRight))
    ensures Evaluate(Pieces(Expression(l, o, r)) + rest, sem)
      == Some((SqlHolds(Expression(l, o, r), c => sem(ClausePieces(c))), rest))
  {
    var afterRight := [Word(")")] + rest;
    var word := Word(" " + OpWord(o) + " ");
    var afterLeft := [word] + (Pieces(r) + afterRight);
    PiecesInOrder(l, o, r, rest);
    OperatorWords(o);
    assert afterLeft[0] == word && afterLeft[1..] == Pieces(r) + afterRight;
    assert afterRight[0] == Word(")") && afterRight[1..] == rest;
  }

  /** The meaning of a domain: "&" is conjunction and "|" disjunction. */
  ghost function Means(t: Tree, truth: Cond -> bool): bool {
    match t
    case Leaf(c) => truth(c)
    case Node(And, l, r) => Means(l, truth) && Means(r, truth)
    case Node(Or, l, r) => Means(l, truth) || Means(r, truth)
  }

  lemma {:induction false} TreeMeans(t: Tree, truth: Cond -> bool)
    ensures TreeHolds(t, truth) == Means(t, truth)
  {
    match t
    case Leaf(_) =>
    case Node(_, l, r) =>
      TreeMeans(l, truth);
      TreeMeans(r, truth);
  }

  /** The SQL text of a domain is read completely, and it means what the domain means. */
  lemma TextMeansDomain(t: Tree, sem: seq<Piece> -> bool)
    ensures Evaluate(Pieces(Mirror(t)), sem) == Some((Means(t, c => sem(ClausePieces(c))), []))
  {
    var truth := (c: Cond) => sem(ClausePieces(c));
    TextEvaluates(Mirror(t), [], sem);
    assert Pieces(Mirror(t)) + [] == Pieces(Mirror(t));
    MirrorKeepsTruth(t, truth);
    TreeMeans(t, truth);
  }

  /** The text of a clause, case by case. A null is written as null, with "is" for "=" and
    * "is not" for "!="; a boolean is written as true or false; "in" with nothing is never
    * true; any other value becomes a placeholder. "!=" is written as "<>". */
  lemma ClauseText(c: Cond)
    requires Supported(c)
    ensures c.value == Null && c.op == "=" ==> ClausePieces(c) == [Word("(" + c.field + " " + "is" + " " + "null" + ")")]
    ensures c.value == Null && c.op == "!=" ==> ClausePieces(c) == [Word("(" + c.field + " " + "is not" + " " + "null" + ")")]
    ensures c.value == Null && c.op != "=" && c.op != "!=" ==>
      ClausePieces(c) == [Word("(" + c.field + " " + c.op + " " + "null" + ")")]
    ensures c.value.Bool? ==>
      ClausePieces(c) == [Word("(" + c.field + " " + (if c.op == "!=" then "<>" else c.op) + " "
                               + (if c.value.b then "true" else "false") + ")")]
    ensures c.op == "in" && c.value in {Number(0), Text(""), Items([])} ==>
      ClausePieces(c) == [Word("(1=0)")]
    ensures !c.value.Null? && !c.value.Bool? && !(c.op == "in" && c.value in {Number(0), Text(""), Items([])}) ==>
      ClausePieces(c) == [Word("(" + c.field + " " + (if c.op == "!=" then "<>" else c.op) + " "), Hole(c.value), Word(")")]
  {
  }

  /** The operators that are known. */
  lemma KnownOperators(c: Cond)
    ensures Supported(c) <==>
      || c.op == "=" || c.op == "!=" || c.op == "<" || c.op == "<=" || c.op == ">" || c.op == ">="
      || c.op == "like" || c.op == "ilike" || c.op == "in" || c.op == "not in" || c.op == "is" || c.op == "is not"
  {
  }

  /** `get_clause` on the prefix notation of a tree whose operators are all known: the text
    * means what the domain means, whatever its clauses mean, and the parameters are the
    * values of its placeholders. */
  method GetClause(d0: seq<Item>) returns (text: seq<Piece>, values: seq<Value>, failed: bool)
    ensures forall t :: d0 == Prefix(t) && OperatorsKnown(t) ==>
      !failed && text == Pieces(Mirror(t)) && values == Holes(text)
    ensures forall t, sem :: d0 == Prefix(t) && OperatorsKnown(t) ==>
      Evaluate(text, sem) == Some((Means(t, c => sem(ClausePieces(c))), []))
    ensures forall t :: d0 == Prefix(t) && !OperatorsKnown(t) ==> failed
  {
    text, values, failed := ResolvedClause(d0);
    forall t, sem | d0 == Prefix(t) && OperatorsKnown(t)
      ensures Evaluate(text, sem) == Some((Means(t, c => sem(ClausePieces(c))), []))
    {
      TextMeansDomain(t, sem);
    }
  }

  /** The text and the parameters of the resolved expression. */
  method ResolvedClause(d0: seq<Item>) returns (text: seq<Piece>, values: seq<Value>, failed: bool)
    ensures forall t :: d0 == Prefix(t) && OperatorsKnown(t) ==>
      !failed && text == Pieces(Mirror(t)) && values == Holes(text)
    ensures forall t :: d0 == Prefix(t) && !OperatorsKnown(t) ==> failed
  {
    text, values, failed := [], [], true;
    var r := Resolve(d0);
    if r.Ok? && |r.items| == 1 && r.items[0].Built? {
      text, values, failed := Pieces(r.items[0].e), Params(r.items[0].e), false;
      ParamsMatchPlaceholders(r.items[0].e);
    }
  }

  // ------------------------------------------------- reading the text back

  datatype Token = Open | Close | Word2(o: Op) | Atom(c: Cond)

  function Tokens(e: Sql): seq<Token> {
    match e
    case Clause(c) => [Atom(c)]
    case Expression(l, o, r) => [Open] + Tokens(l) + [Word2(o)] + Tokens(r) + [Close]
  }

  function TokenPieces(k: Token): seq<Piece> {
    match k
    case Open => [Word("(")]
    case Close => [Word(")")]
    case Word2(o) => [Word(" " + OpWord(o) + " ")]
    case Atom(c) => ClausePieces(c)
  }

  function Written(ts: seq<Token>): seq<Piece> {
    if ts == [] then [] else TokenPieces(ts[0]) + Written(ts[1..])
  }

  lemma {:induction false} WrittenAppend(a: seq<Token>, b: seq<Token>)
    ensures Written(a + b) == Written(a) + Written(b)
  {
    if a == [] {
      assert a + b == b;
    } else {
      WrittenAppend(a[1..], b);
      AppendTail(a, b);
    }
  }

  /** The text is the tokens written one after the other. */
  lemma {:induction false} TextIsTokens(e: Sql)
    ensures Pieces(e) == Written(Tokens(e))
  {
    match e
    case Clause(c) =>
      assert Tokens(e)[1..] == [];
    case Expression(l, o, r) =>
      TextIsTokens(l);
      TextIsTokens(r);
      WrittenAppend([Open] + Tokens(l) + [Word2(o)] + Tokens(r), [Close]);
      WrittenAppend([Open] + Tokens(l) + [Word2(o)], Tokens(r));
      WrittenAppend([Open] + Tokens(l), [Word2(o)]);
      WrittenAppend([Open], Tokens(l));
      forall k: Token ensures Written([k]) == TokenPieces(k) {
        assert [k][1..] == [];
      }
  }

  /** A reader of fully parenthesised infix text. */
  function Read(ts: seq<Token>): (r: Option<(Sql, seq<Token>)>)
    ensures r.Some? ==> |r.value.1| < |ts|
    decreases |ts|
  {
    if ts == [] then None
    else if ts[0].Atom? then Some((Clause(ts[0].c), ts[1..]))
    else if ts[0].Open? then
      var left := Read(ts[1..]);
      if left.None? || left.value.1 == [] || !left.value.1[0].Word2? then None
      else
        var right := Read(left.value.1[1..]);
        if right.None? || right.value.1 == [] || !right.value.1[0].Close? then None
        else Some((Expression(left.value.0, left.value.1[0].o, right.value.0), right.value.1[1..]))
    else None
  }

  lemma TokensInOrder(l: Sql, o: Op, r: Sql, rest: seq<Token>)
    ensures var ts := Tokens(Expression(l, o, r)) + rest;
      ts[0] == Open && ts[1..] == Tokens(l) + ([Word2(o)] + (Tokens(r) + ([Close] + rest)))
    ensures ([Word2(o)] + (Tokens(r) + ([Close] + rest)))[1..] == Tokens(r) + ([Close] + rest)
    ensures ([Close] + rest)[1..] == rest
  {
    var ts := Tokens(Expression(l, o, r)) + rest;
    assert ts == [Open] + (Tokens(l) + ([Word2(o)] + (Tokens(r) + ([Close] + rest))));
  }

  /** Round trip: the text can be read in one way only, as the expression it was
    * written from. */
  lemma {:induction false} ReadsBack(e: Sql, rest: seq<Token>)
    ensures Read(Tokens(e) + rest) == Some((e, rest))
  {
    var ts := Tokens(e) + rest;
    match e
    case Clause(c) =>
      assert ts[1..] == rest;
    case Expression(l, o, r) =>
      var afterRight := [Close] + rest;
      var afterLeft := [Word2(o)] + (Tokens(r) + afterRight);
      ReadsBack(r, afterRight);
      ReadsBack(l, afterLeft);
      TokensInOrder(l, o, r, rest);
  }
}
