/** The two-phase Fibonacci task tree: tasks run in any order, on any number of ESs.  The tree of
    activation records is the state; a node also stands for the task that works on it.  One step is
    what a task does up to its next access to something shared: a record under its mutex, the pool,
    the eventual, or the heap. */
module Fibonacci {
  import opened Basics

  function Fib(n: int): nat
    decreases if n < 0 then 0 else n
  {
    if n <= 2 then 1 else Fib(n - 1) + Fib(n - 2)
  }

  /** A record that waits for its expand task, or whose expand task has created one subtask only, or
      both; one whose second aggregate has arrived; the aggregate task that a record has left for its
      parent; and what remains when that has been delivered. */
  datatype Node =
    | Todo(n: int)
    | Half(n: int, result: int, flag: bool, left: Node)
    | Rec(n: int, result: int, flag: bool, left: Node, right: Node)
    | Full(n: int, result: int)
    | Agg(value: int)
    | Done

  datatype Turn = Left | Right

  /** A record is named by its path from the root. */
  type Path = seq<Turn>

  /** `created` and `freed` count records, `freeing` has those whose aggregate task exists while they
      are not freed yet; `sets` counts the calls of ABT_eventual_set. */
  datatype State = State(
    tree: Node,
    created: nat,
    freeing: multiset<Path>,
    freed: nat,
    eventual: Option<int>,
    sets: nat)

  /** What a task does at a node: an expand task, in two parts; an aggregate task, delivering the left
      or the right child's value, and then passing on the sum. */
  datatype Act = Expand | Second | Deliver(turn: Turn) | Finish

  function Init(n: int): State
  {
    State(Todo(n), 1, multiset{}, 0, None, 0)
  }

  predicate CanHere(t: Node, a: Act)
  {
    match a
    case Expand => t.Todo?
    case Second => t.Half?
    case Deliver(Left) => (t.Half? || t.Rec?) && t.left.Agg?
    case Deliver(Right) => t.Rec? && t.right.Agg?
    case Finish => t.Full?
  }

  function Here(t: Node, a: Act): Node
    requires CanHere(t, a)
  {
    match a
    case Expand => if t.n <= 2 then Agg(1) else Half(t.n, 0, false, Todo(t.n - 1))
    case Second => Rec(t.n, t.result, t.flag, t.left, Todo(t.n - 2))
    case Deliver(Left) =>
      var sum := t.result + t.left.value;
      if t.flag then Full(t.n, sum)
      else if t.Half? then Half(t.n, sum, true, Done) else Rec(t.n, sum, true, Done, t.right)
    case Deliver(Right) =>
      var sum := t.result + t.right.value;
      if t.flag then Full(t.n, sum) else Rec(t.n, sum, true, t.left, Done)
    case Finish => Agg(t.result)
  }

  /** The node at the end of a path. */
  predicate CanAt(t: Node, path: Path, a: Act)
    decreases path
  {
    if path == [] then CanHere(t, a)
    else if path[0] == Left then (t.Half? || t.Rec?) && CanAt(t.left, path[1..], a)
    else t.Rec? && CanAt(t.right, path[1..], a)
  }

  function At(t: Node, path: Path, a: Act): Node
    requires CanAt(t, path, a)
    decreases path
  {
    if path == [] then Here(t, a)
    else if path[0] == Left then t.(left := At(t.left, path[1..], a))
    else t.(right := At(t.right, path[1..], a))
  }

  function Target(t: Node, path: Path, a: Act): Node
    requires CanAt(t, path, a)
    decreases path
  {
    if path == [] then t else if path[0] == Left then Target(t.left, path[1..], a) else Target(t.right, path[1..], a)
  }

  /** The records that an action creates. */
  function Creates(t: Node, a: Act): nat
  {
    if a == Second || (a == Expand && t.Todo? && t.n > 2) then 1 else 0
  }

  /** The records that it leaves to be freed. */
  function Leaves(t: Node, a: Act): nat
  {
    if a == Finish || (a == Expand && t.Todo? && t.n <= 2) then 1 else 0
  }

  /** A step of the whole program: a task at some node; the root's own value, which goes to the
      eventual; the release of a record. */
  datatype Step = Task(path: Path, act: Act) | Root | Free(path: Path)

  predicate Can(s: State, e: Step)
  {
    match e
    case Task(path, act) => CanAt(s.tree, path, act) && !(path == [] && act == Expand && s.tree.n <= 2)
    case Root => s.tree.Agg? || (s.tree.Todo? && s.tree.n <= 2)
    case Free(path) => s.freeing[path] > 0
  }

  function Next(s: State, e: Step): State
    requires Can(s, e)
  {
    match e
    case Task(path, act) =>
      var t := Target(s.tree, path, act);
      s.(tree := At(s.tree, path, act), created := s.created + Creates(t, act),
         freeing := if Leaves(t, act) == 1 then s.freeing + multiset{path} else s.freeing)
    case Root =>
      if s.tree.Agg? then s.(tree := Done, eventual := Some(s.tree.value), sets := s.sets + 1)
      else s.(tree := Done, eventual := Some(1), sets := s.sets + 1, freeing := s.freeing + multiset{[]})
    case Free(path) => s.(freeing := s.freeing - multiset{path}, freed := s.freed + 1)
  }

  ghost predicate Run(n: int, tr: seq<State>)
  {
    && tr != [] && tr[0] == Init(n)
    && forall i :: 0 <= i < |tr| - 1 ==> Steps(tr[i], tr[i + 1])
  }

  ghost predicate Steps(s: State, s': State)
  {
    exists e :: Can(s, e) && s' == Next(s, e)
  }

  // ---- what a node still owes its parent ----

  function Owed(t: Node): int
  {
    match t
    case Agg(v) => v
    case Done => 0
    case _ => Fib(t.n)
  }

  /** Every record's result and what its children still owe add up to its Fibonacci number; its flag is
      set exactly when one of its two aggregates has arrived. */
  predicate Good(t: Node)
  {
    match t
    case Todo(n) => true
    case Half(n, result, flag, l) =>
      n > 2 && Good(l) && result + Owed(l) + Fib(n - 2) == Fib(n) && (flag <==> l == Done)
    case Rec(n, result, flag, l, r) =>
      && n > 2 && Good(l) && Good(r) && result + Owed(l) + Owed(r) == Fib(n)
      && !(l == Done && r == Done) && (flag <==> l == Done || r == Done)
    case Full(n, result) => n > 2 && result == Fib(n)
    case Agg(_) => true
    case Done => true
  }

  /** The records in the tree. */
  function Live(t: Node): nat
  {
    match t
    case Todo(_) => 1
    case Half(_, _, _, l) => 1 + Live(l)
    case Rec(_, _, _, l, r) => 1 + Live(l) + Live(r)
    case Full(_, _) => 1
    case Agg(_) => 0
    case Done => 0
  }

  /** The steps that it takes to compute Fib(n) and to deliver it. */
  function Cost(n: int): nat
    decreases if n < 0 then 0 else n
  {
    if n <= 2 then 3 else 5 + Cost(n - 1) + Cost(n - 2)
  }

  /** The steps that are left. */
  function Work(t: Node): nat
  {
    match t
    case Todo(n) => Cost(n)
    case Half(n, _, _, l) => 4 + Work(l) + Cost(n - 2)
    case Rec(_, _, _, l, r) => 3 + Work(l) + Work(r)
    case Full(_, _) => 3
    case Agg(_) => 1
    case Done => 0
  }

  function WorkLeft(s: State): nat
  {
    |s.freeing| + if s.tree.Todo? && s.tree.n <= 2 then 2 else Work(s.tree)
  }

  lemma {:induction false} HereKeeps(t: Node, a: Act)
    requires Good(t) && CanHere(t, a)
    ensures Good(Here(t, a)) && Owed(Here(t, a)) == Owed(t) && Here(t, a) != Done
  {
    hide Live, Work, Cost;
  }

  lemma {:induction false} HereCounts(t: Node, a: Act)
    requires Good(t) && CanHere(t, a)
    ensures Live(Here(t, a)) == Live(t) + Creates(t, a) - Leaves(t, a)
    ensures Work(Here(t, a)) + Leaves(t, a) + 1 == Work(t)
  {
    assert t.Rec? ==> !(t.left == Done && t.right == Done) && (t.flag <==> t.left == Done || t.right == Done);
    assert t.Half? ==> (t.flag <==> t.left == Done);
    hide Good, Owed, Fib;
  }

  lemma {:induction false} AtOwes(t: Node, path: Path, a: Act)
    requires Good(t) && CanAt(t, path, a)
    ensures var u := At(t, path, a);
            CanHere(Target(t, path, a), a) && Good(u) && Owed(u) == Owed(t) && t != Done && u != Done
    decreases path
  {
    hide Here;
    if path == [] {
      HereKeeps(t, a);
    } else if path[0] == Left {
      AtOwes(t.left, path[1..], a);
    } else {
      AtOwes(t.right, path[1..], a);
    }
  }

  lemma {:induction false} AtCounts(t: Node, path: Path, a: Act)
    requires Good(t) && CanAt(t, path, a)
    ensures var u, x := At(t, path, a), Target(t, path, a);
            && Live(u) == Live(t) + Creates(x, a) - Leaves(x, a)
            && Work(u) + Leaves(x, a) + 1 == Work(t)
    decreases path
  {
    hide Here, Owed, Fib, Cost, Creates, Leaves;
    if path == [] {
      HereCounts(t, a);
    } else if path[0] == Left {
      AtCounts(t.left, path[1..], a);
    } else {
      AtCounts(t.right, path[1..], a);
    }
  }

  /** A task at any place keeps what the tree owes and accounts for records and work. */
  lemma {:induction false} AtKeeps(t: Node, path: Path, a: Act)
    requires Good(t) && CanAt(t, path, a)
    ensures var u, x := At(t, path, a), Target(t, path, a);
            && CanHere(x, a) && Good(u) && Owed(u) == Owed(t) && u != Done
            && Live(u) == Live(t) + Creates(x, a) - Leaves(x, a)
            && Work(u) + Leaves(x, a) + 1 == Work(t)
  {
    hide CanAt, At, Target, Good, Owed, Live, Work, Creates, Leaves;
    AtOwes(t, path, a);
    AtCounts(t, path, a);
  }

  /** What holds between any two steps. */
  predicate Inv(n: int, s: State)
  {
    && Good(s.tree) && s.created == s.freed + |s.freeing| + Live(s.tree)
    && (if s.tree == Done then s.eventual == Some(Fib(n)) && s.sets == 1
        else s.eventual == None && s.sets == 0 && Owed(s.tree) == Fib(n))
  }

  lemma StepKeeps(n: int, s: State, e: Step)
    requires Inv(n, s) && Can(s, e)
    ensures Inv(n, Next(s, e)) && WorkLeft(Next(s, e)) + 1 == WorkLeft(s)
  {
    if e.Task? {
      AtKeeps(s.tree, e.path, e.act);
      NotTodo(s.tree, e.path, e.act);
    }
  }

  lemma NotTodo(t: Node, path: Path, a: Act)
    requires CanAt(t, path, a)
    ensures !At(t, path, a).Todo? && (t.Todo? ==> path == [])
  {
  }

  lemma {:induction false} RunKeeps(n: int, tr: seq<State>, i: nat)
    requires Run(n, tr) && i < |tr|
    ensures Inv(n, tr[i]) && WorkLeft(tr[i]) + i == WorkLeft(Init(n))
  {
    if i > 0 {
      RunKeeps(n, tr, i - 1);
      assert Steps(tr[i - 1], tr[i - 1 + 1]);
      var e :| Can(tr[i - 1], e) && tr[i] == Next(tr[i - 1], e);
      StepKeeps(n, tr[i - 1], e);
    }
  }

  /** A task is ready in every tree that is not finished. */
  lemma {:induction false} SomeTaskIsReady(t: Node) returns (path: Path, a: Act)
    requires Good(t) && !t.Agg? && t != Done
    ensures CanAt(t, path, a)
    ensures t.Todo? ==> path == [] && a == Expand
  {
    match t
    case Todo(_) => path, a := [], Expand;
    case Half(_, _, _, _) => path, a := [], Second;
    case Full(_, _) => path, a := [], Finish;
    case Rec(_, _, _, l, r) =>
      if l.Agg? {
        path, a := [], Deliver(Left);
      } else if r.Agg? {
        path, a := [], Deliver(Right);
      } else if l != Done {
        path, a := SomeTaskIsReady(l);
        path := [Left] + path;
      } else {
        path, a := SomeTaskIsReady(r);
        path := [Right] + path;
      }
  }

  // ---- the promises ----

  /** Whatever the order of the tasks, the eventual is set at most once, to Fib(n), and as long as it is
      not set the tree still owes Fib(n). */
  lemma TheResultIsRight(n: int, tr: seq<State>, i: nat)
    requires Run(n, tr) && i < |tr|
    ensures tr[i].sets <= 1 && (tr[i].eventual.Some? <==> tr[i].sets == 1)
    ensures tr[i].eventual.Some? ==> tr[i].eventual.value == Fib(n)
    ensures tr[i].eventual == None ==> Good(tr[i].tree) && Owed(tr[i].tree) == Fib(n)
  {
    RunKeeps(n, tr, i);
  }

  /** Every run comes to an end, after the same number of steps: a state has no next step exactly when
      that many have been taken, and then the eventual is set and every record that was created has
      been freed, once. */
  lemma EveryScheduleTakesTheSameSteps(n: int, tr: seq<State>, i: nat)
    requires Run(n, tr) && i < |tr|
    ensures i <= WorkLeft(Init(n))
    ensures (forall e :: !Can(tr[i], e)) <==> i == WorkLeft(Init(n))
    ensures i == WorkLeft(Init(n)) ==>
              && tr[i].eventual == Some(Fib(n)) && tr[i].sets == 1
              && tr[i].freeing == multiset{} && tr[i].created == tr[i].freed
  {
    RunKeeps(n, tr, i);
    var s := tr[i];
    if i < WorkLeft(Init(n)) {
      if s.freeing != multiset{} {
        var path :| path in s.freeing;
        assert Can(s, Free(path));
      } else if s.tree.Agg? || (s.tree.Todo? && s.tree.n <= 2) {
        assert Can(s, Root);
      } else {
        var path, a := SomeTaskIsReady(s.tree);
        assert Can(s, Task(path, a));
      }
    } else {
      NoWork(s.tree);
      forall e ensures !Can(s, e) { if Can(s, e) { StepKeeps(n, s, e); } }
    }
  }

  lemma NoWork(t: Node)
    ensures Work(t) == 0 <==> t == Done
  {
  }

  /** The checking loop of the program computes Fib(n). */
  method Verify(n: int) returns (val: int)
    ensures val == Fib(n)
  {
    if n <= 2 { return 1; }
    var last := new int[2];
    last[0], last[1] := 1, 1;
    val := 1;
    var i := 3;
    while i <= n
      invariant 3 <= i <= n + 1
      invariant last[(i - 1) % 2] == Fib(i - 1) && last[i % 2] == Fib(i - 2)
      invariant i > 3 ==> val == Fib(i - 1)
    {
      val := last[0] + last[1];
      last[i % 2] := val;
      i := i + 1;
    }
  }
}
