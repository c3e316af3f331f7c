/** The records of the Fibonacci task tree one by one: each inner one receives one aggregate from each
    of its two children, and each is freed once. */
module FibonacciRecords {
  import opened Basics
  import opened Counting
  import opened Fibonacci

  /** The argument of the record at `q` in the tree of calls for `n`, if there is one. */
  function Argument(n: int, q: Path): Option<int>
  {
    if q == [] then Some(n)
    else if n <= 2 then None
    else if q[0] == Left then Argument(n - 1, q[1..]) else Argument(n - 2, q[1..])
  }

  predicate IsRecord(n: int, q: Path)
  {
    Argument(n, q).Some?
  }

  /** A record with subtasks. */
  predicate IsInner(n: int, q: Path)
  {
    Argument(n, q).Some? && Argument(n, q).value > 2
  }

  /** The nodes carry the arguments of the tree of calls. */
  predicate Shaped(t: Node, n: int)
  {
    match t
    case Todo(m) => m == n
    case Half(m, _, flag, l) => m == n > 2 && Shaped(l, n - 1) && (flag <==> l == Done)
    case Rec(m, _, flag, l, r) =>
      && m == n > 2 && Shaped(l, n - 1) && Shaped(r, n - 2)
      && !(l == Done && r == Done) && (flag <==> l == Done || r == Done)
    case Full(m, _) => m == n > 2
    case Agg(_) => true
    case Done => true
  }

  /** How many aggregates of its child on `side` the record at `q` has received. */
  function Received(t: Node, n: int, q: Path, side: Turn): nat
    decreases q
  {
    match t
    case Todo(_) => 0
    case Half(_, _, _, l) =>
      if q == [] then One(side == Left && l == Done)
      else if q[0] == Left then Received(l, n - 1, q[1..], side) else 0
    case Rec(_, _, _, l, r) =>
      if q == [] then One((if side == Left then l else r) == Done)
      else if q[0] == Left then Received(l, n - 1, q[1..], side) else Received(r, n - 2, q[1..], side)
    case _ => One(IsInner(n, q))
  }

  /** How often the record at `q` has been left to be freed. */
  function LeftToFree(t: Node, n: int, q: Path): nat
    decreases q
  {
    match t
    case Todo(_) => 0
    case Half(_, _, _, l) => if q != [] && q[0] == Left then LeftToFree(l, n - 1, q[1..]) else 0
    case Rec(_, _, _, l, r) =>
      if q == [] then 0
      else if q[0] == Left then LeftToFree(l, n - 1, q[1..]) else LeftToFree(r, n - 2, q[1..])
    case Full(_, _) => One(q != [] && IsRecord(n, q))
    case _ => One(IsRecord(n, q))
  }

  lemma NotDone(t: Node, path: Path, a: Act)
    requires CanAt(t, path, a)
    ensures t != Done && At(t, path, a) != Done
  {
  }

  lemma HereReceives(t: Node, n: int, a: Act, q: Path, side: Turn)
    requires Shaped(t, n) && CanHere(t, a)
    ensures Received(Here(t, a), n, q, side) == Received(t, n, q, side) + One(q == [] && a == Deliver(side))
  {
  }

  lemma HereLeaves(t: Node, n: int, a: Act, q: Path)
    requires Shaped(t, n) && CanHere(t, a)
    ensures LeftToFree(Here(t, a), n, q) == LeftToFree(t, n, q) + if q == [] then Leaves(t, a) else 0
  {
  }

  lemma {:induction false} AtShaped(t: Node, n: int, path: Path, a: Act)
    requires Shaped(t, n) && CanAt(t, path, a)
    ensures Shaped(At(t, path, a), n)
    decreases path
  {
    if path == [] {
    } else if path[0] == Left {
      NotDone(t.left, path[1..], a);
      AtShaped(t.left, n - 1, path[1..], a);
    } else {
      NotDone(t.right, path[1..], a);
      AtShaped(t.right, n - 2, path[1..], a);
    }
  }

  /** A task at `path` delivers to the record there, if to any. */
  lemma {:induction false} AtReceives(t: Node, n: int, path: Path, a: Act, q: Path, side: Turn)
    requires Shaped(t, n) && CanAt(t, path, a)
    ensures Received(At(t, path, a), n, q, side) == Received(t, n, q, side) + One(q == path && a == Deliver(side))
    decreases path
  {
    hide Here;
    if path == [] {
      HereReceives(t, n, a, q, side);
    } else {
      var child, m := if path[0] == Left then t.left else t.right, if path[0] == Left then n - 1 else n - 2;
      NotDone(child, path[1..], a);
      assert q != [] && q[0] == path[0] ==> (q == path <==> q[1..] == path[1..]);
      AtReceives(child, m, path[1..], a, if q == [] then [] else q[1..], side);
    }
  }

  /** And leaves that record to be freed, if any. */
  lemma {:induction false} AtLeaves(t: Node, n: int, path: Path, a: Act, q: Path)
    requires Shaped(t, n) && CanAt(t, path, a)
    ensures LeftToFree(At(t, path, a), n, q)
            == LeftToFree(t, n, q) + if q == path then Leaves(Target(t, path, a), a) else 0
    decreases path
  {
    hide Here;
    if path == [] {
      HereLeaves(t, n, a, q);
    } else {
      var child, m := if path[0] == Left then t.left else t.right, if path[0] == Left then n - 1 else n - 2;
      assert q != [] && q[0] == path[0] ==> (q == path <==> q[1..] == path[1..]);
      AtLeaves(child, m, path[1..], a, if q == [] then [] else q[1..]);
    }
  }

  // ---- every run ----

  /** What has happened to the record at `q`, in terms of the steps taken. */
  ghost predicate Accounted(n: int, s: State, es: seq<Step>, q: Path)
  {
    && Shaped(s.tree, n)
    && (forall side :: Received(s.tree, n, q, side) == multiset(es)[Task(q, Deliver(side))])
    && LeftToFree(s.tree, n, q) == multiset(es)[Free(q)] + s.freeing[q]
  }

  lemma Appended(es: seq<Step>, e: Step, f: Step)
    ensures multiset(es + [e])[f] == multiset(es)[f] + One(e == f)
  {
  }

  lemma TaskAccounted(n: int, s: State, es: seq<Step>, path: Path, act: Act, q: Path)
    requires Accounted(n, s, es, q) && Can(s, Task(path, act))
    ensures Accounted(n, Next(s, Task(path, act)), es + [Task(path, act)], q)
  {
    hide Shaped, Received, LeftToFree, CanAt, At, Target;
    var e := Task(path, act);
    AtShaped(s.tree, n, path, act);
    AtLeaves(s.tree, n, path, act, q);
    Appended(es, e, Free(q));
    forall side ensures Received(Next(s, e).tree, n, q, side) == multiset(es + [e])[Task(q, Deliver(side))] {
      AtReceives(s.tree, n, path, act, q, side);
      Appended(es, e, Task(q, Deliver(side)));
    }
  }

  lemma StepAccounted(n: int, s: State, es: seq<Step>, e: Step, q: Path)
    requires Accounted(n, s, es, q) && Can(s, e)
    ensures Accounted(n, Next(s, e), es + [e], q)
  {
    hide Shaped, Received, LeftToFree, CanAt, At, Target;
    match e
    case Task(path, act) => TaskAccounted(n, s, es, path, act, q);
    case Root => RootAccounted(n, s.tree, q);
    case Free(_) =>
  }

  lemma RootAccounted(n: int, t: Node, q: Path)
    requires Shaped(t, n) && (t.Agg? || (t.Todo? && t.n <= 2))
    ensures Shaped(Done, n) && forall side :: Received(Done, n, q, side) == Received(t, n, q, side)
    ensures LeftToFree(Done, n, q) == LeftToFree(t, n, q) + One(t.Todo? && q == [])
  {
  }

  /** A run, with the steps taken. */
  ghost predicate RunBy(n: int, tr: seq<State>, es: seq<Step>)
  {
    && |tr| == |es| + 1 && tr[0] == Init(n)
    && forall i :: 0 <= i < |es| ==> Can(tr[i], es[i]) && tr[i + 1] == Next(tr[i], es[i])
  }

  lemma {:induction false} RunAccounted(n: int, tr: seq<State>, es: seq<Step>, i: nat, q: Path)
    requires RunBy(n, tr, es) && i < |tr|
    ensures Accounted(n, tr[i], es[..i], q)
  {
    hide Can, Next;
    if i > 0 {
      RunAccounted(n, tr, es, i - 1, q);
      StepAccounted(n, tr[i - 1], es[..i - 1], es[i - 1], q);
      assert es[..i] == es[..i - 1] + [es[i - 1]];
      assert Can(tr[i - 1], es[i - 1]) && tr[i - 1 + 1] == Next(tr[i - 1], es[i - 1]);
    }
  }

  lemma IsRun(n: int, tr: seq<State>, es: seq<Step>)
    requires RunBy(n, tr, es)
    ensures Run(n, tr)
  {
    hide Can, Next;
    forall i | 0 <= i < |tr| - 1 ensures Steps(tr[i], tr[i + 1]) {
      assert Can(tr[i], es[i]) && tr[i + 1] == Next(tr[i], es[i]);
    }
  }

  lemma {:induction false} AtMostOnce(t: Node, n: int, q: Path, side: Turn)
    requires Shaped(t, n)
    ensures Received(t, n, q, side) <= One(IsInner(n, q)) && LeftToFree(t, n, q) <= One(IsRecord(n, q))
    decreases q
  {
    if t.Half? && q != [] && q[0] == Left { AtMostOnce(t.left, n - 1, q[1..], side); }
    if t.Rec? && q != [] {
      if q[0] == Left { AtMostOnce(t.left, n - 1, q[1..], side); } else { AtMostOnce(t.right, n - 2, q[1..], side); }
    }
  }

  /** In every run a record receives at most one aggregate from its left and one from its right child,
      and only if it has children, and is freed at most once; at the end each inner record of the tree
      of calls has received exactly these two, and each record has been freed. */
  lemma EachRecordOnce(n: int, tr: seq<State>, es: seq<Step>, q: Path, side: Turn)
    requires RunBy(n, tr, es)
    ensures multiset(es)[Task(q, Deliver(side))] <= One(IsInner(n, q))
    ensures multiset(es)[Free(q)] <= One(IsRecord(n, q))
    ensures (forall e :: !Can(tr[|es|], e)) ==>
              && multiset(es)[Task(q, Deliver(side))] == One(IsInner(n, q))
              && multiset(es)[Free(q)] == One(IsRecord(n, q))
  {
    hide Can, Next, Shaped, Received, LeftToFree, RunBy, Init;
    IsRun(n, tr, es);
    LengthIs(n, tr, es);
    var s := tr[|es|];
    RunAccounted(n, tr, es, |es|, q);
    assert es[..|es|] == es;
    AtMostOnce(s.tree, n, q, side);
    if forall e :: !Can(s, e) { AtTheEnd(n, tr, |es|, q, side); }
  }

  lemma LengthIs(n: int, tr: seq<State>, es: seq<Step>)
    requires RunBy(n, tr, es)
    ensures |tr| == |es| + 1
  {
  }

  lemma AtTheEnd(n: int, tr: seq<State>, i: nat, q: Path, side: Turn)
    requires Run(n, tr) && i < |tr| && forall e :: !Can(tr[i], e)
    ensures tr[i].freeing == multiset{} && tr[i].tree == Done
    ensures Received(Done, n, q, side) == One(IsInner(n, q)) && LeftToFree(Done, n, q) == One(IsRecord(n, q))
  {
    EveryScheduleTakesTheSameSteps(n, tr, i);
    RunKeeps(n, tr, i);
  }
}
