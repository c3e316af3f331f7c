/** Scheduler configurations: a list of variables and their values is packed into a byte buffer and
    read back.  An int has 4 bytes, size_t, double and a pointer have 8, the lowest byte first; values
    are copied as the bytes they consist of. */
module SchedConfig {
  import opened Basics

  type Byte = x: int | 0 <= x < 256

  const INT_SIZE := 4
  const WORD_SIZE := 8
  const INT_RANGE := 0x1_0000_0000

  // ---- numbers as bytes ----

  function Pow256(n: nat): nat
  {
    if n == 0 then 1 else 256 * Pow256(n - 1)
  }

  function EncodeNat(v: nat, n: nat): (b: seq<Byte>)
    ensures |b| == n
  {
    if n == 0 then [] else [v % 256] + EncodeNat(v / 256, n - 1)
  }

  function DecodeNat(b: seq<Byte>): nat
  {
    if b == [] then 0 else b[0] + 256 * DecodeNat(b[1..])
  }

  lemma {:induction false} NatRoundTrip(v: nat, n: nat)
    requires v < Pow256(n)
    ensures DecodeNat(EncodeNat(v, n)) == v
  {
    if n > 0 {
      assert v / 256 < Pow256(n - 1);
      NatRoundTrip(v / 256, n - 1);
      assert EncodeNat(v, n)[1..] == EncodeNat(v / 256, n - 1);
    }
  }

  lemma DivDiv(v: nat, p: nat)
    requires p > 0
    ensures v / 256 / p == v / (256 * p)
  {
    var k, t := v / 256 / p, v / 256 % p;
    assert v / 256 == p * k + t;
    assert (256 * p) * k == 256 * (p * k);
    DivMod(256 * p, k, 256 * t + v % 256);
  }

  lemma PowPositive(i: nat)
    ensures Pow256(i) > 0
  {
  }

  /** The lowest byte comes first. */
  lemma {:induction false} ByteAt(v: nat, n: nat, i: nat)
    requires i < n
    ensures Pow256(i) > 0 && EncodeNat(v, n)[i] == v / Pow256(i) % 256
  {
    PowPositive(i);
    if i > 0 {
      ByteAt(v / 256, n - 1, i - 1);
      DivDiv(v, Pow256(i - 1));
    }
  }

  predicate IsInt(i: int)
  {
    -(INT_RANGE / 2) <= i < INT_RANGE / 2
  }

  /** Two's complement. */
  function EncodeInt(i: int): (b: seq<Byte>)
    requires IsInt(i)
    ensures |b| == INT_SIZE
  {
    EncodeNat(if i < 0 then i + INT_RANGE else i, INT_SIZE)
  }

  function DecodeInt(b: seq<Byte>): int
  {
    var n := DecodeNat(b);
    if n >= INT_RANGE / 2 then n - INT_RANGE else n
  }

  lemma IntRoundTrip(i: int)
    requires IsInt(i)
    ensures DecodeInt(EncodeInt(i)) == i
  {
    assert Pow256(INT_SIZE) == INT_RANGE by { PowInt(); }
    NatRoundTrip(if i < 0 then i + INT_RANGE else i, INT_SIZE);
  }

  lemma PowInt()
    ensures Pow256(INT_SIZE) == INT_RANGE
    ensures Pow256(WORD_SIZE) >= INT_RANGE
  {
    assert Pow256(2) == 65536;
    assert Pow256(4) == 256 * (256 * Pow256(2));
    assert Pow256(8) == 256 * (256 * (256 * (256 * Pow256(4))));
  }

  lemma SizeRoundTrip(n: nat)
    requires n < INT_RANGE
    ensures DecodeNat(EncodeNat(n, WORD_SIZE)) == n
  {
    PowInt();
    NatRoundTrip(n, WORD_SIZE);
  }

  // ---- configurations ----

  datatype Kind = IntKind | DoubleKind | PtrKind | UnknownKind

  /** A variable and its value, as the bytes of the value. */
  datatype Param = Param(idx: int, kind: Kind, bytes: seq<Byte>)

  const END := -1

  function TypeSize(k: Kind): nat
  {
    match k case IntKind => INT_SIZE case DoubleKind => WORD_SIZE case PtrKind => WORD_SIZE case UnknownKind => 0
  }

  predicate ParamOk(p: Param)
  {
    && IsInt(p.idx)
    && (p.kind == IntKind ==> |p.bytes| == 4) && (p.kind == DoubleKind || p.kind == PtrKind ==> |p.bytes| == 8)
  }

  ghost predicate ArgsOk(args: seq<Param>)
  {
    |args| < INT_RANGE / 2 && forall i :: 0 <= i < |args| ==> ParamOk(args[i])
  }

  /** The arguments before ABT_sched_config_var_end. */
  function Given(args: seq<Param>): seq<Param>
  {
    if args == [] || args[0].idx == END then [] else [args[0]] + Given(args[1..])
  }

  predicate Known(ps: seq<Param>)
  {
    forall i :: 0 <= i < |ps| ==> ps[i].kind != UnknownKind
  }

  function Entry(p: Param): seq<Byte>
    requires ParamOk(p)
  {
    EncodeInt(p.idx) + EncodeNat(TypeSize(p.kind), WORD_SIZE) + p.bytes
  }

  function Pack(ps: seq<Param>): seq<Byte>
    requires forall i :: 0 <= i < |ps| ==> ParamOk(ps[i])
  {
    if ps == [] then [] else Pack(ps[..|ps| - 1]) + Entry(ps[|ps| - 1])
  }

  /** A configuration: NULL for no parameters, or a buffer; or an error. */
  datatype Config = Null | Buffer(bytes: seq<Byte>) | Failed

  function Packed(ps: seq<Param>): seq<Byte>
    requires |ps| < INT_RANGE / 2 && forall i :: 0 <= i < |ps| ==> ParamOk(ps[i])
  {
    EncodeInt(|ps|) + Pack(ps)
  }

  lemma {:induction false} GivenPrefix(args: seq<Param>, n: nat)
    requires n <= |args| && forall i :: 0 <= i < n ==> args[i].idx != END
    requires n == |args| || args[n].idx == END
    ensures Given(args) == args[..n]
    decreases n
  {
    if n > 0 {
      GivenPrefix(args[1..], n - 1);
      assert args[..n] == [args[0]] + args[1..][..n - 1];
    }
  }

  lemma {:induction false} GivenStops(args: seq<Param>, n: nat)
    requires n < |args| && forall i :: 0 <= i <= n ==> args[i].idx != END
    ensures n < |Given(args)| && Given(args)[n] == args[n]
    decreases n
  {
    if n > 0 { GivenStops(args[1..], n - 1); }
  }

  lemma PackNone(ps: seq<Param>)
    requires ps == []
    ensures Pack(ps) == []
  {
  }

  lemma PackedIs(ps: seq<Param>)
    requires |ps| < INT_RANGE / 2 && forall i :: 0 <= i < |ps| ==> ParamOk(ps[i])
    ensures Packed(ps) == EncodeInt(|ps|) + Pack(ps)
  {
  }

  lemma AppendEntry(buffer: seq<Byte>, args: seq<Param>, n: nat)
    requires n < |args| && ParamOk(args[n]) && (forall i :: 0 <= i < |args| ==> ParamOk(args[i]))
    requires |buffer| >= INT_SIZE && buffer[INT_SIZE..] == Pack(args[..n])
    ensures var p := args[n];
            (buffer + EncodeInt(p.idx) + EncodeNat(TypeSize(p.kind), WORD_SIZE) + p.bytes)[INT_SIZE..]
            == Pack(args[..n + 1])
  {
    hide EncodeInt, EncodeNat, TypeSize, Pack, IsInt;
    var p := args[n];
    PackLast(args, n);
    Regroup(buffer, EncodeInt(p.idx), EncodeNat(TypeSize(p.kind), WORD_SIZE), p.bytes);
    Behind(buffer, Entry(p));
  }

  lemma Regroup(a: seq<Byte>, b: seq<Byte>, c: seq<Byte>, d: seq<Byte>)
    ensures a + b + c + d == a + (b + c + d)
  {
    assert a + b + c + d == a + (b + c + d);
  }

  lemma Behind(a: seq<Byte>, b: seq<Byte>)
    requires |a| >= INT_SIZE
    ensures (a + b)[INT_SIZE..] == a[INT_SIZE..] + b
  {
  }

  /** ABT_sched_config_create. */
  method Create(args: seq<Param>) returns (c: Config)
    requires ArgsOk(args)
    ensures c == Failed <==> !Known(Given(args))
    ensures c == Null <==> Given(args) == []
    ensures c.Buffer? ==>
              && |Given(args)| < INT_RANGE / 2 && (forall i :: 0 <= i < |Given(args)| ==> ParamOk(Given(args)[i]))
              && c.bytes == Packed(Given(args))
  {
    hide Pack, Given, EncodeInt, EncodeNat, Packed;
    var buffer := EncodeInt(0);
    var numParams := 0;
    assert buffer[INT_SIZE..] == Pack(args[..0]) by { PackNone(args[..0]); }
    while numParams < |args| && args[numParams].idx != END
      invariant 0 <= numParams <= |args|
      invariant forall i :: 0 <= i < numParams ==> args[i].idx != END && args[i].kind != UnknownKind
      invariant |buffer| >= INT_SIZE && buffer[INT_SIZE..] == Pack(args[..numParams])
    {
      var p := args[numParams];
      if p.kind == UnknownKind {
        GivenStops(args, numParams);
        return Failed;
      }
      AppendEntry(buffer, args, numParams);
      buffer := buffer + EncodeInt(p.idx);
      buffer := buffer + EncodeNat(TypeSize(p.kind), WORD_SIZE);
      buffer := buffer + p.bytes;
      numParams := numParams + 1;
    }
    GivenPrefix(args, numParams);
    if numParams == 0 { return Null; }
    buffer := EncodeInt(numParams) + buffer[INT_SIZE..];
    PackedIs(args[..numParams]);
    c := Buffer(buffer);
  }

  // ---- reading ----

  datatype Status = Success | Invalid

  /** Parameters with a negative index are read for type 0, the others for type 1. */
  predicate Selected(p: Param, typ: int)
  {
    if typ == 0 then p.idx < 0 else p.idx >= 0
  }

  /** The variable that a parameter is copied to. */
  function Slot(p: Param, typ: int): int
  {
    if typ == 0 then (p.idx + 2) * -1 else p.idx
  }

  /** What reading does to the variables: each parameter in turn, up to the first whose variable does
      not exist. */
  function Copied(ps: seq<Param>, typ: int, vars: seq<seq<Byte>>): (Status, seq<seq<Byte>>)
    requires forall i :: 0 <= i < |ps| && Selected(ps[i], typ) ==> Slot(ps[i], typ) >= 0
  {
    if ps == [] then (Success, vars)
    else
      var p := ps[|ps| - 1];
      var (st, before) := Copied(ps[..|ps| - 1], typ, vars);
      if st == Invalid || !Selected(p, typ) then (st, before)
      else if Slot(p, typ) >= |before| then (Invalid, before)
      else (Success, before[Slot(p, typ) := p.bytes])
  }

  lemma {:induction false} CopiedStops(ps: seq<Param>, n: nat, typ: int, vars: seq<seq<Byte>>)
    requires n <= |ps| && forall i :: 0 <= i < |ps| && Selected(ps[i], typ) ==> Slot(ps[i], typ) >= 0
    requires Copied(ps[..n], typ, vars).0 == Invalid
    ensures Copied(ps, typ, vars) == Copied(ps[..n], typ, vars)
    decreases |ps|
  {
    if n == |ps| {
      assert ps[..n] == ps;
    } else {
      var m := |ps| - 1;
      assert ps[..m][..n] == ps[..n];
      CopiedStops(ps[..m], n, typ, vars);
    }
  }

  lemma PackLast(ps: seq<Param>, n: nat)
    requires n < |ps| && forall i :: 0 <= i < |ps| ==> ParamOk(ps[i])
    ensures Pack(ps[..n + 1]) == Pack(ps[..n]) + Entry(ps[n])
  {
    assert ps[..n + 1][..n] == ps[..n];
  }

  lemma {:induction false} PackPrefix(ps: seq<Param>, n: nat)
    requires n < |ps| && forall i :: 0 <= i < |ps| ==> ParamOk(ps[i])
    ensures |Pack(ps[..n])| + |Entry(ps[n])| <= |Pack(ps)|
    ensures Pack(ps)[|Pack(ps[..n])|..|Pack(ps[..n])| + |Entry(ps[n])|] == Entry(ps[n])
    ensures |Pack(ps[..n + 1])| == |Pack(ps[..n])| + |Entry(ps[n])|
    decreases |ps|
  {
    hide Pack, Entry;
    var m := |ps| - 1;
    PackLast(ps, n);
    PackLast(ps, m);
    assert ps[..m + 1] == ps;
    if n < m {
      assert ps[..m][..n] == ps[..n];
      PackPrefix(ps[..m], n);
    }
  }

  /** The n-th entry of a buffer, field by field. */
  lemma EntryAt(ps: seq<Param>, n: nat, offset: nat)
    requires n < |ps| && |ps| < INT_RANGE / 2 && Known(ps) && forall i :: 0 <= i < |ps| ==> ParamOk(ps[i])
    requires offset == INT_SIZE + |Pack(ps[..n])|
    ensures var b, size := Packed(ps), TypeSize(ps[n].kind);
            && offset + INT_SIZE + WORD_SIZE + size <= |b|
            && DecodeInt(b[offset..offset + INT_SIZE]) == ps[n].idx
            && DecodeNat(b[offset + INT_SIZE..offset + INT_SIZE + WORD_SIZE]) == size
            && b[offset + INT_SIZE + WORD_SIZE..offset + INT_SIZE + WORD_SIZE + size] == ps[n].bytes
            && offset + INT_SIZE + WORD_SIZE + size == INT_SIZE + |Pack(ps[..n + 1])|
  {
    hide Pack, Packed, Entry, EncodeInt, EncodeNat, DecodeInt, DecodeNat;
    PackPrefix(ps, n);
    PackedIs(ps);
    EntryFields(ps[n]);
    var b, e, o := Packed(ps), Entry(ps[n]), |Pack(ps[..n])|;
    assert b[offset..offset + |e|] == e;
    Sub(b, offset, |e|, 0, INT_SIZE);
    Sub(b, offset, |e|, INT_SIZE, INT_SIZE + WORD_SIZE);
    Sub(b, offset, |e|, INT_SIZE + WORD_SIZE, |e|);
  }

  lemma EntryFields(p: Param)
    requires ParamOk(p) && p.kind != UnknownKind
    ensures var e, size := Entry(p), TypeSize(p.kind);
            && |e| == INT_SIZE + WORD_SIZE + size
            && DecodeInt(e[0..INT_SIZE]) == p.idx && DecodeNat(e[INT_SIZE..INT_SIZE + WORD_SIZE]) == size
            && e[INT_SIZE + WORD_SIZE..|e|] == p.bytes
  {
    var e := Entry(p);
    IntRoundTrip(p.idx);
    SizeRoundTrip(TypeSize(p.kind));
    assert e[0..INT_SIZE] == EncodeInt(p.idx);
    assert e[INT_SIZE..INT_SIZE + WORD_SIZE] == EncodeNat(TypeSize(p.kind), WORD_SIZE);
  }

  lemma Sub(b: seq<Byte>, o: nat, n: nat, i: nat, j: nat)
    requires o + n <= |b| && i <= j <= n
    ensures b[o..o + n][i..j] == b[o + i..o + j]
  {
    var x, y := b[o..o + n][i..j], b[o + i..o + j];
    assert forall k :: 0 <= k < |x| ==> x[k] == y[k];
  }

  /** ABTI_sched_config_read on a configuration that create has made. */
  method Read(c: Config, typ: int, variables: array<seq<Byte>>, ghost ps: seq<Param>) returns (st: Status)
    requires c == Null || c.Buffer?
    requires |ps| < INT_RANGE / 2 && Known(ps) && (forall i :: 0 <= i < |ps| ==> ParamOk(ps[i]) && ps[i].idx != END)
    requires c == (if ps == [] then Null else Buffer(Packed(ps)))
    modifies variables
    ensures (st, variables[..]) == Copied(ps, typ, old(variables[..]))
  {
    hide Pack, Packed, Copied, EncodeInt, EncodeNat, DecodeInt, DecodeNat;
    ghost var vars := variables[..];
    CopiedNone(ps[..0], typ, vars);
    if c == Null {
      assert ps == ps[..0];
      return Success;
    }
    var buffer := c.bytes;
    HeaderAndStart(ps);
    var numParams := DecodeInt(buffer[..INT_SIZE]);
    var offset := INT_SIZE;
    var p := 0;
    while p < numParams
      invariant 0 <= p <= numParams == |ps|
      invariant offset == INT_SIZE + |Pack(ps[..p])|
      invariant Copied(ps[..p], typ, vars) == (Success, variables[..])
    {
      EntryAt(ps, p, offset);
      CopiedStep(ps, p, typ, vars);
      var idx := DecodeInt(buffer[offset..offset + INT_SIZE]);
      offset := offset + INT_SIZE;
      var size := DecodeNat(buffer[offset..offset + WORD_SIZE]);
      offset := offset + WORD_SIZE;
      if typ == 0 {
        if idx < 0 {
          idx := (idx + 2) * -1;
          if idx >= variables.Length {
            CopiedStops(ps, p + 1, typ, vars);
            return Invalid;
          }
          variables[idx] := buffer[offset..offset + size];
        }
      } else {
        if idx >= 0 {
          if idx >= variables.Length {
            CopiedStops(ps, p + 1, typ, vars);
            return Invalid;
          }
          variables[idx] := buffer[offset..offset + size];
        }
      }
      offset := offset + size;
      p := p + 1;
    }
    assert ps[..p] == ps;
    st := Success;
  }

  lemma CopiedNone(ps: seq<Param>, typ: int, vars: seq<seq<Byte>>)
    requires ps == []
    ensures Copied(ps, typ, vars) == (Success, vars)
  {
  }

  lemma CopiedStep(ps: seq<Param>, n: nat, typ: int, vars: seq<seq<Byte>>)
    requires n < |ps| && forall i :: 0 <= i < |ps| && Selected(ps[i], typ) ==> Slot(ps[i], typ) >= 0
    requires Copied(ps[..n], typ, vars).0 == Success
    ensures var p, before := ps[n], Copied(ps[..n], typ, vars).1;
            Copied(ps[..n + 1], typ, vars) ==
              if !Selected(p, typ) then (Success, before)
              else if Slot(p, typ) >= |before| then (Invalid, before)
              else (Success, before[Slot(p, typ) := p.bytes])
  {
    assert ps[..n + 1][..n] == ps[..n];
  }

  lemma HeaderAndStart(ps: seq<Param>)
    requires |ps| < INT_RANGE / 2 && forall i :: 0 <= i < |ps| ==> ParamOk(ps[i])
    ensures |Packed(ps)| >= INT_SIZE && DecodeInt(Packed(ps)[..INT_SIZE]) == |ps| && Pack(ps[..0]) == []
  {
    assert Packed(ps)[..INT_SIZE] == EncodeInt(|ps|);
    IntRoundTrip(|ps|);
  }

  // ---- the round trip ----

  /** The last value given for variable `v` among the parameters of this type. */
  function LastGiven(ps: seq<Param>, typ: int, v: int): Option<seq<Byte>>
  {
    if ps == [] then None
    else
      var p := ps[|ps| - 1];
      if Selected(p, typ) && Slot(p, typ) == v then Some(p.bytes) else LastGiven(ps[..|ps| - 1], typ, v)
  }

  /** The value of variable `v`, which was `was`, when the parameters have been copied. */
  function Final(ps: seq<Param>, typ: int, v: int, was: seq<Byte>): seq<Byte>
  {
    match LastGiven(ps, typ, v)
    case None => was
    case Some(bytes) => bytes
  }

  predicate HasNoVariable(p: Param, typ: int, n: nat)
  {
    Selected(p, typ) && Slot(p, typ) >= n
  }

  /** How many parameters come before the first one that has no variable among `n`. */
  function Reach(ps: seq<Param>, typ: int, n: nat): (k: nat)
    ensures k <= |ps| && forall i :: 0 <= i < k ==> !HasNoVariable(ps[i], typ, n)
    ensures k < |ps| ==> HasNoVariable(ps[k], typ, n)
  {
    if ps == [] then 0
    else
      var m := |ps| - 1;
      var k := Reach(ps[..m], typ, n);
      if k < m || HasNoVariable(ps[m], typ, n) then k else m + 1
  }

  /** Reading succeeds exactly when every parameter of the type has a variable. */
  lemma {:induction false} CopiesUpTo(ps: seq<Param>, typ: int, vars: seq<seq<Byte>>)
    requires forall i :: 0 <= i < |ps| && Selected(ps[i], typ) ==> Slot(ps[i], typ) >= 0
    ensures |Copied(ps, typ, vars).1| == |vars|
    ensures Copied(ps, typ, vars).0 == Success <==> Reach(ps, typ, |vars|) == |ps|
  {
    if ps != [] {
      CopiesUpTo(ps[..|ps| - 1], typ, vars);
    }
  }

  /** Whether it succeeds or not, each variable then has the last value that was given for it before the
      first parameter without a variable, and the others are as before. */
  lemma {:induction false} LastValueWins(ps: seq<Param>, typ: int, vars: seq<seq<Byte>>, v: nat)
    requires (forall i :: 0 <= i < |ps| && Selected(ps[i], typ) ==> Slot(ps[i], typ) >= 0) && v < |vars|
    ensures var k := Reach(ps, typ, |vars|);
            var (st, after) := Copied(ps, typ, vars);
            && |after| == |vars| && (st == Success <==> k == |ps|)
            && after[v] == Final(ps[..k], typ, v, vars[v])
  {
    CopiesUpTo(ps, typ, vars);
    if ps != [] {
      var m := |ps| - 1;
      CopiesUpTo(ps[..m], typ, vars);
      LastValueWins(ps[..m], typ, vars, v);
      var k := Reach(ps[..m], typ, |vars|);
      assert ps[..m][..k] == ps[..k];
      if k == m && !HasNoVariable(ps[m], typ, |vars|) { FinalStep(ps, typ, v, vars[v]); }
    }
  }

  lemma FinalStep(ps: seq<Param>, typ: int, v: int, was: seq<Byte>)
    requires ps != []
    ensures ps[..|ps|] == ps
    ensures var p := ps[|ps| - 1];
            Final(ps, typ, v, was) == if Selected(p, typ) && Slot(p, typ) == v then p.bytes
                                      else Final(ps[..|ps| - 1], typ, v, was)
  {
  }

  /** The last value given for an index, if any. */
  lemma {:induction false} LastGivenIs(ps: seq<Param>, typ: int, v: nat, i: nat)
    requires i < |ps| && ps[i].idx == (if typ == 0 then -2 - v else v)
    requires forall j :: i < j < |ps| ==> ps[j].idx != ps[i].idx
    ensures LastGiven(ps, typ, v) == Some(ps[i].bytes)
  {
    if i < |ps| - 1 { LastGivenIs(ps[..|ps| - 1], typ, v, i); }
  }

  lemma {:induction false} NoneGiven(ps: seq<Param>, typ: int, v: nat)
    requires forall i :: 0 <= i < |ps| ==> ps[i].idx != if typ == 0 then -2 - v else v
    ensures LastGiven(ps, typ, v) == None
  {
    if ps != [] { NoneGiven(ps[..|ps| - 1], typ, v); }
  }

  /** In terms of indices: which variable a parameter is for, and when there is none. */
  lemma {:induction false} ReadsByIndex(ps: seq<Param>, typ: int, vars: seq<seq<Byte>>) returns (k: nat)
    requires forall i :: 0 <= i < |ps| ==> ps[i].idx != END
    ensures k <= |ps| && |Copied(ps, typ, vars).1| == |vars| && (Copied(ps, typ, vars).0 == Success <==> k == |ps|)
    ensures forall i :: 0 <= i < k ==> if typ == 0 then ps[i].idx > -2 - |vars| else ps[i].idx < |vars|
    ensures k < |ps| ==> if typ == 0 then ps[k].idx <= -2 - |vars| else ps[k].idx >= |vars|
    ensures forall v, i :: 0 <= v < |vars| && 0 <= i < k && ps[i].idx == (if typ == 0 then -2 - v else v)
                           && (forall j :: i < j < k ==> ps[j].idx != ps[i].idx) ==>
              Copied(ps, typ, vars).1[v] == ps[i].bytes
    ensures forall v :: 0 <= v < |vars|
                        && (forall i :: 0 <= i < k ==> ps[i].idx != if typ == 0 then -2 - v else v) ==>
              Copied(ps, typ, vars).1[v] == vars[v]
  {
    hide Copied, LastGiven, Reach;
    k := Reach(ps, typ, |vars|);
    CopiesUpTo(ps, typ, vars);
    var after := Copied(ps, typ, vars).1;
    forall v, i | 0 <= v < |vars| && 0 <= i < k && ps[i].idx == (if typ == 0 then -2 - v else v)
                  && (forall j :: i < j < k ==> ps[j].idx != ps[i].idx)
      ensures after[v] == ps[i].bytes
    {
      LastValueWins(ps, typ, vars, v);
      LastGivenIs(ps[..k], typ, v, i);
    }
    forall v | 0 <= v < |vars| && (forall i :: 0 <= i < k ==> ps[i].idx != if typ == 0 then -2 - v else v)
      ensures after[v] == vars[v]
    {
      LastValueWins(ps, typ, vars, v);
      NoneGiven(ps[..k], typ, v);
    }
  }

  /** Packing `n` parameters, those before the end mark, and reading them back, the whole way through the
      buffer.  Variable `v` belongs to the index -2 - v when type 0 is read, and to the index v else.  The
      first `k` parameters are read: all of them, or those before the first whose index has no variable;
      each variable then has the last value among them for its index, or is as before. */
  method RoundTrip(args: seq<Param>, typ: int, variables: array<seq<Byte>>, ghost n: nat)
    returns (c: Config, st: Status, ghost k: nat)
    requires ArgsOk(args) && n <= |args| && (n == |args| || args[n].idx == END)
    requires forall i :: 0 <= i < n ==> args[i].idx != END && args[i].kind != UnknownKind
    modifies variables
    ensures c != Failed && (c == Null <==> n == 0) && k <= n && (st == Success <==> k == n)
    ensures forall i :: 0 <= i < k ==>
              if typ == 0 then args[i].idx > -2 - variables.Length else args[i].idx < variables.Length
    ensures k < n ==> if typ == 0 then args[k].idx <= -2 - variables.Length else args[k].idx >= variables.Length
    ensures forall v, i :: 0 <= v < variables.Length && 0 <= i < k && args[i].idx == (if typ == 0 then -2 - v else v)
                           && (forall j :: i < j < k ==> args[j].idx != args[i].idx) ==>
              variables[v] == args[i].bytes
    ensures forall v :: 0 <= v < variables.Length
                        && (forall i :: 0 <= i < k ==> args[i].idx != if typ == 0 then -2 - v else v) ==>
              variables[v] == old(variables[v])
  {
    hide Pack, Packed, Given, Copied;
    GivenPrefix(args, n);
    assert args[..n] == [] <==> n == 0;
    c := Create(args);
    ghost var vars := variables[..];
    ghost var ps := args[..n];
    st := Read(c, typ, variables, ps);
    k := ReadsByIndex(ps, typ, vars);
    forall v, i | 0 <= v < variables.Length && 0 <= i < k && args[i].idx == (if typ == 0 then -2 - v else v)
                  && (forall j :: i < j < k ==> args[j].idx != args[i].idx)
      ensures variables[v] == args[i].bytes
    {
      assert ps[i] == args[i] && forall j :: i < j < k ==> ps[j].idx != ps[i].idx;
    }
    forall v | 0 <= v < variables.Length
               && (forall i :: 0 <= i < k ==> args[i].idx != if typ == 0 then -2 - v else v)
      ensures variables[v] == old(variables[v])
    {
      assert forall i :: 0 <= i < k ==> ps[i].idx != if typ == 0 then -2 - v else v;
    }
  }
}
