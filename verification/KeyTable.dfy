/** The key table of a work unit: an array of chains of elements, one for each key that has been set. */
module KeyTable {
  import opened Basics

  class Key {
    const id: nat
    const hasDestructor: bool
    var refcount: int
    var freed: bool
    ghost var released: nat      // how often the key's memory has been released

    /** ABT_key_create */
    constructor (id: nat, hasDestructor: bool)
      ensures this.id == id && this.hasDestructor == hasDestructor && refcount == 1 && !freed && released == 0
    {
      this.id, this.hasDestructor := id, hasDestructor;
      refcount, freed, released := 1, false, 0;
    }

    /** ABT_key_free */
    method Free()
      modifies this
      ensures freed && refcount == old(refcount) - 1
      ensures released == old(released) + if old(refcount) == 1 then 1 else 0
    {
      freed := true;
      var was := refcount;
      refcount := refcount - 1;
      if was == 1 { released := released + 1; }
    }

    /** The decrement of a table that goes away. */
    method Drop()
      modifies this`refcount, this`released
      ensures refcount == old(refcount) - 1
      ensures released == old(released) + if old(refcount) == 1 && freed then 1 else 0
      ensures Dropped(this, old(refcount), old(released))
    {
      var was := refcount;
      refcount := refcount - 1;
      if was == 1 && freed { released := released + 1; }
    }
  }

  /** A value is NULL or points to something. */
  type Value = Option<int>

  class Elem {
    const key: Key
    var value: Value
    var next: Elem?

    constructor (key: Key, value: Value, next: Elem?)
      ensures this.key == key && this.value == value && this.next == next
    {
      this.key, this.value, this.next := key, value, next;
    }
  }

  /** The keys of a chain. */
  ghost function KeysOf(c: seq<Elem>): set<Key>
  {
    set i | 0 <= i < |c| :: c[i].key
  }

  class Table {
    const size: nat
    const elems: array<Elem?>
    var num: nat
    ghost var chains: seq<seq<Elem>>
    ghost var view: map<Key, Value>
    ghost var Repr: set<Elem>

    /** ABTI_ktable_get_idx */
    function Bucket(k: Key): (b: nat)
      requires size > 0
      ensures b < size
    {
      k.id % size
    }

    /** The chain of bucket `b` as the pointers have it. */
    ghost predicate LinksOk(b: nat)
      requires b < |chains| && b < elems.Length
      reads this`chains, this`Repr, elems, Repr`next
    {
      var c := chains[b];
      && elems[b] == (if c == [] then null else c[0])
      && (forall i :: 0 <= i < |c| ==> c[i] in Repr && c[i].next == After(c, i))
    }

    static ghost function After(c: seq<Elem>, i: nat): Elem?
    {
      if i + 1 < |c| then c[i + 1] else null
    }

    /** Its elements have keys of this bucket, each once, with the values that the table stands for. */
    ghost predicate ItemsOk(b: nat)
      requires b < |chains|
      reads this`chains, this`view, this`Repr, Repr`value
    {
      var c := chains[b];
      && (forall i :: 0 <= i < |c| ==>
            && c[i] in Repr && size > 0 && Bucket(c[i].key) == b
            && c[i].key in view && view[c[i].key] == c[i].value)
      && (forall i, j :: 0 <= i < j < |c| ==> c[i].key != c[j].key)
    }

    /** Every key that the table stands for is in the chain of its bucket. */
    ghost predicate Complete()
      requires size == |chains|
      reads this`chains, this`view
    {
      size > 0 && forall k :: k in view ==> k in KeysOf(chains[Bucket(k)])
    }

    ghost predicate Valid()
      reads this, elems, Repr
    {
      && size > 0 && elems.Length == size == |chains| && num == |view|
      && (forall b :: 0 <= b < size ==> LinksOk(b))
      && (forall b :: 0 <= b < size ==> ItemsOk(b))
      && Complete()
    }

    /** ABTI_ktable_alloc */
    constructor (size: nat)
      requires size > 0
      ensures Valid() && view == map[] && fresh(elems) && Repr == {}
    {
      this.size := size;
      elems := new Elem?[size](i => null);
      num := 0;
      chains := seq(size, i => []);
      view, Repr := map[], {};
    }

    /** The search loop of get and of set. */
    method Find(k: Key) returns (elem: Elem?, ghost i: nat)
      requires Valid()
      ensures elem == null <==> k !in view
      ensures elem != null ==>
                && Bucket(k) < size && i < |chains[Bucket(k)]| && elem == chains[Bucket(k)][i]
                && elem.key == k && elem in Repr
    {
      var b := Bucket(k);
      assert LinksOk(b) && ItemsOk(b);
      ghost var c := chains[b];
      elem := elems[b];
      i := 0;
      while elem != null
        invariant 0 <= i <= |c| && elem == (if i < |c| then c[i] else null)
        invariant forall j :: 0 <= j < i ==> c[j].key != k
        decreases |c| - i
      {
        if elem.key == k { return; }
        assert c[i].next == After(c, i);
        elem := elem.next;
        i := i + 1;
      }
      assert k !in KeysOf(c);
    }

    /** ABTI_ktable_get */
    method Get(k: Key) returns (v: Value)
      requires Valid()
      ensures v == if k in view then view[k] else None
    {
      var elem, i := Find(k);
      if elem == null { return None; }
      assert ItemsOk(Bucket(k));
      v := elem.value;
    }

    /** ABTI_ktable_set */
    method Set(k: Key, v: Value)
      requires Valid()
      modifies this, elems, Repr, k`refcount
      ensures Valid() && view == old(view)[k := v] && fresh(Repr - old(Repr)) && old(Repr) <= Repr
      ensures k.refcount == old(k.refcount) + if k in old(view) then 0 else 1
    {
      hide Bucket;
      var elem, i := Find(k);
      if elem != null {
        Overwrite(elem, Bucket(k), i, v);
      } else {
        Count(k);
        Insert(k, Bucket(k), v);
      }
    }

    method Count(k: Key)
      requires Valid()
      modifies k`refcount
      ensures Valid() && k.refcount == old(k.refcount) + 1
    {
      k.refcount := k.refcount + 1;
    }

    method Overwrite(elem: Elem, ghost b: nat, ghost i: nat, v: Value)
      requires Valid() && b < size && i < |chains[b]| && elem == chains[b][i]
      modifies this`view, elem`value
      ensures Valid() && view == old(view)[elem.key := v]
    {
      hide KeysOf, Bucket, LinksOk, After;
      assert ItemsOk(b);
      elem.value := v;
      view := view[elem.key := v];
      forall d | 0 <= d < size ensures ItemsOk(d) { assert old(ItemsOk(d)); }
      forall d | 0 <= d < size ensures LinksOk(d) { assert old(LinksOk(d)); }
    }

    /** A new element goes to the front of a chain. */
    method Front(k: Key, b: nat, v: Value) returns (elem: Elem)
      requires elems.Length == size == |chains| && b < size && forall d :: 0 <= d < size ==> LinksOk(d)
      modifies this`num, this`chains, this`Repr, elems
      ensures fresh(elem) && elem.key == k && elem.value == v && num == old(num) + 1
      ensures chains == old(chains)[b := [elem] + old(chains)[b]] && Repr == old(Repr) + {elem}
      ensures forall d :: 0 <= d < size ==> LinksOk(d)
    {
      elem := new Elem(k, v, elems[b]);
      elems[b] := elem;
      num := num + 1;
      chains := chains[b := [elem] + chains[b]];
      Repr := Repr + {elem};
      forall d | 0 <= d < size ensures LinksOk(d) { assert old(LinksOk(d)); }
    }

    /** The new element goes to the front of the chain of its bucket. */
    method Insert(k: Key, b: nat, v: Value)
      requires Valid() && k !in view && b == Bucket(k)
      modifies this, elems
      ensures Valid() && view == old(view)[k := v] && fresh(Repr - old(Repr)) && old(Repr) <= Repr
    {
      hide Bucket, KeysOf, LinksOk, After;
      var elem := Front(k, b, v);
      StillComplete(old(chains), view, b, elem);
      view := view[k := v];
      forall d | 0 <= d < size ensures ItemsOk(d) { assert old(ItemsOk(d)); }
    }

    lemma StillComplete(c: seq<seq<Elem>>, m: map<Key, Value>, b: nat, elem: Elem)
      requires size == |c| && size > 0 && b == Bucket(elem.key)
      requires forall l :: l in m ==> l in KeysOf(c[Bucket(l)])
      ensures forall l :: l in m || l == elem.key ==> l in KeysOf(c[b := [elem] + c[b]][Bucket(l)])
    {
      var c' := c[b := [elem] + c[b]];
      forall l | l in m || l == elem.key ensures l in KeysOf(c'[Bucket(l)]) {
        if l == elem.key {
          assert c'[b][0].key == l;
        } else {
          var i :| 0 <= i < |c[Bucket(l)]| && c[Bucket(l)][i].key == l;
          assert c'[Bucket(l)][if Bucket(l) == b then i + 1 else i].key == l;
        }
      }
    }

    /** One chain of ABTI_ktable_free: every key loses one reference, and the values that are not null go
        to the destructors. */
    static method FreeChain(head: Elem?, ghost c: seq<Elem>, ghost keys: seq<Key>, ghost values: seq<Value>)
      returns (calls: seq<(Key, int)>)
      requires head == (if c == [] then null else c[0]) && forall i :: 0 <= i < |c| ==> c[i].next == After(c, i)
      requires |keys| == |values| == |c| && Distinct(keys)
      requires forall i :: 0 <= i < |c| ==> c[i].key == keys[i] && c[i].value == values[i]
      modifies keys`refcount, keys`released
      ensures calls == CallsOf(keys, values)
      ensures forall i :: 0 <= i < |keys| ==> Dropped(keys[i], old(keys[i].refcount), old(keys[i].released))
    {
      hide CallsOf, Distinct, Dropped;
      ghost var i := 0;
      var elem := head;
      calls := [];
      NoCalls(keys[..0], values[..0]);
      while elem != null
        invariant 0 <= i <= |c| && elem == (if i < |c| then c[i] else null)
        invariant forall j :: 0 <= j < i ==> Dropped(keys[j], old(keys[j].refcount), old(keys[j].released))
        invariant forall j :: i <= j < |c| ==>
                  keys[j].refcount == old(keys[j].refcount) && keys[j].released == old(keys[j].released)
        invariant calls == CallsOf(keys[..i], values[..i])
        decreases |c| - i
      {
        CallsOfStep(keys, values, i);
        OthersDiffer(keys, i);
        var key := elem.key;
        if key.hasDestructor && elem.value.Some? {
          calls := calls + [(key, elem.value.value)];
        }
        key.Drop();
        elem := elem.next;
        i := i + 1;
      }
      assert keys[..i] == keys && values[..i] == values;
    }

    /** These are the destructor calls for the keys `ks` of the table: one for each that has a
        destructor and a value that is not null, and no others. */
    ghost predicate CallsFor(calls: seq<(Key, int)>, ks: set<Key>)
      reads this`view
    {
      && Distinct(calls)
      && (forall i :: 0 <= i < |calls| ==>
            && calls[i].0 in ks && calls[i].0 in view
            && view[calls[i].0] == Some(calls[i].1) && calls[i].0.hasDestructor)
      && (forall k :: k in ks && k in view && view[k].Some? && k.hasDestructor ==> (k, view[k].value) in calls)
    }

    /** The keys of bucket `b`. */
    ghost function KeysAt(b: nat): set<Key>
      requires size > 0
      reads this`view
    {
      set k | k in view && Bucket(k) == b
    }

    static function KeysIn(c: seq<Elem>): seq<Key>
    {
      seq(|c|, i requires 0 <= i < |c| => c[i].key)
    }

    static function ValuesIn(keys: seq<Key>, view: map<Key, Value>): seq<Value>
    {
      seq(|keys|, i requires 0 <= i < |keys| => if keys[i] in view then view[keys[i]] else None)
    }

    lemma BucketKeys(b: nat)
      requires Valid() && b < size
      ensures var keys := KeysIn(chains[b]);
              && Distinct(keys) && |keys| == |chains[b]|
              && (forall i :: 0 <= i < |keys| ==> keys[i] in KeysAt(b))
              && (forall k :: k in KeysAt(b) ==> k in keys)
    {
      hide Bucket;
      assert ItemsOk(b);
      var keys := KeysIn(chains[b]);
      forall k | k in KeysAt(b) ensures k in keys {
        var i :| 0 <= i < |chains[b]| && chains[b][i].key == k;
        assert keys[i] == k;
      }
    }

    /** The chain of a bucket has, once each, the keys of the table whose id modulo the size is the number
        of the bucket, and no others. */
    lemma ChainKeys(b: nat)
      requires Valid() && b < size
      ensures var keys := KeysIn(chains[b]);
              && Distinct(keys) && |keys| == |chains[b]|
              && (forall i :: 0 <= i < |keys| ==> keys[i] in view && keys[i].id % size == b)
              && (forall k :: k in view && k.id % size == b ==> k in keys)
    {
      BucketKeys(b);
      assert forall k :: k in view && k.id % size == b ==> k in KeysAt(b);
    }

    /** The destructor calls of a bucket are those of its keys. */
    lemma BucketCalls(b: nat)
      requires Valid() && b < size
      ensures var keys := KeysIn(chains[b]); CallsFor(CallsOf(keys, ValuesIn(keys, view)), KeysAt(b))
    {
      var keys := KeysIn(chains[b]);
      var values := ValuesIn(keys, view);
      var calls := CallsOf(keys, values);
      BucketKeys(b);
      NoDuplicates(keys, values);
      forall i | 0 <= i < |calls|
        ensures calls[i].0 in KeysAt(b) && view[calls[i].0] == Some(calls[i].1) && calls[i].0.hasDestructor
      {
        CallsOfMany(keys, values, calls[i].0, calls[i].1);
      }
      forall k | k in KeysAt(b) && view[k].Some? && k.hasDestructor ensures (k, view[k].value) in calls {
        CallsOfMany(keys, values, k, view[k].value);
      }
    }

    lemma ChainLinks(b: nat)
      requires Valid() && b < size
      ensures b < elems.Length && b < |chains| && size > 0
      ensures var c := chains[b]; var keys := KeysIn(c); var values := ValuesIn(keys, view);
              && elems[b] == (if c == [] then null else c[0])
              && (forall i :: 0 <= i < |c| ==> c[i].next == After(c, i))
              && |keys| == |values| == |c|
              && forall i :: 0 <= i < |c| ==> c[i].key == keys[i] && c[i].value == values[i]
    {
      assert LinksOk(b) && ItemsOk(b);
    }

    method FreeBucket(b: nat) returns (calls: seq<(Key, int)>)
      requires size > 0 && Valid() && b < size
      modifies KeysAt(b)`refcount, KeysAt(b)`released
      ensures forall k :: k in KeysAt(b) ==> Dropped(k, old(k.refcount), old(k.released))
      ensures CallsFor(calls, KeysAt(b))
    {
      hide Valid, KeysAt, KeysIn, ValuesIn, CallsOf, CallsFor;
      ChainLinks(b);
      ghost var keys := KeysIn(chains[b]);
      BucketKeys(b);
      BucketCalls(b);
      ghost var at, values := KeysAt(b), ValuesIn(keys, view);
      calls := FreeChain(elems[b], chains[b], keys, values);
      assert at == KeysAt(b);
      forall k | k in at ensures Dropped(k, old(k.refcount), old(k.released)) {
        var i :| 0 <= i < |keys| && keys[i] == k;
        assert Dropped(keys[i], old(keys[i].refcount), old(keys[i].released));
      }
    }

    /** ABTI_ktable_free: every key of the table loses one reference, and each of its values that is not
        null goes to its destructor, once. */
    method Free() returns (calls: seq<(Key, int)>)
      requires Valid()
      modifies view.Keys`refcount, view.Keys`released
      ensures forall k :: k in view ==>
                && k.refcount == old(k.refcount) - 1
                && k.released == old(k.released) + if old(k.refcount) == 1 && k.freed then 1 else 0
      ensures CallsFor(calls, view.Keys)
    {
      hide Bucket, LinksOk, ItemsOk, Complete;
      calls := [];
      var i := 0;
      while i < size
        invariant 0 <= i <= size && Valid()
        invariant forall k :: k in view && Bucket(k) < i ==> Dropped(k, old(k.refcount), old(k.released))
        invariant forall k :: k in view && Bucket(k) >= i ==>
                  k.refcount == old(k.refcount) && k.released == old(k.released)
        invariant CallsFor(calls, KeysBefore(i))
      {
        var more := FreeBucket(i);
        MoreCalls(calls, more, i);
        calls := calls + more;
        i := i + 1;
      }
      assert KeysBefore(size) == view.Keys;
    }

    ghost function KeysBefore(b: nat): set<Key>
      requires size > 0
      reads this`view
    {
      set k | k in view && Bucket(k) < b
    }

    lemma MoreCalls(calls: seq<(Key, int)>, more: seq<(Key, int)>, b: nat)
      requires size > 0 && CallsFor(calls, KeysBefore(b)) && CallsFor(more, KeysAt(b))
      ensures CallsFor(calls + more, KeysBefore(b + 1))
    {
      DistinctConcat(calls, more);
      forall k | k in KeysBefore(b + 1) && view[k].Some? && k.hasDestructor ensures (k, view[k].value) in calls + more {
        assert k in KeysBefore(b) || k in KeysAt(b);
      }
    }
  }

  /** The key has lost one reference, and its memory if that was the last one. */
  ghost predicate Dropped(k: Key, refcount: int, released: nat)
    reads k
  {
    k.refcount == refcount - 1 && k.released == released + if refcount == 1 && k.freed then 1 else 0
  }

  /** The destructor call for a key and its value, if there is to be one. */
  function CallOf(key: Key, value: Value): seq<(Key, int)>
  {
    if key.hasDestructor && value.Some? then [(key, value.value)] else []
  }

  /** The destructor calls for a list of keys and their values. */
  function CallsOf(keys: seq<Key>, values: seq<Value>): seq<(Key, int)>
    requires |keys| == |values|
  {
    if keys == [] then []
    else
      var n := |keys| - 1;
      CallsOf(keys[..n], values[..n]) + CallOf(keys[n], values[n])
  }

  lemma NoCalls(keys: seq<Key>, values: seq<Value>)
    requires keys == [] && values == []
    ensures CallsOf(keys, values) == []
  {
  }

  lemma OthersDiffer(keys: seq<Key>, i: nat)
    requires Distinct(keys) && i < |keys|
    ensures forall j :: 0 <= j < |keys| && j != i ==> keys[j] != keys[i]
  {
  }

  lemma NoDuplicates(keys: seq<Key>, values: seq<Value>)
    requires |keys| == |values| && Distinct(keys)
    ensures Distinct(CallsOf(keys, values))
  {
    if keys != [] { CallsOfMany(keys, values, keys[0], 0); }
  }

  lemma CallsOfStep(keys: seq<Key>, values: seq<Value>, i: nat)
    requires i < |keys| == |values|
    ensures CallsOf(keys[..i + 1], values[..i + 1]) == CallsOf(keys[..i], values[..i]) + CallOf(keys[i], values[i])
  {
    assert keys[..i + 1][..i] == keys[..i] && values[..i + 1][..i] == values[..i];
  }

  lemma {:induction false} CallsOfMany(keys: seq<Key>, values: seq<Value>, k: Key, v: int)
    requires |keys| == |values| && Distinct(keys)
    ensures (k, v) in CallsOf(keys, values) <==>
              exists i :: 0 <= i < |keys| && keys[i] == k && values[i] == Some(v) && k.hasDestructor
    ensures Distinct(CallsOf(keys, values))
  {
    if keys != [] {
      var n := |keys| - 1;
      CallsOfMany(keys[..n], values[..n], k, v);
      if values[n].Some? { CallsOfMany(keys[..n], values[..n], keys[n], values[n].value); }
    }
  }
}
