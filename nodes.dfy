/**
 * The etcd v2 node tree a listing response carries, its JSON encoding, and
 * what the traversal of that encoding collects.
 */
module Nodes {
  import opened Wrappers
  import opened PhpValues
  import opened Flatten

  /** A node: a key holding a value, or a directory holding child nodes. */
  datatype Node =
    | Leaf(key: string, value: string, created: nat, modified: nat)
    | Dir(key: string, nodes: seq<Node>, created: nat, modified: nat)

  function Field(name: string, v: Json): Member {
    Member(StrKey(name), v)
  }

  /** {"key", "value", "modifiedIndex", "createdIndex"} or {"key", "dir": true, "nodes", …}. */
  function Encode(n: Node): Json
    decreases n
  {
    match n
    case Leaf(k, v, c, m) =>
      Array([Field("key", Str(k)), Field("value", Str(v)),
             Field("modifiedIndex", Int(m)), Field("createdIndex", Int(c))])
    case Dir(k, ns, c, m) =>
      Array([Field("key", Str(k)), Field("dir", Bool(true)), Field("nodes", Array(EncodeAll(ns, 0))),
             Field("modifiedIndex", Int(m)), Field("createdIndex", Int(c))])
  }

  /** A JSON list: the nodes under the integer keys i, i + 1, … */
  function EncodeAll(ns: seq<Node>, i: nat): seq<Member>
    decreases ns
  {
    if ns == [] then []
    else [Member(IntKey(i), Encode(ns[0]))] + EncodeAll(ns[1..], i + 1)
  }

  /** The body of a response: {"action": …, "node": …}. */
  function Response(action: string, n: Node): Json {
    Array([Field("action", Str(action)), Field("node", Encode(n))])
  }

  /** The keys of the tree in preorder, the key '/' left out. */
  function Keys(n: Node): seq<Json>
    decreases n
  {
    (if n.key == "/" then [] else [Str(n.key)]) + (if n.Dir? then KeysAll(n.nodes) else [])
  }

  function KeysAll(ns: seq<Node>): seq<Json>
    decreases ns
  {
    if ns == [] then [] else Keys(ns[0]) + KeysAll(ns[1..])
  }

  /** The leaves of the tree in preorder. */
  function Leaves(n: Node): (r: seq<Node>)
    ensures forall l :: l in r ==> l.Leaf?
    decreases n
  {
    if n.Leaf? then [n] else LeavesAll(n.nodes)
  }

  function LeavesAll(ns: seq<Node>): (r: seq<Node>)
    ensures forall l :: l in r ==> l.Leaf?
    decreases ns
  {
    if ns == [] then [] else Leaves(ns[0]) + LeavesAll(ns[1..])
  }

  /** Where a leaf's value lands: the array key of its own key, or '' for the key '/'. */
  function Slot(k: string): ArrayKey {
    if k == "/" then StrKey("") else ArrayKeyOf(Str(k))
  }

  /** The value array after storing the leaves in order, a later leaf overwriting an earlier one. */
  function Store(ls: seq<Node>, vals: map<ArrayKey, Json>): map<ArrayKey, Json>
    requires forall l :: l in ls ==> l.Leaf?
    decreases ls
  {
    if ls == [] then vals else Store(ls[1..], vals[Slot(ls[0].key) := Str(ls[0].value)])
  }

  lemma {:induction false} StoreAppend(a: seq<Node>, b: seq<Node>, vals: map<ArrayKey, Json>)
    requires forall l :: l in a ==> l.Leaf?
    requires forall l :: l in b ==> l.Leaf?
    ensures Store(a + b, vals) == Store(b, Store(a, vals))
    decreases a
  {
    if a == [] {
      assert a + b == b;
    } else {
      assert (a + b)[0] == a[0] && (a + b)[1..] == a[1..] + b;
      StoreAppend(a[1..], b, vals[Slot(a[0].key) := Str(a[0].value)]);
    }
  }

  /** Leaves with pairwise different slots. */
  predicate DistinctSlots(ls: seq<Node>) {
    forall i, j :: 0 <= i < j < |ls| ==> Slot(ls[i].key) != Slot(ls[j].key)
  }

  /** With distinct slots every leaf's value is found under its own slot. */
  lemma {:induction false} StoreFinds(ls: seq<Node>, vals: map<ArrayKey, Json>, i: nat)
    requires forall l :: l in ls ==> l.Leaf?
    requires DistinctSlots(ls) && i < |ls|
    ensures Slot(ls[i].key) in Store(ls, vals)
    ensures Store(ls, vals)[Slot(ls[i].key)] == Str(ls[i].value)
    decreases ls
  {
    var next := vals[Slot(ls[0].key) := Str(ls[0].value)];
    if i == 0 {
      StoreKeeps(ls[1..], next, Slot(ls[0].key));
    } else {
      assert DistinctSlots(ls[1..]) by {
        forall p, q | 0 <= p < q < |ls[1..]|
          ensures Slot(ls[1..][p].key) != Slot(ls[1..][q].key)
        {
          assert ls[1..][p] == ls[p + 1] && ls[1..][q] == ls[q + 1];
        }
      }
      StoreFinds(ls[1..], next, i - 1);
    }
  }

  /** A slot no later leaf writes keeps its value. */
  lemma {:induction false} StoreKeeps(ls: seq<Node>, vals: map<ArrayKey, Json>, k: ArrayKey)
    requires forall l :: l in ls ==> l.Leaf?
    requires k in vals
    requires forall l :: l in ls ==> Slot(l.key) != k
    ensures k in Store(ls, vals) && Store(ls, vals)[k] == vals[k]
    decreases ls
  {
    if ls != [] {
      assert ls[0] in ls;
      StoreKeeps(ls[1..], vals[Slot(ls[0].key) := Str(ls[0].value)], k);
    }
  }

  lemma WalkScalar(m: Member, rest: seq<Member>, acc: Flat, key: ArrayKey)
    requires !m.val.Array?
    ensures Walk([m] + rest, acc, key) == Walk(rest, Step(m, acc, key), NextKey(m, key))
  {
    assert ([m] + rest)[0] == m && ([m] + rest)[1..] == rest;
  }

  lemma WalkNested(m: Member, rest: seq<Member>, acc: Flat, key: ArrayKey)
    requires m.val.Array?
    ensures Walk([m] + rest, acc, key) == Walk(rest, Walk(m.val.entries, acc, StrKey("")), key)
  {
    assert ([m] + rest)[0] == m && ([m] + rest)[1..] == rest;
  }

  /** A `key` field records the key (unless it is '/') and makes its slot current. */
  lemma KeyField(k: string, acc: Flat, key: ArrayKey)
    ensures Step(Field("key", Str(k)), acc, key)
         == Flat(acc.dirs + (if k == "/" then [] else [Str(k)]), acc.values)
    ensures NextKey(Field("key", Str(k)), key) == (if k == "/" then key else Slot(k))
  {
  }

  /** Members other than key and value leave the walk unchanged. */
  lemma OtherField(name: string, v: Json, acc: Flat, key: ArrayKey)
    requires !v.Array? && name != "key" && name != "value"
    ensures Step(Field(name, v), acc, key) == acc && NextKey(Field(name, v), key) == key
  {
  }

  /** A `value` field is stored under the current key. */
  lemma ValueField(v: string, acc: Flat, key: ArrayKey)
    ensures Step(Field("value", Str(v)), acc, key) == Flat(acc.dirs, acc.values[key := Str(v)])
    ensures NextKey(Field("value", Str(v)), key) == key
  {
  }

  /** The two index fields that close every encoded node leave the walk unchanged. */
  lemma IndexFields(c: nat, m: nat, acc: Flat, key: ArrayKey)
    ensures Walk([Field("modifiedIndex", Int(m)), Field("createdIndex", Int(c))], acc, key) == acc
  {
    var mi := Field("modifiedIndex", Int(m));
    var ci := Field("createdIndex", Int(c));
    assert [mi, ci] == [mi] + [ci];
    WalkScalar(mi, [ci], acc, key);
    OtherField("modifiedIndex", Int(m), acc, key);
    assert [ci] == [ci] + [];
    WalkScalar(ci, [], acc, key);
    OtherField("createdIndex", Int(c), acc, key);
  }

  /** The key field and the dir flag that open an encoded directory. */
  lemma DirHead(k: string, rest: seq<Member>, acc: Flat)
    ensures Walk([Field("key", Str(k)), Field("dir", Bool(true))] + rest, acc, StrKey(""))
         == Walk(rest, Flat(acc.dirs + (if k == "/" then [] else [Str(k)]), acc.values), Slot(k))
  {
    var key := Field("key", Str(k));
    var d := Field("dir", Bool(true));
    var acc1 := Flat(acc.dirs + (if k == "/" then [] else [Str(k)]), acc.values);
    assert [key, d] + rest == [key] + ([d] + rest);
    WalkScalar(key, [d] + rest, acc, StrKey(""));
    KeyField(k, acc, StrKey(""));
    WalkScalar(d, rest, acc1, Slot(k));
    OtherField("dir", Bool(true), acc1, Slot(k));
  }

  /** The walk over an encoded node collects its keys in preorder and stores its leaves. */
  lemma {:induction false} EncodeWalk(n: Node, acc: Flat)
    ensures Walk(Encode(n).entries, acc, StrKey("")) == Flat(acc.dirs + Keys(n), Store(Leaves(n), acc.values))
    decreases n, 2
  {
    if n.Leaf? {
      LeafWalk(n, acc);
    } else {
      DirWalk(n, acc);
    }
  }

  lemma LeafWalk(n: Node, acc: Flat)
    requires n.Leaf?
    ensures Walk(Encode(n).entries, acc, StrKey("")) == Flat(acc.dirs + Keys(n), Store(Leaves(n), acc.values))
  {
    var own := if n.key == "/" then [] else [Str(n.key)];
    var k := Field("key", Str(n.key));
    var v := Field("value", Str(n.value));
    var mi := Field("modifiedIndex", Int(n.modified));
    var ci := Field("createdIndex", Int(n.created));
    var acc1 := Flat(acc.dirs + own, acc.values);
    var stored := Flat(acc1.dirs, acc.values[Slot(n.key) := Str(n.value)]);
    calc {
      Walk(Encode(n).entries, acc, StrKey(""));
      { assert Encode(n).entries == [k] + [v, mi, ci];
        WalkScalar(k, [v, mi, ci], acc, StrKey(""));
        KeyField(n.key, acc, StrKey("")); }
      Walk([v, mi, ci], acc1, Slot(n.key));
      { assert [v, mi, ci] == [v] + [mi, ci];
        WalkScalar(v, [mi, ci], acc1, Slot(n.key));
        ValueField(n.value, acc1, Slot(n.key)); }
      Walk([mi, ci], stored, Slot(n.key));
      { IndexFields(n.created, n.modified, stored, Slot(n.key)); }
      stored;
      { assert Keys(n) == own + [];
        assert Store(Leaves(n), acc.values) == Store([], acc.values[Slot(n.key) := Str(n.value)]); }
      Flat(acc.dirs + Keys(n), Store(Leaves(n), acc.values));
    }
  }

  lemma {:induction false} DirWalk(n: Node, acc: Flat)
    requires n.Dir?
    ensures Walk(Encode(n).entries, acc, StrKey("")) == Flat(acc.dirs + Keys(n), Store(Leaves(n), acc.values))
    decreases n, 1
  {
    var own := if n.key == "/" then [] else [Str(n.key)];
    var k := Field("key", Str(n.key));
    var d := Field("dir", Bool(true));
    var list := Field("nodes", Array(EncodeAll(n.nodes, 0)));
    var mi := Field("modifiedIndex", Int(n.modified));
    var ci := Field("createdIndex", Int(n.created));
    var acc1 := Flat(acc.dirs + own, acc.values);
    var acc2 := Flat(acc1.dirs + KeysAll(n.nodes), Store(LeavesAll(n.nodes), acc.values));
    calc {
      Walk(Encode(n).entries, acc, StrKey(""));
      { assert Encode(n).entries == [k, d] + [list, mi, ci];
        DirHead(n.key, [list, mi, ci], acc); }
      Walk([list, mi, ci], acc1, Slot(n.key));
      { assert [list, mi, ci] == [list] + [mi, ci];
        WalkNested(list, [mi, ci], acc1, Slot(n.key)); }
      Walk([mi, ci], Walk(EncodeAll(n.nodes, 0), acc1, StrKey("")), Slot(n.key));
      { EncodeAllWalk(n.nodes, 0, acc1, StrKey("")); }
      Walk([mi, ci], acc2, Slot(n.key));
      { IndexFields(n.created, n.modified, acc2, Slot(n.key)); }
      acc2;
      { assert Keys(n) == own + KeysAll(n.nodes);
        assert Leaves(n) == LeavesAll(n.nodes);
        assert acc.dirs + own + KeysAll(n.nodes) == acc.dirs + (own + KeysAll(n.nodes)); }
      Flat(acc.dirs + Keys(n), Store(Leaves(n), acc.values));
    }
  }

  /** The same for a list of encoded nodes, whatever the key current at the start. */
  lemma {:induction false} EncodeAllWalk(ns: seq<Node>, i: nat, acc: Flat, key: ArrayKey)
    ensures Walk(EncodeAll(ns, i), acc, key) == Flat(acc.dirs + KeysAll(ns), Store(LeavesAll(ns), acc.values))
    decreases ns, 0
  {
    if ns != [] {
      var m := Member(IntKey(i), Encode(ns[0]));
      var acc1 := Flat(acc.dirs + Keys(ns[0]), Store(Leaves(ns[0]), acc.values));
      calc {
        Walk(EncodeAll(ns, i), acc, key);
        { WalkNested(m, EncodeAll(ns[1..], i + 1), acc, key); }
        Walk(EncodeAll(ns[1..], i + 1), Walk(Encode(ns[0]).entries, acc, StrKey("")), key);
        { EncodeWalk(ns[0], acc); }
        Walk(EncodeAll(ns[1..], i + 1), acc1, key);
        { EncodeAllWalk(ns[1..], i + 1, acc1, key); }
        Flat(acc1.dirs + KeysAll(ns[1..]), Store(LeavesAll(ns[1..]), acc1.values));
        { StoreAppend(Leaves(ns[0]), LeavesAll(ns[1..]), acc.values);
          assert acc.dirs + Keys(ns[0]) + KeysAll(ns[1..]) == acc.dirs + (Keys(ns[0]) + KeysAll(ns[1..])); }
        Flat(acc.dirs + KeysAll(ns), Store(LeavesAll(ns), acc.values));
      }
    }
  }

  /** What ls keeps of a response: the keys of its node tree and the values of its leaves. */
  lemma ListingOfTree(action: string, n: Node)
    ensures Listing(Response(action, n)) == Flat(Keys(n), Store(Leaves(n), map[]))
  {
    var empty := Flat([], map[]);
    var node := Field("node", Encode(n));
    EncodeWalk(n, empty);
    WalkNested(node, [], empty, StrKey(""));
    OtherField("action", Str(action), empty, StrKey(""));
    WalkScalar(Field("action", Str(action)), [node], empty, StrKey(""));
    assert Response(action, n).entries == [Field("action", Str(action))] + [node];
  }

  /** Every stored slot was there before or is the slot of one of the leaves. */
  lemma {:induction false} StoreSlots(ls: seq<Node>, vals: map<ArrayKey, Json>)
    requires forall l :: l in ls ==> l.Leaf?
    ensures Store(ls, vals).Keys == vals.Keys + set l | l in ls :: Slot(l.key)
    decreases ls
  {
    if ls != [] {
      var next := vals[Slot(ls[0].key) := Str(ls[0].value)];
      StoreSlots(ls[1..], next);
      assert forall l :: l in ls <==> l == ls[0] || l in ls[1..];
    }
  }

  /**
   * getKeysValue over a listing whose leaves have distinct keys: asking for the
   * key of a leaf (other than '/') returns that leaf's value.
   */
  lemma KeysValueOfLeaf(action: string, n: Node, i: nat)
    requires DistinctSlots(Leaves(n)) && i < |Leaves(n)| && Leaves(n)[i].key != "/"
    ensures Select(Listing(Response(action, n)).values, Some(Leaves(n)[i].key)) == Single(Str(Leaves(n)[i].value))
  {
    ListingOfTree(action, n);
    StoreFinds(Leaves(n), map[], i);
  }

  /** Asking for a key no leaf is stored under returns the whole value array. */
  lemma KeysValueOfMissing(action: string, n: Node, key: Option<string>)
    requires SelectKey(key) !in set l | l in Leaves(n) :: Slot(l.key)
    ensures Select(Listing(Response(action, n)).values, key) == Whole(Store(Leaves(n), map[]))
  {
    ListingOfTree(action, n);
    StoreSlots(Leaves(n), map[]);
  }
}
