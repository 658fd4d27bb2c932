/**
 * What traversalDir collects from a decoded listing: a depth-first walk that
 * appends every `key` member (except '/') to the key list and records every
 * `value` member under the key last seen at the same nesting level.
 */
module Flatten {
  import opened Wrappers
  import opened PhpValues
  import opened Seqs

  /** The two fields traversalDir fills: the key list and the key => value array. */
  datatype Flat = Flat(dirs: seq<Json>, values: map<ArrayKey, Json>)

  /** A scalar member named `key` whose value is not loosely equal to '/'. */
  predicate IsKeyMember(m: Member) {
    !m.val.Array? && m.key == StrKey("key") && !LooselyEqualsSlash(m.val)
  }

  /** A scalar member named `value`. */
  predicate IsValueMember(m: Member) {
    !m.val.Array? && m.key == StrKey("value")
  }

  /**
   * The walk over one array's members, `key` being the key last recorded at this
   * level. Each nested array starts its own walk with key '' and leaves the
   * current key of its parent unchanged.
   */
  function Walk(es: seq<Member>, acc: Flat, key: ArrayKey): Flat
    decreases es
  {
    if es == [] then acc
    else match es[0].val
      case Array(children) =>
        assert es[0] decreases to children;
        Walk(es[1..], Walk(children, acc, StrKey("")), key)
      case _ => Walk(es[1..], Step(es[0], acc, key), NextKey(es[0], key))
  }

  /** The key current after a scalar member: its value, when it is a key member. */
  function NextKey(m: Member, key: ArrayKey): ArrayKey
    requires !m.val.Array?
  {
    if IsKeyMember(m) then ArrayKeyOf(m.val) else key
  }

  /** What one scalar member adds to the key list and the value array. */
  function Step(m: Member, acc: Flat, key: ArrayKey): Flat
    requires !m.val.Array?
  {
    Flat(if IsKeyMember(m) then acc.dirs + [m.val] else acc.dirs,
         if IsValueMember(m) then acc.values[NextKey(m, key) := m.val] else acc.values)
  }

  /** The entries a listing walk starts from: those of an array body, none otherwise. */
  function Body(body: Json): seq<Member> {
    if body.Array? then body.entries else []
  }

  /** What ls leaves behind for a decoded listing body. */
  function Listing(body: Json): Flat {
    Walk(Body(body), Flat([], map[]), StrKey(""))
  }

  /** Reference definition: the values of all recorded key members, depth first. */
  function KeyFields(es: seq<Member>): (r: seq<Json>)
    ensures forall f :: f in r ==> !f.Array? && !LooselyEqualsSlash(f)
    decreases es
  {
    if es == [] then []
    else match es[0].val
      case Array(children) =>
        assert es[0] decreases to children;
        KeyFields(children) + KeyFields(es[1..])
      case _ => (if IsKeyMember(es[0]) then [es[0].val] else []) + KeyFields(es[1..])
  }

  /** The key list grows exactly by the key fields of the walked entries, in order. */
  lemma {:induction false} WalkDirs(es: seq<Member>, acc: Flat, key: ArrayKey)
    ensures Walk(es, acc, key).dirs == acc.dirs + KeyFields(es)
    decreases es
  {
    if es != [] {
      match es[0].val
      case Array(children) =>
        assert es[0] decreases to children;
        var inner := Walk(children, acc, StrKey(""));
        assert Walk(es, acc, key) == Walk(es[1..], inner, key);
        assert KeyFields(es) == KeyFields(children) + KeyFields(es[1..]);
        WalkDirs(children, acc, StrKey(""));
        WalkDirs(es[1..], inner, key);
        AppendAssoc(acc.dirs, KeyFields(children), KeyFields(es[1..]));
      case _ =>
        var m := es[0];
        var own := if IsKeyMember(m) then [m.val] else [];
        assert Walk(es, acc, key) == Walk(es[1..], Step(m, acc, key), NextKey(m, key));
        assert KeyFields(es) == own + KeyFields(es[1..]);
        assert Step(m, acc, key).dirs == acc.dirs + own;
        WalkDirs(es[1..], Step(m, acc, key), NextKey(m, key));
        AppendAssoc(acc.dirs, own, KeyFields(es[1..]));
    }
  }

  /** A key the walk may record a value under, given the key current at its start. */
  predicate PossibleKey(k: ArrayKey, key: ArrayKey, fields: seq<Json>)
    requires forall f :: f in fields ==> !f.Array?
  {
    k == key || k == StrKey("") || exists f :: f in fields && k == ArrayKeyOf(f)
  }

  /**
   * Nothing recorded before is lost, and every newly recorded value sits under
   * '', under the key current at the start, or under one of the key fields walked.
   */
  lemma {:induction false} WalkValueKeys(es: seq<Member>, acc: Flat, key: ArrayKey)
    ensures acc.values.Keys <= Walk(es, acc, key).values.Keys
    ensures forall k :: k in Walk(es, acc, key).values && k !in acc.values ==> PossibleKey(k, key, KeyFields(es))
    decreases es
  {
    if es != [] {
      match es[0].val
      case Array(children) =>
        assert es[0] decreases to children;
        var inner := Walk(children, acc, StrKey(""));
        WalkValueKeys(children, acc, StrKey(""));
        WalkValueKeys(es[1..], inner, key);
        assert KeyFields(es) == KeyFields(children) + KeyFields(es[1..]);
        forall k | k in Walk(es, acc, key).values && k !in acc.values
          ensures PossibleKey(k, key, KeyFields(es))
        {
          if k in inner.values {
            if k != StrKey("") {
              var f :| f in KeyFields(children) && k == ArrayKeyOf(f);
              assert f in KeyFields(es);
            }
          } else if k != key && k != StrKey("") {
            var f :| f in KeyFields(es[1..]) && k == ArrayKeyOf(f);
            assert f in KeyFields(es);
          }
        }
      case _ =>
        var m := es[0];
        var next := Step(m, acc, key);
        WalkValueKeys(es[1..], next, NextKey(m, key));
        assert KeyFields(es) == (if IsKeyMember(m) then [m.val] else []) + KeyFields(es[1..]);
        forall k | k in Walk(es, acc, key).values && k !in acc.values
          ensures PossibleKey(k, key, KeyFields(es))
        {
          if IsKeyMember(m) && k == NextKey(m, key) {
            assert m.val in KeyFields(es);
          } else if k in next.values {
            assert k == key;
          } else if k != NextKey(m, key) && k != StrKey("") {
            var f :| f in KeyFields(es[1..]) && k == ArrayKeyOf(f);
            assert f in KeyFields(es);
          }
        }
    }
  }

  /** The key current after walking the entries of one level: the last key member among them. */
  function CurrentKey(es: seq<Member>, key: ArrayKey): ArrayKey
    decreases es
  {
    if es == [] then key
    else CurrentKey(es[1..], if es[0].val.Array? then key else NextKey(es[0], key))
  }

  /** Walking a + b is walking a, then b from the key current after a. */
  lemma {:induction false} WalkAppend(a: seq<Member>, b: seq<Member>, acc: Flat, key: ArrayKey)
    ensures Walk(a + b, acc, key) == Walk(b, Walk(a, acc, key), CurrentKey(a, key))
    decreases a
  {
    if a == [] {
      assert a + b == b;
    } else {
      assert (a + b)[0] == a[0] && (a + b)[1..] == a[1..] + b;
      match a[0].val {
        case Array(children) =>
          WalkAppend(a[1..], b, Walk(children, acc, StrKey("")), key);
        case _ =>
          WalkAppend(a[1..], b, Step(a[0], acc, key), NextKey(a[0], key));
      }
    }
  }

  /**
   * Each value member is stored under the key current at its position: the
   * last key member before it at its own level, or the level's starting key.
   */
  lemma WalkStoresValue(es: seq<Member>, acc: Flat, key: ArrayKey, j: nat)
    requires j < |es| && IsValueMember(es[j])
    ensures CurrentKey(es[..j], key) in Walk(es[..j + 1], acc, key).values
    ensures Walk(es[..j + 1], acc, key).values[CurrentKey(es[..j], key)] == es[j].val
  {
    var m := es[j];
    assert es[..j + 1] == es[..j] + [m];
    WalkAppend(es[..j], [m], acc, key);
    var k := CurrentKey(es[..j], key);
    assert [m][1..] == [];
    assert Walk([m], Walk(es[..j], acc, key), k) == Step(m, Walk(es[..j], acc, key), k);
  }

  /** What getKeysValue returns: one stored value, or the whole value array. */
  datatype Selection = Single(value: Json) | Whole(values: map<ArrayKey, Json>)

  /** The array key the optional key argument addresses; null addresses ''. */
  function SelectKey(key: Option<string>): ArrayKey {
    match key
    case None => StrKey("")
    case Some(k) => ArrayKeyOf(Str(k))
  }

  /** The stored value when isset($values[$key]) holds, else the whole array. */
  function Select(values: map<ArrayKey, Json>, key: Option<string>): (r: Selection)
    ensures r.Single? <==> SelectKey(key) in values && values[SelectKey(key)] != Null
    ensures r.Single? ==> r.value == values[SelectKey(key)]
    ensures r.Whole? ==> r.values == values
  {
    var k := SelectKey(key);
    if k in values && values[k] != Null then Single(values[k]) else Whole(values)
  }
}
