/**
 * Property lookup on a JavaScript object literal (`OBJ[key]`) and the `||` fallback idiom.
 * An object literal inherits the members of `Object.prototype`, so a lookup with one of
 * their names finds a function (or, for `__proto__`, the prototype object), which is truthy.
 */
module JsObject {
  import opened Wrappers

  /** The names an object literal inherits from `Object.prototype`. */
  const ObjectPrototypeKeys: set<string> := {
    "constructor", "hasOwnProperty", "isPrototypeOf", "propertyIsEnumerable",
    "toLocaleString", "toString", "valueOf", "__proto__",
    "__defineGetter__", "__defineSetter__", "__lookupGetter__", "__lookupSetter__"
  }

  /** What `obj[key]` yields: an own value, an inherited member, or `undefined`. */
  datatype Property<V> = Own(value: V) | Inherited(name: string) | Undefined

  /** `obj[key]` on an object literal whose own properties are `obj`. */
  function Lookup<V>(obj: map<string, V>, key: string): (p: Property<V>)
    ensures p.Own? <==> key in obj
    ensures p.Own? ==> p.value == obj[key]
    ensures p.Inherited? <==> key !in obj && key in ObjectPrototypeKeys
  {
    if key in obj then Own(obj[key])
    else if key in ObjectPrototypeKeys then Inherited(key)
    else Undefined
  }

  /** JavaScript truthiness of a string-or-undefined value: the empty string is falsy. */
  predicate Truthy(a: Option<string>) {
    a.Some? && a.value != ""
  }

  /** `a || b` where `a` is a string or `undefined` and `b` a string. */
  function Or(a: Option<string>, b: string): (r: string)
    ensures Truthy(a) ==> r == a.value
    ensures !Truthy(a) ==> r == b
  {
    if Truthy(a) then a.value else b
  }

  /** `a || b` where both are strings or `undefined`. */
  function OrElse(a: Option<string>, b: Option<string>): (r: Option<string>)
    ensures Truthy(a) ==> r == a
    ensures !Truthy(a) ==> r == b
  {
    if Truthy(a) then a else b
  }

  // A JavaScript `Map` with string keys: its entries in insertion order, keys distinct.

  datatype Entry<V> = Entry(key: string, value: V)

  predicate DistinctKeys<V>(es: seq<Entry<V>>) {
    forall i, j :: 0 <= i < j < |es| ==> es[i].key != es[j].key
  }

  function Keys<V>(es: seq<Entry<V>>): set<string> {
    set i | 0 <= i < |es| :: es[i].key
  }

  /** `map.get(key)`: `None` for `undefined`. */
  function MapGet<V>(es: seq<Entry<V>>, key: string): (r: Option<V>)
    ensures r.Some? <==> key in Keys(es)
  {
    if es == [] then None
    else if es[0].key == key then Some(es[0].value)
    else
      assert Keys(es) == {es[0].key} + Keys(es[1..]) by {
        assert forall i :: 1 <= i < |es| ==> es[i] == es[1..][i - 1];
      }
      MapGet(es[1..], key)
  }

  /** `map.set(key, value)`: replaces the value in place when the key exists, appends otherwise. */
  function MapSet<V>(es: seq<Entry<V>>, key: string, value: V): seq<Entry<V>> {
    if es == [] then [Entry(key, value)]
    else if es[0].key == key then [Entry(key, value)] + es[1..]
    else [es[0]] + MapSet(es[1..], key, value)
  }

  lemma KeysCons<V>(x: Entry<V>, t: seq<Entry<V>>)
    ensures Keys([x] + t) == {x.key} + Keys(t)
  {
    var r := [x] + t;
    forall k | k in Keys(r) ensures k in {x.key} + Keys(t) {
      var i :| 0 <= i < |r| && r[i].key == k;
      if i > 0 { assert r[i] == t[i - 1]; }
    }
    forall k | k in Keys(t) ensures k in Keys(r) {
      var i :| 0 <= i < |t| && t[i].key == k;
      assert r[i + 1] == t[i];
    }
    assert r[0] == x;
  }

  lemma DistinctCons<V>(x: Entry<V>, t: seq<Entry<V>>)
    ensures DistinctKeys([x] + t) <==> DistinctKeys(t) && x.key !in Keys(t)
  {
    var r := [x] + t;
    if DistinctKeys(r) {
      forall i, j | 0 <= i < j < |t| ensures t[i].key != t[j].key {
        assert r[i + 1] == t[i] && r[j + 1] == t[j];
      }
    }
    if x.key in Keys(t) {
      var i :| 0 <= i < |t| && t[i].key == x.key;
      assert r[0].key == r[i + 1].key;
      assert !DistinctKeys(r);
    }
    if DistinctKeys(t) && x.key !in Keys(t) {
      forall i, j | 0 <= i < j < |r| ensures r[i].key != r[j].key {
        assert r[j] == t[j - 1];
        if i > 0 { assert r[i] == t[i - 1]; }
      }
    }
  }

  /** After `set`, the keys are the old ones plus `key`; they stay distinct; the size grows exactly when `key` was new. */
  lemma {:induction false} MapSetKeys<V>(es: seq<Entry<V>>, key: string, value: V)
    requires DistinctKeys(es)
    ensures DistinctKeys(MapSet(es, key, value))
    ensures Keys(MapSet(es, key, value)) == Keys(es) + {key}
    ensures |MapSet(es, key, value)| == if key in Keys(es) then |es| else |es| + 1
  {
    if es == [] {
      assert MapSet(es, key, value) == [Entry(key, value)] + [];
      KeysCons(Entry(key, value), []);
      assert Keys(es) == {};
    } else {
      assert es == [es[0]] + es[1..];
      KeysCons(es[0], es[1..]);
      DistinctCons(es[0], es[1..]);
      if es[0].key == key {
        KeysCons(Entry(key, value), es[1..]);
        DistinctCons(Entry(key, value), es[1..]);
      } else {
        MapSetKeys(es[1..], key, value);
        KeysCons(es[0], MapSet(es[1..], key, value));
        DistinctCons(es[0], MapSet(es[1..], key, value));
      }
    }
  }

  /** After `set`, `get` of that key gives the new value and every other key is unchanged. */
  lemma {:induction false} MapSetGet<V>(es: seq<Entry<V>>, key: string, value: V)
    ensures MapGet(MapSet(es, key, value), key) == Some(value)
    ensures forall k :: k != key ==> MapGet(MapSet(es, key, value), k) == MapGet(es, k)
  {
    if es != [] && es[0].key != key {
      MapSetGet(es[1..], key, value);
      assert MapSet(es, key, value)[1..] == MapSet(es[1..], key, value);
    } else if es != [] {
      assert MapSet(es, key, value)[1..] == es[1..];
    }
  }

  /** Setting a new key appends it. */
  lemma {:induction false} MapSetNew<V>(es: seq<Entry<V>>, key: string, value: V)
    requires key !in Keys(es)
    ensures MapSet(es, key, value) == es + [Entry(key, value)]
  {
    if es != [] {
      assert es[0].key in Keys(es);
      assert Keys(es[1..]) <= Keys(es) by {
        forall k | k in Keys(es[1..]) ensures k in Keys(es) {
          var i :| 0 <= i < |es[1..]| && es[1..][i].key == k;
          assert es[i + 1] == es[1..][i];
        }
      }
      MapSetNew(es[1..], key, value);
      assert es == [es[0]] + es[1..];
    }
  }

  /** Appending an entry adds its key; a new key keeps the keys distinct. */
  lemma KeysSnoc<V>(es: seq<Entry<V>>, e: Entry<V>)
    ensures Keys(es + [e]) == Keys(es) + {e.key}
    ensures DistinctKeys(es) && e.key !in Keys(es) ==> DistinctKeys(es + [e])
  {
    var r := es + [e];
    forall k | k in Keys(r) ensures k in Keys(es) + {e.key} {
      var i :| 0 <= i < |r| && r[i].key == k;
      if i < |es| { assert r[i] == es[i]; }
    }
    forall k | k in Keys(es) ensures k in Keys(r) {
      var i :| 0 <= i < |es| && es[i].key == k;
      assert r[i] == es[i];
    }
    assert r[|es|] == e;
    if DistinctKeys(es) && e.key !in Keys(es) {
      forall i, j | 0 <= i < j < |r| ensures r[i].key != r[j].key {
        assert r[i] == es[i];
        if j < |es| { assert r[j] == es[j]; } else { assert es[i].key in Keys(es); }
      }
    }
  }
}
