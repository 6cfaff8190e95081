/** A JSON object as Gson's `JsonObject` keeps it: an insertion-ordered list of
    properties in which adding an existing key replaces its value in place. */
module Json {
  import opened Wrappers

  datatype Property<V> = Property(key: string, value: V)

  /** The keys of an object, in order. */
  function Keys<V>(ps: seq<Property<V>>): (ks: seq<string>)
    ensures |ks| == |ps|
    ensures forall i :: 0 <= i < |ps| ==> ks[i] == ps[i].key
  {
    if ps == [] then [] else [ps[0].key] + Keys(ps[1..])
  }

  /** The value stored under `key`, if any. */
  function Get<V>(ps: seq<Property<V>>, key: string): (r: Option<V>)
    ensures r.Some? <==> key in Keys(ps)
  {
    if ps == [] then None
    else if ps[0].key == key then Some(ps[0].value)
    else Get(ps[1..], key)
  }

  /** No string occurs twice. */
  predicate NoDuplicates(ks: seq<string>)
  {
    forall i, j :: 0 <= i < j < |ks| ==> ks[i] != ks[j]
  }

  /** No key occurs twice. */
  predicate DistinctKeys<V>(ps: seq<Property<V>>)
  {
    NoDuplicates(Keys(ps))
  }

  /** `addProperty(key, value)`: afterwards `key` maps to `value` and every other key
      keeps the value it had. */
  function Put<V>(ps: seq<Property<V>>, key: string, value: V): (r: seq<Property<V>>)
    ensures Get(r, key) == Some(value)
    ensures forall k :: k != key ==> Get(r, k) == Get(ps, k)
  {
    if ps == [] then [Property(key, value)]
    else if ps[0].key == key then
      var r := [Property(key, value)] + ps[1..];
      assert r[1..] == ps[1..];
      r
    else
      var rest := Put(ps[1..], key, value);
      var r := [ps[0]] + rest;
      assert r[1..] == rest;
      r
  }

  /** The keys of a list built by prepending one property. */
  lemma KeysCons<V>(p: Property<V>, ps: seq<Property<V>>)
    ensures Keys([p] + ps) == [p.key] + Keys(ps)
  {
    assert ([p] + ps)[1..] == ps;
  }

  /** Adding a property keeps the key order: an existing key stays where it is, and a new
      key goes at the end. */
  lemma {:induction false} PutKeys<V>(ps: seq<Property<V>>, key: string, value: V)
    ensures Keys(Put(ps, key, value)) == if key in Keys(ps) then Keys(ps) else Keys(ps) + [key]
  {
    if ps == [] {
      assert Keys(Put(ps, key, value)) == [key];
    } else {
      var first, rest := ps[0], ps[1..];
      assert ps == [first] + rest;
      KeysCons(first, rest);
      if first.key == key {
        KeysCons(Property(key, value), rest);
      } else {
        PutKeys(rest, key, value);
        KeysCons(first, Put(rest, key, value));
        if key !in Keys(rest) {
          assert [first.key] + (Keys(rest) + [key]) == ([first.key] + Keys(rest)) + [key];
        }
      }
    }
  }

  /** Rebuilding a non-empty list from its head and its extended tail. */
  lemma AppendAfterHead<T>(s: seq<T>, y: T)
    requires |s| > 0
    ensures [s[0]] + (s[1..] + [y]) == s + [y]
  {
  }

  /** A key not yet present is appended after all existing properties, which stay as they are. */
  lemma {:induction false} PutAppendsNewKey<V>(ps: seq<Property<V>>, key: string, value: V)
    requires key !in Keys(ps)
    ensures Put(ps, key, value) == ps + [Property(key, value)]
  {
    if ps != [] {
      var rest, added := ps[1..], Property(key, value);
      assert ps[0].key != key by {
        assert Keys(ps)[0] == ps[0].key;
      }
      assert key !in Keys(rest) by {
        forall i | 0 <= i < |rest|
          ensures Keys(rest)[i] != key
        {
          assert Keys(ps)[i + 1] == ps[i + 1].key;
        }
      }
      PutAppendsNewKey(rest, key, value);
      assert Put(ps, key, value) == [ps[0]] + (rest + [added]);
      AppendAfterHead(ps, added);
    }
  }

  /** Adding a property never creates a duplicate key. */
  lemma {:induction false} PutKeepsKeysDistinct<V>(ps: seq<Property<V>>, key: string, value: V)
    requires DistinctKeys(ps)
    ensures DistinctKeys(Put(ps, key, value))
  {
    PutKeys(ps, key, value);
    var ks := Keys(ps);
    if key !in ks {
      forall i | 0 <= i < |ks|
        ensures (ks + [key])[i] != key
      {
        assert (ks + [key])[i] == ks[i];
      }
    }
  }
}
