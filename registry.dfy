/**
 * The key-to-slot allocator of src/utilities/Registry.js.
 *
 * A registry binds keys to small integer slots. `values` and `keys` are
 * indexed by slot, `keyToIndex` and `keyToValue` by key, and freed slots
 * are kept on a stack so that the next new key reuses them. JavaScript's
 * `null` and `undefined` are both `None` here: the source tests them with
 * `== null`, which does not tell them apart.
 */
module Utilities {
  import opened Wrappers

  /** The five fields of a registry, as one value. */
  datatype Slots<K, V> = Slots(
    keyToValue: map<K, Option<V>>,
    values: seq<Option<V>>,
    keys: seq<Option<K>>,
    keyToIndex: map<K, Option<nat>>,
    freedIndices: seq<nat>)
  {
    /** The slot bound to `key`; `None` when the key was never registered or was unregistered. */
    function IndexOf(key: K): Option<nat> {
      if key in keyToIndex then keyToIndex[key] else None
    }

    /** `get(key)`: the value bound to `key`, `None` when there is none. */
    function Get(key: K): (r: Option<V>)
      ensures key !in keyToValue ==> r.None?
    {
      if key in keyToValue then keyToValue[key] else None
    }

    /** The slot a new key takes: the most recently freed one, else the next one past the end. */
    function NextIndex(): nat {
      if |freedIndices| > 0 then freedIndices[|freedIndices| - 1] else |values|
    }

    /**
     * `register(key, value)`: the key reads as the value afterwards, keeps its
     * slot when it has one and otherwise takes `NextIndex()`; every other key
     * reads and is placed as before.
     */
    function Register(key: K, value: V): (r: Slots<K, V>)
      ensures r.Get(key) == Some(value)
      ensures r.IndexOf(key) == if IndexOf(key).Some? then IndexOf(key) else Some(NextIndex())
      ensures r.keyToValue.Keys == keyToValue.Keys + {key} && r.keyToIndex.Keys == keyToIndex.Keys + {key}
      ensures forall k :: k in keyToValue && k != key ==> r.Get(k) == Get(k)
      ensures forall k :: k in keyToIndex && k != key ==> r.IndexOf(k) == IndexOf(k)
    {
      match IndexOf(key)
      case None =>
        var index := NextIndex();
        var freed := if |freedIndices| > 0 then freedIndices[..|freedIndices| - 1] else freedIndices;
        Slots(keyToValue[key := Some(value)],
              Store(values, index, Some(value)),
              Store(keys, index, Some(key)),
              keyToIndex[key := Some(index)],
              freed)
      case Some(index) =>
        this.(keyToValue := keyToValue[key := Some(value)],
              values := Store(values, index, Some(value)))
    }

    /**
     * `unregister(key)`: a live key loses its slot and its value; a key with
     * no slot leaves the registry as it was; every other key is untouched.
     */
    function Unregister(key: K): (r: Slots<K, V>)
      ensures r.IndexOf(key).None?
      ensures IndexOf(key).Some? ==> r.Get(key).None?
      ensures IndexOf(key).None? ==> r == this
      ensures r.keyToValue.Keys <= keyToValue.Keys + {key} && r.keyToIndex.Keys <= keyToIndex.Keys + {key}
      ensures forall k :: k in keyToValue && k != key ==> r.Get(k) == Get(k)
      ensures forall k :: k in keyToIndex && k != key ==> r.IndexOf(k) == IndexOf(k)
    {
      match IndexOf(key)
      case None => this
      case Some(index) =>
        Slots(keyToValue[key := None],
              Store(values, index, None),
              Store(keys, index, None),
              keyToIndex[key := None],
              freedIndices + [index])
    }

    /**
     * The registry's invariant: every live key owns exactly one slot, the slot
     * records the key and its value, and a slot is empty exactly when it is on
     * the free stack, which holds no slot twice.
     */
    ghost predicate Valid() {
      && |values| == |keys|
      && (forall k :: k in keyToIndex && keyToIndex[k].Some? ==>
            && keyToIndex[k].value < |keys|
            && keys[keyToIndex[k].value] == Some(k)
            && k in keyToValue
            && keyToValue[k].Some?
            && values[keyToIndex[k].value] == keyToValue[k])
      && (forall k :: k in keyToValue && keyToValue[k].Some? ==>
            k in keyToIndex && keyToIndex[k].Some?)
      && (forall i :: 0 <= i < |keys| && keys[i].Some? ==>
            keys[i].value in keyToIndex && keyToIndex[keys[i].value] == Some(i))
      && (forall i :: 0 <= i < |keys| ==> (keys[i].None? <==> i in freedIndices))
      && (forall i :: 0 <= i < |keys| ==> (keys[i].None? <==> values[i].None?))
      && (forall j :: 0 <= j < |freedIndices| ==> freedIndices[j] < |keys|)
      && (forall a, b :: 0 <= a < b < |freedIndices| ==> freedIndices[a] != freedIndices[b])
    }
  }

  /** A registry as the constructor leaves it. */
  function Empty<K, V>(): Slots<K, V> {
    Slots(map[], [], [], map[], [])
  }

  /** `s[i] = x` on a JavaScript array: writing past the end grows the array, leaving holes. */
  function Store<T>(s: seq<Option<T>>, i: nat, x: Option<T>): (r: seq<Option<T>>)
    ensures |r| == if i < |s| then |s| else i + 1
    ensures r[i] == x
    ensures forall j :: 0 <= j < |s| && j != i ==> r[j] == s[j]
    ensures forall j :: |s| <= j < |r| && j != i ==> r[j] == None
  {
    if i < |s| then s[i := x] else s + seq(i - |s|, _ => None) + [x]
  }

  lemma EmptyIsValid<K, V>()
    ensures Empty<K, V>().Valid()
    ensures forall k: K :: Empty<K, V>().Get(k) == None
  {
  }

  /** No two live keys ever share a slot. */
  lemma LiveKeysDoNotAlias<K, V>(s: Slots<K, V>, k1: K, k2: K)
    requires s.Valid()
    requires s.IndexOf(k1).Some? && s.IndexOf(k2).Some?
    requires k1 != k2
    ensures s.IndexOf(k1) != s.IndexOf(k2)
  {
  }

  /** A live key's value is what `get` returns and what its slot holds. */
  lemma GetReadsSlot<K, V>(s: Slots<K, V>, key: K)
    requires s.Valid()
    ensures s.Get(key).Some? <==> s.IndexOf(key).Some?
    ensures s.IndexOf(key).Some? ==> s.values[s.IndexOf(key).value] == s.Get(key)
  {
  }

  /** The freed slot a new key takes is empty and in range. */
  lemma {:induction false} FreedSlotIsEmpty<K, V>(s: Slots<K, V>)
    requires s.Valid()
    requires |s.freedIndices| > 0
    ensures s.NextIndex() < |s.values|
    ensures s.keys[s.NextIndex()].None? && s.values[s.NextIndex()].None?
    ensures s.NextIndex() !in s.freedIndices[..|s.freedIndices| - 1]
  {
    var last := |s.freedIndices| - 1;
    assert s.freedIndices[last] in s.freedIndices;
    forall j | 0 <= j < last
      ensures s.freedIndices[..last][j] != s.freedIndices[last]
    {
    }
  }

  /** `register` keeps the invariant. */
  lemma RegisterKeepsValid<K, V>(s: Slots<K, V>, key: K, value: V)
    requires s.Valid()
    ensures s.Register(key, value).Valid()
  {
    if s.IndexOf(key).Some? {
      assert s.keys[s.IndexOf(key).value] == Some(key);
    } else {
      RegisterNewKeepsValid(s, key, value);
    }
  }

  /** The free stack after a new key pops from it, or takes the slot past the end. */
  lemma {:induction false} RegisterNewFreeSlots<K, V>(s: Slots<K, V>, key: K, value: V)
    requires s.Valid()
    requires s.IndexOf(key).None?
    ensures var r := s.Register(key, value);
      forall i :: 0 <= i < |r.keys| ==> (r.keys[i].None? <==> i in r.freedIndices)
  {
    var r := s.Register(key, value);
    var index := s.NextIndex();
    if |s.freedIndices| > 0 {
      FreedSlotIsEmpty(s);
      var freed := s.freedIndices[..|s.freedIndices| - 1];
      assert s.freedIndices == freed + [index];
      forall i | 0 <= i < |r.keys|
        ensures r.keys[i].None? <==> i in r.freedIndices
      {
        if i != index {
          assert s.keys[i].None? <==> i in s.freedIndices;
        }
      }
    } else {
      forall i | 0 <= i < |r.keys|
        ensures r.keys[i].None? <==> i in r.freedIndices
      {
        if i < |s.keys| {
          assert s.keys[i].None? <==> i in s.freedIndices;
        }
      }
    }
  }

  lemma {:induction false} RegisterNewKeepsValid<K, V>(s: Slots<K, V>, key: K, value: V)
    requires s.Valid()
    requires s.IndexOf(key).None?
    ensures s.Register(key, value).Valid()
  {
    var r := s.Register(key, value);
    var index := s.NextIndex();
    if |s.freedIndices| > 0 {
      FreedSlotIsEmpty(s);
    }
    assert index <= |s.keys|;
    assert index < |s.keys| ==> s.keys[index].None?;
    RegisterNewFreeSlots(s, key, value);
    forall k | k in r.keyToIndex && r.keyToIndex[k].Some?
      ensures r.keyToIndex[k].value < |r.keys| && r.keys[r.keyToIndex[k].value] == Some(k)
    {
      if k != key {
        var j := s.keyToIndex[k].value;
        assert s.keys[j] == Some(k);
        assert j != index;
      }
    }
    forall i | 0 <= i < |r.keys| && r.keys[i].Some?
      ensures r.keys[i].value in r.keyToIndex && r.keyToIndex[r.keys[i].value] == Some(i)
    {
      if i != index {
        var k := s.keys[i].value;
        assert k != key by {
          assert s.keyToIndex[k] == Some(i);
        }
      }
    }
    forall a, b | 0 <= a < b < |r.freedIndices|
      ensures r.freedIndices[a] != r.freedIndices[b]
    {
      assert r.freedIndices[a] == s.freedIndices[a] && r.freedIndices[b] == s.freedIndices[b];
    }
  }

  /** `unregister` keeps the invariant. */
  lemma {:induction false} UnregisterKeepsValid<K, V>(s: Slots<K, V>, key: K)
    requires s.Valid()
    ensures s.Unregister(key).Valid()
  {
    var r := s.Unregister(key);
    match s.IndexOf(key)
    case None =>
    case Some(index) =>
      assert s.keys[index] == Some(key);
      assert index !in s.freedIndices;
      forall i | 0 <= i < |r.keys|
        ensures r.keys[i].None? <==> i in r.freedIndices
      {
        assert s.keys[i].None? <==> i in s.freedIndices;
      }
      forall k | k in r.keyToIndex && r.keyToIndex[k].Some?
        ensures r.keyToIndex[k].value < |r.keys| && r.keys[r.keyToIndex[k].value] == Some(k)
        ensures r.values[r.keyToIndex[k].value] == r.keyToValue[k]
      {
        var j := s.keyToIndex[k].value;
        assert s.keys[j] == Some(k);
        assert j != index;
      }
      forall a, b | 0 <= a < b < |r.freedIndices|
        ensures r.freedIndices[a] != r.freedIndices[b]
      {
        if b == |s.freedIndices| {
          assert s.freedIndices[a] in s.freedIndices;
        }
      }
  }

  /**
   * A new key takes the most recently freed slot, else the slot one past the
   * end, so the slot arrays grow by at most one entry per call.
   */
  lemma {:induction false} RegisterNewKeyTakesNextSlot<K, V>(s: Slots<K, V>, key: K, value: V)
    requires s.Valid()
    requires s.IndexOf(key).None?
    ensures var r := s.Register(key, value);
      && r.IndexOf(key) == Some(if |s.freedIndices| > 0 then s.freedIndices[|s.freedIndices| - 1] else |s.values|)
      && |r.values| == |s.values| + (if |s.freedIndices| > 0 then 0 else 1)
      && r.freedIndices == (if |s.freedIndices| > 0 then s.freedIndices[..|s.freedIndices| - 1] else [])
  {
    if |s.freedIndices| > 0 {
      FreedSlotIsEmpty(s);
    }
  }

  /** After `register(key, value)`, `get(key)` is the value and the key's slot holds the key and the value. */
  lemma RegisterBinds<K, V>(s: Slots<K, V>, key: K, value: V)
    requires s.Valid()
    ensures var r := s.Register(key, value);
      && r.Get(key) == Some(value)
      && r.IndexOf(key).Some?
      && r.values[r.IndexOf(key).value] == Some(value)
      && r.keys[r.IndexOf(key).value] == Some(key)
  {
    RegisterKeepsValid(s, key, value);
  }

  /**
   * Registering a live key again overwrites its value in place: its slot,
   * the free stack, the keys and every other slot's value stay as they were.
   */
  lemma RegisterLiveKeyOverwrites<K, V>(s: Slots<K, V>, key: K, value: V)
    requires s.Valid()
    requires s.IndexOf(key).Some?
    ensures var r := s.Register(key, value);
      var index := s.IndexOf(key).value;
      && r.IndexOf(key) == Some(index)
      && r.freedIndices == s.freedIndices
      && r.keys == s.keys
      && r.keyToIndex == s.keyToIndex
      && r.values == s.values[index := Some(value)]
  {
  }

  /**
   * Unregistering a live key pushes its slot onto the free stack and clears
   * the key's entries and the slot's entries.
   */
  lemma UnregisterLiveKeyFrees<K, V>(s: Slots<K, V>, key: K)
    requires s.Valid()
    requires s.IndexOf(key).Some?
    ensures var r := s.Unregister(key);
      var index := s.IndexOf(key).value;
      && r.freedIndices == s.freedIndices + [index]
      && r.keyToValue == s.keyToValue[key := None]
      && r.keyToIndex == s.keyToIndex[key := None]
      && r.values == s.values[index := None]
      && r.keys == s.keys[index := None]
      && r.Get(key) == None
  {
  }

  /** Unregistering a key that is not live changes nothing. */
  lemma UnregisterUnknownIsNoOp<K, V>(s: Slots<K, V>, key: K)
    requires s.IndexOf(key).None?
    ensures s.Unregister(key) == s
  {
  }

  /**
   * Register, unregister, register again: the key's entry was nulled, so the
   * second registration goes through the new-key path and pops the slot the
   * unregistration just freed. The slot layout and the free stack come out
   * as they were after the first registration.
   */
  lemma {:induction false} ReRegisterReusesFreedSlot<K, V>(s: Slots<K, V>, key: K, v1: V, v2: V)
    requires s.Valid()
    ensures var r1 := s.Register(key, v1);
      var r2 := r1.Unregister(key);
      var r3 := r2.Register(key, v2);
      && r2.IndexOf(key).None?
      && r2.freedIndices == r1.freedIndices + [r1.IndexOf(key).value]
      && r3.IndexOf(key) == r1.IndexOf(key)
      && r3.freedIndices == r1.freedIndices
      && r3.keys == r1.keys
      && r3.Get(key) == Some(v2)
  {
    var r1 := s.Register(key, v1);
    RegisterKeepsValid(s, key, v1);
    RegisterBinds(s, key, v1);
    var index := r1.IndexOf(key).value;
    var r2 := r1.Unregister(key);
    UnregisterKeepsValid(r1, key);
    assert r2.NextIndex() == index;
    var r3 := r2.Register(key, v2);
    assert r3.freedIndices == r1.freedIndices;
    assert r3.keys == r1.keys;
  }

  /**
   * A slot freed by one key is reused by a different new key, and the first
   * key then reads as absent.
   */
  lemma {:induction false} FreedSlotGoesToNextNewKey<K, V>(s: Slots<K, V>, a: K, b: K, v: V)
    requires s.Valid()
    requires s.IndexOf(a).Some? && s.IndexOf(b).None?
    ensures var r := s.Unregister(a).Register(b, v);
      && r.IndexOf(b) == s.IndexOf(a)
      && r.Get(a) == None
      && r.Get(b) == Some(v)
      && r.freedIndices == s.freedIndices
  {
    var index := s.IndexOf(a).value;
    var u := s.Unregister(a);
    UnregisterKeepsValid(s, a);
    assert a != b;
    assert u.NextIndex() == index;
  }

  /** The first two steps of the scenario below: "a" comes and goes, leaving slot 0 free. */
  lemma RegisterThenUnregisterA()
    ensures Empty<string, int>().Register("a", 1).Unregister("a")
         == Slots(map["a" := None], [None], [None], map["a" := None], [0])
  {
    var r1 := Empty<string, int>().Register("a", 1);
    assert r1 == Slots(map["a" := Some(1)], [Some(1)], [Some("a")], map["a" := Some(0)], []);
  }

  /**
   * The scenario register("a", 1), unregister("a"), register("b", 2) on a new
   * registry: "b" takes the slot "a" had, "a" reads as absent, and the dense
   * views hold exactly the one live entry.
   */
  lemma FreshRegistryScenario()
    ensures var r := Empty<string, int>().Register("a", 1).Unregister("a").Register("b", 2);
      && r.IndexOf("b") == Some(0)
      && r.Get("a") == None
      && r.Get("b") == Some(2)
      && r.values == [Some(2)]
      && r.keys == [Some("b")]
      && r.freedIndices == []
  {
    RegisterThenUnregisterA();
    var r2: Slots<string, int> := Slots(map["a" := None], [None], [None], map["a" := None], [0]);
    assert r2.IndexOf("b").None? && r2.NextIndex() == 0;
    var r3 := r2.Register("b", 2);
    assert r3.values == Store(r2.values, 0, Some(2));
    assert r3.keys == Store(r2.keys, 0, Some("b"));
  }

  /** The object form of the registry: the source's five fields, updated in place. */
  class Registry<K(==), V> {
    var keyToValue: map<K, Option<V>>
    var values: seq<Option<V>>
    var keys: seq<Option<K>>
    var keyToIndex: map<K, Option<nat>>
    var freedIndices: seq<nat>

    function State(): Slots<K, V>
      reads this
    {
      Slots(keyToValue, values, keys, keyToIndex, freedIndices)
    }

    ghost predicate Valid()
      reads this
    {
      State().Valid()
    }

    constructor ()
      ensures Valid() && State() == Empty()
    {
      keyToValue := map[];
      values := [];
      keys := [];
      keyToIndex := map[];
      freedIndices := [];
    }

    method Register(key: K, value: V)
      requires Valid()
      modifies this
      ensures Valid()
      ensures State() == old(State()).Register(key, value)
    {
      RegisterKeepsValid(State(), key, value);
      var index := if key in keyToIndex then keyToIndex[key] else None;
      if index.None? {
        var i: nat;
        if |freedIndices| > 0 {
          i := freedIndices[|freedIndices| - 1];
          freedIndices := freedIndices[..|freedIndices| - 1];
        } else {
          i := |values|;
        }
        values := Store(values, i, Some(value));
        keys := Store(keys, i, Some(key));
        keyToIndex := keyToIndex[key := Some(i)];
        keyToValue := keyToValue[key := Some(value)];
      } else {
        keyToValue := keyToValue[key := Some(value)];
        values := Store(values, index.value, Some(value));
      }
    }

    method Unregister(key: K)
      requires Valid()
      modifies this
      ensures Valid()
      ensures State() == old(State()).Unregister(key)
    {
      UnregisterKeepsValid(State(), key);
      var index := if key in keyToIndex then keyToIndex[key] else None;
      if index.Some? {
        freedIndices := freedIndices + [index.value];
        keyToValue := keyToValue[key := None];
        keyToIndex := keyToIndex[key := None];
        values := Store(values, index.value, None);
        keys := Store(keys, index.value, None);
      }
    }

    /** `get(key)`: a live key's value is the one in its slot. */
    method Get(key: K) returns (r: Option<V>)
      requires Valid()
      ensures r == State().Get(key)
      ensures r.Some? <==> State().IndexOf(key).Some?
      ensures r.Some? ==> values[State().IndexOf(key).value] == r
    {
      GetReadsSlot(State(), key);
      r := if key in keyToValue then keyToValue[key] else None;
    }

    /** `getValues()`: slot i holds a value exactly when slot i is not on the free stack. */
    method GetValues() returns (r: seq<Option<V>>)
      requires Valid()
      ensures r == values
      ensures forall i :: 0 <= i < |r| ==> (r[i].Some? <==> i !in freedIndices)
    {
      r := values;
    }

    /** `getKeys()`: slot i holds key k exactly when k is live at slot i. */
    method GetKeys() returns (r: seq<Option<K>>)
      requires Valid()
      ensures r == keys
      ensures forall i :: 0 <= i < |r| && r[i].Some? ==> State().IndexOf(r[i].value) == Some(i)
    {
      r := keys;
    }

    /** `getKeyToValue()`: every key with a value there is live. */
    method GetKeyToValue() returns (r: map<K, Option<V>>)
      requires Valid()
      ensures r == keyToValue
      ensures forall k :: k in r && r[k].Some? ==> State().IndexOf(k).Some?
    {
      r := keyToValue;
    }
  }
}
