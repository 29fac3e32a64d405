/** The facade's own test cases, replayed against the model: each method
    builds a fresh item pool with its clock at 0, wraps it in a facade and
    makes the calls the test makes; its postcondition is what the test
    asserts. */
module Scenarios {
  import opened PhpValues
  import opened CachePool
  import opened SimpleCache

  const Key1: Key := "key1"
  const Key2: Key := "key2"

  /** The two entries most tests store. */
  const TwoItems: Value := Arr([(Str(Key1), Str("value1")), (Str(Key2), Str("value2"))])

  method BasicSetAndGet() returns (saved: Result<bool, CacheError>, got: Result<Value, CacheError>)
    ensures saved == Ok(true) && got == Ok(Str("value"))
  {
    var store := new ItemPool(0);
    var pool := new Pool(store);
    saved := pool.Set(Str("key"), Str("value"), Null);
    got := pool.Get(Str("key"), Null);
  }

  method GetMissingKey() returns (got: Result<Value, CacheError>, withDefault: Result<Value, CacheError>)
    ensures got == Ok(Null) && withDefault == Ok(Str("default-value"))
  {
    var store := new ItemPool(0);
    var pool := new Pool(store);
    got := pool.Get(Str("non-existant"), Null);
    withDefault := pool.Get(Str("non-existant"), Str("default-value"));
  }

  method SetExpired() returns (saved: Result<bool, CacheError>, has: Result<bool, CacheError>)
    ensures saved == Ok(true) && has == Ok(false)
  {
    var store := new ItemPool(0);
    var pool := new Pool(store);
    saved := pool.Set(Str("key1"), Str("value1"), Int(-10));
    has := pool.Has(Str("key1"));
  }

  /** An entry saved with a five-second time to live is a hit until five
      seconds have passed, and a miss from then on. */
  method SetThenExpire() returns (saved: Result<bool, CacheError>, early: Result<bool, CacheError>,
                                  late: Result<bool, CacheError>, got: Result<Value, CacheError>)
    ensures saved == Ok(true) && early == Ok(true) && late == Ok(false) && got == Ok(Str("gone"))
  {
    var store := new ItemPool(0);
    var pool := new Pool(store);
    saved := pool.Set(Str("key1"), Str("value1"), Int(5));
    store.Tick(4);
    early := pool.Has(Str("key1"));
    store.Tick(1);
    late := pool.Has(Str("key1"));
    got := pool.Get(Str("key1"), Str("gone"));
  }

  method Delete() returns (saved: Result<bool, CacheError>, deleted: Result<bool, CacheError>, has: Result<bool, CacheError>)
    ensures saved == Ok(true) && deleted == Ok(true) && has == Ok(false)
  {
    var store := new ItemPool(0);
    var pool := new Pool(store);
    saved := pool.Set(Str("key"), Str("value"), Null);
    deleted := pool.Delete(Str("key"));
    has := pool.Has(Str("key"));
  }

  method DeleteMissingKey() returns (deleted: Result<bool, CacheError>, has: Result<bool, CacheError>)
    ensures deleted == Ok(true) && has == Ok(false)
  {
    var store := new ItemPool(0);
    var pool := new Pool(store);
    deleted := pool.Delete(Str("non-existant"));
    has := pool.Has(Str("non-existant"));
  }

  method Clear() returns (saved: Result<bool, CacheError>, cleared: bool, has: Result<bool, CacheError>)
    ensures saved == Ok(true) && cleared && has == Ok(false)
  {
    var store := new ItemPool(0);
    var pool := new Pool(store);
    saved := pool.Set(Str("key"), Str("value"), Null);
    cleared := pool.Clear();
    has := pool.Has(Str("key"));
  }

  method Has() returns (before: Result<bool, CacheError>, after: Result<bool, CacheError>)
    ensures before == Ok(false) && after == Ok(true)
  {
    var store := new ItemPool(0);
    var pool := new Pool(store);
    before := pool.Has(Str("foo"));
    var _ := pool.Set(Str("foo"), Str("bar"), Null);
    after := pool.Has(Str("foo"));
  }

  /** Two entries with different valid keys make a valid argument for
      `setMultiple`: the array they build is themselves. */
  lemma PairWellFormed(a: Key, va: Value, b: Key, vb: Value)
    requires a != b
    ensures ArrayOf([(Str(a), va), (Str(b), vb)]) == [(Str(a), va), (Str(b), vb)]
    ensures KeysOf([(Str(a), va), (Str(b), vb)]) == [Str(a), Str(b)]
    ensures FirstInvalid([Str(a), Str(b)]).None?
  {
    assert KeysOf([(Str(a), va), (Str(b), vb)]) == [Str(a), Str(b)];
    ArrayOfDistinct([(Str(a), va), (Str(b), vb)]);
  }

  /** Storing two entries with different keys and no time to live over an empty
      queue succeeds; both keys then read back their values and carry `tags`,
      and every other key is as it was. */
  lemma PairStored(s: PoolState, values: Value, tags: Option<seq<string>>, a: Key, va: Value, b: Key, vb: Value)
    requires s.staged == [] && a != b
    requires IsIterable(values) && values.pairs == [(Str(a), va), (Str(b), vb)]
    ensures SetMultipleOutcome(s, values, Null, tags).0 == Ok(true)
    ensures var s' := SetMultipleOutcome(s, values, Null, tags).1;
      && a in s'.entries && b in s'.entries
      && s'.entries[a].tags == tags && s'.entries[b].tags == tags
      && Fetch(s', a, Null) == va && Fetch(s', b, Null) == vb
    ensures var s' := SetMultipleOutcome(s, values, Null, tags).1;
      forall k: Key :: k != a && k != b ==>
        (k in s'.entries <==> k in s.entries) && Fetch(s', k, Null) == Fetch(s, k, Null)
  {
    PairWellFormed(a, va, b, vb);
    SetMultipleSucceeds(s, values, Null, tags);
    SetMultipleReadBack(s, values, Null, tags, Str(a));
    SetMultipleReadBack(s, values, Null, tags, Str(b));
    forall k: Key | k != a && k != b
      ensures var s' := SetMultipleOutcome(s, values, Null, tags).1;
        (k in s'.entries <==> k in s.entries) && Fetch(s', k, Null) == Fetch(s, k, Null)
    {
      assert Str(k) !in [Str(a), Str(b)];
      SetMultipleStoresOnly(s, values, Null, tags, k);
    }
  }

  /** An array with the keys `ks` whose every value is the reading of its key is `Readings`. */
  lemma ReadingsUnique(r: PhpArray, s: PoolState, ks: seq<Key>, default: Value)
    requires KeysOf(r) == StrKeys(ks)
    requires forall p :: p in r ==> ValidKey(p.0) && p.1 == Fetch(s, p.0.s, default)
    ensures r == Readings(s, ks, default)
  {
    forall i | 0 <= i < |r| ensures r[i] == Readings(s, ks, default)[i] {
      assert r[i] in r;
      assert KeysOf(r)[i] == r[i].0;
    }
  }

  lemma ReadingsOfTwo(s: PoolState, a: Key, b: Key, default: Value)
    ensures Readings(s, [a, b], default) == [(Str(a), Fetch(s, a, default)), (Str(b), Fetch(s, b, default))]
  {
  }

  lemma ReadingsOfThree(s: PoolState, a: Key, b: Key, c: Key, default: Value)
    ensures Readings(s, [a, b, c], default)
      == [(Str(a), Fetch(s, a, default)), (Str(b), Fetch(s, b, default)), (Str(c), Fetch(s, c, default))]
  {
  }

  /** The PHP list `[k0, k1, ...]` of the keys `ks`. */
  function ListOf(ks: seq<Key>): (r: PhpArray)
    ensures ValuesOf(r) == StrKeys(ks)
  {
    seq(|ks|, i requires 0 <= i < |ks| => (Int(i), Str(ks[i])))
  }

  /** A list of distinct valid keys is a valid argument for `getMultiple` and
      `deleteMultiple`, and asks for each key once. */
  lemma ListOfKeys(ks: seq<Key>)
    requires Distinct(ks)
    ensures FirstInvalid(StrKeys(ks)).None?
    ensures Dedup(StrKeys(ks)) == StrKeys(ks)
  {
    assert forall j :: 0 <= j < |ks| ==> ValidKey(StrKeys(ks)[j]);
    DedupOfDistinct(StrKeys(ks));
  }

  /** The key the tests never store. */
  const Missing: Key := "non-existant"

  const TwoKeys: Value := Arr(ListOf([Key1, Key2]))

  const ThreeKeys: Value := Arr(ListOf([Key1, Key2, Missing]))

  /** The keys the tests use are different. */
  lemma KeysDiffer()
    ensures Distinct([Key1, Key2]) && Distinct([Key1, Key2, Missing])
  {
    assert Key1[3] != Key2[3];
    assert |Missing| != |Key1| && |Missing| != |Key2|;
  }

  method SetMultipleAndGetMultiple() returns (saved: Result<bool, CacheError>, got: Result<PhpArray, CacheError>)
    ensures saved == Ok(true) && got == Ok(TwoItems.pairs)
  {
    var store := new ItemPool(0);
    var pool := new Pool(store);
    PairStored(store.State(), TwoItems, None, Key1, Str("value1"), Key2, Str("value2"));
    saved := pool.SetMultiple(TwoItems, Null);
    ghost var s1 := store.State();
    KeysDiffer();
    ListOfKeys([Key1, Key2]);
    got := pool.GetMultiple(TwoKeys, Null);
    ReadingsUnique(got.value, s1, [Key1, Key2], Null);
    ReadingsOfTwo(s1, Key1, Key2, Null);
  }

  method SetMultipleAndGetMultipleWithTraversable()
    returns (saved: Result<bool, CacheError>, got: Result<PhpArray, CacheError>)
    ensures saved == Ok(true) && got == Ok(TwoItems.pairs)
  {
    var store := new ItemPool(0);
    var pool := new Pool(store);
    var values := Traversable(TwoItems.pairs);
    PairStored(store.State(), values, None, Key1, Str("value1"), Key2, Str("value2"));
    saved := pool.SetMultiple(values, Null);
    ghost var s1 := store.State();
    KeysDiffer();
    ListOfKeys([Key1, Key2]);
    got := pool.GetMultiple(Traversable(TwoKeys.pairs), Null);
    ReadingsUnique(got.value, s1, [Key1, Key2], Null);
    ReadingsOfTwo(s1, Key1, Key2, Null);
  }

  method GetMultipleWithMissingKey() returns (saved: Result<bool, CacheError>, got: Result<PhpArray, CacheError>)
    ensures saved == Ok(true)
    ensures got == Ok([(Str("key1"), Str("value1")), (Str("key2"), Str("value2")), (Str("non-existant"), Null)])
  {
    var store := new ItemPool(0);
    var pool := new Pool(store);
    KeysDiffer();
    PairStored(store.State(), TwoItems, None, Key1, Str("value1"), Key2, Str("value2"));
    saved := pool.SetMultiple(TwoItems, Null);
    ghost var s1 := store.State();
    ListOfKeys([Key1, Key2, Missing]);
    got := pool.GetMultiple(ThreeKeys, Null);
    ReadingsUnique(got.value, s1, [Key1, Key2, Missing], Null);
    ReadingsOfThree(s1, Key1, Key2, Missing, Null);
  }

  method GetMultipleWithDefault() returns (saved: Result<bool, CacheError>, got: Result<PhpArray, CacheError>)
    ensures saved == Ok(true)
    ensures got == Ok([(Str("key1"), Str("value1")), (Str("key2"), Str("default-value"))])
  {
    var store := new ItemPool(0);
    var pool := new Pool(store);
    saved := pool.Set(Str(Key1), Str("value1"), Null);
    ghost var s1 := store.State();
    KeysDiffer();
    ListOfKeys([Key1, Key2]);
    got := pool.GetMultiple(TwoKeys, Str("default-value"));
    ReadingsUnique(got.value, s1, [Key1, Key2], Str("default-value"));
    ReadingsOfTwo(s1, Key1, Key2, Str("default-value"));
  }

  /** The keys every key-taking operation must refuse: each reserved
      character inside a string, and the non-string scalars. */
  const InvalidKeys: seq<Value> := [
    Str("foo{bar"), Str("foo}bar"), Str("foo(bar"), Str("foo)bar"),
    Str("foo/bar"), Str("foo\\bar"), Str("foo@bar"), Str("foo:bar"),
    Null, Bool(true), Int(1), Float(1.1)]

  lemma InvalidKeysRefused(key: Value)
    requires key in InvalidKeys
    ensures !ValidKey(key) && !IsIterable(key)
  {
    if key.Str? {
      assert key.s[3] in ReservedChars;
    } else {
      assert key in InvalidKeys[8..];
    }
  }

  /** `get`, `set`, `delete` and `has` each raise for an invalid key, an array or an object. */
  method InvalidSingleKey(key: Value)
    returns (got: Result<Value, CacheError>, saved: Result<bool, CacheError>,
             deleted: Result<bool, CacheError>, has: Result<bool, CacheError>)
    requires key in InvalidKeys || key == Arr([]) || key == Object("stdClass")
    ensures got.Err? && saved.Err? && deleted.Err? && has.Err?
  {
    if key in InvalidKeys {
      InvalidKeysRefused(key);
    }
    var store := new ItemPool(0);
    var pool := new Pool(store);
    got := pool.Get(key, Null);
    saved := pool.Set(key, Str("value"), Null);
    deleted := pool.Delete(key);
    has := pool.Has(key);
  }

  /** `getMultiple` raises for an invalid key given alone, in a list or in a
      \Traversable list, and for an object that is not traversable. */
  method GetMultipleWithInvalidKeys(key: Value)
    returns (alone: Result<PhpArray, CacheError>, inList: Result<PhpArray, CacheError>,
             inTraversable: Result<PhpArray, CacheError>, nonTraversable: Result<PhpArray, CacheError>)
    requires key in InvalidKeys
    ensures alone.Err? && inList.Err? && inTraversable.Err? && nonTraversable.Err?
  {
    InvalidKeysRefused(key);
    var store := new ItemPool(0);
    var pool := new Pool(store);
    var list := [(Int(0), key)];
    assert ValuesOf(list) == [key];
    alone := pool.GetMultiple(key, Null);
    inList := pool.GetMultiple(Arr(list), Null);
    inTraversable := pool.GetMultiple(Traversable(list), Null);
    nonTraversable := pool.GetMultiple(Object("stdClass"), Null);
  }

  /** `deleteMultiple` raises for the same arguments as `getMultiple`. */
  method DeleteMultipleInvalidKeys(key: Value)
    returns (alone: Result<bool, CacheError>, inList: Result<bool, CacheError>,
             inTraversable: Result<bool, CacheError>, nonTraversable: Result<bool, CacheError>)
    requires key in InvalidKeys
    ensures alone.Err? && inList.Err? && inTraversable.Err? && nonTraversable.Err?
  {
    InvalidKeysRefused(key);
    var store := new ItemPool(0);
    var pool := new Pool(store);
    var list := [(Int(0), key)];
    assert ValuesOf(list) == [key];
    alone := pool.DeleteMultiple(key);
    inList := pool.DeleteMultiple(Arr(list));
    inTraversable := pool.DeleteMultiple(Traversable(list));
    nonTraversable := pool.DeleteMultiple(Object("stdClass"));
  }

  /** `setMultiple` raises for an invalid key given alone, as the key of an array
      or of a \Traversable, and for an object that is not traversable. */
  method SetMultipleWithInvalidKeys(key: Value)
    returns (alone: Result<bool, CacheError>, inArray: Result<bool, CacheError>,
             inTraversable: Result<bool, CacheError>, nonTraversable: Result<bool, CacheError>)
    requires key in InvalidKeys
    ensures alone.Err? && inArray.Err? && inTraversable.Err? && nonTraversable.Err?
  {
    InvalidKeysRefused(key);
    var store := new ItemPool(0);
    var pool := new Pool(store);
    var pairs := [(key, Str("value"))];
    alone := pool.SetMultiple(key, Null);
    SetMultipleInvalidKey(store.State(), Arr(pairs), Null, None, 0);
    inArray := pool.SetMultiple(Arr(pairs), Null);
    SetMultipleInvalidKey(store.State(), Traversable(pairs), Null, None, 0);
    inTraversable := pool.SetMultiple(Traversable(pairs), Null);
    nonTraversable := pool.SetMultiple(Object("stdClass"), Null);
  }

  /** The single entry of the expiry tests. */
  const OneItem: Value := Arr([(Str("key"), Str("value"))])

  lemma OneItemWellFormed()
    ensures ArrayOf(OneItem.pairs) == OneItem.pairs
    ensures KeysOf(OneItem.pairs) == [Str("key")]
    ensures FirstInvalid(KeysOf(OneItem.pairs)).None?
  {
    assert KeysOf(OneItem.pairs) == [Str("key")];
    assert ValidKey(Str("key"));
    ArrayOfDistinct(OneItem.pairs);
  }

  method SetMultipleWithExpired() returns (saved: Result<bool, CacheError>, has: Result<bool, CacheError>)
    ensures saved == Ok(false) && has == Ok(false)
  {
    var store := new ItemPool(0);
    var pool := new Pool(store);
    OneItemWellFormed();
    SetMultipleExpired(store.State(), OneItem, -1, None);
    saved := pool.SetMultiple(OneItem, Int(-1));
    has := pool.Has(Str("key"));
  }

  method SetMultipleWithWrongTtl() returns (saved: Result<bool, CacheError>)
    ensures saved.Err?
  {
    var store := new ItemPool(0);
    var pool := new Pool(store);
    OneItemWellFormed();
    SetMultipleInvalidTtl(store.State(), OneItem, Str("bad-ttl"), None);
    saved := pool.SetMultiple(OneItem, Str("bad-ttl"));
  }

  method DeleteMultiple(keys: Value)
    returns (saved: Result<bool, CacheError>, deleted: Result<bool, CacheError>,
             has1: Result<bool, CacheError>, has2: Result<bool, CacheError>)
    requires keys == TwoKeys || keys == Traversable(TwoKeys.pairs)
    ensures saved == Ok(true) && deleted == Ok(true) && has1 == Ok(false) && has2 == Ok(false)
  {
    var store := new ItemPool(0);
    var pool := new Pool(store);
    PairStored(store.State(), TwoItems, None, Key1, Str("value1"), Key2, Str("value2"));
    saved := pool.SetMultiple(TwoItems, Null);
    KeysDiffer();
    ListOfKeys([Key1, Key2]);
    deleted := pool.DeleteMultiple(keys);
    has1 := pool.Has(Str(Key1));
    has2 := pool.Has(Str(Key2));
  }

  // ---------------------------------------------------------------------
  // The taggable pool's tests, with the pool's tags set to `Tags` first

  const Tags: seq<string> := ["fooTag", "barTag"]

  method TaggablePoolWithTags() returns (pool: Pool)
    ensures fresh(pool) && fresh(pool.store) && pool.taggable && pool.tags == Some(Tags)
    ensures pool.store.Valid() && pool.store.State() == PoolState(map[], [], 0, [])
  {
    var store := new ItemPool(0);
    pool := new Pool.Taggable(store);
    var _ := pool.SetTags(Some(Tags));
  }

  method GetTags() returns (before: Option<seq<string>>, sameObject: bool, after: Option<seq<string>>)
    ensures before == Some(Tags) && sameObject && after == None
  {
    var pool := TaggablePoolWithTags();
    before := pool.GetTags();
    var self := pool.SetTags(None);
    sameObject := self == pool;
    after := pool.GetTags();
  }

  method GetMultipleByTagIsEmptyByDefault() returns (items: PhpArray)
    ensures items == []
  {
    var pool := TaggablePoolWithTags();
    items := pool.GetMultipleByTag("non-existant");
  }

  const Foo1: Key := "foo1"
  const Foo2: Key := "foo2"
  const FooItems: Value := Arr([(Str(Foo1), Str("foo1Value")), (Str(Foo2), Str("foo2Value"))])

  /** Storing `FooItems` with the tags `Tags` in an empty pool succeeds and leaves
      exactly the two keys, both carrying those tags. */
  lemma FooItemsStored(s: PoolState)
    requires s.entries == map[] && s.staged == []
    ensures SetMultipleOutcome(s, FooItems, Null, Some(Tags)).0 == Ok(true)
    ensures var s' := SetMultipleOutcome(s, FooItems, Null, Some(Tags)).1;
      && s'.entries.Keys == {Foo1, Foo2}
      && s'.entries[Foo1].tags == Some(Tags) && s'.entries[Foo2].tags == Some(Tags)
  {
    assert Foo1[3] != Foo2[3];
    PairStored(s, FooItems, Some(Tags), Foo1, Str("foo1Value"), Foo2, Str("foo2Value"));
    var s' := SetMultipleOutcome(s, FooItems, Null, Some(Tags)).1;
    assert s'.entries.Keys == {Foo1, Foo2};
  }

  /** A sequence of distinct elements has as many elements as it has members. */
  lemma {:induction false} DistinctCard<T>(xs: seq<T>)
    requires Distinct(xs)
    ensures |set x | x in xs| == |xs|
  {
    if xs != [] {
      var rest := xs[1..];
      DistinctCard(rest);
      assert (set x | x in xs) == {xs[0]} + (set x | x in rest);
      assert xs[0] !in rest;
    }
  }

  /** A sequence of distinct elements, all of them `a` or `b`, containing both, has two elements. */
  lemma DistinctPair<T>(xs: seq<T>, a: T, b: T)
    requires Distinct(xs) && a != b && a in xs && b in xs
    requires forall x :: x in xs ==> x == a || x == b
    ensures |xs| == 2
  {
    DistinctCard(xs);
    assert (set x | x in xs) == {a, b};
  }

  /** With `FooItems` stored under `Tags`, "fooTag" lists two keys and "nonTag" none. */
  lemma FooItemsTagCounts(s: PoolState)
    requires WellFormed(s) && s.entries.Keys == {Foo1, Foo2}
    requires s.entries[Foo1].tags == Some(Tags) && s.entries[Foo2].tags == Some(Tags)
    ensures |TaggedKeys(s, "fooTag")| == 2 && |TaggedKeys(s, "nonTag")| == 0
  {
    TagIndexContents(s, "fooTag");
    TagIndexContents(s, "nonTag");
    assert Foo1 in s.entries && Foo2 in s.entries;
    DistinctPair(TaggedKeys(s, "fooTag"), Foo1, Foo2);
  }

  method SetAndGetMultipleByTag() returns (saved: Result<bool, CacheError>, fooCount: nat, nonCount: nat)
    ensures saved == Ok(true) && fooCount == 2 && nonCount == 0
  {
    var pool := TaggablePoolWithTags();
    FooItemsStored(pool.store.State());
    saved := pool.SetMultiple(FooItems, Null);
    FooItemsTagCounts(pool.store.State());
    var foo := pool.GetMultipleByTag("fooTag");
    var non := pool.GetMultipleByTag("nonTag");
    fooCount, nonCount := |foo|, |non|;
  }

  method ClearByTags() returns (saved: Result<bool, CacheError>, cleared: bool, has: Result<bool, CacheError>)
    ensures saved == Ok(true) && cleared && has == Ok(false)
  {
    var pool := TaggablePoolWithTags();
    saved := pool.Set(Str("foo"), Str("fooValue"), Null);
    ghost var s1 := pool.store.State();
    assert TaggedAny(s1.entries["foo"], ["fooTag"]) by {
      assert "fooTag" in ["fooTag"] && Tagged(s1.entries["foo"], "fooTag");
    }
    CleanedEffect(s1, ["fooTag"]);
    cleared := pool.ClearByTags(["fooTag"]);
    has := pool.Has(Str("foo"));
  }

  method ClearByTagsWithNonExistant() returns (cleared: bool)
    ensures !cleared
  {
    var pool := TaggablePoolWithTags();
    cleared := pool.ClearByTags(["non-existant"]);
  }
}
