/** The PSR-16 "simple cache" facade over a PSR-6 item pool.

    Class `Pool` models both facade classes of the source: the plain pool
    (`taggable == false`) and the taggable pool (`taggable == true`), which
    differs from it only in attaching its current tags to every item it
    writes and in offering tag queries. Each operation turns a simple-cache
    call into item-pool calls and re-raises the pool's invalid-argument
    error as the facade's own.
 */
module SimpleCache {
  import opened PhpValues
  import opened CachePool

  /** Apix\SimpleCache\PsrSimpleCache\InvalidArgumentException, with its message. */
  datatype CacheError = InvalidArgumentException(message: string)

  /** `_rethrow`: the pool's invalid-argument error becomes the facade's, with the same message. */
  function Rethrow(e: PoolError): (r: CacheError)
    ensures r.message == e.message
  {
    InvalidArgumentException(e.message)
  }

  /** The error the facade raises for a keys or values argument that is
      neither an array nor a \Traversable. */
  function NotIterableError(v: Value): (r: CacheError)
    ensures r.message == "Expected an array or a \\Traversable, got `" + TypeName(v) + "`."
  {
    InvalidArgumentException("Expected an array or a \\Traversable, got `" + TypeName(v) + "`.")
  }

  /** `_normalizedKeys`: the keys an array or \Traversable holds, in order;
      anything else is refused. */
  function NormalizedKeys(keys: Value): (r: Result<seq<Value>, CacheError>)
    ensures r.Ok? <==> IsIterable(keys)
    ensures r.Ok? ==> r.value == ValuesOf(keys.pairs)
    ensures r.Err? ==> r.error == NotIterableError(keys)
  {
    if IsIterable(keys) then Ok(ValuesOf(keys.pairs)) else Err(NotIterableError(keys))
  }

  /** The keys of `ks` as PHP string values. */
  function StrKeys(ks: seq<Key>): (r: seq<Value>)
    ensures |r| == |ks| && forall i :: 0 <= i < |ks| ==> r[i] == Str(ks[i])
  {
    seq(|ks|, i requires 0 <= i < |ks| => Str(ks[i]))
  }

  /** The entries `setMultiple` stages for the keys `ks` of the array `arr`. */
  function Staging(ks: seq<Value>, arr: PhpArray, expiry: Option<int>, tags: Option<seq<string>>)
    : (es: seq<(Key, Entry)>)
    requires forall i :: 0 <= i < |ks| ==> ValidKey(ks[i])
    ensures |es| == |ks|
    ensures forall i :: 0 <= i < |ks| ==>
      Str(es[i].0) == ks[i] && es[i].1 == Entry(At(arr, ks[i]), expiry, tags)
  {
    if ks == [] then []
    else
      assert ValidKey(ks[0]);
      var k: Key := ks[0].s;
      [(k, Entry(At(arr, ks[0]), expiry, tags))] + Staging(ks[1..], arr, expiry, tags)
  }

  /** The array `getMultiple` and `getMultipleByTag` give for distinct valid
      keys `ks`: each key, in order, with what reading it yields in `s`. */
  function Readings(s: PoolState, ks: seq<Key>, default: Value): (r: PhpArray)
    ensures KeysOf(r) == StrKeys(ks)
  {
    seq(|ks|, i requires 0 <= i < |ks| => (Str(ks[i]), Fetch(s, ks[i], default)))
  }

  /** Assigning the next key of a list of distinct keys its reading extends the readings by one. */
  lemma ReadingsStep(s: PoolState, ks: seq<Key>, n: nat, default: Value)
    requires n < |ks| && Distinct(ks)
    ensures Put(Readings(s, ks[..n], default), Str(ks[n]), Fetch(s, ks[n], default))
         == Readings(s, ks[..n + 1], default)
  {
    var items := Readings(s, ks[..n], default);
    assert Str(ks[n]) !in KeysOf(items) by {
      forall j | 0 <= j < n ensures KeysOf(items)[j] != Str(ks[n]) {
        assert ks[j] != ks[n];
      }
    }
    PutNew(items, Str(ks[n]), Fetch(s, ks[n], default));
  }

  /** Every pair of the readings is a valid key with its reading. */
  lemma ReadingsRead(s: PoolState, ks: seq<Key>, default: Value)
    ensures forall p :: p in Readings(s, ks, default) ==> ValidKey(p.0) && p.1 == Fetch(s, p.0.s, default)
  {
    var items := Readings(s, ks, default);
    forall p | p in items ensures ValidKey(p.0) && p.1 == Fetch(s, p.0.s, default) {
      var j :| 0 <= j < |items| && items[j] == p;
    }
  }

  /** Staging `es` from `s0` has got past its first `i` entries, reaching `s`
      with `ok` telling whether every deferral so far succeeded: finishing
      from there gives what staging all of `es` gives. */
  ghost predicate StagedUpTo(s0: PoolState, es: seq<(Key, Entry)>, i: nat, s: PoolState, ok: bool)
  {
    && i <= |es|
    && if ok then StageAll(s0, es) == StageAll(s, es[i..]) else StageAll(s0, es) == (s, false)
  }

  /** Deferring the next entry, or skipping it once a deferral has failed, gets one entry further. */
  lemma StagedUpToStep(s0: PoolState, es: seq<(Key, Entry)>, i: nat, s: PoolState, ok: bool)
    requires i < |es| && StagedUpTo(s0, es, i, s, ok)
    ensures ok ==> StagedUpTo(s0, es, i + 1, Deferred(s, es[i].0, es[i].1).0, Deferred(s, es[i].0, es[i].1).1)
    ensures !ok ==> StagedUpTo(s0, es, i + 1, s, false)
  {
    StageAllStep(s, es, i);
  }

  /** `saveDeferred` applied to each entry in turn for as long as every call
      so far succeeded: the state afterwards and whether all succeeded. */
  function StageAll(s: PoolState, es: seq<(Key, Entry)>): (r: (PoolState, bool))
    ensures r.0 == s.(staged := r.0.staged)
    decreases |es|
  {
    if es == [] then (s, true)
    else
      var (s1, ok) := Deferred(s, es[0].0, es[0].1);
      if ok then StageAll(s1, es[1..]) else (s1, false)
  }

  /** What `setMultiple(values, ttl)` returns and the pool state it leaves,
      when the pool's state is `s` and `tags` are the tags written items carry. */
  function SetMultipleOutcome(s: PoolState, values: Value, ttl: Value, tags: Option<seq<string>>)
    : (r: (Result<bool, CacheError>, PoolState))
    ensures !IsIterable(values) ==> r.0 == Err(NotIterableError(values))
    ensures r.0.Err? ==> r.1 == s
    ensures r.1.clock == s.clock
  {
    if !IsIterable(values) then (Err(NotIterableError(values)), s)
    else
      var arr := ArrayOf(values.pairs);
      var ks := KeysOf(arr);
      if FirstInvalid(ks).Some? then (Err(Rethrow(KeyError(FirstInvalid(ks).value))), s)
      else StagingOutcome(s, ks, arr, ttl, tags)
  }

  /** `setMultiple` once every key of `arr` (listed in `ks`) is known to be valid. */
  function StagingOutcome(s: PoolState, ks: seq<Value>, arr: PhpArray, ttl: Value, tags: Option<seq<string>>)
    : (r: (Result<bool, CacheError>, PoolState))
    requires forall i :: 0 <= i < |ks| ==> ValidKey(ks[i])
    ensures ks == [] ==> r == CommitOutcome(s, true)
    ensures r.0.Err? <==> ks != [] && ExpiryAfter(ttl, s.clock).Err?
    ensures r.0.Err? ==> r == (Err(Rethrow(ExpiryAfter(ttl, s.clock).error)), s)
    ensures r.1.clock == s.clock
  {
    match ExpiryAfter(ttl, s.clock)
    case Err(e) => if ks == [] then CommitOutcome(s, true) else (Err(Rethrow(e)), s)
    case Ok(expiry) =>
      var (s1, staged) := StageAll(s, Staging(ks, arr, expiry, tags));
      CommitOutcome(s1, staged)
  }

  /** `return $success && commit()`: commits only after every deferral
      succeeded, and then empties the queue without moving the clock. */
  function CommitOutcome(s: PoolState, success: bool): (r: (Result<bool, CacheError>, PoolState))
    ensures r.0 == Ok(success && Committed(s).1)
    ensures !success ==> r.1 == s
    ensures success ==> r.1.staged == [] && r.1.clock == s.clock
  {
    WriteAllClock(s.(staged := []), s.staged);
    if success then (Ok(Committed(s).1), Committed(s).0) else (Ok(false), s)
  }

  class Pool {
    /** The PSR-6 item pool every call is delegated to. */
    const store: ItemPool
    /** True for a taggable pool. */
    const taggable: bool
    /** The taggable pool's current tags (null when unset). */
    var tags: Option<seq<string>>

    constructor (store: ItemPool)
      ensures this.store == store && !taggable && tags == None
    {
      this.store := store;
      taggable := false;
      tags := None;
    }

    constructor Taggable(store: ItemPool)
      ensures this.store == store && taggable && tags == None
    {
      this.store := store;
      taggable := true;
      tags := None;
    }

    /** The tags an item written through this pool carries: the current tags
        for a taggable pool, none for a plain one (whose items keep the tags
        they were fetched with, and fetched items carry none). */
    function WrittenTags(): (r: Option<seq<string>>)
      reads this
      ensures taggable ==> r == tags
      ensures !taggable ==> r == None
    {
      if taggable then tags else None
    }

    /** `setItemProperties`: sets the value, then the time to live, then (for a
        taggable pool) the current tags; stops at an invalid time to live. */
    method SetItemProperties(item: Item, value: Value, ttl: Value) returns (r: Outcome<PoolError>)
      modifies item
      ensures item.hit == old(item.hit)
      ensures ExpiryAfter(ttl, store.clock).Err? ==> r == Fail(ExpiryAfter(ttl, store.clock).error)
      ensures ExpiryAfter(ttl, store.clock).Ok? ==>
        && r == Pass
        && item.ToEntry() == Entry(value, ExpiryAfter(ttl, store.clock).value,
                                   if taggable then tags else old(item.tags))
    {
      item.Set(value);
      r := item.ExpiresAfter(ttl, store.clock);
      if r.Pass? && taggable {
        item.SetTags(tags);
      }
    }

    method Get(key: Value, default: Value) returns (r: Result<Value, CacheError>)
      ensures !ValidKey(key) ==> r == Err(Rethrow(KeyError(key)))
      ensures ValidKey(key) ==> r == Ok(Fetch(store.State(), key.s, default))
    {
      var got := store.GetItem(key);
      match got
      case Err(e) => r := Err(Rethrow(e));
      case Ok(item) => r := Ok(if item.IsHit() then item.Get() else default);
    }

    method GetMultiple(keys: Value, default: Value) returns (r: Result<PhpArray, CacheError>)
      ensures !IsIterable(keys) ==> r == Err(NotIterableError(keys))
      ensures IsIterable(keys) && FirstInvalid(ValuesOf(keys.pairs)).Some? ==>
        r == Err(Rethrow(KeyError(FirstInvalid(ValuesOf(keys.pairs)).value)))
      ensures IsIterable(keys) && FirstInvalid(ValuesOf(keys.pairs)).None? ==>
        && r.Ok?
        && KeysOf(r.value) == Dedup(ValuesOf(keys.pairs))
        && forall p :: p in r.value ==> ValidKey(p.0) && p.1 == Fetch(store.State(), p.0.s, default)
    {
      var normalized := NormalizedKeys(keys);
      if normalized.Err? {
        return Err(normalized.error);
      }
      var ks := normalized.value;
      var items: PhpArray := [];
      var i := 0;
      while i < |ks|
        invariant 0 <= i <= |ks|
        invariant i <= FirstInvalidIndex(ks)
        invariant KeysOf(items) == Dedup(ks[..i])
        invariant forall p :: p in items ==> ValidKey(p.0) && p.1 == Fetch(store.State(), p.0.s, default)
      {
        var got := Get(ks[i], default);
        if got.Err? {
          assert FirstInvalidIndex(ks) == i;
          return Err(got.error);
        }
        DedupSnoc(ks[..i], ks[i]);
        assert ks[..i + 1] == ks[..i] + [ks[i]];
        items := Put(items, ks[i], got.value);
        i := i + 1;
      }
      assert ks[..i] == ks;
      r := Ok(items);
    }

    method Has(key: Value) returns (r: Result<bool, CacheError>)
      ensures !ValidKey(key) ==> r == Err(Rethrow(KeyError(key)))
      ensures ValidKey(key) ==> r == Ok(Hit(store.State(), key.s))
    {
      var got := store.HasItem(key);
      match got
      case Err(e) => r := Err(Rethrow(e));
      case Ok(b) => r := Ok(b);
    }

    method Clear() returns (ok: bool)
      requires store.Valid()
      modifies store
      ensures store.Valid() && tags == old(tags)
      ensures ok && store.State() == Emptied(old(store.State()))
    {
      ok := store.Clear();
    }

    method DeleteMultiple(keys: Value) returns (r: Result<bool, CacheError>)
      requires store.Valid()
      modifies store
      ensures store.Valid() && tags == old(tags)
      ensures !IsIterable(keys) ==>
        r == Err(NotIterableError(keys)) && store.State() == old(store.State())
      ensures IsIterable(keys) && FirstInvalid(ValuesOf(keys.pairs)).Some? ==>
        && r == Err(Rethrow(KeyError(FirstInvalid(ValuesOf(keys.pairs)).value)))
        && store.State() == old(store.State())
      ensures IsIterable(keys) && FirstInvalid(ValuesOf(keys.pairs)).None? ==>
        r == Ok(true) && store.State() == Without(old(store.State()), KeySet(ValuesOf(keys.pairs)))
    {
      var normalized := NormalizedKeys(keys);
      if normalized.Err? {
        return Err(normalized.error);
      }
      var deleted := store.DeleteItems(normalized.value);
      match deleted
      case Err(e) => r := Err(Rethrow(e));
      case Ok(b) => r := Ok(b);
    }

    method Delete(key: Value) returns (r: Result<bool, CacheError>)
      requires store.Valid()
      modifies store
      ensures store.Valid() && tags == old(tags)
      ensures !ValidKey(key) ==> r == Err(Rethrow(KeyError(key))) && store.State() == old(store.State())
      ensures ValidKey(key) ==> r == Ok(true) && store.State() == Without(old(store.State()), {key.s})
    {
      var deleted := store.DeleteItem(key);
      match deleted
      case Err(e) => r := Err(Rethrow(e));
      case Ok(b) => r := Ok(b);
    }

    method Set(key: Value, value: Value, ttl: Value) returns (r: Result<bool, CacheError>)
      requires store.Valid()
      modifies store
      ensures store.Valid() && tags == old(tags)
      ensures !ValidKey(key) ==>
        r == Err(Rethrow(KeyError(key))) && store.State() == old(store.State())
      ensures ValidKey(key) && ExpiryAfter(ttl, old(store.clock)).Err? ==>
        && r == Err(Rethrow(ExpiryAfter(ttl, old(store.clock)).error))
        && store.State() == old(store.State())
      ensures ValidKey(key) && ExpiryAfter(ttl, old(store.clock)).Ok? ==>
        && r == Ok(true)
        && store.State() == Write(old(store.State()), key.s,
                                  Entry(value, ExpiryAfter(ttl, old(store.clock)).value, WrittenTags()))
    {
      var got := store.GetItem(key);
      if got.Err? {
        return Err(Rethrow(got.error));
      }
      var item := got.value;
      var prepared := SetItemProperties(item, value, ttl);
      if prepared.Fail? {
        return Err(Rethrow(prepared.error));
      }
      var ok := store.Save(item);
      r := Ok(ok);
    }

    method SetMultiple(values: Value, ttl: Value) returns (r: Result<bool, CacheError>)
      requires store.Valid()
      modifies store
      ensures store.Valid() && tags == old(tags)
      ensures (r, store.State()) == SetMultipleOutcome(old(store.State()), values, ttl, WrittenTags())
    {
      if !IsIterable(values) {
        return Err(NotIterableError(values));
      }
      var arr := ArrayOf(values.pairs);
      var keys := KeysOf(arr);
      var got := store.GetItems(keys);
      if got.Err? {
        return Err(Rethrow(got.error));
      }
      var items := got.value;
      ArrayOfKeys(values.pairs);
      DedupOfDistinct(keys);
      var prepared, success := StageItems(items, keys, arr, ttl);
      if prepared.Fail? {
        return Err(Rethrow(prepared.error));
      }
      var committed := CommitStaged(success);
      r := Ok(committed);
    }

    /** `return $success && commit()`: commits only when every deferral succeeded. */
    method CommitStaged(success: bool) returns (ok: bool)
      requires store.Valid()
      modifies store
      ensures store.Valid()
      ensures (Ok(ok), store.State()) == CommitOutcome(old(store.State()), success)
    {
      ok := success;
      if success {
        ok := store.Commit();
      }
    }

    /** The `foreach` of `setMultiple`: prepares each fetched item (the items
        of the keys `keys` of `arr`, in order) in turn and, for as long as
        every deferral so far succeeded, defers its save; an invalid time to
        live stops the loop at the first item. */
    method StageItems(items: seq<Item>, keys: seq<Value>, arr: PhpArray, ttl: Value)
      returns (r: Outcome<PoolError>, success: bool)
      requires store.Valid() && |items| == |keys|
      requires forall j :: 0 <= j < |items| ==> items[j].tags == None && Str(items[j].key) == keys[j]
      requires forall j, k :: 0 <= j < k < |items| ==> items[j] != items[k]
      modifies store, items
      ensures store.Valid()
      ensures ExpiryAfter(ttl, old(store.clock)).Err? ==>
        && store.State() == old(store.State())
        && (if items == [] then r == Pass && success else r == Fail(ExpiryAfter(ttl, old(store.clock)).error))
      ensures ExpiryAfter(ttl, old(store.clock)).Ok? ==>
        && (forall j :: 0 <= j < |keys| ==> ValidKey(keys[j]))
        && r == Pass
        && (store.State(), success)
           == StageAll(old(store.State()), Staging(keys, arr, ExpiryAfter(ttl, old(store.clock)).value, WrittenTags()))
    {
      ghost var s0 := store.State();
      ghost var expiry := if ExpiryAfter(ttl, s0.clock).Ok? then ExpiryAfter(ttl, s0.clock).value else None;
      forall j | 0 <= j < |keys| ensures ValidKey(keys[j]) {
        assert Str(items[j].key) == keys[j];
      }
      ghost var es := Staging(keys, arr, expiry, WrittenTags());
      success := true;
      var i := 0;
      assert es[i..] == es;
      while i < |items|
        invariant 0 <= i <= |items|
        invariant store.Valid() && store.clock == s0.clock
        invariant i == 0 ==> store.State() == s0 && success
        invariant i > 0 ==> ExpiryAfter(ttl, s0.clock).Ok?
        invariant StagedUpTo(s0, es, i, store.State(), success)
        invariant forall j :: i <= j < |items| ==> items[j].tags == None
      {
        var item := items[i];
        assert es[i].0 == item.key by {
          assert Str(es[i].0) == keys[i] == Str(item.key);
        }
        StagedUpToStep(s0, es, i, store.State(), success);
        var prepared;
        prepared, success := StageItem(item, At(arr, Str(item.key)), ttl, success);
        if prepared.Fail? {
          return prepared, success;
        }
        i := i + 1;
      }
      assert es[i..] == [];
      r := Pass;
    }

    /** One pass of that `foreach`: prepares `item` with `value` and, if
        every deferral so far succeeded, defers its save. */
    method StageItem(item: Item, value: Value, ttl: Value, success: bool) returns (r: Outcome<PoolError>, ok: bool)
      requires store.Valid()
      modifies store, item
      ensures store.Valid() && store.clock == old(store.clock)
      ensures ExpiryAfter(ttl, old(store.clock)).Err? ==>
        r == Fail(ExpiryAfter(ttl, old(store.clock)).error) && store.State() == old(store.State())
      ensures ExpiryAfter(ttl, old(store.clock)).Ok? ==>
        && r == Pass
        && (store.State(), ok)
           == if success
              then Deferred(old(store.State()), item.key,
                            Entry(value, ExpiryAfter(ttl, old(store.clock)).value,
                                  if taggable then tags else old(item.tags)))
              else (old(store.State()), false)
    {
      ok := success;
      r := SetItemProperties(item, value, ttl);
      if r.Pass? && success {
        ok := store.SaveDeferred(item);
      }
    }

    /** `getMultipleByTag`: every key the tag index lists, without its prefix,
        mapped to what `get` with a null default returns for it. */
    method GetMultipleByTag(tag: string) returns (items: PhpArray)
      requires taggable && store.Valid()
      ensures items == Readings(store.State(), TaggedKeys(store.State(), tag), Null)
      ensures KeysOf(items) == StrKeys(TaggedKeys(store.State(), tag))
      ensures |items| == |TaggedKeys(store.State(), tag)|
      ensures forall p :: p in items ==> ValidKey(p.0) && p.1 == Fetch(store.State(), p.0.s, Null)
    {
      var loaded := store.LoadTag(tag);
      ghost var s := store.State();
      ghost var tk := TaggedKeys(s, tag);
      TagIndexContents(s, tag);
      items := [];
      if loaded.Some? && |loaded.value| > 0 {
        var keys := loaded.value;
        var i := 0;
        while i < |keys|
          invariant 0 <= i <= |keys| == |tk|
          invariant items == Readings(s, tk[..i], Null)
        {
          var k := RemovePrefixKey(keys[i]);
          RemovePrefixKeyInverse(tk[i]);
          assert k == tk[i];
          var got := Get(Str(k), Null);
          ReadingsStep(s, tk, i, Null);
          items := Put(items, Str(k), got.value);
          i := i + 1;
        }
        assert tk[..i] == tk;
      }
      ReadingsRead(s, tk, Null);
    }

    /** `clearByTags`: the pool's `clean` result, unchanged. */
    method ClearByTags(tagNames: seq<string>) returns (ok: bool)
      requires taggable && store.Valid()
      modifies store
      ensures store.Valid() && tags == old(tags)
      ensures (store.State(), ok) == Cleaned(old(store.State()), tagNames)
    {
      ok := store.Clean(tagNames);
    }

    method SetTags(ts: Option<seq<string>>) returns (self: Pool)
      requires taggable
      modifies this`tags
      ensures self == this && tags == ts
    {
      tags := ts;
      self := this;
    }

    method GetTags() returns (ts: Option<seq<string>>)
      requires taggable
      ensures ts == tags
    {
      ts := tags;
    }
  }

  // ---------------------------------------------------------------------
  // Properties of setMultiple

  /** One step of staging from position `i` on. */
  lemma StageAllStep(s: PoolState, es: seq<(Key, Entry)>, i: nat)
    requires i < |es|
    ensures StageAll(s, es[i..]) ==
      var (s1, ok) := Deferred(s, es[i].0, es[i].1);
      if ok then StageAll(s1, es[i + 1..]) else (s1, false)
  {
    assert es[i..][0] == es[i] && es[i..][1..] == es[i + 1..];
  }

  /** Staging succeeds exactly when every entry is live. */
  lemma {:induction false} StageAllSucceedsIff(s: PoolState, es: seq<(Key, Entry)>)
    ensures StageAll(s, es).1 <==> forall i :: 0 <= i < |es| ==> Live(es[i].1, s.clock)
    ensures StageAll(s, es).0.clock == s.clock
    decreases |es|
  {
    if es != [] {
      var (s1, ok) := Deferred(s, es[0].0, es[0].1);
      if ok {
        StageAllSucceedsIff(s1, es[1..]);
        assert forall i :: 1 <= i < |es| ==> es[i] == es[1..][i - 1];
      }
    }
  }

  /** The position of the first entry that is not live, or |es|. */
  function FirstExpired(es: seq<(Key, Entry)>, now: int): (n: nat)
    ensures n <= |es|
    ensures forall i :: 0 <= i < n ==> Live(es[i].1, now)
    ensures n < |es| ==> !Live(es[n].1, now)
  {
    if es == [] || !Live(es[0].1, now) then 0 else 1 + FirstExpired(es[1..], now)
  }

  /** Staging stops at the first entry that is not live: exactly the entries
      before it are queued, and nothing else changes. */
  lemma {:induction false} StageAllStagesPrefix(s: PoolState, es: seq<(Key, Entry)>)
    ensures StageAll(s, es).0 == s.(staged := s.staged + es[..FirstExpired(es, s.clock)])
    decreases |es|
  {
    if es != [] && Live(es[0].1, s.clock) {
      var s1 := s.(staged := s.staged + [es[0]]);
      StageAllStagesPrefix(s1, es[1..]);
      var n := FirstExpired(es[1..], s.clock);
      assert es[..n + 1] == [es[0]] + es[1..][..n];
    }
  }

  /** Staging entries with distinct keys and committing them stores every
      entry, whatever was queued before, and each reads back its value. */
  lemma StageAllCommitReadBack(s: PoolState, es: seq<(Key, Entry)>, i: nat)
    requires i < |es|
    requires forall a, b :: 0 <= a < b < |es| ==> es[a].0 != es[b].0
    requires StageAll(s, es).1
    ensures var s' := Committed(StageAll(s, es).0).0;
      && es[i].0 in s'.entries && s'.entries[es[i].0] == es[i].1
      && Fetch(s', es[i].0, Null) == es[i].1.value
  {
    var s1 := StageAll(s, es).0;
    assert s1.staged == s.staged + es by {
      StageAllSucceedsIff(s, es);
      StageAllStagesPrefix(s, es);
      assert es[..|es|] == es;
    }
    assert Live(es[i].1, s1.clock) by {
      StageAllSucceedsIff(s, es);
    }
    var queue := s.staged + es;
    var j := |s.staged| + i;
    assert queue[j] == es[i];
    forall b | j < b < |queue| ensures queue[b].0 != queue[j].0 {
      assert queue[b] == es[b - |s.staged|];
    }
    assert Committed(s1).0 == WriteAll(s1.(staged := []), queue);
    WriteAllLastWins(s1.(staged := []), queue, j);
    WriteAllClock(s1.(staged := []), queue);
  }

  /** A successful `setMultiple` stores every entry of the array with its
      value, the expiry its time to live gives and the pool's tags, and each
      reads back its value. */
  lemma SetMultipleReadBack(s: PoolState, values: Value, ttl: Value, tags: Option<seq<string>>, k: Value)
    requires IsIterable(values) && k in KeysOf(ArrayOf(values.pairs))
    requires SetMultipleOutcome(s, values, ttl, tags).0 == Ok(true)
    ensures ValidKey(k) && ExpiryAfter(ttl, s.clock).Ok?
    ensures var s' := SetMultipleOutcome(s, values, ttl, tags).1;
      && k.s in s'.entries
      && s'.entries[k.s] == Entry(At(ArrayOf(values.pairs), k), ExpiryAfter(ttl, s.clock).value, tags)
      && Fetch(s', k.s, Null) == At(ArrayOf(values.pairs), k)
  {
    var arr := ArrayOf(values.pairs);
    var ks := KeysOf(arr);
    ArrayOfKeys(values.pairs);
    assert FirstInvalid(ks).None?;
    var i :| 0 <= i < |ks| && ks[i] == k;
    assert ks != [];
    var expiry := ExpiryAfter(ttl, s.clock).value;
    var es := Staging(ks, arr, expiry, tags);
    assert StagingOutcome(s, ks, arr, ttl, tags) == CommitOutcome(StageAll(s, es).0, StageAll(s, es).1);
    forall a, b | 0 <= a < b < |es| ensures es[a].0 != es[b].0 {
      assert ks[a] != ks[b];
    }
    StageAllCommitReadBack(s, es, i);
  }

  /** `setMultiple` either commits, emptying the queue, or leaves the pool
      exactly as it was: a false result, like an error, queues nothing. */
  lemma SetMultipleQueue(s: PoolState, values: Value, ttl: Value, tags: Option<seq<string>>)
    ensures var (r, s') := SetMultipleOutcome(s, values, ttl, tags);
      && (r == Ok(true) ==> s'.staged == [])
      && (r != Ok(true) ==> s' == s)
  {
    if IsIterable(values) {
      var arr := ArrayOf(values.pairs);
      var ks := KeysOf(arr);
      if FirstInvalid(ks).None? && ExpiryAfter(ttl, s.clock).Ok? {
        var es := Staging(ks, arr, ExpiryAfter(ttl, s.clock).value, tags);
        StageAllRefused(s, es);
      }
    }
  }

  /** Entries that all share one expiry are either all deferred or none is:
      a failed staging leaves the pool as it was. */
  lemma StageAllRefused(s: PoolState, es: seq<(Key, Entry)>)
    requires forall a, b :: 0 <= a < b < |es| ==> es[a].1.expiry == es[b].1.expiry
    ensures !StageAll(s, es).1 ==> StageAll(s, es).0 == s
  {
    if !StageAll(s, es).1 {
      StageAllSucceedsIff(s, es);
      StageAllStagesPrefix(s, es);
      var i :| 0 <= i < |es| && !Live(es[i].1, s.clock);
      assert i == 0 || es[0].1.expiry == es[i].1.expiry;
      assert !Live(es[0].1, s.clock);
      assert FirstExpired(es, s.clock) == 0;
      assert s.staged + es[..0] == s.staged;
    }
  }

  /** With valid keys and a time to live that is null or positive, `setMultiple`
      reports success. */
  lemma SetMultipleSucceeds(s: PoolState, values: Value, ttl: Value, tags: Option<seq<string>>)
    requires IsIterable(values)
    requires FirstInvalid(KeysOf(ArrayOf(values.pairs))).None?
    requires ttl.Null? || (ttl.Int? && ttl.i > 0)
    ensures SetMultipleOutcome(s, values, ttl, tags).0 == Ok(true)
  {
    var arr := ArrayOf(values.pairs);
    var ks := KeysOf(arr);
    var expiry := ExpiryAfter(ttl, s.clock).value;
    var es := Staging(ks, arr, expiry, tags);
    StageAllSucceedsIff(s, es);
  }

  /** `setMultiple` writes no key that is not in the array. */
  lemma SetMultipleStoresOnly(s: PoolState, values: Value, ttl: Value, tags: Option<seq<string>>, k: Key)
    requires forall a :: 0 <= a < |s.staged| ==> s.staged[a].0 != k
    requires IsIterable(values) && Str(k) !in KeysOf(ArrayOf(values.pairs))
    ensures var s' := SetMultipleOutcome(s, values, ttl, tags).1;
      && (k in s'.entries <==> k in s.entries)
      && (k in s.entries ==> s'.entries[k] == s.entries[k])
      && Fetch(s', k, Null) == Fetch(s, k, Null)
  {
    var arr := ArrayOf(values.pairs);
    var ks := KeysOf(arr);
    var s' := SetMultipleOutcome(s, values, ttl, tags).1;
    SetMultipleQueue(s, values, ttl, tags);
    if FirstInvalid(ks).None? && ExpiryAfter(ttl, s.clock).Ok? {
      var es := Staging(ks, arr, ExpiryAfter(ttl, s.clock).value, tags);
      forall a | 0 <= a < |es| ensures es[a].0 != k {
        assert Str(es[a].0) == ks[a];
      }
      StageCommitUntouched(s, es, k);
    } else if SetMultipleOutcome(s, values, ttl, tags).0 == Ok(true) {
      assert s' == Committed(s).0 == WriteAll(s.(staged := []), s.staged);
      WriteAllUntouched(s.(staged := []), s.staged, k);
      WriteAllKeepsUntouched(s.(staged := []), s.staged, k, Null);
    } else {
      assert s' == s;
    }
  }

  /** Staging and committing entries none of which has the key `k`, over a
      queue that does not name `k` either, leaves `k` as it was. */
  lemma StageCommitUntouched(s: PoolState, es: seq<(Key, Entry)>, k: Key)
    requires forall a :: 0 <= a < |s.staged| ==> s.staged[a].0 != k
    requires forall a :: 0 <= a < |es| ==> es[a].0 != k
    ensures var s' := CommitOutcome(StageAll(s, es).0, StageAll(s, es).1).1;
      && (k in s'.entries <==> k in s.entries)
      && (k in s.entries ==> s'.entries[k] == s.entries[k])
      && Fetch(s', k, Null) == Fetch(s, k, Null)
  {
    var s1 := StageAll(s, es).0;
    StageAllStagesPrefix(s, es);
    if StageAll(s, es).1 {
      forall a | 0 <= a < |s1.staged| ensures s1.staged[a].0 != k {
        if a < |s.staged| {
          assert s1.staged[a] == s.staged[a];
        } else {
          assert s1.staged[a] == es[a - |s.staged|];
        }
      }
      WriteAllUntouched(s1.(staged := []), s1.staged, k);
      WriteAllKeepsUntouched(s1.(staged := []), s1.staged, k, Null);
    }
  }

  /** A `setMultiple` whose time to live has already run out reports false,
      queues nothing and writes nothing. */
  lemma SetMultipleExpired(s: PoolState, values: Value, ttl: int, tags: Option<seq<string>>)
    requires ttl <= 0
    requires IsIterable(values) && values.pairs != []
    requires FirstInvalid(KeysOf(ArrayOf(values.pairs))).None?
    ensures SetMultipleOutcome(s, values, Int(ttl), tags) == (Ok(false), s)
  {
    var arr := ArrayOf(values.pairs);
    var ks := KeysOf(arr);
    ArrayOfKeys(values.pairs);
    assert KeysOf(values.pairs)[0] in KeysOf(values.pairs);
    assert ks != [];
    var es := Staging(ks, arr, Some(s.clock + ttl), tags);
    StageAllStagesPrefix(s, es);
    assert FirstExpired(es, s.clock) == 0;
  }

  /** A time to live that is neither null nor an integer makes `setMultiple` raise
      the pool's error, before anything is staged or written, unless the array is empty. */
  lemma SetMultipleInvalidTtl(s: PoolState, values: Value, ttl: Value, tags: Option<seq<string>>)
    requires !ttl.Null? && !ttl.Int?
    requires IsIterable(values) && values.pairs != []
    requires FirstInvalid(KeysOf(ArrayOf(values.pairs))).None?
    ensures SetMultipleOutcome(s, values, ttl, tags) == (Err(Rethrow(ExpiryAfter(ttl, s.clock).error)), s)
  {
    ArrayOfKeys(values.pairs);
    assert KeysOf(values.pairs)[0] in KeysOf(values.pairs);
  }

  /** An invalid key anywhere in the array makes `setMultiple` raise before
      anything is staged or written. */
  lemma SetMultipleInvalidKey(s: PoolState, values: Value, ttl: Value, tags: Option<seq<string>>, i: nat)
    requires IsIterable(values)
    requires i < |values.pairs| && !ValidKey(values.pairs[i].0)
    ensures SetMultipleOutcome(s, values, ttl, tags).0.Err?
    ensures SetMultipleOutcome(s, values, ttl, tags).1 == s
  {
    var ks := KeysOf(ArrayOf(values.pairs));
    ArrayOfKeys(values.pairs);
    assert KeysOf(values.pairs)[i] == values.pairs[i].0;
    assert values.pairs[i].0 in ks;
    var j :| 0 <= j < |ks| && ks[j] == values.pairs[i].0;
    assert FirstInvalidIndex(ks) <= j;
  }
}
