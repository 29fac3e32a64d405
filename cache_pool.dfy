/** The PSR-6 item pool that the simple-cache facade delegates to.

    The facade's source only calls this collaborator; its code is not part
    of the model. What is written here is the behaviour the facade ASSUMES of
    it, as a small in-memory pool with an integer clock:

    - a key is a non-empty string without any of the characters {}()/\@:
      (section 1.2 of PSR-16); any other key raises the pool's
      invalid-argument error;
    - an entry whose expiry instant is not after the clock reads as a miss;
    - `saveDeferred` refuses an item that is already expired;
    - `commit` writes the staged entries in staging order and empties the queue;
    - the tag index is derived from the entries, in insertion order, with
      every key carrying the adapter's key prefix;
    - `clean` removes every entry carrying any of the given tags and returns
      true iff it removed one.
 */
module CachePool {
  import opened PhpValues

  /** Psr\Cache\InvalidArgumentException, with its message. */
  datatype PoolError = InvalidArgument(message: string)

  const ReservedChars: set<char> := {'{', '}', '(', ')', '/', '\\', '@', ':'}

  predicate ValidKeyString(s: string)
  {
    |s| > 0 && forall i :: 0 <= i < |s| ==> s[i] !in ReservedChars
  }

  /** A key the pool accepts. */
  type Key = s: string | ValidKeyString(s) witness "key"

  predicate ValidKey(v: Value)
  {
    v.Str? && ValidKeyString(v.s)
  }

  /** The error the pool raises for a key it rejects. The pool's code is not
      part of this model, so the messages are placeholders: the facade only
      passes on whatever message it gets, and nothing here depends on the wording. */
  function KeyError(v: Value): PoolError
  {
    if !v.Str? then InvalidArgument("Expected a string key, got `" + TypeName(v) + "`.")
    else if v.s == "" then InvalidArgument("A key must not be empty.")
    else InvalidArgument("The key `" + v.s + "` contains a reserved character.")
  }

  /** The position of the first key of `ks` that the pool rejects, or |ks|. */
  function FirstInvalidIndex(ks: seq<Value>): (i: nat)
    ensures i <= |ks|
    ensures forall j :: 0 <= j < i ==> ValidKey(ks[j])
    ensures i < |ks| ==> !ValidKey(ks[i])
  {
    if ks == [] || !ValidKey(ks[0]) then 0 else 1 + FirstInvalidIndex(ks[1..])
  }

  /** The first key of `ks` that the pool rejects, if any. */
  function FirstInvalid(ks: seq<Value>): Option<Value>
  {
    var i := FirstInvalidIndex(ks);
    if i < |ks| then Some(ks[i]) else None
  }

  /** The keys of `ks`, all of which the pool accepts. */
  function KeySet(ks: seq<Value>): (r: set<Key>)
    requires forall i :: 0 <= i < |ks| ==> ValidKey(ks[i])
    ensures forall k: Key :: k in r <==> Str(k) in ks
  {
    if ks == [] then {}
    else
      assert ValidKey(ks[0]);
      var k: Key := ks[0].s;
      assert forall v :: v in ks <==> v == ks[0] || v in ks[1..];
      {k} + KeySet(ks[1..])
  }

  /** A stored value with its expiry instant and the tags it was saved with. */
  datatype Entry = Entry(value: Value, expiry: Option<int>, tags: Option<seq<string>>)

  predicate Live(e: Entry, now: int)
  {
    e.expiry.None? || now < e.expiry.value
  }

  predicate Tagged(e: Entry, tag: string)
  {
    e.tags.Some? && tag in e.tags.value
  }

  predicate TaggedAny(e: Entry, tags: seq<string>)
  {
    exists t :: t in tags && Tagged(e, t)
  }

  /** The expiry instant `expiresAfter($ttl)` gives at time `now`: no expiry for
      null, `now + ttl` for an integer, an invalid-argument error otherwise
      (its message is a placeholder, like those of `KeyError`). */
  function ExpiryAfter(ttl: Value, now: int): Result<Option<int>, PoolError>
  {
    match ttl
    case Null => Ok(None)
    case Int(seconds) => Ok(Some(now + seconds))
    case _ => Err(InvalidArgument("Invalid expiration time, got `" + TypeName(ttl) + "`."))
  }

  /** The whole observable state of the pool: the stored entries, the order in
      which their keys were first stored, the clock and the staged writes. */
  datatype PoolState = PoolState(
    entries: map<Key, Entry>,
    order: seq<Key>,
    clock: int,
    staged: seq<(Key, Entry)>)

  ghost predicate WellFormed(s: PoolState)
  {
    Distinct(s.order) && forall k :: k in s.order <==> k in s.entries
  }

  predicate Hit(s: PoolState, k: Key)
  {
    k in s.entries && Live(s.entries[k], s.clock)
  }

  /** What reading `k` yields: the stored value on a hit, `default` otherwise. */
  function Fetch(s: PoolState, k: Key, default: Value): Value
  {
    if Hit(s, k) then s.entries[k].value else default
  }

  function Write(s: PoolState, k: Key, e: Entry): PoolState
  {
    s.(entries := s.entries[k := e],
       order := if k in s.entries then s.order else s.order + [k])
  }

  /** Writes `es` one after another. */
  function WriteAll(s: PoolState, es: seq<(Key, Entry)>): PoolState
    decreases |es|
  {
    if es == [] then s else WriteAll(Write(s, es[0].0, es[0].1), es[1..])
  }

  /** The elements of `order` that are in `keep`, in their order. */
  function KeepKeys(order: seq<Key>, keep: set<Key>): (r: seq<Key>)
    ensures forall k :: k in r <==> k in order && k in keep
    ensures Distinct(order) ==> Distinct(r)
  {
    if order == [] then []
    else
      var rest := KeepKeys(order[1..], keep);
      assert forall k :: k in order <==> k == order[0] || k in order[1..];
      if order[0] in keep then [order[0]] + rest else rest
  }

  /** The state after removing every key in `doomed`. */
  function Without(s: PoolState, doomed: set<Key>): PoolState
  {
    s.(entries := s.entries - doomed, order := KeepKeys(s.order, s.entries.Keys - doomed))
  }

  /** `clear`: removes every stored entry; the clock and the deferred queue are kept. */
  function Emptied(s: PoolState): PoolState
  {
    s.(entries := map[], order := [])
  }

  /** `saveDeferred`: stages a live entry and reports whether it did. */
  function Deferred(s: PoolState, k: Key, e: Entry): (PoolState, bool)
  {
    if Live(e, s.clock) then (s.(staged := s.staged + [(k, e)]), true) else (s, false)
  }

  /** `commit`: writes the staged entries in staging order. */
  function Committed(s: PoolState): (PoolState, bool)
  {
    (WriteAll(s.(staged := []), s.staged), true)
  }

  /** The stored keys that carry `tag`, in insertion order. */
  function TaggedKeys(s: PoolState, tag: string): seq<Key>
  {
    KeepKeys(s.order, set k | k in s.entries && Tagged(s.entries[k], tag))
  }

  /** The prefix the adapter puts in front of every key it stores. */
  const KeyPrefix: string := "apix-cache-key:"

  /** The adapter's `removePrefixKey`. */
  function RemovePrefixKey(key: string): (r: string)
    ensures key == KeyPrefix + r || r == key
  {
    if |KeyPrefix| <= |key| && key[..|KeyPrefix|] == KeyPrefix then key[|KeyPrefix|..] else key
  }

  /** The adapter's `loadTag`: the prefixed keys that carry `tag`, or null when
      there are none. */
  function TagIndex(s: PoolState, tag: string): Option<seq<string>>
  {
    var ks := TaggedKeys(s, tag);
    if ks == [] then None else Some(seq(|ks|, i requires 0 <= i < |ks| => KeyPrefix + ks[i]))
  }

  /** The adapter's `clean`: removes every entry carrying one of `tags` and
      reports whether there was one. */
  function Cleaned(s: PoolState, tags: seq<string>): (PoolState, bool)
  {
    var doomed := set k | k in s.entries && TaggedAny(s.entries[k], tags);
    (Without(s, doomed), doomed != {})
  }

  /** A PSR-6 cache item: the key it was fetched for, whether it was a hit,
      and the value, expiry and tags that a save will store. */
  class Item {
    const key: Key
    var value: Value
    var hit: bool
    var expiry: Option<int>
    var tags: Option<seq<string>>

    constructor (key: Key, value: Value, hit: bool)
      ensures this.key == key && this.value == value && this.hit == hit
      ensures expiry == None && tags == None
    {
      this.key := key;
      this.value := value;
      this.hit := hit;
      expiry := None;
      tags := None;
    }

    function IsHit(): bool
      reads this
    {
      hit
    }

    function Get(): Value
      reads this
    {
      value
    }

    /** The entry a save of this item stores. */
    function ToEntry(): Entry
      reads this
    {
      Entry(value, expiry, tags)
    }

    method Set(v: Value)
      modifies this
      ensures value == v && hit == old(hit) && expiry == old(expiry) && tags == old(tags)
    {
      value := v;
    }

    method ExpiresAfter(ttl: Value, now: int) returns (r: Outcome<PoolError>)
      modifies this
      ensures value == old(value) && hit == old(hit) && tags == old(tags)
      ensures ExpiryAfter(ttl, now).Err? ==> r == Fail(ExpiryAfter(ttl, now).error) && expiry == old(expiry)
      ensures ExpiryAfter(ttl, now).Ok? ==> r == Pass && expiry == ExpiryAfter(ttl, now).value
    {
      match ExpiryAfter(ttl, now)
      case Err(e) => r := Fail(e);
      case Ok(x) => expiry := x; r := Pass;
    }

    method SetTags(ts: Option<seq<string>>)
      modifies this
      ensures tags == ts && value == old(value) && hit == old(hit) && expiry == old(expiry)
    {
      tags := ts;
    }
  }

  /** The item pool together with its adapter's tag operations. */
  class ItemPool {
    var entries: map<Key, Entry>
    var order: seq<Key>
    var clock: int
    var staged: seq<(Key, Entry)>

    function State(): PoolState
      reads this
    {
      PoolState(entries, order, clock, staged)
    }

    ghost predicate Valid()
      reads this
    {
      WellFormed(State())
    }

    constructor (now: int)
      ensures Valid() && State() == PoolState(map[], [], now, [])
    {
      entries := map[];
      order := [];
      clock := now;
      staged := [];
    }

    /** Time passes. */
    method Tick(seconds: nat)
      requires Valid()
      modifies this
      ensures Valid() && State() == old(State()).(clock := old(clock) + seconds)
    {
      clock := clock + seconds;
    }

    method GetItem(key: Value) returns (r: Result<Item, PoolError>)
      ensures !ValidKey(key) ==> r == Err(KeyError(key))
      ensures ValidKey(key) ==>
        && r.Ok? && fresh(r.value) && r.value.key == key.s
        && r.value.hit == Hit(State(), key.s)
        && r.value.value == Fetch(State(), key.s, Null)
        && r.value.expiry == None && r.value.tags == None
    {
      if !ValidKey(key) {
        return Err(KeyError(key));
      }
      var k: Key := key.s;
      var item := new Item(k, Fetch(State(), k, Null), Hit(State(), k));
      r := Ok(item);
    }

    /** One fresh item per distinct key, in first-occurrence order. */
    method GetItems(keys: seq<Value>) returns (r: Result<seq<Item>, PoolError>)
      ensures FirstInvalid(keys).Some? ==> r == Err(KeyError(FirstInvalid(keys).value))
      ensures FirstInvalid(keys).None? ==>
        && r.Ok? && |r.value| == |Dedup(keys)|
        && (forall i :: 0 <= i < |r.value| ==> fresh(r.value[i]))
        && (forall i :: 0 <= i < |r.value| ==> Str(r.value[i].key) == Dedup(keys)[i])
        && (forall i :: 0 <= i < |r.value| ==> r.value[i].tags == None)
        && (forall i, j :: 0 <= i < j < |r.value| ==> r.value[i] != r.value[j])
    {
      var bad := FirstInvalid(keys);
      if bad.Some? {
        return Err(KeyError(bad.value));
      }
      var ks := Dedup(keys);
      var items: seq<Item> := [];
      while |items| < |ks|
        invariant |items| <= |ks|
        invariant forall i :: 0 <= i < |items| ==> fresh(items[i])
        invariant forall i :: 0 <= i < |items| ==> Str(items[i].key) == ks[i]
        invariant forall i :: 0 <= i < |items| ==> items[i].tags == None
        invariant forall i, j :: 0 <= i < j < |items| ==> items[i] != items[j]
      {
        var v := ks[|items|];
        assert v in keys;
        var k: Key := v.s;
        var item := new Item(k, Fetch(State(), k, Null), Hit(State(), k));
        items := items + [item];
      }
      r := Ok(items);
    }

    method HasItem(key: Value) returns (r: Result<bool, PoolError>)
      ensures !ValidKey(key) ==> r == Err(KeyError(key))
      ensures ValidKey(key) ==> r == Ok(Hit(State(), key.s))
    {
      if !ValidKey(key) {
        return Err(KeyError(key));
      }
      r := Ok(Hit(State(), key.s));
    }

    method Save(item: Item) returns (ok: bool)
      requires Valid()
      modifies this
      ensures Valid()
      ensures ok && State() == Write(old(State()), item.key, item.ToEntry())
    {
      entries, order := entries[item.key := item.ToEntry()],
        if item.key in entries then order else order + [item.key];
      ok := true;
    }

    method SaveDeferred(item: Item) returns (ok: bool)
      requires Valid()
      modifies this
      ensures Valid()
      ensures (State(), ok) == Deferred(old(State()), item.key, item.ToEntry())
    {
      ok := Live(item.ToEntry(), clock);
      if ok {
        staged := staged + [(item.key, item.ToEntry())];
      }
    }

    method Commit() returns (ok: bool)
      requires Valid()
      modifies this
      ensures Valid()
      ensures (State(), ok) == Committed(old(State()))
    {
      var s := WriteAll(State().(staged := []), staged);
      WriteAllWellFormed(State().(staged := []), staged);
      WriteAllClock(State().(staged := []), staged);
      entries, order, staged := s.entries, s.order, s.staged;
      ok := true;
    }

    method DeleteItem(key: Value) returns (r: Result<bool, PoolError>)
      requires Valid()
      modifies this
      ensures Valid()
      ensures !ValidKey(key) ==> r == Err(KeyError(key)) && State() == old(State())
      ensures ValidKey(key) ==> r == Ok(true) && State() == Without(old(State()), {key.s})
    {
      if !ValidKey(key) {
        return Err(KeyError(key));
      }
      var k: Key := key.s;
      entries, order := entries - {k}, KeepKeys(order, entries.Keys - {k});
      r := Ok(true);
    }

    method DeleteItems(keys: seq<Value>) returns (r: Result<bool, PoolError>)
      requires Valid()
      modifies this
      ensures Valid()
      ensures FirstInvalid(keys).Some? ==>
        r == Err(KeyError(FirstInvalid(keys).value)) && State() == old(State())
      ensures FirstInvalid(keys).None? ==>
        r == Ok(true) && State() == Without(old(State()), KeySet(keys))
    {
      var bad := FirstInvalid(keys);
      if bad.Some? {
        return Err(KeyError(bad.value));
      }
      var doomed := KeySet(keys);
      entries, order := entries - doomed, KeepKeys(order, entries.Keys - doomed);
      r := Ok(true);
    }

    method Clear() returns (ok: bool)
      requires Valid()
      modifies this
      ensures Valid()
      ensures ok && State() == Emptied(old(State()))
    {
      entries, order := map[], [];
      ok := true;
    }

    method LoadTag(tag: string) returns (keys: Option<seq<string>>)
      ensures keys == TagIndex(State(), tag)
    {
      keys := TagIndex(State(), tag);
    }

    method Clean(tags: seq<string>) returns (ok: bool)
      requires Valid()
      modifies this
      ensures Valid()
      ensures (State(), ok) == Cleaned(old(State()), tags)
    {
      var s: PoolState;
      s, ok := Cleaned(State(), tags).0, Cleaned(State(), tags).1;
      entries, order := s.entries, s.order;
    }
  }

  // ---------------------------------------------------------------------
  // Properties of the assumed pool

  lemma {:induction false} WriteAllWellFormed(s: PoolState, es: seq<(Key, Entry)>)
    requires WellFormed(s)
    ensures WellFormed(WriteAll(s, es))
    decreases |es|
  {
    if es != [] {
      WriteAllWellFormed(Write(s, es[0].0, es[0].1), es[1..]);
    }
  }

  /** Writing leaves the clock and the staged queue alone. */
  lemma {:induction false} WriteAllClock(s: PoolState, es: seq<(Key, Entry)>)
    ensures WriteAll(s, es).clock == s.clock && WriteAll(s, es).staged == s.staged
    decreases |es|
  {
    if es != [] {
      WriteAllClock(Write(s, es[0].0, es[0].1), es[1..]);
    }
  }

  /** A write is read back exactly when its entry is live; other keys read as before. */
  lemma WriteThenFetch(s: PoolState, k: Key, e: Entry, k': Key, default: Value)
    ensures Fetch(Write(s, k, e), k', default) ==
      if k' == k then (if Live(e, s.clock) then e.value else default) else Fetch(s, k', default)
  {
  }

  /** An entry written with a non-positive time to live never reads as a hit. */
  lemma ExpiredWriteMisses(s: PoolState, k: Key, v: Value, ttl: int, tags: Option<seq<string>>)
    requires ttl <= 0
    ensures !Hit(Write(s, k, Entry(v, ExpiryAfter(Int(ttl), s.clock).value, tags)), k)
  {
  }

  /** After writing entries, the last entry written for a key is what is stored. */
  lemma {:induction false} WriteAllLastWins(s: PoolState, es: seq<(Key, Entry)>, i: nat)
    requires i < |es|
    requires forall b :: i < b < |es| ==> es[b].0 != es[i].0
    ensures es[i].0 in WriteAll(s, es).entries
    ensures WriteAll(s, es).entries[es[i].0] == es[i].1
    decreases |es|
  {
    var s1 := Write(s, es[0].0, es[0].1);
    if i == 0 {
      WriteAllUntouched(s1, es[1..], es[0].0);
    } else {
      WriteAllLastWins(s1, es[1..], i - 1);
    }
  }

  /** Writing entries for other keys leaves a key's entry, or its absence, as it was. */
  lemma {:induction false} WriteAllUntouched(s: PoolState, es: seq<(Key, Entry)>, k: Key)
    requires forall a :: 0 <= a < |es| ==> es[a].0 != k
    ensures k in WriteAll(s, es).entries <==> k in s.entries
    ensures k in s.entries ==> WriteAll(s, es).entries[k] == s.entries[k]
    decreases |es|
  {
    if es != [] {
      WriteAllUntouched(Write(s, es[0].0, es[0].1), es[1..], k);
    }
  }

  /** Writing entries for other keys leaves a key's reading unchanged. */
  lemma WriteAllKeepsUntouched(s: PoolState, es: seq<(Key, Entry)>, k: Key, default: Value)
    requires forall a :: 0 <= a < |es| ==> es[a].0 != k
    ensures Fetch(WriteAll(s, es), k, default) == Fetch(s, k, default)
  {
    WriteAllUntouched(s, es, k);
    WriteAllClock(s, es);
  }

  /** Removing keys keeps the state well formed, makes them misses and keeps the rest. */
  lemma WithoutEffect(s: PoolState, doomed: set<Key>, k: Key, default: Value)
    requires WellFormed(s)
    ensures WellFormed(Without(s, doomed))
    ensures k in doomed ==> !Hit(Without(s, doomed), k)
    ensures k !in doomed ==> Fetch(Without(s, doomed), k, default) == Fetch(s, k, default)
  {
  }

  /** `clean` reports true exactly when some entry carries one of the tags; afterwards
      no entry carries one, and every other entry is still there. */
  lemma CleanedEffect(s: PoolState, tags: seq<string>)
    ensures Cleaned(s, tags).1 <==> exists k :: k in s.entries && TaggedAny(s.entries[k], tags)
    ensures forall k :: k in Cleaned(s, tags).0.entries ==> !TaggedAny(Cleaned(s, tags).0.entries[k], tags)
    ensures forall k :: k in s.entries && !TaggedAny(s.entries[k], tags) ==>
      k in Cleaned(s, tags).0.entries && Cleaned(s, tags).0.entries[k] == s.entries[k]
  {
    var doomed := set k | k in s.entries && TaggedAny(s.entries[k], tags);
    if exists k :: k in s.entries && TaggedAny(s.entries[k], tags) {
      var k :| k in s.entries && TaggedAny(s.entries[k], tags);
      assert k in doomed;
    }
    if doomed != {} {
      var k :| k in doomed;
      assert k in s.entries && TaggedAny(s.entries[k], tags);
    }
  }

  /** The tag index lists exactly the stored keys carrying the tag, each once,
      and is null exactly when no stored entry carries it. */
  lemma TagIndexContents(s: PoolState, tag: string)
    requires WellFormed(s)
    ensures Distinct(TaggedKeys(s, tag))
    ensures forall k :: k in TaggedKeys(s, tag) <==> k in s.entries && Tagged(s.entries[k], tag)
    ensures TagIndex(s, tag).None? <==> forall k :: k in s.entries ==> !Tagged(s.entries[k], tag)
  {
    var ks := TaggedKeys(s, tag);
    if ks == [] {
      forall k | k in s.entries ensures !Tagged(s.entries[k], tag) {
        assert k in s.order;
      }
    } else {
      assert ks[0] in ks;
    }
  }

  /** Stripping the prefix from a key the adapter stored gives back the key. */
  lemma RemovePrefixKeyInverse(k: string)
    ensures RemovePrefixKey(KeyPrefix + k) == k
  {
    assert (KeyPrefix + k)[..|KeyPrefix|] == KeyPrefix;
  }
}
