# apix/simple-cache in Dafny

A model of the PSR-16 "simple cache" facade of apix/simple-cache, with proofs about it.

The facade is a thin layer over a PSR-6 item pool. Each simple-cache call becomes item-pool calls:

- `get`/`has` ask for one item.
- `set` fetches an item, sets its value, time to live and (for the taggable pool) tags, then saves it.
- `setMultiple` fetches all items, defers each save while every deferral so far succeeded, then commits if every deferral succeeded.
- `delete`, `deleteMultiple` and `clear` pass straight through.
- The taggable pool adds its current tags to every written item. It also offers `getMultipleByTag` and `clearByTags`.

Every invalid-argument error of the item pool is re-raised as the facade's own `InvalidArgumentException`, with the same message.

Files:

- `php_values.dfy` (module `PhpValues`): PHP's "mixed" values, including arrays, `\Traversable` objects and other objects. It also covers ordered PHP arrays: `$a[$k] = $v` keeps a key's first position, and `$a[$k]` reads null for an absent key.
- `cache_pool.dfy` (module `CachePool`): the item pool the facade delegates to. Its code is not part of the repository, so this module states the behaviour the facade relies on as an explicit in-memory pool:
  - Keys follow section 1.2 of PSR-16: a non-empty string without any of `{}()/\@:`.
  - The pool has an integer clock. An entry whose expiry instant is not after the clock reads as a miss.
  - `saveDeferred` refuses an item that is already expired.
  - `commit` writes the queued entries in order.
  - The tag index is derived from the stored entries, and every key in it carries the adapter's prefix `apix-cache-key:`.
  - `clean` removes every entry carrying one of the tags and reports whether it removed any.
  - `clear` removes every stored entry but keeps the queue of deferred saves.
  - `save`, `commit`, `deleteItem`, `deleteItems` and `clear` always succeed and return true. The facade passes their results on unchanged, so a false result from them never occurs in the model.

  The class `ItemPool` holds the state that its methods update. The functions `Write`, `Without`, `Deferred`, `Committed` and `Cleaned` specify it.
- `simple_cache.dfy` (module `SimpleCache`): the facade. One class, `Pool`, stands for both `Pool` and its subclass `TaggablePool`.
  - The constant `taggable` says which of the two it is. The subclass only overrides `setItemProperties` and the constructor (whose adapter configuration is left out below) and adds members, and those members require `taggable`.
  - Each state-changing method states its new store state through one of the specification functions. `SetMultipleOutcome` gives the whole result and state of `setMultiple`. The lemmas state what those functions mean.
- `scenarios.dfy` (module `Scenarios`): the repository's test cases replayed against the model. Each method builds a fresh pool with its clock at 0, makes the test's calls, and its postcondition is what the test asserts.

Two behaviours of the code are worth noting:

- `getMultipleByTag` does not filter to live entries. It does a plain `get` for every key the tag index lists, so a tagged entry that has expired but is still in the index appears in the result with a null value. `SimpleCache.Pool.GetMultipleByTag` states this.
- `setMultiple` only validates the time to live through the items it prepares. So `setMultiple([], 'bad-ttl')` returns the result of `commit()` (true) and does not raise. `SimpleCache.StagingOutcome` states this.

## Model

| member | source | states |
|---|---|---|
| PhpValues.TypeName | src/PsrSimpleCache/Pool.php:143-146 | `gettype`: "array" exactly for arrays, "object" exactly for objects (`\Traversable` or not), "NULL" exactly for null |
| PhpValues.KeysOf | src/PsrSimpleCache/Pool.php:149 | `array_keys` lists one key per element of the array |
| PhpValues.At | src/PsrSimpleCache/Pool.php:160 | `$values[$key]` is null for a key the array does not hold, and otherwise a value the array pairs with that key |
| PhpValues.ArrayOf | src/PsrSimpleCache/Pool.php:149 | the built array has no more elements than there were assignments |
| PhpValues.ArrayOfPairs | src/PsrSimpleCache/Pool.php:149 | every pair of the built array is one of the assigned pairs |
| PhpValues.Put | src/PsrSimpleCache/Pool.php:64 | `$items[$key] = v`: a present key keeps its place and takes the new value; a new key is appended; nothing else is added |
| PhpValues.PutNew | src/PsrSimpleCache/Pool.php:64 | assigning to an absent key appends exactly that pair |
| PhpValues.AtPut | src/PsrSimpleCache/Pool.php:160 | reading a key after an assignment yields the assigned value for that key and the old reading for every other key |
| PhpValues.Dedup | src/PsrSimpleCache/Pool.php:63-64 | the distinct keys in first-occurrence order: distinct, the same members, no longer than the input |
| PhpValues.DedupOfDistinct | src/PsrSimpleCache/Pool.php:63-64 | keys that are already distinct are kept as they are |
| PhpValues.DedupSnoc | src/PsrSimpleCache/Pool.php:63-64 | one more requested key is added at the end of the result's keys unless it is already among them |
| PhpValues.ArrayOfKeys | src/PsrSimpleCache/Pool.php:149 | the keys of a built array are the distinct assigned keys, in first-assignment order |
| PhpValues.AtArrayOfLast | src/PsrSimpleCache/Pool.php:160 | reading a built array gives the last assignment when it was to the key read, and otherwise what the array built before it gives |
| PhpValues.ArrayOfLastWins | src/PsrSimpleCache/Pool.php:160 | a built array maps each key to the value assigned to it last |
| PhpValues.ArrayOfDistinct | src/PsrSimpleCache/Pool.php:149 | an array literal with distinct keys is exactly its pairs |
| CachePool.FirstInvalidIndex | src/PsrSimpleCache/Pool.php:151-155 | the position of the first key the pool rejects: every earlier key is valid, the one there is not |
| CachePool.KeySet | src/PsrSimpleCache/Pool.php:100 | the set of keys `deleteItems` removes is exactly the keys listed |
| CachePool.KeepKeys | src/PsrSimpleCache/Pool.php:100 | removing keys from the insertion order keeps exactly the surviving keys, still distinct |
| CachePool.RemovePrefixKey | src/PsrSimpleCache/TaggablePool.php:75 | the result is the key with the adapter prefix removed, or the key itself |
| CachePool.RemovePrefixKeyInverse | src/PsrSimpleCache/TaggablePool.php:75 | stripping the prefix from a key the adapter stored gives back the key |
| CachePool.Item.Set | src/PsrSimpleCache/Pool.php:184 | the item's value is replaced and nothing else changes |
| CachePool.Item.ExpiresAfter | src/PsrSimpleCache/Pool.php:185 | null means no expiry, an integer n means expiry at clock + n, anything else raises and changes nothing |
| CachePool.Item.SetTags | src/PsrSimpleCache/TaggablePool.php:60 | the item's tags are replaced and nothing else changes |
| CachePool.ItemPool.GetItem | src/PsrSimpleCache/Pool.php:47 | an invalid key raises the key error; otherwise a fresh item reporting hit or miss and the stored value |
| CachePool.ItemPool.GetItems | src/PsrSimpleCache/Pool.php:152 | the first invalid key raises; otherwise one fresh, untagged item per distinct key, in order |
| CachePool.ItemPool.HasItem | src/PsrSimpleCache/Pool.php:76 | an invalid key raises; otherwise whether the key holds a live entry |
| CachePool.ItemPool.Save | src/PsrSimpleCache/Pool.php:134 | writes the item's entry and returns true |
| CachePool.ItemPool.SaveDeferred | src/PsrSimpleCache/Pool.php:165-166 | queues a live item and returns true; refuses an expired one and changes nothing |
| CachePool.ItemPool.Commit | src/PsrSimpleCache/Pool.php:169 | writes the queued entries in order, empties the queue and returns true |
| CachePool.ItemPool.DeleteItem | src/PsrSimpleCache/Pool.php:114 | an invalid key raises and changes nothing; otherwise the key is removed and the result is true |
| CachePool.ItemPool.DeleteItems | src/PsrSimpleCache/Pool.php:100 | the first invalid key raises and changes nothing; otherwise all listed keys are removed |
| CachePool.ItemPool.Clear | src/PsrSimpleCache/Pool.php:89 | every entry is removed and the result is true |
| CachePool.ItemPool.LoadTag | src/PsrSimpleCache/TaggablePool.php:71 | returns the prefixed keys carrying the tag, or null when there are none |
| CachePool.ItemPool.Clean | src/PsrSimpleCache/TaggablePool.php:91 | removes the entries carrying any of the tags and reports whether there were any |
| CachePool.WriteAllWellFormed | src/PsrSimpleCache/Pool.php:169 | committing keeps the insertion order consistent with the stored keys |
| CachePool.WriteAllClock | src/PsrSimpleCache/Pool.php:169 | committing does not move the clock |
| CachePool.WriteAllLastWins | src/PsrSimpleCache/Pool.php:169 | after a commit each key holds the entry queued for it last |
| CachePool.WriteAllUntouched | src/PsrSimpleCache/Pool.php:169 | a commit leaves a key not in the queue as it was, present or absent |
| CachePool.WriteAllKeepsUntouched | src/PsrSimpleCache/Pool.php:169 | a commit leaves the reading of a key not in the queue unchanged |
| CachePool.WriteThenFetch | src/PsrSimpleCache/Pool.php:125-135 | after a save the key reads back the saved value exactly when the entry is live; other keys read as before |
| CachePool.ExpiredWriteMisses | tests/PsrSimpleCache/PoolTest.php:74-80 | an entry saved with a non-positive time to live never reads as a hit |
| CachePool.WithoutEffect | src/PsrSimpleCache/Pool.php:95-120 | deleting keys keeps the pool consistent, makes them misses and leaves every other reading unchanged |
| CachePool.CleanedEffect | src/PsrSimpleCache/TaggablePool.php:89-92 | `clean` is true iff some entry carries one of the tags; afterwards none does, and untagged entries are kept |
| CachePool.TagIndexContents | src/PsrSimpleCache/TaggablePool.php:71-73 | the tag index lists exactly the stored keys carrying the tag, each once, and is null iff no entry carries it |
| SimpleCache.Rethrow | src/PsrSimpleCache/Pool.php:204-209 | the facade's error carries the pool error's message |
| SimpleCache.NormalizedKeys | src/PsrSimpleCache/Pool.php:188-202 | an array or `\Traversable` yields its values in order; anything else raises "Expected an array or a \Traversable" |
| SimpleCache.NotIterableError | src/PsrSimpleCache/Pool.php:143-146 | the message names the `gettype` of the refused argument: "Expected an array or a \Traversable, got `<type>`." |
| SimpleCache.SetMultipleOutcome | src/PsrSimpleCache/Pool.php:140-170 | a non-iterable argument raises the not-iterable error; any error leaves the pool as it was; the clock never moves |
| SimpleCache.StagingOutcome | src/PsrSimpleCache/Pool.php:157-169 | an empty array commits whatever the time to live; it raises exactly when the array is non-empty and the time to live is invalid, and then changes nothing |
| SimpleCache.StageAll | src/PsrSimpleCache/Pool.php:165-166 | deferring only queues: the stored entries, their order and the clock are unchanged |
| SimpleCache.CommitOutcome | src/PsrSimpleCache/Pool.php:169 | the result is `$success && commit()`; without success nothing is committed or changed; after a commit the queue is empty and the clock unchanged |
| SimpleCache.Pool.WrittenTags | src/PsrSimpleCache/TaggablePool.php:58-60 | a taggable pool writes its current tags; a plain pool writes none |
| SimpleCache.Staging | src/PsrSimpleCache/Pool.php:158-160 | the entry prepared for each key holds the array's value for that key, the expiry and the tags |
| SimpleCache.Pool.constructor | src/PsrSimpleCache/Pool.php:36-39 | a plain pool over the given item pool, without tags |
| SimpleCache.Pool.Taggable | src/PsrSimpleCache/TaggablePool.php:29-41 | a taggable pool over the given item pool, its tags null |
| SimpleCache.Pool.SetItemProperties | src/PsrSimpleCache/Pool.php:181-186 | sets value and expiry (plus the current tags in a taggable pool); an invalid time to live raises |
| SimpleCache.Pool.Get | src/PsrSimpleCache/Pool.php:44-53 | an invalid key raises the re-thrown key error; otherwise the stored value on a hit, the default unchanged on a miss |
| SimpleCache.Pool.GetMultiple | src/PsrSimpleCache/Pool.php:58-68 | a non-iterable argument raises; the first invalid key raises its error; otherwise the distinct keys in request order, each mapped to what `get` returns |
| SimpleCache.Pool.Has | src/PsrSimpleCache/Pool.php:73-82 | an invalid key raises; otherwise whether the key holds a live entry |
| SimpleCache.Pool.Clear | src/PsrSimpleCache/Pool.php:87-90 | every entry is removed, true is returned, the tags are unchanged |
| SimpleCache.Pool.DeleteMultiple | src/PsrSimpleCache/Pool.php:95-106 | a non-iterable argument or an invalid key raises and changes nothing; otherwise every listed key is removed and true is returned |
| SimpleCache.Pool.Delete | src/PsrSimpleCache/Pool.php:111-120 | an invalid key raises and changes nothing; otherwise the key is removed, present or not, and true is returned |
| SimpleCache.Pool.Set | src/PsrSimpleCache/Pool.php:125-135 | an invalid key or time to live raises and changes nothing; otherwise the entry with the value, expiry and written tags is saved and true is returned |
| SimpleCache.Pool.SetMultiple | src/PsrSimpleCache/Pool.php:140-170 | result and new state are exactly `SetMultipleOutcome`: the container guard, key validation, the deferral loop and the short-circuiting commit |
| SimpleCache.Pool.CommitStaged | src/PsrSimpleCache/Pool.php:169 | commits only when every deferral succeeded, with result and state exactly `CommitOutcome` |
| SimpleCache.Pool.StageItems | src/PsrSimpleCache/Pool.php:157-167 | the loop raises at the first item for an invalid time to live; otherwise it stages exactly as `StageAll` and reports whether every deferral succeeded |
| SimpleCache.Pool.StageItem | src/PsrSimpleCache/Pool.php:159-166 | one pass: an invalid time to live raises and changes nothing; otherwise the prepared entry is deferred if every deferral so far succeeded, and the store is untouched once one has failed |
| SimpleCache.StagedUpToStep | src/PsrSimpleCache/Pool.php:165-166 | each pass keeps the loop's progress consistent with staging all entries at once |
| SimpleCache.Readings | src/PsrSimpleCache/TaggablePool.php:74-80 | the array of readings of distinct keys has exactly those keys, in order |
| SimpleCache.ReadingsStep | src/PsrSimpleCache/TaggablePool.php:74-77 | assigning the next listed key its reading extends the readings by exactly that pair, since the index lists each key once |
| SimpleCache.ReadingsRead | src/PsrSimpleCache/TaggablePool.php:74-80 | every pair of the readings is a valid key with the value a read of that key gives |
| SimpleCache.Pool.GetMultipleByTag | src/PsrSimpleCache/TaggablePool.php:69-81 | the result is exactly the readings of the tag index's keys without their prefix, in index order, each mapped to what `get` with a null default returns |
| SimpleCache.Pool.ClearByTags | src/PsrSimpleCache/TaggablePool.php:89-92 | the state and result are those of the pool's `clean` |
| SimpleCache.Pool.SetTags | src/PsrSimpleCache/TaggablePool.php:100-105 | the tags become the argument and the pool itself is returned |
| SimpleCache.Pool.GetTags | src/PsrSimpleCache/TaggablePool.php:112-115 | returns the current tags |
| SimpleCache.StageAllStep | src/PsrSimpleCache/Pool.php:165-166 | one deferral step of the loop, taken from any position |
| SimpleCache.StageAllSucceedsIff | src/PsrSimpleCache/Pool.php:165-166 | the folded `$success` is true iff every prepared entry is live; the clock is unchanged |
| SimpleCache.FirstExpired | src/PsrSimpleCache/Pool.php:165-166 | the position of the first entry that is not live: every earlier one is live |
| SimpleCache.StageAllStagesPrefix | src/PsrSimpleCache/Pool.php:165-166 | the `&&` short-circuit stages exactly the entries before the first refused one and changes nothing else |
| SimpleCache.StageAllCommitReadBack | src/PsrSimpleCache/Pool.php:157-169 | staging entries with distinct keys and committing stores each and reads back its value, whatever was queued before |
| SimpleCache.SetMultipleReadBack | src/PsrSimpleCache/Pool.php:140-170 | after a successful `setMultiple` every key of the array holds its value, the expiry its time to live gives and the pool's tags, and reads its value back, whatever was queued before |
| SimpleCache.StageAllRefused | src/PsrSimpleCache/Pool.php:165-166 | entries sharing one expiry are all deferred or none is, so a failed staging leaves the pool as it was |
| SimpleCache.SetMultipleQueue | src/PsrSimpleCache/Pool.php:157-169 | `setMultiple` either returns true with the queue emptied by the commit, or returns false or raises with the pool exactly as it was |
| SimpleCache.SetMultipleSucceeds | src/PsrSimpleCache/Pool.php:140-170 | valid keys with a null or positive time to live make `setMultiple` return true |
| SimpleCache.SetMultipleStoresOnly | src/PsrSimpleCache/Pool.php:140-170 | `setMultiple` leaves every key outside the array and outside the earlier queue of deferred saves as it was |
| SimpleCache.StageCommitUntouched | src/PsrSimpleCache/Pool.php:165-169 | staging and committing entries that do not name a key, over an earlier queue that does not name it either, leaves that key as it was, whether or not a deferral failed |
| SimpleCache.SetMultipleExpired | src/PsrSimpleCache/Pool.php:165-169 | for a non-empty array of valid keys, a non-positive time to live makes `setMultiple` return false and change nothing |
| SimpleCache.SetMultipleInvalidTtl | src/PsrSimpleCache/Pool.php:159-163 | a time to live that is not null or an integer raises, changing nothing, for a non-empty array |
| SimpleCache.SetMultipleInvalidKey | src/PsrSimpleCache/Pool.php:149-155 | an invalid key anywhere in the array raises before anything is staged or written |
| Scenarios.BasicSetAndGet | tests/PsrSimpleCache/PoolTest.php:37-41 | `set` returns true and `get` returns the value |
| Scenarios.GetMissingKey | tests/PsrSimpleCache/PoolTest.php:43-54 | a missing key reads as null, or as the provided default |
| Scenarios.SetExpired | tests/PsrSimpleCache/PoolTest.php:74-80 | `set` with a time to live of -10 returns true, yet `has` is false |
| Scenarios.SetThenExpire | src/PsrSimpleCache/Pool.php:125-135 | an entry set with a time to live of 5 is a hit 4 seconds later, and a miss once 5 seconds have passed, when `get` returns the default |
| Scenarios.Delete | tests/PsrSimpleCache/PoolTest.php:82-87 | after `delete` returns true, `has` is false |
| Scenarios.DeleteMissingKey | tests/PsrSimpleCache/PoolTest.php:94-98 | deleting a missing key returns true and it stays missing |
| Scenarios.Clear | tests/PsrSimpleCache/PoolTest.php:109-114 | after `clear` returns true, `has` is false |
| Scenarios.Has | tests/PsrSimpleCache/PoolTest.php:226-231 | `has` is false before `set` and true after |
| Scenarios.PairWellFormed | tests/PsrSimpleCache/PoolTest.php:118 | an array literal of two different valid keys builds itself and has no invalid key |
| Scenarios.PairStored | tests/PsrSimpleCache/PoolTest.php:116-123 | `setMultiple` of two entries with different keys succeeds; both read back their values with the pool's tags, and every other key is as it was |
| Scenarios.ListOfKeys | tests/PsrSimpleCache/PoolTest.php:121 | a list of distinct valid keys passes validation and asks for each key once |
| Scenarios.ReadingsUnique | src/PsrSimpleCache/Pool.php:58-68 | the array `getMultiple` returns for distinct valid keys is determined by the readings of those keys |
| Scenarios.SetMultipleAndGetMultiple | tests/PsrSimpleCache/PoolTest.php:116-123 | `getMultiple` returns exactly what `setMultiple` stored |
| Scenarios.SetMultipleAndGetMultipleWithTraversable | tests/PsrSimpleCache/PoolTest.php:125-134 | the same through `\Traversable` arguments |
| Scenarios.GetMultipleWithMissingKey | tests/PsrSimpleCache/PoolTest.php:136-143 | a missing key is listed last with null |
| Scenarios.GetMultipleWithDefault | tests/PsrSimpleCache/PoolTest.php:145-152 | a missing key is listed with the provided default |
| Scenarios.InvalidKeysRefused | tests/PsrSimpleCache/PoolTest.php:257-273 | every key of the test's invalid-key list is rejected |
| Scenarios.InvalidSingleKey | tests/PsrSimpleCache/PoolTest.php:56-72 | `get`, `set`, `delete` and `has` raise for every invalid key, an array and an object |
| Scenarios.GetMultipleWithInvalidKeys | tests/PsrSimpleCache/PoolTest.php:154-161 | `getMultiple` raises for an invalid key alone, in a list, in a `\Traversable`, and for a plain object |
| Scenarios.SetMultipleWithInvalidKeys | tests/PsrSimpleCache/PoolTest.php:163-170 | `setMultiple` raises for an invalid key alone, as an array key, as a `\Traversable` key, and for a plain object |
| Scenarios.SetMultipleWithExpired | tests/PsrSimpleCache/PoolTest.php:172-179 | `setMultiple` with a time to live of -1 returns false and the key is missing |
| Scenarios.SetMultipleWithWrongTtl | tests/PsrSimpleCache/PoolTest.php:181-191 | `setMultiple` with the time to live 'bad-ttl' raises |
| Scenarios.DeleteMultiple | tests/PsrSimpleCache/PoolTest.php:194-215 | `deleteMultiple` of both keys, as an array or a `\Traversable`, returns true and both are missing |
| Scenarios.DeleteMultipleInvalidKeys | tests/PsrSimpleCache/PoolTest.php:217-224 | `deleteMultiple` raises for the same arguments as `getMultiple` |
| Scenarios.GetTags | tests/PsrSimpleCache/TaggablePoolTest.php:37-43 | `getTags` returns the tags set; `setTags(null)` returns the pool and clears them |
| Scenarios.GetMultipleByTagIsEmptyByDefault | tests/PsrSimpleCache/TaggablePoolTest.php:45-51 | an unused tag gives an empty array |
| Scenarios.FooItemsStored | tests/PsrSimpleCache/TaggablePoolTest.php:53-57 | `setMultiple` in a tagged pool stores exactly the two keys, both with the pool's tags |
| Scenarios.FooItemsTagCounts | tests/PsrSimpleCache/TaggablePoolTest.php:59-60 | with those entries, "fooTag" lists two keys and "nonTag" none |
| Scenarios.SetAndGetMultipleByTag | tests/PsrSimpleCache/TaggablePoolTest.php:53-61 | `getMultipleByTag` gives 2 entries for "fooTag" and 0 for "nonTag" |
| Scenarios.ClearByTags | tests/PsrSimpleCache/TaggablePoolTest.php:63-69 | `clearByTags` after a tagged `set` returns true and the key is then missing |
| Scenarios.ClearByTagsWithNonExistant | tests/PsrSimpleCache/TaggablePoolTest.php:71-74 | `clearByTags` with an unused tag returns false |

## Left out

- The item pool and its adapter (`Apix\Cache\PsrCache\Pool`, `PsrCache\TaggablePool`, `Cache\Runtime`) are not part of the repository. `CachePool` states the behaviour the facade assumes of them; it is not verified against their code.
- `src/Factory.php` picks and wraps a backend through a library class that is not part of this model.
- `getCacheAdapter` and the taggable constructor's `setOptions(['tag_enable' => true])` only configure the adapter, so they are left out.
- `DateInterval` time to live values and wall-clock time are left out. A time to live is null or an integer number of seconds, measured against the pool's integer clock, which `ItemPool.Tick` advances.
- PHP array key coercion is not modelled: numeric strings, booleans, floats and null used as array keys are not converted to integers or strings. An array key keeps the value it was written with.
- The `(array)` cast and the re-indexing done by `iterator_to_array` are not modelled. Arrays and `\Traversable` objects are both ordered sequences of pairs.
- Exception codes and the chained previous exception are left out. Only the error kind and its message are kept.
- SimpleCache.Pool.SetMultiple: the staged queue holds snapshots of the items' entries, not references to the item objects. A change made to an item after `saveDeferred` would reach the committed entry in PHP but not in the model. The facade makes no such change.
- SimpleCache.Pool.GetMultipleByTag: the case where `get` raises for a key from the tag index is not modelled. The assumed index only lists keys the pool accepted, so that call cannot raise.
- CachePool.ItemPool.Save: the assumed pool always writes and returns true, so the facade's `set` is proved to return true where PHP returns whatever `save` returns.
- CachePool.ItemPool.Commit: the assumed pool always commits and returns true, so `setMultiple` is proved to return true after every successful deferral where PHP returns whatever `commit` returns.
- CachePool.ItemPool.DeleteItem: the assumed pool always returns true for a valid key, so the facade's `delete` is proved to return true where PHP returns whatever `deleteItem` returns.
- CachePool.ItemPool.DeleteItems: the assumed pool always returns true for valid keys, so the facade's `deleteMultiple` is proved to return true where PHP returns whatever `deleteItems` returns.
- CachePool.ItemPool.Clear: the assumed pool always returns true, so the facade's `clear` is proved to return true where PHP returns whatever the pool's `clear` returns.
- The error messages of the assumed pool (`CachePool.KeyError`, and the invalid time to live of `CachePool.ExpiryAfter`) are placeholders. The facade re-raises whatever message it receives, and no property depends on the wording.
- Optional arguments are required parameters in the model: the `$default = null` of `get` and `getMultiple`, the `$ttl = null` of `set`, `setMultiple` and `setItemProperties`, and `setTags(array $tags = null)`. Callers pass `Null` or `None` explicitly.
- Concurrent use of one pool, and of its `tags` field, by several callers is left out.
