/** PHP values as the cache facade sees them, and PHP's ordered arrays.

    The facade receives "mixed" arguments: a key may be any PHP value, a
    keys argument may be an array, a \Traversable or anything else. This
    module gives those values a datatype and models the one array
    behaviour the facade relies on: `$a[$k] = $v` keeps the key's first
    position and replaces its value.
 */
module PhpValues {

  datatype Option<+T> = None | Some(value: T)

  /** A call that either returns a value or raises an exception. */
  datatype Result<+T, +E> = Ok(value: T) | Err(error: E)

  /** A call that returns nothing or raises an exception. */
  datatype Outcome<+E> = Pass | Fail(error: E)

  /** A PHP value. Arrays and \Traversable objects are ordered key => value pairs. */
  datatype Value =
    | Null
    | Bool(b: bool)
    | Int(i: int)
    | Float(f: real)
    | Str(s: string)
    | Arr(pairs: seq<(Value, Value)>)
    | Traversable(pairs: seq<(Value, Value)>)
    | Object(className: string)

  /** PHP's `gettype`: arrays, objects and null are told apart by name. */
  function TypeName(v: Value): (r: string)
    ensures r == "array" <==> v.Arr?
    ensures r == "object" <==> v.Traversable? || v.Object?
    ensures r == "NULL" <==> v.Null?
  {
    match v
    case Null => "NULL"
    case Bool(_) => "boolean"
    case Int(_) => "integer"
    case Float(_) => "double"
    case Str(_) => "string"
    case Arr(_) => "array"
    case Traversable(_) => "object"
    case Object(_) => "object"
  }

  predicate IsIterable(v: Value)
  {
    v.Arr? || v.Traversable?
  }

  predicate Distinct<T(==)>(xs: seq<T>)
  {
    forall i, j :: 0 <= i < j < |xs| ==> xs[i] != xs[j]
  }

  /** The distinct elements of `xs`, each at the position of its first occurrence. */
  function Dedup<T(==,!new)>(xs: seq<T>): (r: seq<T>)
    ensures Distinct(r)
    ensures forall x :: x in r <==> x in xs
    ensures |r| <= |xs|
  {
    if xs == [] then []
    else
      var init, last := xs[..|xs| - 1], xs[|xs| - 1];
      assert xs == init + [last];
      var d := Dedup(init);
      if last in d then d else d + [last]
  }

  lemma {:induction false} DedupOfDistinct<T(!new)>(xs: seq<T>)
    requires Distinct(xs)
    ensures Dedup(xs) == xs
  {
    if xs != [] {
      var init := xs[..|xs| - 1];
      DedupOfDistinct(init);
      assert xs[|xs| - 1] !in init;
      assert xs == init + [xs[|xs| - 1]];
    }
  }

  /** Deduplicating one more element adds it at the end unless it was already there. */
  lemma DedupSnoc<T(!new)>(xs: seq<T>, x: T)
    ensures Dedup(xs + [x]) == if x in Dedup(xs) then Dedup(xs) else Dedup(xs) + [x]
  {
    assert (xs + [x])[..|xs|] == xs;
  }

  /** An ordered PHP array. */
  type PhpArray = seq<(Value, Value)>

  /** `array_keys($a)`. */
  function KeysOf(a: PhpArray): (r: seq<Value>)
    ensures |r| == |a|
  {
    seq(|a|, i requires 0 <= i < |a| => a[i].0)
  }

  /** `array_values($a)`, which is what `foreach ($a as $v)` visits. */
  function ValuesOf(a: PhpArray): seq<Value>
  {
    seq(|a|, i requires 0 <= i < |a| => a[i].1)
  }

  /** `$a[$k] = $v`: an existing key keeps its position and takes the new value,
      a new key is appended. */
  function Put(a: PhpArray, k: Value, v: Value): (r: PhpArray)
    ensures k in KeysOf(a) ==> KeysOf(r) == KeysOf(a)
    ensures k !in KeysOf(a) ==> KeysOf(r) == KeysOf(a) + [k]
    ensures (k, v) in r
    ensures forall p :: p in r ==> p == (k, v) || p in a
  {
    if a == [] then [(k, v)]
    else if a[0].0 == k then
      assert KeysOf(a)[0] == k;
      assert KeysOf([(k, v)] + a[1..]) == KeysOf(a);
      [(k, v)] + a[1..]
    else
      var rest := Put(a[1..], k, v);
      assert KeysOf(a) == [a[0].0] + KeysOf(a[1..]);
      assert KeysOf([a[0]] + rest) == [a[0].0] + KeysOf(rest);
      [a[0]] + rest
  }

  /** `$a[$k]`; an undefined index reads as null. */
  function At(a: PhpArray, k: Value): (r: Value)
    ensures k !in KeysOf(a) ==> r == Null
    ensures k in KeysOf(a) ==> (k, r) in a
  {
    if a == [] then Null
    else if a[0].0 == k then
      assert KeysOf(a)[0] == k;
      a[0].1
    else
      assert KeysOf(a) == [a[0].0] + KeysOf(a[1..]);
      At(a[1..], k)
  }

  /** The array that assigning `pairs` one after another builds: later
      assignments to a key replace its value and keep its first position. */
  function ArrayOf(pairs: seq<(Value, Value)>): (r: PhpArray)
    ensures |r| <= |pairs|
  {
    if pairs == [] then []
    else Put(ArrayOf(pairs[..|pairs| - 1]), pairs[|pairs| - 1].0, pairs[|pairs| - 1].1)
  }

  /** Every pair of a built array is one of the assignments: nothing is invented. */
  lemma {:induction false} ArrayOfPairs(pairs: seq<(Value, Value)>)
    ensures forall p :: p in ArrayOf(pairs) ==> p in pairs
  {
    if pairs != [] {
      var n := |pairs| - 1;
      ArrayOfPairs(pairs[..n]);
      forall p | p in ArrayOf(pairs) ensures p in pairs {
        if p != pairs[n] {
          assert p in ArrayOf(pairs[..n]);
          assert p in pairs[..n];
        }
      }
    }
  }

  /** The keys of a built array are the distinct assigned keys, in order of first assignment. */
  lemma {:induction false} ArrayOfKeys(pairs: seq<(Value, Value)>)
    ensures Distinct(KeysOf(ArrayOf(pairs)))
    ensures KeysOf(ArrayOf(pairs)) == Dedup(KeysOf(pairs))
  {
    if pairs != [] {
      var n := |pairs| - 1;
      var init := pairs[..n];
      ArrayOfKeys(init);
      assert KeysOf(pairs) == KeysOf(init) + [pairs[n].0];
      DedupSnoc(KeysOf(init), pairs[n].0);
      assert ArrayOf(pairs) == Put(ArrayOf(init), pairs[n].0, pairs[n].1);
    }
  }

  /** Assigning to a key the array does not hold appends the pair. */
  lemma {:induction false} PutNew(a: PhpArray, k: Value, v: Value)
    requires k !in KeysOf(a)
    ensures Put(a, k, v) == a + [(k, v)]
  {
    if a != [] {
      assert KeysOf(a)[0] == a[0].0;
      assert KeysOf(a[1..]) == KeysOf(a)[1..];
      PutNew(a[1..], k, v);
      assert a == [a[0]] + a[1..];
    }
  }

  /** Assigning pairs whose keys are all different builds exactly those pairs. */
  lemma {:induction false} ArrayOfDistinct(pairs: seq<(Value, Value)>)
    requires Distinct(KeysOf(pairs))
    ensures ArrayOf(pairs) == pairs
  {
    if pairs != [] {
      var n := |pairs| - 1;
      var init := pairs[..n];
      assert KeysOf(init) == KeysOf(pairs)[..n];
      ArrayOfDistinct(init);
      assert pairs[n].0 !in KeysOf(init) by {
        assert KeysOf(pairs)[n] == pairs[n].0;
      }
      PutNew(init, pairs[n].0, pairs[n].1);
      assert pairs == init + [pairs[n]];
    }
  }

  lemma {:induction false} AtPut(a: PhpArray, k: Value, v: Value, k': Value)
    ensures At(Put(a, k, v), k') == if k' == k then v else At(a, k')
  {
    if a != [] && a[0].0 != k {
      AtPut(a[1..], k, v, k');
    }
  }

  /** Reading a key of a built array: the last assignment if it was to that
      key, otherwise what the array built before it gives. */
  lemma AtArrayOfLast(pairs: seq<(Value, Value)>, k: Value)
    requires pairs != []
    ensures At(ArrayOf(pairs), k)
         == if k == pairs[|pairs| - 1].0 then pairs[|pairs| - 1].1 else At(ArrayOf(pairs[..|pairs| - 1]), k)
  {
    var n := |pairs| - 1;
    AtPut(ArrayOf(pairs[..n]), pairs[n].0, pairs[n].1, k);
  }

  /** Reading a key of a built array gives the value assigned to it last. */
  lemma {:induction false} ArrayOfLastWins(pairs: seq<(Value, Value)>, i: nat)
    requires i < |pairs|
    requires forall j :: i < j < |pairs| ==> pairs[j].0 != pairs[i].0
    ensures At(ArrayOf(pairs), pairs[i].0) == pairs[i].1
  {
    var last := pairs[|pairs| - 1];
    AtArrayOfLast(pairs, pairs[i].0);
    if i == |pairs| - 1 {
      assert pairs[i] == last;
    } else {
      var init := pairs[..|pairs| - 1];
      assert init[i] == pairs[i];
      assert last.0 != pairs[i].0;
      ArrayOfLastWins(init, i);
    }
  }
}
