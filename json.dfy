/** JSON-like values as the core sees them once a document has been parsed:
    Python's None, bools, numbers, strings, lists and dicts. A dict is kept
    as its entries in insertion order, because the core's results depend on
    that order (which feature is examined first, where a key lands). */
module Json {

  datatype Option<+T> = None | Some(value: T)

  datatype Result<+T, +E> = Ok(value: T) | Err(error: E)
  {
    predicate IsFailure() { Err? }

    function PropagateFailure<U>(): Result<U, E>
      requires Err?
    {
      Err(error)
    }

    function Extract(): T
      requires Ok?
    {
      value
    }
  }

  /** An exception the core raises and does not catch itself. */
  datatype Fault =
    | TypeError(detail: string)
    | AttributeError(detail: string)
    | KeyError(key: string)
    | ValueError(detail: string)

  datatype Json =
    | Null
    | Bool(b: bool)
    | Num(n: real)
    | Str(s: string)
    | Arr(items: seq<Json>)
    | Obj(fields: Dict<Json>)

  /** A Python dict with string keys, as its entries in insertion order. */
  type Dict<V> = seq<(string, V)>

  /** The keys of a dict, in order. */
  function KeysOf<V>(d: Dict<V>): (ks: seq<string>)
    ensures |ks| == |d|
    ensures forall i :: 0 <= i < |d| ==> ks[i] == d[i].0
  {
    if d == [] then [] else [d[0].0] + KeysOf(d[1..])
  }

  /** Python's `d.get(k)`: the value stored under `k`, if any. */
  function Lookup<V>(d: Dict<V>, k: string): Option<V>
  {
    if d == [] then None
    else if d[0].0 == k then Some(d[0].1)
    else Lookup(d[1..], k)
  }

  /** A key is found exactly when it is one of the keys, and what is found
      is stored under it. */
  lemma {:induction false} LookupKeys<V>(d: Dict<V>, k: string)
    ensures Lookup(d, k).None? <==> k !in KeysOf(d)
    ensures Lookup(d, k).Some? ==> (k, Lookup(d, k).value) in d
  {
    if d != [] && d[0].0 != k {
      LookupKeys(d[1..], k);
    }
  }

  /** Python's `d.get(k, default)`. */
  function GetOr<V>(d: Dict<V>, k: string, default: V): V
  {
    match Lookup(d, k)
    case Some(v) => v
    case None => default
  }

  /** Python's `d[k] = v`: an existing entry is overwritten where it stands,
      a new key goes to the end. */
  function Put<V>(d: Dict<V>, k: string, v: V): (r: Dict<V>)
    ensures |r| == if k in KeysOf(d) then |d| else |d| + 1
  {
    if d == [] then [(k, v)]
    else if d[0].0 == k then [(k, v)] + d[1..]
    else [d[0]] + Put(d[1..], k, v)
  }

  /** After `d[k] = v`, `k` holds `v` and every other key is as before. */
  lemma {:induction false} PutLookup<V>(d: Dict<V>, k: string, v: V, k': string)
    ensures Lookup(Put(d, k, v), k') == if k' == k then Some(v) else Lookup(d, k')
  {
    if d != [] && d[0].0 != k {
      PutLookup(d[1..], k, v, k');
      assert Put(d, k, v)[1..] == Put(d[1..], k, v);
    }
  }

  /** `d[k] = v` keeps the key order and appends a new key. */
  lemma {:induction false} PutKeys<V>(d: Dict<V>, k: string, v: V)
    ensures KeysOf(Put(d, k, v)) == if k in KeysOf(d) then KeysOf(d) else KeysOf(d) + [k]
  {
    if d != [] {
      if d[0].0 == k {
        assert Put(d, k, v)[1..] == d[1..];
      } else {
        PutKeys(d[1..], k, v);
        assert Put(d, k, v)[1..] == Put(d[1..], k, v);
      }
    }
  }

  /** The value found is that of the first entry with the key. */
  lemma {:induction false} LookupFirst<V>(d: Dict<V>, i: nat, k: string)
    requires i < |d| && d[i].0 == k
    requires forall j :: 0 <= j < i ==> d[j].0 != k
    ensures Lookup(d, k) == Some(d[i].1)
  {
    if i > 0 {
      LookupFirst(d[1..], i - 1, k);
    }
  }

  /** Looking up in a concatenation: the first part wins. */
  lemma {:induction false} LookupAppend<V>(a: Dict<V>, b: Dict<V>, k: string)
    ensures Lookup(a + b, k) == if Lookup(a, k).Some? then Lookup(a, k) else Lookup(b, k)
  {
    if a != [] {
      assert (a + b)[1..] == a[1..] + b;
      if a[0].0 != k {
        LookupAppend(a[1..], b, k);
      }
    } else {
      assert a + b == b;
    }
  }

  /** Python's `{**d, **e}` with `d` first: each entry of `e` in turn is
      stored as by `d[k] = v`. */
  function Merge<V>(d: Dict<V>, e: Dict<V>): Dict<V>
  {
    if e == [] then d
    else Put(Merge(d, e[..|e| - 1]), e[|e| - 1].0, e[|e| - 1].1)
  }

  /** The entries of `d` whose keys are not in `ks`, in order. */
  function Without<V>(d: Dict<V>, ks: set<string>): (r: Dict<V>)
    ensures forall k :: k !in ks ==> Lookup(r, k) == Lookup(d, k)
    ensures forall k :: k in ks ==> Lookup(r, k) == None
  {
    if d == [] then []
    else if d[0].0 in ks then Without(d[1..], ks)
    else [d[0]] + Without(d[1..], ks)
  }

  lemma UniqueKeysWithout<V>(d: Dict<V>, ks: set<string>)
    requires UniqueKeys(d)
    ensures UniqueKeys(Without(d, ks))
  {
    if d != [] {
      assert UniqueKeys(d[1..]) by {
        forall i, j | 0 <= i < j < |d[1..]| ensures d[1..][i].0 != d[1..][j].0 {
          assert d[1..][i] == d[i + 1] && d[1..][j] == d[j + 1];
        }
      }
      UniqueKeysWithout(d[1..], ks);
      if d[0].0 !in ks {
        var r := Without(d[1..], ks);
        LookupKeys(r, d[0].0);
        LookupMissing(d[1..], d[0].0);
        forall j | 0 <= j < |r| ensures r[j].0 != d[0].0 {
          assert r[j].0 in KeysOf(r);
        }
      }
    }
  }

  /** In a dict without duplicates, the first key is not among the others. */
  lemma LookupMissing<V>(d: Dict<V>, k: string)
    requires forall i :: 0 <= i < |d| ==> d[i].0 != k
    ensures Lookup(d, k) == None
  {
    if d != [] {
      LookupMissing(d[1..], k);
    }
  }

  /** After merging a dict without duplicate keys, its keys hold its values
      and every other key is as before. */
  lemma {:induction false} MergeLookup<V>(d: Dict<V>, e: Dict<V>, k: string)
    requires UniqueKeys(e)
    ensures Lookup(Merge(d, e), k) == if Lookup(e, k).Some? then Lookup(e, k) else Lookup(d, k)
  {
    if e != [] {
      var n := |e|;
      var init := e[..n - 1];
      assert UniqueKeys(init);
      MergeLookup(d, init, k);
      PutLookup(Merge(d, init), e[n - 1].0, e[n - 1].1, k);
      assert e == init + [e[n - 1]];
      LookupAppend(init, [e[n - 1]], k);
      if e[n - 1].0 == k {
        LookupMissing(init, k);
      }
    }
  }

  /** A dict as Python builds it: no key occurs twice. */
  predicate UniqueKeys<V>(d: Dict<V>)
  {
    forall i, j :: 0 <= i < j < |d| ==> d[i].0 != d[j].0
  }

  /** Apply `f` to each item in order, as a loop that raises on the first
      bad item does: the first failure aborts. */
  function MapAll<A, B, E>(f: A -> Result<B, E>, xs: seq<A>): (r: Result<seq<B>, E>)
    ensures r.Ok? ==> |r.value| == |xs|
  {
    if xs == [] then Ok([])
    else
      var prev := MapAll(f, xs[..|xs| - 1]);
      if prev.Err? then Err(prev.error)
      else
        match f(xs[|xs| - 1])
        case Err(e) => Err(e)
        case Ok(y) => Ok(prev.value + [y])
  }

  /** The results are the items' results, in order, exactly when every item succeeds. */
  lemma {:induction false} MapAllOk<A, B, E>(f: A -> Result<B, E>, xs: seq<A>)
    ensures MapAll(f, xs).Ok? <==> forall i :: 0 <= i < |xs| ==> f(xs[i]).Ok?
    ensures MapAll(f, xs).Ok? ==> forall i :: 0 <= i < |xs| ==> f(xs[i]) == Ok(MapAll(f, xs).value[i])
  {
    if xs != [] {
      var prev := xs[..|xs| - 1];
      MapAllOk(f, prev);
      assert forall i :: 0 <= i < |prev| ==> prev[i] == xs[i];
    }
  }

  /** A failure is the failure of the first item that fails. */
  lemma {:induction false} MapAllErr<A, B, E>(f: A -> Result<B, E>, xs: seq<A>)
    requires MapAll(f, xs).Err?
    ensures exists i :: 0 <= i < |xs| && f(xs[i]) == Err(MapAll(f, xs).error)
                        && forall j :: 0 <= j < i ==> f(xs[j]).Ok?
  {
    var n := |xs|;
    var prev := xs[..n - 1];
    assert forall i :: 0 <= i < |prev| ==> prev[i] == xs[i];
    if MapAll(f, prev).Err? {
      MapAllErr(f, prev);
      var i :| 0 <= i < |prev| && f(prev[i]) == Err(MapAll(f, prev).error)
               && forall j :: 0 <= j < i ==> f(prev[j]).Ok?;
      assert f(xs[i]) == Err(MapAll(f, xs).error);
    } else {
      MapAllOk(f, prev);
      assert f(xs[n - 1]) == Err(MapAll(f, xs).error);
    }
  }

  /** Once a prefix of the items fails, the whole list fails the same way. */
  lemma {:induction false} MapAllPrefix<A, B, E>(f: A -> Result<B, E>, xs: seq<A>, k: nat)
    requires k <= |xs| && MapAll(f, xs[..k]).Err?
    ensures MapAll(f, xs) == MapAll(f, xs[..k])
    decreases |xs| - k
  {
    if k < |xs| {
      var n := |xs|;
      if k == n - 1 {
        assert xs[..n - 1] == xs[..k];
      } else {
        assert xs[..n - 1][..k] == xs[..k];
        MapAllPrefix(f, xs[..n - 1], k);
      }
    } else {
      assert xs[..k] == xs;
    }
  }

  /** One more item of a loop that maps the items in order: a failure
      ends the whole map, a success extends the results. */
  lemma MapAllStep<A, B, E>(f: A -> Result<B, E>, xs: seq<A>, i: nat, done: seq<B>)
    requires i < |xs| && MapAll(f, xs[..i]) == Ok(done)
    ensures f(xs[i]).Err? ==> MapAll(f, xs) == Err(f(xs[i]).error)
    ensures f(xs[i]).Ok? ==> MapAll(f, xs[..i + 1]) == Ok(done + [f(xs[i]).value])
  {
    assert xs[..i + 1][..i] == xs[..i];
    if f(xs[i]).Err? {
      MapAllPrefix(f, xs, i + 1);
    }
  }

  /** The results `f` gives, in order, for the items it accepts. */
  function Collect<A, B>(f: A -> Option<B>, xs: seq<A>): seq<B>
  {
    if xs == [] then []
    else
      var prev := Collect(f, xs[..|xs| - 1]);
      match f(xs[|xs| - 1])
      case Some(y) => prev + [y]
      case None => prev
  }

  lemma {:induction false} CollectAppend<A, B>(f: A -> Option<B>, a: seq<A>, b: seq<A>)
    ensures Collect(f, a + b) == Collect(f, a) + Collect(f, b)
    decreases |b|
  {
    if b == [] {
      assert a + b == a;
    } else {
      var n := |b|;
      assert (a + b)[..|a + b| - 1] == a + b[..n - 1];
      assert (a + b)[|a + b| - 1] == b[n - 1];
      CollectAppend(f, a, b[..n - 1]);
    }
  }

  /** At most one result per item. */
  lemma {:induction false} CollectLength<A, B>(f: A -> Option<B>, xs: seq<A>)
    ensures |Collect(f, xs)| <= |xs|
  {
    if xs != [] {
      CollectLength(f, xs[..|xs| - 1]);
    }
  }

  /** Nothing is collected exactly when no item is accepted. */
  lemma {:induction false} CollectEmpty<A, B>(f: A -> Option<B>, xs: seq<A>)
    ensures Collect(f, xs) == [] <==> forall i :: 0 <= i < |xs| ==> f(xs[i]).None?
  {
    if xs != [] {
      var init := xs[..|xs| - 1];
      CollectEmpty(f, init);
      assert forall i :: 0 <= i < |init| ==> init[i] == xs[i];
    }
  }

  /** When every item is accepted, the results are the items' results in order. */
  lemma {:induction false} CollectAll<A, B>(f: A -> Option<B>, xs: seq<A>)
    requires forall i :: 0 <= i < |xs| ==> f(xs[i]).Some?
    ensures |Collect(f, xs)| == |xs|
    ensures forall i :: 0 <= i < |xs| ==> Collect(f, xs)[i] == f(xs[i]).value
  {
    if xs != [] {
      var init := xs[..|xs| - 1];
      assert forall i :: 0 <= i < |init| ==> init[i] == xs[i];
      CollectAll(f, init);
    }
  }

  /** An accepted item contributes its result. */
  lemma {:induction false} CollectHas<A, B>(f: A -> Option<B>, xs: seq<A>, i: nat)
    requires i < |xs| && f(xs[i]).Some?
    ensures f(xs[i]).value in Collect(f, xs)
  {
    var init := xs[..|xs| - 1];
    if i < |xs| - 1 {
      assert init[i] == xs[i];
      CollectHas(f, init, i);
    }
  }

  /** Two functions that agree on the items collect alike. */
  lemma {:induction false} CollectSame<A, B>(f: A -> Option<B>, g: A -> Option<B>, xs: seq<A>)
    requires forall i :: 0 <= i < |xs| ==> f(xs[i]) == g(xs[i])
    ensures Collect(f, xs) == Collect(g, xs)
  {
    if xs != [] {
      var init := xs[..|xs| - 1];
      assert forall i :: 0 <= i < |init| ==> init[i] == xs[i];
      CollectSame(f, g, init);
    }
  }

  /** Every collected result comes from an accepted item. */
  lemma {:induction false} CollectFrom<A, B>(f: A -> Option<B>, xs: seq<A>, y: B)
    requires y in Collect(f, xs)
    ensures exists x :: x in xs && f(x) == Some(y)
  {
    var n := |xs|;
    if f(xs[n - 1]) != Some(y) {
      CollectFrom(f, xs[..n - 1], y);
      var x :| x in xs[..n - 1] && f(x) == Some(y);
      assert x in xs;
    }
  }

  /** A value read as a string; any other value is a type error. */
  function AsString(j: Json, key: string): Result<string, Fault>
  {
    if j.Str? then Ok(j.s) else Err(TypeError(key + " is not a string"))
  }

  /** `d[key]` read as a string. */
  function StringField(d: Dict<Json>, key: string): Result<string, Fault>
  {
    match Lookup(d, key)
    case None => Err(KeyError(key))
    case Some(v) => AsString(v, key)
  }

  /** `d.get(key, default)` read as a string. */
  function OptStringField(d: Dict<Json>, key: string, default: string): Result<string, Fault>
  {
    match Lookup(d, key)
    case None => Ok(default)
    case Some(v) => AsString(v, key)
  }

  /** `d[key]` read as a whole number. */
  function IntField(d: Dict<Json>, key: string): Result<int, Fault>
  {
    match Lookup(d, key)
    case None => Err(KeyError(key))
    case Some(v) =>
      if v.Num? && v.n.Floor as real == v.n then Ok(v.n.Floor) else Err(TypeError(key + " is not an integer"))
  }

  /** What a loop `for item in value` that indexes each item by a key
      iterates over. Iterating a non-empty dict or string yields strings,
      which the loop then indexes by key: a TypeError, as is iterating a scalar. */
  function KeyedItems(value: Json): Result<seq<Json>, Fault>
  {
    match value
    case Arr(items) => Ok(items)
    case Obj(fields) =>
      if fields == [] then Ok([]) else Err(TypeError("string indices must be integers"))
    case Str(s) =>
      if s == "" then Ok([]) else Err(TypeError("string indices must be integers"))
    case _ => Err(TypeError("object is not iterable"))
  }

  /** Python's truth value `bool(j)`. */
  predicate Truthy(j: Json)
  {
    match j
    case Null => false
    case Bool(b) => b
    case Num(n) => n != 0.0
    case Str(s) => s != ""
    case Arr(items) => items != []
    case Obj(fields) => fields != []
  }

  /** A JSON list of strings. */
  function StrList(ss: seq<string>): (j: Json)
    ensures j.Arr? && |j.items| == |ss|
    ensures forall i :: 0 <= i < |ss| ==> j.items[i] == Str(ss[i])
  {
    Arr(seq(|ss|, i requires 0 <= i < |ss| => Str(ss[i])))
  }

  /** The inverse of StrList: a JSON list whose items are all strings. */
  function AsStrList(j: Json): (r: Option<seq<string>>)
    ensures r.Some? ==> j.Arr? && |r.value| == |j.items|
  {
    if j.Arr? && forall i :: 0 <= i < |j.items| ==> j.items[i].Str? then
      Some(seq(|j.items|, i requires 0 <= i < |j.items| => j.items[i].s))
    else None
  }

  lemma StrListRoundTrip(ss: seq<string>)
    ensures AsStrList(StrList(ss)) == Some(ss)
  {
    var r := AsStrList(StrList(ss));
    assert r.Some?;
    assert r.value == ss;
  }
}
