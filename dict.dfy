/** An insertion-ordered dictionary with string keys: the behaviour of a Python
    `dict` that the modelled code relies on (assignment keeps the position of an
    existing key and appends a new one, `del` closes the gap, iteration follows
    insertion order). */
module Dict {
  import opened Common

  datatype Entry<V> = Entry(key: string, value: V)

  type Table<V> = seq<Entry<V>>

  function Keys<V>(d: Table<V>): (ks: seq<string>)
    ensures |ks| == |d|
    ensures forall i :: 0 <= i < |d| ==> ks[i] == d[i].key
  {
    if d == [] then [] else [d[0].key] + Keys(d[1..])
  }

  /** Keys are unique, as in any dictionary. */
  predicate Valid<V>(d: Table<V>)
  {
    Distinct(Keys(d))
  }

  predicate Has<V>(d: Table<V>, k: string)
  {
    k in Keys(d)
  }

  /** `d.get(k)`. */
  function Get<V>(d: Table<V>, k: string): (r: Option<V>)
    ensures r.Some? <==> Has(d, k)
    ensures r.Some? ==> exists i :: 0 <= i < |d| && d[i] == Entry(k, r.value)
  {
    if d == [] then None
    else if d[0].key == k then Some(d[0].value)
    else
      var r := Get(d[1..], k);
      assert Keys(d) == [d[0].key] + Keys(d[1..]);
      assert r.Some? ==> exists i :: 0 <= i < |d| && d[i] == Entry(k, r.value) by {
        if r.Some? {
          var i :| 0 <= i < |d[1..]| && d[1..][i] == Entry(k, r.value);
          assert d[i + 1] == Entry(k, r.value);
        }
      }
      r
  }

  /** `d.get(k, default)`. */
  function GetOr<V>(d: Table<V>, k: string, default: V): (r: V)
    ensures Has(d, k) ==> Some(r) == Get(d, k)
    ensures !Has(d, k) ==> r == default
  {
    match Get(d, k)
    case Some(v) => v
    case None => default
  }

  /** Looking up in a table with one more entry at the end. */
  lemma {:induction false} GetSnoc<V>(d: Table<V>, e: Entry<V>, k: string)
    ensures Get(d + [e], k) == if Has(d, k) then Get(d, k) else if e.key == k then Some(e.value) else None
  {
    if d != [] {
      assert (d + [e])[1..] == d[1..] + [e];
      assert Keys(d) == [d[0].key] + Keys(d[1..]);
      GetSnoc(d[1..], e, k);
    }
  }

  /** Lookup finds the first entry with the key. */
  lemma {:induction false} GetFirst<V>(d: Table<V>, i: nat)
    requires i < |d| && forall j :: 0 <= j < i ==> d[j].key != d[i].key
    ensures Get(d, d[i].key) == Some(d[i].value)
  {
    if i > 0 {
      GetFirst(d[1..], i - 1);
    }
  }

  /** The entry at the position of a present key. */
  lemma GetAt<V>(d: Table<V>, i: nat)
    requires Valid(d) && i < |d|
    ensures Get(d, d[i].key) == Some(d[i].value)
  {
    if i > 0 {
      assert Keys(d)[0] != Keys(d)[i];
      assert Keys(d[1..]) == Keys(d)[1..];
      GetAt(d[1..], i - 1);
    }
  }

  /** `d[k] = v`: an existing key keeps its position, a new key goes last. */
  function Put<V>(d: Table<V>, k: string, v: V): (r: Table<V>)
    ensures Keys(r) == if Has(d, k) then Keys(d) else Keys(d) + [k]
  {
    if d == [] then [Entry(k, v)]
    else if d[0].key == k then
      var r := [Entry(k, v)] + d[1..];
      assert Keys(r) == [k] + Keys(d[1..]);
      assert Keys(d) == [d[0].key] + Keys(d[1..]);
      r
    else
      var t := Put(d[1..], k, v);
      assert Keys(d) == [d[0].key] + Keys(d[1..]);
      assert Keys([d[0]] + t) == [d[0].key] + Keys(t);
      [d[0]] + t
  }

  /** After `d[k] = v`, `k` reads `v` and every other key reads as before. */
  lemma {:induction false} PutGet<V>(d: Table<V>, k: string, v: V, k': string)
    ensures Get(Put(d, k, v), k') == if k' == k then Some(v) else Get(d, k')
  {
    if d != [] && d[0].key != k {
      PutGet(d[1..], k, v, k');
      assert Put(d, k, v) == [d[0]] + Put(d[1..], k, v);
      assert ([d[0]] + Put(d[1..], k, v))[1..] == Put(d[1..], k, v);
    }
  }

  lemma PutValid<V>(d: Table<V>, k: string, v: V)
    requires Valid(d)
    ensures Valid(Put(d, k, v))
  {
  }

  /** `del d[k]` when `k` is present; nothing otherwise. */
  function Remove<V>(d: Table<V>, k: string): (r: Table<V>)
    ensures !Has(r, k)
    ensures forall k' :: k' != k ==> Get(r, k') == Get(d, k')
    ensures forall k' :: k' in Keys(r) ==> k' in Keys(d)
    ensures !Has(d, k) ==> r == d
  {
    if d == [] then []
    else
      var t := Remove(d[1..], k);
      assert Keys(d) == [d[0].key] + Keys(d[1..]);
      if d[0].key == k then t
      else
        assert Keys([d[0]] + t) == [d[0].key] + Keys(t);
        [d[0]] + t
  }

  /** `d.update(u)`: every entry of `u`, in `u`'s order, is assigned into `d`. */
  function Update<V>(d: Table<V>, u: Table<V>): (r: Table<V>)
    decreases |u|
  {
    if u == [] then d else Update(Put(d, u[0].key, u[0].value), u[1..])
  }

  /** After `d.update(u)` a key reads from `u` when `u` has it, and from `d` otherwise. */
  lemma {:induction false} UpdateGet<V>(d: Table<V>, u: Table<V>, k: string)
    requires Valid(u)
    ensures Get(Update(d, u), k) == if Has(u, k) then Get(u, k) else Get(d, k)
    decreases |u|
  {
    if u != [] {
      assert Keys(u) == [u[0].key] + Keys(u[1..]);
      assert Valid(u[1..]) by {
        assert Keys(u[1..]) == Keys(u)[1..];
      }
      UpdateGet(Put(d, u[0].key, u[0].value), u[1..], k);
      PutGet(d, u[0].key, u[0].value, k);
      if k == u[0].key {
        assert !Has(u[1..], k) by {
          forall i | 0 <= i < |u[1..]| ensures Keys(u[1..])[i] != k {
            assert Keys(u)[i + 1] != Keys(u)[0];
          }
        }
      }
    }
  }

  /** `d.update(u)` has exactly the keys of `d` and of `u`. */
  lemma {:induction false} UpdateKeys<V>(d: Table<V>, u: Table<V>, k: string)
    ensures Has(Update(d, u), k) <==> Has(d, k) || Has(u, k)
    decreases |u|
  {
    if u != [] {
      assert Keys(u) == [u[0].key] + Keys(u[1..]);
      var d' := Put(d, u[0].key, u[0].value);
      assert Has(d', k) <==> Has(d, k) || k == u[0].key;
      UpdateKeys(d', u[1..], k);
    }
  }

  /** The keys `ks` followed by each key of `more` not yet present, in order. */
  function AppendNew(ks: seq<string>, more: seq<string>): (r: seq<string>)
    ensures |ks| <= |r| && r[..|ks|] == ks
    ensures forall k :: k in r <==> k in ks || k in more
    decreases |more|
  {
    if more == [] then ks
    else AppendNew(if more[0] in ks then ks else ks + [more[0]], more[1..])
  }

  /** `d.update(u)` keeps the keys of `d` in place and appends the new keys of
      `u` in `u`'s order. */
  lemma {:induction false} UpdateKeyOrder<V>(d: Table<V>, u: Table<V>)
    ensures Keys(Update(d, u)) == AppendNew(Keys(d), Keys(u))
    decreases |u|
  {
    if u != [] {
      assert Keys(u) == [u[0].key] + Keys(u[1..]);
      UpdateKeyOrder(Put(d, u[0].key, u[0].value), u[1..]);
    }
  }

  lemma {:induction false} UpdateValid<V>(d: Table<V>, u: Table<V>)
    requires Valid(d)
    ensures Valid(Update(d, u))
    decreases |u|
  {
    if u != [] {
      PutValid(d, u[0].key, u[0].value);
      UpdateValid(Put(d, u[0].key, u[0].value), u[1..]);
    }
  }

  /** The dictionary with every value replaced by `f` of it (a dict comprehension). */
  function MapValues<V, W>(d: Table<V>, f: V -> W): (r: Table<W>)
    ensures Keys(r) == Keys(d)
    ensures forall i :: 0 <= i < |d| ==> r[i].value == f(d[i].value)
  {
    if d == [] then [] else [Entry(d[0].key, f(d[0].value))] + MapValues(d[1..], f)
  }

  /** Looking a key up after every value was replaced by `f`. */
  lemma {:induction false} MapValuesGet<V, W>(d: Table<V>, f: V -> W, k: string)
    ensures Get(MapValues(d, f), k) == if Has(d, k) then Some(f(Get(d, k).value)) else None
  {
    if d != [] {
      assert Keys(d) == [d[0].key] + Keys(d[1..]);
      MapValuesGet(d[1..], f, k);
    }
  }

  /** The keys whose value satisfies `p`, in table order. */
  function KeysWhere<V>(d: Table<V>, p: V -> bool): (r: seq<string>)
    ensures |r| <= |d|
  {
    if d == [] then []
    else KeysWhere(d[..|d| - 1], p) + (if p(d[|d| - 1].value) then [d[|d| - 1].key] else [])
  }

  /** A key is listed exactly when it is present and its value satisfies `p`. */
  lemma {:induction false} KeysWhereExact<V>(d: Table<V>, p: V -> bool, k: string)
    requires Valid(d)
    ensures k in KeysWhere(d, p) <==> Has(d, k) && p(Get(d, k).value)
  {
    if d != [] {
      var m := |d| - 1;
      var init := d[..m];
      KeysWhereExact(init, p, k);
      assert d == init + [d[m]];
      GetSnoc(init, d[m], k);
      KeysSnoc(init, d[m]);
      assert Keys(init) == Keys(d)[..m];
      assert d[m].key !in Keys(init);
      assert KeysWhere(d, p) == KeysWhere(init, p) + (if p(d[m].value) then [d[m].key] else []);
      if Has(init, k) {
        assert Get(d, k) == Get(init, k);
      } else if d[m].key == k {
        assert Get(d, k) == Some(d[m].value);
      }
    }
  }

  lemma {:induction false} KeysSnoc<V>(d: Table<V>, e: Entry<V>)
    ensures Keys(d + [e]) == Keys(d) + [e.key]
  {
    if d != [] {
      assert (d + [e])[1..] == d[1..] + [e];
      KeysSnoc(d[1..], e);
    }
  }

  lemma {:induction false} KeysConcat<V>(a: Table<V>, b: Table<V>)
    ensures Keys(a + b) == Keys(a) + Keys(b)
  {
    if a != [] {
      assert (a + b)[1..] == a[1..] + b;
      KeysConcat(a[1..], b);
    }
  }

  /** A key of the first table is found there, whatever follows. */
  lemma {:induction false} GetConcat<V>(a: Table<V>, b: Table<V>, k: string)
    requires Has(a, k)
    ensures Get(a + b, k) == Get(a, k)
  {
    if a[0].key != k {
      assert (a + b)[1..] == a[1..] + b;
      GetConcat(a[1..], b, k);
    }
  }

  /** The tail of a table with unique keys has unique keys, none of them the head's. */
  lemma TailValid<V>(d: Table<V>)
    requires Valid(d) && d != []
    ensures Valid(d[1..]) && d[0].key !in Keys(d[1..])
    ensures Keys(d) == [d[0].key] + Keys(d[1..])
  {
    assert Keys(d[1..]) == Keys(d)[1..];
    forall i, j | 0 <= i < j < |d[1..]| ensures Keys(d[1..])[i] != Keys(d[1..])[j] {
      assert Keys(d)[i + 1] != Keys(d)[j + 1];
    }
  }

  /** Removing a key keeps the keys unique. */
  lemma {:induction false} RemoveValid<V>(d: Table<V>, k: string)
    requires Valid(d)
    ensures Valid(Remove(d, k))
  {
    if d != [] {
      TailValid(d);
      RemoveValid(d[1..], k);
      var t := Remove(d[1..], k);
      if d[0].key != k {
        assert Keys([d[0]] + t) == [d[0].key] + Keys(t);
      }
    }
  }

  /** Assigning a key that is not present appends it. */
  lemma {:induction false} PutNew<V>(d: Table<V>, k: string, v: V)
    requires !Has(d, k)
    ensures Put(d, k, v) == d + [Entry(k, v)]
  {
    if d != [] {
      assert d[0].key != k && !Has(d[1..], k) by {
        assert Keys(d) == [d[0].key] + Keys(d[1..]);
      }
      assert Put(d, k, v) == [d[0]] + Put(d[1..], k, v);
      PutNew(d[1..], k, v);
      HeadThenRest(d, [Entry(k, v)]);
    }
  }

  /** Updating with entries whose keys are new and distinct appends them in order. */
  lemma {:induction false} UpdateFresh<V>(d: Table<V>, u: Table<V>)
    requires Valid(u)
    requires forall i :: 0 <= i < |u| ==> !Has(d, u[i].key)
    ensures Update(d, u) == d + u
    decreases |u|
  {
    if u != [] {
      var e := u[0];
      var d' := d + [e];
      assert Put(d, e.key, e.value) == d' by {
        assert !Has(d, e.key);
        PutNew(d, e.key, e.value);
      }
      assert Valid(u[1..]) && forall i :: 0 <= i < |u[1..]| ==> !Has(d', u[1..][i].key) by {
        TailValid(u);
        KeysSnoc(d, e);
        forall i | 0 <= i < |u[1..]| ensures !Has(d', u[1..][i].key) {
          var k := u[1..][i].key;
          assert k == u[i + 1].key && !Has(d, k);
          assert k == Keys(u)[i + 1] && e.key == Keys(u)[0];
        }
      }
      assert Update(d, u) == Update(d', u[1..]);
      UpdateFresh(d', u[1..]);
      SnocThenRest(d, u);
    }
  }

  lemma HeadThenRest<T>(d: seq<T>, x: seq<T>)
    requires d != []
    ensures [d[0]] + (d[1..] + x) == d + x
  {
    assert d == [d[0]] + d[1..];
  }

  lemma SnocThenRest<T>(d: seq<T>, u: seq<T>)
    requires u != []
    ensures d + [u[0]] + u[1..] == d + u
  {
    assert u == [u[0]] + u[1..];
  }

  /** Re-assigning the entries of a table in order rebuilds it one entry at a time. */
  lemma PutNext<V>(d: Table<V>, j: nat)
    requires Valid(d) && j < |d|
    ensures Put(d[..j], d[j].key, d[j].value) == d[..j + 1]
  {
    assert Keys(d[..j]) == Keys(d)[..j];
    assert !Has(d[..j], d[j].key);
    PutNew(d[..j], d[j].key, d[j].value);
    assert d[..j + 1] == d[..j] + [d[j]];
  }
}
