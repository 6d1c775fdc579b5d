/** The own properties of a JavaScript object, kept in insertion order.

    `index.js` builds and edits plain objects (`scripts`, `package`,
    `config.env`) by property assignment and `delete`, and finally serialises
    them with `JSON.stringify`. JavaScript lists integer-like keys first, in
    ascending order, and every other key in the order it was first created;
    none of the keys these objects hold is integer-like, so the order is
    creation order throughout. An object is therefore modelled as a list of
    (key, value) entries: assigning to an existing key replaces its value in
    place, assigning to a new key appends it, `delete` removes it. */
module Fields {

  datatype Option<+T> = None | Some(value: T)

  type Entries<V> = seq<(string, V)>

  /** The JSON values the scaffolder reads and writes (`package.json`,
      `.eslintrc.json`); numbers are integral. */
  datatype Json =
    | JNull
    | JBool(b: bool)
    | JNum(n: int)
    | JStr(s: string)
    | JArr(items: seq<Json>)
    | JObj(members: Entries<Json>)

  /** `j[k]` on a parsed JSON value; `None` when `j` is not an object or has no `k`. */
  function Member(j: Json, k: string): Option<Json>
  {
    if j.JObj? then Get(j.members, k) else None
  }

  /** The property names, in insertion order (what `Object.keys` returns). */
  function Keys<V>(e: Entries<V>): seq<string>
  {
    if e == [] then [] else [e[0].0] + Keys(e[1..])
  }

  predicate Distinct(ks: seq<string>)
  {
    forall i, j :: 0 <= i < j < |ks| ==> ks[i] != ks[j]
  }

  /** `ks` with every occurrence of `k` dropped, the rest in order. */
  function Without(ks: seq<string>, k: string): (r: seq<string>)
    ensures k !in r
    ensures forall x :: x in r <==> x in ks && x != k
  {
    if ks == [] then []
    else if ks[0] == k then Without(ks[1..], k)
    else [ks[0]] + Without(ks[1..], k)
  }

  /** Property lookup: `obj[k]`, `None` standing for `undefined`. */
  function Get<V>(e: Entries<V>, k: string): (r: Option<V>)
    ensures r.Some? <==> k in Keys(e)
    ensures r.Some? ==> (k, r.value) in e
  {
    if e == [] then None
    else if e[0].0 == k then Some(e[0].1)
    else Get(e[1..], k)
  }

  /** Property assignment `obj[k] = v`. */
  function Put<V>(e: Entries<V>, k: string, v: V): Entries<V>
  {
    if e == [] then [(k, v)]
    else if e[0].0 == k then [(k, v)] + e[1..]
    else [e[0]] + Put(e[1..], k, v)
  }

  /** Property deletion `delete obj[k]`. */
  function Remove<V>(e: Entries<V>, k: string): Entries<V>
  {
    if e == [] then []
    else if e[0].0 == k then Remove(e[1..], k)
    else [e[0]] + Remove(e[1..], k)
  }

  /** After `obj[k] = v`, `obj[k]` is `v`, every other property reads as
      before, and `k` keeps its place or, if new, comes last. */
  lemma {:induction false} PutSpec<V>(e: Entries<V>, k: string, v: V)
    ensures Get(Put(e, k, v), k) == Some(v)
    ensures forall k' :: k' != k ==> Get(Put(e, k, v), k') == Get(e, k')
    ensures Keys(Put(e, k, v)) == if k in Keys(e) then Keys(e) else Keys(e) + [k]
  {
    if e != [] && e[0].0 != k {
      PutSpec(e[1..], k, v);
    }
  }

  /** After `delete obj[k]`, `obj[k]` is undefined, every other property
      reads as before, and the remaining keys keep their order. */
  lemma {:induction false} RemoveSpec<V>(e: Entries<V>, k: string)
    ensures Get(Remove(e, k), k) == None
    ensures forall k' :: k' != k ==> Get(Remove(e, k), k') == Get(e, k')
    ensures Keys(Remove(e, k)) == Without(Keys(e), k)
  {
    if e != [] {
      RemoveSpec(e[1..], k);
    }
  }

  lemma {:induction false} KeysAt<V>(e: Entries<V>)
    ensures |Keys(e)| == |e|
    ensures forall i :: 0 <= i < |e| ==> Keys(e)[i] == e[i].0
  {
    if e != [] {
      KeysAt(e[1..]);
    }
  }

  lemma KeysCons<V>(x: (string, V), t: Entries<V>)
    ensures Keys([x] + t) == [x.0] + Keys(t)
  {
    assert ([x] + t)[0] == x && ([x] + t)[1..] == t;
  }

  lemma {:induction false} KeysAppend<V>(a: Entries<V>, b: Entries<V>)
    ensures Keys(a + b) == Keys(a) + Keys(b)
  {
    if a == [] {
      assert a + b == b;
    } else {
      assert (a + b)[1..] == a[1..] + b;
      KeysAppend(a[1..], b);
    }
  }

  /** Assigning a property the object does not have appends it. */
  lemma {:induction false} PutNew<V>(e: Entries<V>, k: string, v: V)
    requires k !in Keys(e)
    ensures Put(e, k, v) == e + [(k, v)]
  {
    if e != [] {
      assert k !in Keys(e[1..]);
      PutNew(e[1..], k, v);
      assert e == [e[0]] + e[1..];
    }
  }

  lemma PutCons<V>(x: (string, V), t: Entries<V>, k: string, v: V)
    requires x.0 != k
    ensures Put([x] + t, k, v) == [x] + Put(t, k, v)
  {
    assert ([x] + t)[0] == x && ([x] + t)[1..] == t;
  }

  /** Properties created before `k` are untouched by assigning `k`. */
  lemma {:induction false} PutAfter<V>(a: Entries<V>, b: Entries<V>, k: string, v: V)
    requires k !in Keys(a)
    ensures Put(a + b, k, v) == a + Put(b, k, v)
  {
    if a == [] {
      assert a + b == b;
    } else {
      assert k !in Keys(a[1..]);
      PutAfter(a[1..], b, k, v);
      assert a + b == [a[0]] + (a[1..] + b);
      PutCons(a[0], a[1..] + b, k, v);
      assert a == [a[0]] + a[1..];
    }
  }

  lemma {:induction false} GetAfter<V>(a: Entries<V>, b: Entries<V>, k: string)
    requires k !in Keys(a)
    ensures Get(a + b, k) == Get(b, k)
  {
    if a == [] {
      assert a + b == b;
    } else {
      assert k !in Keys(a[1..]);
      assert (a + b)[0] == a[0] && (a + b)[1..] == a[1..] + b;
      GetAfter(a[1..], b, k);
    }
  }

  /** Looking up a property in two runs of assignments: the earlier run wins. */
  lemma {:induction false} GetConcat<V>(a: Entries<V>, b: Entries<V>, k: string)
    ensures Get(a + b, k) == if k in Keys(a) then Get(a, k) else Get(b, k)
  {
    if a == [] {
      assert a + b == b;
    } else {
      assert (a + b)[0] == a[0] && (a + b)[1..] == a[1..] + b;
      GetConcat(a[1..], b, k);
    }
  }

  /** Two runs of distinct keys with none in common make a distinct run. */
  lemma DistinctAppend(a: seq<string>, b: seq<string>)
    requires Distinct(a) && Distinct(b)
    requires forall x :: x in a ==> x !in b
    ensures Distinct(a + b)
  {
    forall i, j | 0 <= i < j < |a + b| ensures (a + b)[i] != (a + b)[j] {
      if j >= |a| && i < |a| {
        assert (a + b)[i] in a && (a + b)[j] in b;
      }
    }
  }

  lemma {:induction false} WithoutKeepsDistinct(ks: seq<string>, k: string)
    requires Distinct(ks)
    ensures Distinct(Without(ks, k))
  {
    if ks != [] {
      WithoutKeepsDistinct(ks[1..], k);
      assert ks[0] !in ks[1..] by {
        forall j | 0 <= j < |ks[1..]| ensures ks[1..][j] != ks[0] {
          assert ks[1..][j] == ks[j + 1];
        }
      }
    }
  }

  /** A JavaScript object never holds two properties of the same name;
      assignment and deletion keep it that way. */
  lemma PutKeepsDistinct<V>(e: Entries<V>, k: string, v: V)
    requires Distinct(Keys(e))
    ensures Distinct(Keys(Put(e, k, v)))
  {
    PutSpec(e, k, v);
  }

  lemma RemoveKeepsDistinct<V>(e: Entries<V>, k: string)
    requires Distinct(Keys(e))
    ensures Distinct(Keys(Remove(e, k)))
  {
    RemoveSpec(e, k);
    WithoutKeepsDistinct(Keys(e), k);
  }

  /** Assigning the properties `kvs` one after another. */
  function PutAll<V>(e: Entries<V>, kvs: Entries<V>): Entries<V>
    decreases |kvs|
  {
    if kvs == [] then e
    else Put(PutAll(e, kvs[..|kvs| - 1]), kvs[|kvs| - 1].0, kvs[|kvs| - 1].1)
  }

  /** The key order after assigning `names` in turn to an object with keys
      `ks`: a key already present keeps its place, a new one is appended. */
  function Assigned(ks: seq<string>, names: seq<string>): seq<string>
    decreases |names|
  {
    if names == [] then ks
    else
      var prev := Assigned(ks, names[..|names| - 1]);
      var k := names[|names| - 1];
      if k in prev then prev else prev + [k]
  }

  lemma PutAllSnoc<V>(e: Entries<V>, kvs: Entries<V>, k: string, v: V)
    ensures PutAll(e, kvs + [(k, v)]) == Put(PutAll(e, kvs), k, v)
  {
    assert (kvs + [(k, v)])[..|kvs|] == kvs;
  }

  lemma {:induction false} PutAllKeys<V>(e: Entries<V>, kvs: Entries<V>)
    ensures Keys(PutAll(e, kvs)) == Assigned(Keys(e), Keys(kvs))
    decreases |kvs|
  {
    if kvs != [] {
      var init := kvs[..|kvs| - 1];
      var last := kvs[|kvs| - 1];
      PutAllKeys(e, init);
      PutSpec(PutAll(e, init), last.0, last.1);
      assert kvs == init + [last];
      KeysAppend(init, [last]);
      assert Keys(kvs)[..|Keys(kvs)| - 1] == Keys(init);
    }
  }

  lemma DistinctPrefix(ks: seq<string>, n: nat)
    requires Distinct(ks) && n <= |ks|
    ensures Distinct(ks[..n])
  {
  }

  /** After assigning distinct keys, each assigned key holds its value and
      every other property reads as before. */
  lemma {:induction false} PutAllGet<V>(e: Entries<V>, kvs: Entries<V>, k: string)
    requires Distinct(Keys(kvs))
    ensures Get(PutAll(e, kvs), k) == if k in Keys(kvs) then Get(kvs, k) else Get(e, k)
    decreases |kvs|
  {
    if kvs != [] {
      var init := kvs[..|kvs| - 1];
      var last := kvs[|kvs| - 1];
      assert kvs == init + [last];
      KeysAppend(init, [last]);
      assert Keys(kvs) == Keys(init) + [last.0];
      assert Keys(init) == Keys(kvs)[..|Keys(init)|];
      DistinctPrefix(Keys(kvs), |Keys(init)|);
      PutAllGet(e, init, k);
      PutSpec(PutAll(e, init), last.0, last.1);
      GetConcat(init, [last], k);
      if k == last.0 {
        assert Keys(kvs)[|Keys(init)|] == k;
        assert k !in Keys(init);
      }
    }
  }
}
