/** Ordered string-keyed records. One shape serves both JavaScript plain objects (whose
    string keys keep their insertion order) and the name-value list of a URLSearchParams
    object (section 6.2 of the WHATWG URL Standard). */
module Records {
  import opened Wrappers

  /** Key-value pairs in order. */
  type Record<V> = seq<(string, V)>

  /** A query or a string-valued object such as `Record<string, string>`. */
  type Pairs = Record<string>

  /** A patch: `None` stands for a value that is `undefined` or `null`. */
  type Patch<V> = Record<Option<V>>

  /** No key occurs twice, as in every JavaScript object. */
  ghost predicate UniqueKeys<V>(p: Record<V>)
  {
    forall i, j :: 0 <= i < j < |p| ==> p[i].0 != p[j].0
  }

  /** The keys present. */
  ghost function KeySet<V>(p: Record<V>): set<string>
  {
    set i | 0 <= i < |p| :: p[i].0
  }

  /** The value of the first pair named `k` (`URLSearchParams.get`, or `obj[k]`). */
  function Lookup<V>(p: Record<V>, k: string): Option<V>
  {
    if |p| == 0 then None
    else if p[0].0 == k then Some(p[0].1)
    else Lookup(p[1..], k)
  }

  /** The value of the last pair named `k`. */
  function LastValue<V>(p: Record<V>, k: string): Option<V>
  {
    if |p| == 0 then None
    else if p[|p| - 1].0 == k then Some(p[|p| - 1].1)
    else LastValue(p[..|p| - 1], k)
  }

  lemma {:induction false} LookupNone<V>(p: Record<V>, k: string)
    ensures Lookup(p, k).None? <==> k !in KeySet(p)
  {
    if |p| > 0 {
      LookupNone(p[1..], k);
      assert KeySet(p) == {p[0].0} + KeySet(p[1..]) by {
        forall x | x in KeySet(p) ensures x in {p[0].0} + KeySet(p[1..]) {
          var i :| 0 <= i < |p| && p[i].0 == x;
          if i > 0 { assert p[1..][i - 1].0 == x; }
        }
        forall x | x in KeySet(p[1..]) ensures x in KeySet(p) {
          var i :| 0 <= i < |p[1..]| && p[1..][i].0 == x;
          assert p[i + 1].0 == x;
        }
      }
    }
  }

  /** In a record without duplicate keys, every pair is the one `Lookup` finds. */
  lemma {:induction false} LookupUnique<V>(p: Record<V>, j: nat)
    requires UniqueKeys(p)
    requires j < |p|
    ensures Lookup(p, p[j].0) == Some(p[j].1)
  {
    if j > 0 {
      assert UniqueKeys(p[1..]);
      LookupUnique(p[1..], j - 1);
    }
  }

  /** `URLSearchParams.delete(k)`, or `delete obj[k]`: every pair named `k` goes. */
  function Delete<V>(p: Record<V>, k: string): (r: Record<V>)
    ensures Lookup(r, k) == None
    ensures forall k' :: k' != k ==> Lookup(r, k') == Lookup(p, k')
    ensures KeySet(r) == KeySet(p) - {k}
    ensures Lookup(p, k) == None ==> r == p
    ensures UniqueKeys(p) ==> UniqueKeys(r)
  {
    if |p| == 0 then []
    else if p[0].0 == k then
      KeysOfTail(p);
      Delete(p[1..], k)
    else
      KeysOfTail(p);
      KeysOfCons(p[0], Delete(p[1..], k));
      [p[0]] + Delete(p[1..], k)
  }

  /** `URLSearchParams.set(k, v)`: the first pair named `k` takes the value `v` in place and
      later pairs named `k` go; without such a pair, `(k, v)` is appended. On an object
      this is `obj[k] = v`. */
  function Set<V>(p: Record<V>, k: string, v: V): (r: Record<V>)
    ensures Lookup(r, k) == Some(v)
    ensures forall k' :: k' != k ==> Lookup(r, k') == Lookup(p, k')
    ensures KeySet(r) == KeySet(p) + {k}
    ensures UniqueKeys(p) ==> UniqueKeys(r)
    ensures Lookup(p, k) == None ==> r == p + [(k, v)]
  {
    if |p| == 0 then [(k, v)]
    else if p[0].0 == k then
      KeysOfTail(p);
      KeysOfCons((k, v), Delete(p[1..], k));
      [(k, v)] + Delete(p[1..], k)
    else
      KeysOfTail(p);
      KeysOfCons(p[0], Set(p[1..], k, v));
      assert p == [p[0]] + p[1..];
      [p[0]] + Set(p[1..], k, v)
  }

  lemma KeysOfTail<V>(p: Record<V>)
    requires |p| > 0
    ensures KeySet(p) == {p[0].0} + KeySet(p[1..])
    ensures UniqueKeys(p) ==> UniqueKeys(p[1..]) && p[0].0 !in KeySet(p[1..])
  {
    assert p == [p[0]] + p[1..];
    KeysOfCons(p[0], p[1..]);
  }

  lemma KeysOfCons<V>(x: (string, V), q: Record<V>)
    ensures KeySet([x] + q) == {x.0} + KeySet(q)
    ensures UniqueKeys([x] + q) <==> UniqueKeys(q) && x.0 !in KeySet(q)
  {
    var p := [x] + q;
    forall y | y in KeySet(p) ensures y in {x.0} + KeySet(q) {
      var i :| 0 <= i < |p| && p[i].0 == y;
      if i > 0 { assert q[i - 1].0 == y; }
    }
    forall y | y in KeySet(q) ensures y in KeySet(p) {
      var i :| 0 <= i < |q| && q[i].0 == y;
      assert p[i + 1].0 == y;
    }
    assert p[0].0 == x.0;
    assert KeySet(p) == {x.0} + KeySet(q);
    if UniqueKeys(q) && x.0 !in KeySet(q) {
      forall i, j | 0 <= i < j < |p| ensures p[i].0 != p[j].0 {
        if i == 0 { assert p[j].0 == q[j - 1].0; } else { assert p[i].0 == q[i - 1].0; }
      }
    }
    if UniqueKeys(p) {
      forall i, j | 0 <= i < j < |q| ensures q[i].0 != q[j].0 {
        assert q[i] == p[i + 1] && q[j] == p[j + 1];
      }
      forall i | 0 <= i < |q| ensures q[i].0 != x.0 {
        assert q[i] == p[i + 1] && x == p[0];
      }
    }
  }

  /** `set` on a key that is present keeps that key's position. */
  lemma {:induction false} SetInPlace<V>(p: Record<V>, k: string, v: V, i: nat)
    requires UniqueKeys(p)
    requires i < |p| && p[i].0 == k
    ensures Set(p, k, v) == p[i := (k, v)]
  {
    KeysOfTail(p);
    if i == 0 {
      LookupNone(p[1..], k);
    } else {
      SetInPlace(p[1..], k, v, i - 1);
    }
  }

  /** `set` of the value a key already has changes nothing. */
  lemma SetSame<V>(p: Record<V>, k: string, v: V)
    requires UniqueKeys(p)
    requires Lookup(p, k) == Some(v)
    ensures Set(p, k, v) == p
  {
    LookupNone(p, k);
    var i :| 0 <= i < |p| && p[i].0 == k;
    LookupUnique(p, i);
    SetInPlace(p, k, v, i);
  }

  /** `Object.fromEntries(entries)`: each pair is assigned in turn, so the first occurrence
      of a key fixes its position and the last occurrence its value. */
  function FromEntries<V>(q: Record<V>): (r: Record<V>)
    ensures UniqueKeys(r)
    ensures forall k :: Lookup(r, k) == LastValue(q, k)
  {
    if |q| == 0 then []
    else
      var n := |q| - 1;
      Set(FromEntries(q[..n]), q[n].0, q[n].1)
  }

  /** An independent description of `LastValue`: the value of a pair named `k` after which
      no pair is named `k`. */
  lemma {:induction false} LastValueSpec<V>(q: Record<V>, k: string, v: V)
    ensures LastValue(q, k) == Some(v) <==>
      exists j :: 0 <= j < |q| && q[j] == (k, v) && forall j' :: j < j' < |q| ==> q[j'].0 != k
  {
    if |q| > 0 {
      var n := |q| - 1;
      LastValueSpec(q[..n], k, v);
      if q[n].0 == k {
        if q[n] != (k, v) {
          forall j | 0 <= j < |q| && q[j] == (k, v)
            ensures exists j' :: j < j' < |q| && q[j'].0 == k
          {
            assert j < n;
          }
        }
      } else {
        if LastValue(q[..n], k) == Some(v) {
          var j :| 0 <= j < n && q[..n][j] == (k, v) && forall j' :: j < j' < n ==> q[..n][j'].0 != k;
          assert q[j] == (k, v);
          forall j' | j < j' < |q| ensures q[j'].0 != k {
            if j' < n { assert q[..n][j'] == q[j']; }
          }
        }
        forall j | 0 <= j < |q| && q[j] == (k, v) && (forall j' :: j < j' < |q| ==> q[j'].0 != k)
          ensures LastValue(q[..n], k) == Some(v)
        {
          assert j < n;
          assert q[..n][j] == (k, v);
          assert forall j' :: j < j' < n ==> q[..n][j'].0 != k by {
            forall j' | j < j' < n ensures q[..n][j'].0 != k { assert q[..n][j'] == q[j']; }
          }
        }
      }
    }
  }

  /** No pair is named `k` exactly when `LastValue` finds nothing. */
  lemma {:induction false} LastValueNone<V>(q: Record<V>, k: string)
    ensures LastValue(q, k).None? <==> k !in KeySet(q)
  {
    if |q| > 0 {
      var n := |q| - 1;
      LastValueNone(q[..n], k);
      assert q == q[..n] + [q[n]];
      assert KeySet(q) == KeySet(q[..n]) + {q[n].0} by {
        forall x | x in KeySet(q) ensures x in KeySet(q[..n]) + {q[n].0} {
          var i :| 0 <= i < |q| && q[i].0 == x;
          if i < n { assert q[..n][i].0 == x; }
        }
        forall x | x in KeySet(q[..n]) ensures x in KeySet(q) {
          var i :| 0 <= i < n && q[..n][i].0 == x;
          assert q[i].0 == x;
        }
      }
    }
  }

  lemma {:induction false} LastValueUnique<V>(q: Record<V>, j: nat)
    requires UniqueKeys(q)
    requires j < |q|
    ensures LastValue(q, q[j].0) == Some(q[j].1)
  {
    LastValueSpec(q, q[j].0, q[j].1);
  }

  /** In a record without duplicate keys, first and last occurrence agree. */
  lemma LookupIsLastValue<V>(p: Record<V>, k: string)
    requires UniqueKeys(p)
    ensures Lookup(p, k) == LastValue(p, k)
  {
    LookupNone(p, k);
    LastValueNone(p, k);
    if k in KeySet(p) {
      var i :| 0 <= i < |p| && p[i].0 == k;
      LookupUnique(p, i);
      LastValueUnique(p, i);
    }
  }

  /** `Object.fromEntries` of a record's own entries rebuilds that record. */
  lemma {:induction false} FromEntriesOfRecord<V>(p: Record<V>)
    requires UniqueKeys(p)
    ensures FromEntries(p) == p
  {
    if |p| > 0 {
      var n := |p| - 1;
      assert UniqueKeys(p[..n]);
      FromEntriesOfRecord(p[..n]);
      forall i | 0 <= i < n ensures p[..n][i].0 != p[n].0 {
        assert p[..n][i] == p[i];
      }
      assert p[n].0 !in KeySet(p[..n]);
      LookupNone(p[..n], p[n].0);
      assert p == p[..n] + [p[n]];
    }
  }

  lemma {:induction false} LastValueAppend<V>(a: Record<V>, b: Record<V>, k: string)
    ensures LastValue(a + b, k) == if LastValue(b, k).Some? then LastValue(b, k) else LastValue(a, k)
  {
    if |b| == 0 {
      assert a + b == a;
    } else {
      var n := |b| - 1;
      assert (a + b)[..|a + b| - 1] == a + b[..n];
      LastValueAppend(a, b[..n], k);
    }
  }

  /** `{...a, ...b}`: the keys of `a` then the new keys of `b`; on a shared key `b` wins. */
  function Spread<V>(a: Record<V>, b: Record<V>): (r: Record<V>)
    ensures UniqueKeys(r)
    ensures forall k :: Lookup(r, k) == if LastValue(b, k).Some? then LastValue(b, k) else LastValue(a, k)
  {
    SpreadLookup(a, b);
    FromEntries(a + b)
  }

  lemma SpreadLookup<V>(a: Record<V>, b: Record<V>)
    ensures forall k :: LastValue(a + b, k) == if LastValue(b, k).Some? then LastValue(b, k) else LastValue(a, k)
  {
    forall k { LastValueAppend(a, b, k); }
  }

  /** Every pair whose key lies outside `ks`, in order (object rest destructuring). */
  function RemoveKeys<V>(p: Record<V>, ks: set<string>): (r: Record<V>)
    ensures forall k :: Lookup(r, k) == if k in ks then None else Lookup(p, k)
    ensures KeySet(r) == KeySet(p) - ks
    ensures UniqueKeys(p) ==> UniqueKeys(r)
  {
    if |p| == 0 then []
    else if p[0].0 in ks then
      KeysOfTail(p);
      RemoveKeys(p[1..], ks)
    else
      KeysOfTail(p);
      KeysOfCons(p[0], RemoveKeys(p[1..], ks));
      [p[0]] + RemoveKeys(p[1..], ks)
  }

  /** Every pair of a record as a patch entry that sets it. */
  function AsPatch<V>(p: Record<V>): (r: Patch<V>)
    ensures |r| == |p|
    ensures forall i :: 0 <= i < |p| ==> r[i] == (p[i].0, Some(p[i].1))
  {
    seq(|p|, i requires 0 <= i < |p| => (p[i].0, Some(p[i].1)))
  }

  /** One patch entry: `None` deletes the key, `Some(v)` sets it to `v`. */
  function Step<V>(p: Record<V>, e: (string, Option<V>)): Record<V>
  {
    if e.1.None? then Delete(p, e.0) else Set(p, e.0, e.1.value)
  }

  /** The patch applied entry by entry in order. After it, a key the patch names has the
      value of its last entry (absent when that is `None`); every other key keeps its value. */
  function ApplyPatch<V>(p: Record<V>, patch: Patch<V>): (r: Record<V>)
    ensures UniqueKeys(p) ==> UniqueKeys(r)
    ensures forall k :: Lookup(r, k) == (if LastValue(patch, k).Some? then LastValue(patch, k).value else Lookup(p, k))
  {
    if |patch| == 0 then p
    else
      var n := |patch| - 1;
      Step(ApplyPatch(p, patch[..n]), patch[n])
  }

  /** A patch every entry of which is already reflected leaves the record unchanged. */
  lemma {:induction false} ApplyReflectedPatch<V>(r: Record<V>, patch: Patch<V>)
    requires forall j :: 0 <= j < |patch| ==> Step(r, patch[j]) == r
    ensures ApplyPatch(r, patch) == r
  {
    if |patch| > 0 {
      ApplyReflectedPatch(r, patch[..|patch| - 1]);
    }
  }

  /** After a patch with distinct keys, each of its entries is reflected. */
  lemma PatchReflected<V>(p: Record<V>, patch: Patch<V>, j: nat)
    requires UniqueKeys(p) && UniqueKeys(patch)
    requires j < |patch|
    ensures Step(ApplyPatch(p, patch), patch[j]) == ApplyPatch(p, patch)
  {
    var r := ApplyPatch(p, patch);
    LastValueUnique(patch, j);
    if patch[j].1.Some? {
      SetSame(r, patch[j].0, patch[j].1.value);
    }
  }

  /** Merging the same patch twice gives what merging it once gives. */
  lemma ApplyPatchIdempotent<V>(p: Record<V>, patch: Patch<V>)
    requires UniqueKeys(p) && UniqueKeys(patch)
    ensures ApplyPatch(ApplyPatch(p, patch), patch) == ApplyPatch(p, patch)
  {
    forall j | 0 <= j < |patch|
      ensures Step(ApplyPatch(p, patch), patch[j]) == ApplyPatch(p, patch)
    {
      PatchReflected(p, patch, j);
    }
    ApplyReflectedPatch(ApplyPatch(p, patch), patch);
  }

  /** Merging a record's own entries into it changes nothing. */
  lemma ApplyOwnEntries<V>(p: Record<V>)
    requires UniqueKeys(p)
    ensures ApplyPatch(p, AsPatch(p)) == p
  {
    forall j | 0 <= j < |p| ensures Step(p, AsPatch(p)[j]) == p {
      LookupUnique(p, j);
      SetSame(p, p[j].0, p[j].1);
    }
    ApplyReflectedPatch(p, AsPatch(p));
  }
}
