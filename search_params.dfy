/** The query-parameter store of `useSearchParams`: one state cell holding the current
    parameters, and `updateSearchParams`, which merges a patch into them and replaces the
    browser's history entry with the result. */
module SearchParams {
  import opened Wrappers
  import opened Records

  /** A `history.replace` call made by the store. Query serialisation is abstracted: an
      entry holds the parameters it would serialise. */
  datatype Navigation = Replace(search: Pairs)

  class SearchParamsStore {
    /** The `search_params` state cell. */
    var searchParams: Pairs
    /** Every history call made so far, oldest first. */
    var history: seq<Navigation>

    ghost predicate Valid()
      reads this
    {
      UniqueKeys(searchParams)
    }

    /** The initial state: `Object.fromEntries(new URLSearchParams(search))` for the
        location's query, given here as its pairs in order. */
    constructor (locationSearch: Pairs)
      ensures Valid()
      ensures searchParams == FromEntries(locationSearch)
      ensures history == []
    {
      searchParams := FromEntries(locationSearch);
      history := [];
    }

    /** `updateSearchParams(params)`. The callback closes over the `search_params` of the
        render that created it, given here as `rendered`: it is the current state unless an
        earlier call in the same commit has already replaced it. The patch lists the entries
        of `params` in order; a value that is `undefined` or `null` is `None`. */
    method UpdateSearchParams(rendered: Pairs, patch: Patch<string>)
      requires UniqueKeys(rendered)
      modifies this
      ensures Valid()
      ensures searchParams == ApplyPatch(rendered, patch)
      ensures history == old(history) + [Replace(searchParams)]
    {
      var newParams := Merged(rendered, patch);
      FromEntriesOfRecord(newParams);
      searchParams := FromEntries(newParams);  // Object.fromEntries(new_params.entries())
      history := history + [Replace(newParams)];
    }

    /** The `forEach` over the entries of `params`, on `new URLSearchParams(search_params)`:
        `delete` for `undefined`/`null`, `set` otherwise. */
    static method Merged(rendered: Pairs, patch: Patch<string>) returns (newParams: Pairs)
      requires UniqueKeys(rendered)
      ensures newParams == ApplyPatch(rendered, patch) && UniqueKeys(newParams)
    {
      newParams := rendered;
      var i := 0;
      while i < |patch|
        invariant 0 <= i <= |patch|
        invariant newParams == ApplyPatch(rendered, patch[..i])
        invariant UniqueKeys(newParams)
      {
        var (key, value) := patch[i];
        if value.None? {
          newParams := Delete(newParams, key);
        } else {
          newParams := Set(newParams, key, value.value);
        }
        assert patch[..i + 1][..i] == patch[..i];
        i := i + 1;
      }
      assert patch[..|patch|] == patch;
    }
  }

  /** The initial parameters hold, for each key of the location's query, its last value. */
  lemma InitialParamsLastWins(locationSearch: Pairs, k: string, v: string)
    ensures Lookup(FromEntries(locationSearch), k) == Some(v) <==>
      exists j :: 0 <= j < |locationSearch| && locationSearch[j] == (k, v) &&
        forall j' :: j < j' < |locationSearch| ==> locationSearch[j'].0 != k
  {
    LastValueSpec(locationSearch, k, v);
  }

  /** After an update, a key the patch names as `undefined`/`null` is gone, a key it names
      with a string has that string, and every other key keeps its value. */
  lemma UpdateMerges(params: Pairs, patch: Patch<string>, k: string)
    requires UniqueKeys(patch)
    ensures Lookup(ApplyPatch(params, patch), k) ==
      if exists j :: 0 <= j < |patch| && patch[j].0 == k
      then (var j :| 0 <= j < |patch| && patch[j].0 == k; patch[j].1)
      else Lookup(params, k)
  {
    LastValueNone(patch, k);
    if exists j :: 0 <= j < |patch| && patch[j].0 == k {
      var j :| 0 <= j < |patch| && patch[j].0 == k;
      forall j' | 0 <= j' < |patch| && patch[j'].0 == k ensures j' == j { }
      LastValueUnique(patch, j);
    }
  }

  /** Merging the same patch a second time changes nothing more. */
  lemma UpdateIdempotent(params: Pairs, patch: Patch<string>)
    requires UniqueKeys(params) && UniqueKeys(patch)
    ensures ApplyPatch(ApplyPatch(params, patch), patch) == ApplyPatch(params, patch)
  {
    ApplyPatchIdempotent(params, patch);
  }

  /** Setting a key that is present keeps its position; a new key goes to the end. */
  lemma UpdateKeepsPositions(params: Pairs, k: string, v: string)
    requires UniqueKeys(params)
    ensures forall i :: 0 <= i < |params| && params[i].0 == k ==>
      ApplyPatch(params, [(k, Some(v))]) == params[i := (k, v)]
    ensures Lookup(params, k).None? ==> ApplyPatch(params, [(k, Some(v))]) == params + [(k, v)]
  {
    assert [(k, Some(v))][..0] == [];
    forall i | 0 <= i < |params| && params[i].0 == k
      ensures ApplyPatch(params, [(k, Some(v))]) == params[i := (k, v)]
    {
      SetInPlace(params, k, v, i);
    }
  }
}
