/** `urlToRecord`: the query of an absolute URL split into dashboard filters and the five
    reserved keys the embedded page adds. */
module UrlToRecord {
  import opened Wrappers
  import opened Records

  /** The keys destructured out of the query; everything else is a filter. */
  const Reserved: set<string> := {"sdk", "embed_domain", "dashboard_id", "sandboxed_host", "_theme"}

  /** What `new URL(url)` makes of a string: an exception, or the parsed query's pairs. */
  datatype ParsedUrl = Malformed | WellFormed(searchParams: Pairs)

  /** The exception `new URL` throws. */
  datatype UrlError = InvalidUrl

  /** The `others` object: each reserved key's value, `None` for `undefined`. */
  datatype Others = Others(
    sdk: Option<string>,
    embedDomain: Option<string>,
    dashboardId: Option<string>,
    sandboxedHost: Option<string>,
    theme: Option<string>)

  datatype Extracted = Extracted(filters: Pairs, others: Others)

  /** The pairs whose value is not empty, in order. */
  function NonEmptyValues(q: Pairs): (r: Pairs)
    ensures forall i :: 0 <= i < |r| ==> r[i].1 != ""
    ensures forall k :: LastValue(r, k) == LastNonEmpty(q, k)
  {
    if |q| == 0 then []
    else
      var n := |q| - 1;
      if q[n].1 == "" then NonEmptyValues(q[..n])
      else
        assert (NonEmptyValues(q[..n]) + [q[n]])[..|NonEmptyValues(q[..n])|] == NonEmptyValues(q[..n]);
        NonEmptyValues(q[..n]) + [q[n]]
  }

  /** The value of the last pair named `k` whose value is not empty. */
  function LastNonEmpty(q: Pairs, k: string): Option<string>
  {
    if |q| == 0 then None
    else if q[|q| - 1].0 == k && q[|q| - 1].1 != "" then Some(q[|q| - 1].1)
    else LastNonEmpty(q[..|q| - 1], k)
  }

  /** `urlToRecord(url)`. Pairs with an empty value are dropped first; then every
      non-reserved key carries the last of its non-empty values in `filters`, and each
      reserved key's last non-empty value lands in `others`. */
  function UrlToRecord(url: ParsedUrl): (r: Result<Extracted, UrlError>)
    ensures url.Malformed? <==> r.Err?
    ensures r.Ok? ==> UniqueKeys(r.value.filters)
    ensures r.Ok? ==> forall k ::
      Lookup(r.value.filters, k) == (if k in Reserved then None else LastNonEmpty(url.searchParams, k))
    ensures r.Ok? ==> r.value.others == Others(
      LastNonEmpty(url.searchParams, "sdk"),
      LastNonEmpty(url.searchParams, "embed_domain"),
      LastNonEmpty(url.searchParams, "dashboard_id"),
      LastNonEmpty(url.searchParams, "sandboxed_host"),
      LastNonEmpty(url.searchParams, "_theme"))
  {
    match url
    case Malformed => Err(InvalidUrl)
    case WellFormed(params) =>
      var entries := FromEntries(NonEmptyValues(params));
      Ok(Extracted(
        RemoveKeys(entries, Reserved),
        Others(
          Lookup(entries, "sdk"),
          Lookup(entries, "embed_domain"),
          Lookup(entries, "dashboard_id"),
          Lookup(entries, "sandboxed_host"),
          Lookup(entries, "_theme"))))
  }

  /** `filters` holds no reserved key and no empty value. */
  lemma FiltersClean(url: ParsedUrl, i: nat)
    requires UrlToRecord(url).Ok?
    requires i < |UrlToRecord(url).value.filters|
    ensures UrlToRecord(url).value.filters[i].0 !in Reserved
    ensures UrlToRecord(url).value.filters[i].1 != ""
  {
    var f := UrlToRecord(url).value.filters;
    LookupUnique(f, i);
    LastNonEmptyNotEmpty(url.searchParams, f[i].0);
  }

  lemma {:induction false} LastNonEmptyNotEmpty(q: Pairs, k: string)
    ensures LastNonEmpty(q, k).Some? ==> LastNonEmpty(q, k).value != ""
  {
    if |q| > 0 {
      LastNonEmptyNotEmpty(q[..|q| - 1], k);
    }
  }

  /** Every non-reserved key with a non-empty value is a filter, with the last such value. */
  lemma FilterPresent(q: Pairs, j: nat)
    requires j < |q| && q[j].0 !in Reserved && q[j].1 != ""
    requires forall j' :: j < j' < |q| && q[j'].0 == q[j].0 ==> q[j'].1 == ""
    ensures Lookup(UrlToRecord(WellFormed(q)).value.filters, q[j].0) == Some(q[j].1)
  {
    LastNonEmptyAt(q, j);
  }

  lemma {:induction false} LastNonEmptyAt(q: Pairs, j: nat)
    requires j < |q| && q[j].1 != ""
    requires forall j' :: j < j' < |q| && q[j'].0 == q[j].0 ==> q[j'].1 == ""
    ensures LastNonEmpty(q, q[j].0) == Some(q[j].1)
  {
    var n := |q| - 1;
    if j < n {
      LastNonEmptyAt(q[..n], j);
    }
  }

  /** A reserved key that is absent, or present only with empty values, is `undefined`. */
  lemma {:induction false} ReservedAbsent(q: Pairs, k: string)
    requires forall j :: 0 <= j < |q| && q[j].0 == k ==> q[j].1 == ""
    ensures LastNonEmpty(q, k) == None
  {
    if |q| > 0 {
      ReservedAbsent(q[..|q| - 1], k);
    }
  }

  /** Filtering out empty values first changes nothing about the result. */
  lemma EmptyValuesIgnored(q: Pairs)
    ensures UrlToRecord(WellFormed(NonEmptyValues(q))) == UrlToRecord(WellFormed(q))
  {
    var a := NonEmptyValues(q);
    NonEmptyFixed(a);
  }

  lemma {:induction false} NonEmptyFixed(q: Pairs)
    requires forall i :: 0 <= i < |q| ==> q[i].1 != ""
    ensures NonEmptyValues(q) == q
  {
    if |q| > 0 {
      var n := |q| - 1;
      NonEmptyFixed(q[..n]);
      assert q == q[..n] + [q[n]];
    }
  }
}
