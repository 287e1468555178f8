/**
 * The dimension resolver of the dashboard API
 * (dashboard-api/controller/controller.js): given report rows and the name
 * of a dimension, it replaces each row's dimension value (an identifier)
 * by a display value looked up in an Elasticsearch index, remembering the
 * answers it has already had so that a repeated identifier is not looked up
 * again.
 */
module DimensionResolver {
  import opened Js

  /** An entry of the resolver table: the dimension it serves, the index to
      look identifiers up in and the field of the document to display. */
  datatype Resolver = Resolver(name: string, indexname: string, fieldname: string)

  /** A report row. */
  type Record = Object

  /** What the search client's `get` does: it rejects, or it resolves to a
      response whose `_source` document is present or missing. */
  datatype Reply = Threw | Returned(source: Option<Object>)

  /** The search cluster as the resolver sees it during one call:
      `lookup(index, id)` is the outcome of `client.get({ index, id })`. */
  type Lookup = (string, Value) -> Reply

  /** An entry of the memo list: a looked-up identifier and its display
      value. */
  datatype Cached = Cached(name: Value, value: Value)

  const Unknown := Str("unknown")

  /** The resolver serving `dimensions`: the first table entry of that name. */
  function ResolverFor(resolvers: seq<Resolver>, dimensions: string): (r: Option<Resolver>)
    ensures r.None? <==> forall i :: 0 <= i < |resolvers| ==> resolvers[i].name != dimensions
    ensures r.Some? ==> exists i :: 0 <= i < |resolvers| && resolvers[i] == r.value && r.value.name == dimensions &&
                                    forall j :: 0 <= j < i ==> resolvers[j].name != dimensions
  {
    Find(resolvers, (res: Resolver) => res.name == dimensions)
  }

  /** The outcome of the `try` block for identifier `id`: nothing when the
      lookup rejects or the response has no `_source` (reading a field of it
      throws), and otherwise the document's field, or `'unknown'` when that
      is falsy. */
  function Fetch(lookup: Lookup, r: Resolver, id: Value): (w: Option<Value>)
    ensures w.Some? <==> lookup(r.indexname, id).Returned? && lookup(r.indexname, id).source.Some?
    ensures w.Some? ==> Truthy(w.value)
    ensures w.Some? && Truthy(Get(lookup(r.indexname, id).source.value, r.fieldname)) ==>
              w.value == Get(lookup(r.indexname, id).source.value, r.fieldname)
    ensures w.Some? && !Truthy(Get(lookup(r.indexname, id).source.value, r.fieldname)) ==> w.value == Unknown
  {
    match lookup(r.indexname, id)
    case Threw => None
    case Returned(source) =>
      if source.None? then None else Some(Or(Get(source.value, r.fieldname), Unknown))
  }

  /** What becomes of one row: a falsy value becomes `'unknown'`, a value
      whose lookup fails is left as it is, and any other value is replaced
      by its display value. No other field changes, and the dimension is
      truthy afterwards. */
  function ResolveRecord(lookup: Lookup, r: Resolver, dimensions: string, rec: Record): (out: Record)
    ensures forall k :: k != dimensions ==> (k in out <==> k in rec) && (k in rec ==> out[k] == rec[k])
    ensures !Truthy(Get(rec, dimensions)) ==> dimensions in out && out[dimensions] == Unknown
    ensures Truthy(Get(rec, dimensions)) && Fetch(lookup, r, Get(rec, dimensions)).None? ==> out == rec
    ensures Truthy(Get(rec, dimensions)) && Fetch(lookup, r, Get(rec, dimensions)).Some? ==>
              dimensions in out && out[dimensions] == Fetch(lookup, r, Get(rec, dimensions)).value
    ensures Truthy(Get(out, dimensions))
  {
    var v := Get(rec, dimensions);
    if !Truthy(v) then rec[dimensions := Unknown]
    else match Fetch(lookup, r, v)
      case None => rec
      case Some(w) => rec[dimensions := w]
  }

  /** The dimension values of the rows, in order. */
  function Column(recs: seq<Record>, dimensions: string): (col: seq<Value>)
    ensures |col| == |recs| && forall i :: 0 <= i < |recs| ==> col[i] == Get(recs[i], dimensions)
  {
    seq(|recs|, i requires 0 <= i < |recs| => Get(recs[i], dimensions))
  }

  /** The identifiers looked up while resolving `recs`, in order: a row's
      value is looked up when it is truthy and no earlier row with the same
      value had a successful lookup. */
  function Lookups(lookup: Lookup, r: Resolver, dimensions: string, recs: seq<Record>): (ids: seq<Value>)
    ensures forall i :: 0 <= i < |ids| ==> Truthy(ids[i]) && ids[i] in Column(recs, dimensions)
  {
    if recs == [] then []
    else
      var prefix := recs[..|recs| - 1];
      var v := Get(recs[|recs| - 1], dimensions);
      var earlier := Lookups(lookup, r, dimensions, prefix);
      assert forall i :: 0 <= i < |prefix| ==> Column(prefix, dimensions)[i] == Column(recs, dimensions)[i];
      earlier + (if Truthy(v) && !(Fetch(lookup, r, v).Some? && v in Column(prefix, dimensions)) then [v] else [])
  }

  /** A dimension value of `0` is falsy: it becomes `'unknown'` and is not
      looked up. */
  lemma ZeroIsUnknown(lookup: Lookup, r: Resolver, dimensions: string, rec: Record)
    requires Get(rec, dimensions) == Num(0)
    ensures ResolveRecord(lookup, r, dimensions, rec)[dimensions] == Unknown
    ensures Lookups(lookup, r, dimensions, [rec]) == []
  {
    assert [rec][..0] == [];
  }

  /** The last row's value joins the column. */
  lemma ColumnSnoc(recs: seq<Record>, dimensions: string)
    requires recs != []
    ensures Column(recs, dimensions) == Column(recs[..|recs| - 1], dimensions) + [Get(recs[|recs| - 1], dimensions)]
  {
  }

  /** An identifier whose lookup succeeds is looked up once if some row has
      it and is truthy, and never otherwise, however many rows repeat it. */
  lemma {:induction false} LookedUpOnce(lookup: Lookup, r: Resolver, dimensions: string, recs: seq<Record>, v: Value)
    requires Fetch(lookup, r, v).Some?
    ensures multiset(Lookups(lookup, r, dimensions, recs))[v] ==
            if Truthy(v) && v in Column(recs, dimensions) then 1 else 0
  {
    if recs != [] {
      var prefix := recs[..|recs| - 1];
      LookedUpOnce(lookup, r, dimensions, prefix, v);
      ColumnSnoc(recs, dimensions);
    }
  }

  /** A truthy identifier whose lookup fails is looked up again for every
      row that has it. */
  lemma {:induction false} LookedUpEachTime(lookup: Lookup, r: Resolver, dimensions: string, recs: seq<Record>, v: Value)
    requires Truthy(v) && Fetch(lookup, r, v).None?
    ensures multiset(Lookups(lookup, r, dimensions, recs))[v] == multiset(Column(recs, dimensions))[v]
  {
    if recs != [] {
      var prefix := recs[..|recs| - 1];
      LookedUpEachTime(lookup, r, dimensions, prefix, v);
      ColumnSnoc(recs, dimensions);
    }
  }

  /** The memo list is sound: every entry is a truthy identifier with a
      successful lookup, recorded with its display value; no identifier is
      recorded twice. */
  ghost predicate CacheSound(cache: seq<Cached>, lookup: Lookup, r: Resolver)
  {
    && (forall k :: 0 <= k < |cache| ==> Truthy(cache[k].name) && Fetch(lookup, r, cache[k].name) == Some(cache[k].value))
    && (forall a, b :: 0 <= a < b < |cache| ==> cache[a].name != cache[b].name)
  }

  /** The memo list holds exactly the truthy values of `recs` whose lookup
      succeeds. */
  ghost predicate CacheCovers(cache: seq<Cached>, lookup: Lookup, r: Resolver, dimensions: string, recs: seq<Record>)
  {
    && (forall k :: 0 <= k < |cache| ==> cache[k].name in Column(recs, dimensions))
    && (forall i :: 0 <= i < |recs| && Truthy(Get(recs[i], dimensions)) && Fetch(lookup, r, Get(recs[i], dimensions)).Some? ==>
          exists k :: 0 <= k < |cache| && cache[k].name == Get(recs[i], dimensions))
  }

  /** Whether the memo list has an entry for `v`. */
  predicate Remembered(cache: seq<Cached>, v: Value)
  {
    exists k :: 0 <= k < |cache| && cache[k].name == v
  }

  /** The memo list after visiting a row whose value is `v`: a new entry
      exactly when `v` is truthy, not yet remembered, and its lookup
      succeeds. */
  function Remember(cache: seq<Cached>, lookup: Lookup, r: Resolver, v: Value): seq<Cached>
  {
    if Truthy(v) && !Remembered(cache, v) && Fetch(lookup, r, v).Some?
    then cache + [Cached(v, Fetch(lookup, r, v).value)]
    else cache
  }

  /** Visiting one more row looks its value up exactly when the value is
      truthy and the memo list has no entry for it. */
  lemma LookupsStep(lookup: Lookup, r: Resolver, dimensions: string, prefix: seq<Record>, rec: Record, cache: seq<Cached>)
    requires CacheSound(cache, lookup, r) && CacheCovers(cache, lookup, r, dimensions, prefix)
    ensures var v := Get(rec, dimensions);
            Lookups(lookup, r, dimensions, prefix + [rec]) ==
            Lookups(lookup, r, dimensions, prefix) + (if Truthy(v) && !Remembered(cache, v) then [v] else [])
  {
    var recs := prefix + [rec];
    var v := Get(rec, dimensions);
    assert recs[..|recs| - 1] == prefix;
    if Fetch(lookup, r, v).Some? && v in Column(prefix, dimensions) {
      var i :| 0 <= i < |prefix| && Column(prefix, dimensions)[i] == v;
      assert Get(prefix[i], dimensions) == v;
    }
  }

  /** Visiting one more row keeps the memo list sound and covering. */
  lemma RememberStep(lookup: Lookup, r: Resolver, dimensions: string, prefix: seq<Record>, rec: Record, cache: seq<Cached>)
    requires CacheSound(cache, lookup, r) && CacheCovers(cache, lookup, r, dimensions, prefix)
    ensures var next := Remember(cache, lookup, r, Get(rec, dimensions));
            CacheSound(next, lookup, r) && CacheCovers(next, lookup, r, dimensions, prefix + [rec])
  {
    var recs := prefix + [rec];
    var v := Get(rec, dimensions);
    var next := Remember(cache, lookup, r, v);
    assert Column(recs, dimensions) == Column(prefix, dimensions) + [v];
    forall i | 0 <= i < |recs| && Truthy(Get(recs[i], dimensions)) && Fetch(lookup, r, Get(recs[i], dimensions)).Some?
      ensures exists k :: 0 <= k < |next| && next[k].name == Get(recs[i], dimensions)
    {
      if i < |prefix| {
        assert recs[i] == prefix[i];
        var k :| 0 <= k < |cache| && cache[k].name == Get(prefix[i], dimensions);
        assert next[k] == cache[k];
      } else if !Remembered(cache, v) {
        assert next[|cache|].name == v;
      }
    }
  }

  /** A row whose value the memo list remembers is resolved to the
      remembered display value. */
  lemma RememberedResolves(lookup: Lookup, r: Resolver, dimensions: string, rec: Record, cache: seq<Cached>, k: nat)
    requires CacheSound(cache, lookup, r) && k < |cache| && cache[k].name == Get(rec, dimensions)
    ensures ResolveRecord(lookup, r, dimensions, rec) == rec[dimensions := cache[k].value]
  {
  }

  /** The loop's bookkeeping from row `i` to row `i + 1`. */
  lemma VisitStep(lookup: Lookup, r: Resolver, dimensions: string, orig: seq<Record>, i: nat, cache: seq<Cached>)
    requires i < |orig| && CacheSound(cache, lookup, r) && CacheCovers(cache, lookup, r, dimensions, orig[..i])
    ensures var v := Get(orig[i], dimensions);
            var next := Remember(cache, lookup, r, v);
            && CacheSound(next, lookup, r) && CacheCovers(next, lookup, r, dimensions, orig[..i + 1])
            && Lookups(lookup, r, dimensions, orig[..i + 1]) ==
               Lookups(lookup, r, dimensions, orig[..i]) + (if Truthy(v) && !Remembered(cache, v) then [v] else [])
  {
    assert orig[..i + 1] == orig[..i] + [orig[i]];
    LookupsStep(lookup, r, dimensions, orig[..i], orig[i], cache);
    RememberStep(lookup, r, dimensions, orig[..i], orig[i], cache);
  }

  /** One turn of the loop for a row `rec`, given the memo list so far:
      the rewritten row, the memo list after it, and whether the index was
      asked. */
  method VisitRow(rec: Record, dimensions: string, r: Resolver, lookup: Lookup, foundedValue: seq<Cached>)
    returns (row: Record, cache: seq<Cached>, asked: bool)
    requires CacheSound(foundedValue, lookup, r)
    ensures row == ResolveRecord(lookup, r, dimensions, rec)
    ensures cache == Remember(foundedValue, lookup, r, Get(rec, dimensions))
    ensures asked <==> Truthy(Get(rec, dimensions)) && !Remembered(foundedValue, Get(rec, dimensions))
  {
    var v := Get(rec, dimensions);
    row, cache, asked := rec, foundedValue, false;
    var prevValue := Find(foundedValue, (founded: Cached) => founded.name == v);
    if prevValue.Some? {
      ghost var k :| 0 <= k < |foundedValue| && foundedValue[k] == prevValue.value && foundedValue[k].name == v;
      RememberedResolves(lookup, r, dimensions, rec, foundedValue, k);
      row := rec[dimensions := prevValue.value.value];
    } else if Truthy(v) {
      var response := lookup(r.indexname, v);
      asked := true;
      if response.Returned? && response.source.Some? {
        var w := Or(Get(response.source.value, r.fieldname), Unknown);
        cache := foundedValue + [Cached(v, w)];
        row := rec[dimensions := w];
      }
    } else {
      row := rec[dimensions := Unknown];
    }
  }

  /** One turn of the loop over `data`: row `i` is rewritten and the memo
      list and the record of lookups are extended. */
  method ResolveAt(data: array<Record>, i: nat, dimensions: string, r: Resolver, lookup: Lookup,
                   ghost orig: seq<Record>, ghost target: seq<Record>,
                   foundedValue: seq<Cached>, ghost calls: seq<Value>)
    returns (cache: seq<Cached>, ghost calls': seq<Value>)
    requires i < data.Length == |orig| == |target|
    requires forall k :: 0 <= k < |orig| ==> target[k] == ResolveRecord(lookup, r, dimensions, orig[k])
    requires forall k :: 0 <= k < i ==> data[k] == target[k]
    requires forall k :: i <= k < data.Length ==> data[k] == orig[k]
    requires calls == Lookups(lookup, r, dimensions, orig[..i])
    requires CacheSound(foundedValue, lookup, r)
    requires CacheCovers(foundedValue, lookup, r, dimensions, orig[..i])
    modifies data
    ensures forall k :: 0 <= k < i + 1 ==> data[k] == target[k]
    ensures forall k :: i + 1 <= k < data.Length ==> data[k] == orig[k]
    ensures calls' == Lookups(lookup, r, dimensions, orig[..i + 1])
    ensures CacheSound(cache, lookup, r)
    ensures CacheCovers(cache, lookup, r, dimensions, orig[..i + 1])
  {
    VisitStep(lookup, r, dimensions, orig, i, foundedValue);
    var row, asked;
    row, cache, asked := VisitRow(data[i], dimensions, r, lookup, foundedValue);
    calls' := if asked then calls + [Get(data[i], dimensions)] else calls;
    data[i] := row;
  }

  /** `resolver(data, dimensions)`: rewrites the dimension of every row in
      place and returns the same array. `calls` are the identifiers looked
      up, in order, and `cache` is the memo list at the end. */
  method Resolve(data: array<Record>, dimensions: string, resolvers: seq<Resolver>, lookup: Lookup)
    returns (out: array<Record>, ghost calls: seq<Value>, ghost cache: seq<Cached>)
    modifies data
    ensures out == data
    ensures ResolverFor(resolvers, dimensions).None? ==> data[..] == old(data[..]) && calls == []
    ensures ResolverFor(resolvers, dimensions).Some? ==>
              var r := ResolverFor(resolvers, dimensions).value;
              && (forall i :: 0 <= i < data.Length ==> data[i] == ResolveRecord(lookup, r, dimensions, old(data[i])))
              && calls == Lookups(lookup, r, dimensions, old(data[..]))
              && CacheSound(cache, lookup, r)
              && CacheCovers(cache, lookup, r, dimensions, old(data[..]))
              && (forall i, k :: 0 <= i < data.Length && 0 <= k < |cache| && cache[k].name == Get(old(data[i]), dimensions) ==>
                    dimensions in data[i] && data[i][dimensions] == cache[k].value)
  {
    out := data;
    calls := [];
    cache := [];
    var resolver := ResolverFor(resolvers, dimensions);
    if resolver.None? {
      return;
    }
    var r := resolver.value;
    ghost var orig := data[..];
    ghost var target := seq(data.Length, k requires 0 <= k < data.Length => ResolveRecord(lookup, r, dimensions, orig[k]));
    var foundedValue: seq<Cached> := [];
    for i := 0 to data.Length
      invariant forall k :: 0 <= k < i ==> data[k] == target[k]
      invariant forall k :: i <= k < data.Length ==> data[k] == orig[k]
      invariant calls == Lookups(lookup, r, dimensions, orig[..i])
      invariant CacheSound(foundedValue, lookup, r)
      invariant CacheCovers(foundedValue, lookup, r, dimensions, orig[..i])
    {
      foundedValue, calls := ResolveAt(data, i, dimensions, r, lookup, orig, target, foundedValue, calls);
    }
    assert orig[..data.Length] == orig;
    cache := foundedValue;
    forall i, k | 0 <= i < data.Length && 0 <= k < |cache| && cache[k].name == Get(orig[i], dimensions)
      ensures dimensions in data[i] && data[i][dimensions] == cache[k].value
    {
      RememberedResolves(lookup, r, dimensions, orig[i], cache, k);
    }
  }
}
