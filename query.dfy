/** The query-string encoder of `PortableContacts::Client`: `options_for`
    and its helpers `fields_options`, `sort_options`, `filter_options`,
    `pagination_options` and `to_query_list`.

    An options hash maps keys (symbols or strings) to Ruby values. The
    encoder renders the empty string for nil or an empty hash; otherwise
    `?` followed by every generated `key=value` pair, sorted byte-wise on the
    whole pair text and joined with `&`. */
module Query {
  import opened Ruby
  import opened Strings
  import opened ByteOrder
  import opened UriEscape

  /** A hash key: a Symbol or a String. */
  datatype Key = Sym(name: Bytes) | Str(name: Bytes)

  /** The Ruby values an option can hold. A Hash is given as its entries in
      iteration order, with distinct keys. */
  datatype Value =
    | Nil
    | Bool(b: bool)
    | Symbol(name: Bytes)
    | Text(s: Bytes)
    | Number(n: int)
    | List(items: seq<Value>)
    | Hash(entries: seq<(Key, Value)>)

  /** The keys the encoder reads: the five options, and the `by` and `op`
      members of a sort or filter record. */
  const FieldsKey: Key := Sym("fields")
  const FilterKey: Key := Sym("filter")
  const SortKey: Key := Sym("sort")
  const CountKey: Key := Sym("count")
  const StartIndexKey: Key := Sym("start_index")
  const ByKey: Key := Sym("by")
  const OpKey: Key := Sym("op")

  predicate Truthy(v: Value) {
    !(v.Nil? || v == Bool(false))
  }

  /** `to_s` in Ruby 1.8: an Array joins its elements' texts, a Hash joins
      each key's text with its value's text. */
  function ToS(v: Value): (r: Bytes)
    ensures v.Number? ==> StrToI(r) == v.n
    decreases v
  {
    match v
    case Nil => []
    case Bool(b) => if b then "true" else "false"
    case Symbol(n) => n
    case Text(s) => s
    case Number(n) => StrToIDecimal(n); Decimal(n)
    case List(items) => ToSList(items)
    case Hash(es) => ToSHash(es)
  }

  function ToSList(items: seq<Value>): Bytes
    decreases items
  {
    if items == [] then [] else ToS(items[0]) + ToSList(items[1..])
  }

  function ToSHash(es: seq<(Key, Value)>): Bytes
    decreases es
  {
    if es == [] then []
    else
      var e := es[0];
      assert e in es;
      match e
      case (k, x) =>
        assert x < e;
        k.name + ToS(x) + ToSHash(es[1..])
  }

  /** `collect { |f| f.to_s }` over an Array. */
  function ItemTexts(items: seq<Value>): (r: seq<string>)
    ensures |r| == |items|
    ensures forall i :: 0 <= i < |items| ==> r[i] == ToS(items[i])
  {
    if items == [] then [] else [ToS(items[0])] + ItemTexts(items[1..])
  }

  /** `collect { |f| f.to_s }` over a Hash: each entry is the pair
      `[key, value]`, whose text is the key's text and the value's. */
  function EntryTexts(es: seq<(Key, Value)>): (r: seq<string>)
    ensures |r| == |es|
  {
    if es == [] then [] else [es[0].0.name + ToS(es[0].1)] + EntryTexts(es[1..])
  }

  /** `hash[key]`: the value of the first entry with that key, nil when
      there is none. */
  function HashGet(es: seq<(Key, Value)>, k: Key): Value {
    if es == [] then Nil else if es[0].0 == k then es[0].1 else HashGet(es[1..], k)
  }

  /** Index of the first entry with key `k`, or `|es|` when there is none. */
  function KeyIndex(es: seq<(Key, Value)>, k: Key): (i: nat)
    ensures i <= |es|
    ensures i < |es| ==> es[i].0 == k
    ensures forall j :: 0 <= j < i ==> es[j].0 != k
  {
    if es == [] then 0 else if es[0].0 == k then 0 else 1 + KeyIndex(es[1..], k)
  }

  /** `hash[key]` reads the entry `KeyIndex` finds. */
  lemma {:induction false} HashGetAt(es: seq<(Key, Value)>, k: Key)
    ensures HashGet(es, k) == if KeyIndex(es, k) < |es| then es[KeyIndex(es, k)].1 else Nil
  {
    if es != [] && es[0].0 != k {
      HashGetAt(es[1..], k);
    }
  }

  lemma KeyIndexUnique(es: seq<(Key, Value)>, k: Key, j: nat)
    requires j <= |es| && (j < |es| ==> es[j].0 == k)
    requires forall x :: 0 <= x < j ==> es[x].0 != k
    ensures KeyIndex(es, k) == j
  {
  }

  /** An entry appended under a new key is read under that key and
      changes no other key. */
  lemma HashGetAppended(es: seq<(Key, Value)>, e: (Key, Value))
    requires KeyIndex(es, e.0) == |es|
    ensures HashGet(es + [e], e.0) == e.1
    ensures forall k :: k != e.0 ==> HashGet(es + [e], k) == HashGet(es, k)
  {
    KeyIndexUnique(es + [e], e.0, |es|);
    HashGetAt(es + [e], e.0);
    forall k | k != e.0
      ensures HashGet(es + [e], k) == HashGet(es, k)
    {
      var j := KeyIndex(es, k);
      KeyIndexUnique(es + [e], k, if j < |es| then j else |es| + 1);
      HashGetAt(es + [e], k);
      HashGetAt(es, k);
    }
  }

  /** Replacing the first entry of a key changes what that key reads and
      no other key. */
  lemma HashGetReplaced(es: seq<(Key, Value)>, i: nat, e: (Key, Value))
    requires i < |es| && KeyIndex(es, e.0) == i
    ensures HashGet(es[i := e], e.0) == e.1
    ensures forall k :: k != e.0 ==> HashGet(es[i := e], k) == HashGet(es, k)
  {
    KeyIndexUnique(es[i := e], e.0, i);
    HashGetAt(es[i := e], e.0);
    forall k | k != e.0
      ensures HashGet(es[i := e], k) == HashGet(es, k)
    {
      KeyIndexUnique(es[i := e], k, KeyIndex(es, k));
      HashGetAt(es[i := e], k);
      HashGetAt(es, k);
    }
  }

  function Lookup(m: map<Key, Value>, k: Key): Value {
    if k in m then m[k] else Nil
  }

  // ---------------------------------------------------------------------
  // symbolize_keys!: every String key becomes the Symbol of the same name.
  // When both forms are present the model keeps the String key's value.
  // ActiveSupport 2.x rebuilds the hash pair by pair in the order Ruby 1.8
  // walks it, so there the spelling walked last wins; the model fixes the
  // outcome that ActiveSupport 3's `self[k.to_sym] = delete(k)` gives.

  function SymbolKeys(m: map<Key, Value>): set<Key> {
    set k | k in m :: Sym(k.name)
  }

  function Symbolized(m: map<Key, Value>): (r: map<Key, Value>)
    ensures forall k :: k in r ==> k.Sym?
    ensures forall n :: Sym(n) in r <==> Sym(n) in m || Str(n) in m
    ensures forall n :: Str(n) in m ==> r[Sym(n)] == m[Str(n)]
    ensures forall n :: Sym(n) in m && Str(n) !in m ==> r[Sym(n)] == m[Sym(n)]
  {
    map k | k in SymbolKeys(m) :: if Str(k.name) in m then m[Str(k.name)] else m[Sym(k.name)]
  }

  // ---------------------------------------------------------------------
  // The pair producers.

  /** `fields_options`: `:all` gives `fields=@all`; another Symbol gives its
      escaped name; anything that responds to `collect` (an Array, a Hash,
      and in Ruby 1.8 a String, by lines) gives the texts of its elements
      joined by commas, unescaped; nil and other values give nothing. */
  function FieldsPairs(v: Value): (r: seq<string>)
    ensures |r| <= 1
    ensures r == [] <==> v.Nil? || v.Bool? || v.Number?
    ensures Named(r, "fields=")
  {
    match v
    case Symbol(n) => ["fields=" + (if n == "all" then "@all" else Escape(n))]
    case List(items) => ["fields=" + Join(ItemTexts(items), ",")]
    case Hash(es) => ["fields=" + Join(EntryTexts(es), ",")]
    case Text(s) => ["fields=" + Join(Lines(s), ",")]
    case _ => []
  }

  /** Every pair starts with `name`, the option it comes from. */
  predicate Named(pairs: seq<string>, name: string) {
    forall i :: 0 <= i < |pairs| ==> IsPrefix(name, pairs[i])
  }

  /** One pair of `to_query_list`: the prefix, the capitalised key, `=`,
      the escaped value. */
  function QueryPair(prefix: string, e: (Key, Value)): (r: string)
    ensures IsPrefix(prefix, r)
  {
    prefix + Capitalize(e.0.name) + "=" + Escape(ToS(e.1))
  }

  /** `to_query_list`: one pair per entry, in entry order. */
  function ToQueryList(es: seq<(Key, Value)>, prefix: string): (r: seq<string>)
    ensures |r| == |es|
    ensures forall i :: 0 <= i < |es| ==> r[i] == QueryPair(prefix, es[i])
    ensures Named(r, prefix)
  {
    if es == [] then [] else [QueryPair(prefix, es[0])] + ToQueryList(es[1..], prefix)
  }

  /** The record form of a sort option needs a truthy `:by` or `'by'`. */
  predicate HasBy(es: seq<(Key, Value)>) {
    Truthy(HashGet(es, ByKey)) || Truthy(HashGet(es, Str("by")))
  }

  /** `sort_options`: a Symbol gives one `sortBy` pair, a record with `by`
      one pair per member, anything else nothing. */
  function SortPairs(v: Value): (r: seq<string>)
    ensures r == [] <==> !(v.Symbol? || (v.Hash? && HasBy(v.entries)))
    ensures v.Hash? && HasBy(v.entries) ==> |r| == |v.entries|
    ensures Named(r, "sort")
  {
    match v
    case Symbol(n) => ["sortBy=" + Escape(n)]
    case Hash(es) => if HasBy(es) then ToQueryList(es, "sort") else []
    case _ => []
  }

  const DefaultOp: (Key, Value) := (OpKey, Text("equals"))

  /** `options[:op] ||= "equals"` on a filter hash: only the Symbol key
      `:op` is consulted; a missing or falsy `:op` becomes "equals", in
      place when the key exists and appended otherwise. */
  function WithDefaultOp(es: seq<(Key, Value)>): (r: seq<(Key, Value)>)
    ensures Truthy(HashGet(r, OpKey))
    ensures forall k :: k != OpKey ==> HashGet(r, k) == HashGet(es, k)
    ensures Truthy(HashGet(es, OpKey)) ==> r == es
  {
    var i := KeyIndex(es, OpKey);
    HashGetAt(es, OpKey);
    if i == |es| then HashGetAppended(es, DefaultOp); es + [DefaultOp]
    else if Truthy(es[i].1) then es
    else HashGetReplaced(es, i, DefaultOp); es[i := DefaultOp]
  }

  /** The filter value as `filter_options` leaves it, or the exception it
      raises: nil and empty values are left alone; a non-empty Hash gets its
      default `:op`; an Array refuses a Symbol index with a TypeError; a
      String reads `[:op]` as the index `:op.to_int`, beyond its end, so
      gets nil, and then refuses to store there with an IndexError; other
      values have no `empty?`. */
  function FilledFilter(v: Value): (r: Result<Value>)
    ensures r.Ok? <==> v.Nil? || v.Hash? || v == List([]) || v == Text([])
    ensures r.Raise? ==> r.error == (if v.List? then TypeError else if v.Text? then IndexError else NoMethodError("empty?"))
    ensures r.Ok? && !(v.Hash? && v.entries != []) ==> r.value == v
    ensures r.Ok? && v.Hash? && v.entries != [] ==> r.value.Hash? && Truthy(HashGet(r.value.entries, OpKey))
    ensures r.Ok? && v.Hash? ==> forall k :: k != OpKey ==> HashGet(r.value.entries, k) == HashGet(v.entries, k)
    ensures v.Hash? && Truthy(HashGet(v.entries, OpKey)) ==> r == Ok(v)
  {
    match v
    case Nil => Ok(v)
    case Hash(es) => Ok(if es == [] then v else Hash(WithDefaultOp(es)))
    case List(items) => if items == [] then Ok(v) else Raise(TypeError)
    case Text(s) => if s == [] then Ok(v) else Raise(IndexError)
    case _ => Raise(NoMethodError("empty?"))
  }

  /** The pairs `filter_options` returns for a value it has filled. */
  function FilterPairs(filled: Value): (r: seq<string>)
    ensures |r| == if filled.Hash? then |filled.entries| else 0
    ensures Named(r, "filter")
  {
    if filled.Hash? && filled.entries != [] then ToQueryList(filled.entries, "filter") else []
  }

  /** `pagination_options`, given the whole (symbolized) options hash. The
      values are interpolated without escaping. */
  function PaginationPairs(m: map<Key, Value>): (r: seq<string>)
    ensures |r| == (if |m| > 0 && Truthy(Lookup(m, CountKey)) then 1 else 0)
                 + (if |m| > 0 && Truthy(Lookup(m, StartIndexKey)) then 1 else 0)
    ensures forall i :: 0 <= i < |r| ==> IsPrefix("count=", r[i]) || IsPrefix("startIndex=", r[i])
  {
    if |m| == 0 then []
    else
      var count, start := Lookup(m, CountKey), Lookup(m, StartIndexKey);
      var countPair, startPair := "count=" + ToS(count), "startIndex=" + ToS(start);
      (if Truthy(count) then [countPair] else []) + (if Truthy(start) then [startPair] else [])
  }

  /** Every pair `options_for` generates for a non-empty hash, before
      sorting, or the exception `filter_options` raises. */
  function QueryPairs(m: map<Key, Value>): (r: Result<seq<string>>)
    ensures r.Raise? <==> FilledFilter(Lookup(Symbolized(m), FilterKey)).Raise?
    ensures r.Ok? ==> forall p :: p in r.value ==> OptionPair(p)
  {
    var s := Symbolized(m);
    var filled :- FilledFilter(Lookup(s, FilterKey));
    var fields, filter, sort, paging :=
      FieldsPairs(Lookup(s, FieldsKey)), FilterPairs(filled), SortPairs(Lookup(s, SortKey)), PaginationPairs(s);
    OptionPairs(fields, filter, sort, paging);
    Ok(fields + filter + sort + paging)
  }

  /** A pair text names one of the five options. */
  predicate OptionPair(p: string) {
    || IsPrefix("fields=", p) || IsPrefix("filter", p) || IsPrefix("sort", p)
    || IsPrefix("count=", p) || IsPrefix("startIndex=", p)
  }

  lemma OptionPairs(fields: seq<string>, filter: seq<string>, sort: seq<string>, paging: seq<string>)
    requires Named(fields, "fields=") && Named(filter, "filter") && Named(sort, "sort")
    requires forall i :: 0 <= i < |paging| ==> IsPrefix("count=", paging[i]) || IsPrefix("startIndex=", paging[i])
    ensures forall p :: p in fields + filter + sort + paging ==> OptionPair(p)
  {
  }

  /** `"?" + pairs.sort.join("&")`. */
  function Render(pairs: seq<string>): (r: string)
    ensures |r| >= 1 && r[0] == '?'
    ensures pairs == [] ==> r == "?"
    ensures |pairs| == 1 ==> r == "?" + pairs[0]
  {
    var sorted := Sort(pairs);
    assert |pairs| == 1 ==> sorted == pairs by {
      if |pairs| == 1 { SortOfSorted(pairs); }
    }
    "?" + Join(sorted, "&")
  }

  /** `options_for`: the query string of an options hash (None is nil). */
  function QueryString(opts: Option<map<Key, Value>>): (r: Result<string>)
    ensures r.Ok? ==> (r.value == "" <==> opts.None? || |opts.value| == 0)
    ensures r.Ok? && r.value != "" ==> r.value[0] == '?'
    ensures r.Raise? <==> opts.Some? && |opts.value| > 0 && QueryPairs(opts.value).Raise?
  {
    if opts.None? || |opts.value| == 0 then Ok("")
    else
      var pairs :- QueryPairs(opts.value);
      Ok(Render(pairs))
  }

  /** The options hash after `options_for` has run on it: `symbolize_keys!`
      and the default `:op` written into the filter hash. */
  function Prepared(m: map<Key, Value>): map<Key, Value> {
    if |m| == 0 then m
    else
      var s := Symbolized(m);
      var filled := FilledFilter(Lookup(s, FilterKey));
      if filled.Ok? && FilterKey in s then s[FilterKey := filled.value] else s
  }

  /** Writing the filter entry changes neither the other options nor the
      pagination pairs. */
  lemma OnlyFilterChanged(before: map<Key, Value>, after: map<Key, Value>, filled: Value)
    requires after == before || (FilterKey in before && after == before[FilterKey := filled])
    ensures Lookup(after, FieldsKey) == Lookup(before, FieldsKey)
    ensures Lookup(after, SortKey) == Lookup(before, SortKey)
    ensures PaginationPairs(after) == PaginationPairs(before)
  {
    if after != before {
      assert after.Keys == before.Keys;
    }
  }

  /** The pairs of a hash, from its four parts. */
  lemma QueryPairsOfParts(m: map<Key, Value>, filled: Value, fields: seq<string>, filter: seq<string>,
                          sort: seq<string>, paging: seq<string>)
    requires FilledFilter(Lookup(Symbolized(m), FilterKey)) == Ok(filled)
    requires FieldsPairs(Lookup(Symbolized(m), FieldsKey)) == fields
    requires FilterPairs(filled) == filter
    requires SortPairs(Lookup(Symbolized(m), SortKey)) == sort
    requires PaginationPairs(Symbolized(m)) == paging
    ensures QueryPairs(m) == Ok(fields + filter + sort + paging)
  {
  }

  /** A non-empty hash renders its pairs. */
  lemma RenderedPairs(m: map<Key, Value>, pairs: seq<string>)
    requires |m| > 0 && QueryPairs(m) == Ok(pairs)
    ensures QueryString(Some(m)) == Ok(Render(pairs))
  {
  }

  /** The caller's options hash, which `options_for` updates in place. */
  class OptionsHash {
    var entries: map<Key, Value>

    constructor (entries: map<Key, Value>)
      ensures this.entries == entries
    {
      this.entries := entries;
    }

    /** ActiveSupport's `symbolize_keys!`, on the top-level keys only. */
    method SymbolizeKeys()
      modifies this
      ensures entries == Symbolized(old(entries))
    {
      entries := Symbolized(entries);
    }

    /** `filter_options(options[:filter])`: writes the default `:op` into
      the filter hash and returns its pairs. */
    method FilterOptions() returns (r: Result<seq<string>>)
      modifies this
      ensures FilledFilter(Lookup(old(entries), FilterKey)).Raise? ==>
        r == Raise(FilledFilter(Lookup(old(entries), FilterKey)).error) && entries == old(entries)
      ensures FilledFilter(Lookup(old(entries), FilterKey)).Ok? ==>
        var filled := FilledFilter(Lookup(old(entries), FilterKey)).value;
        && r == Ok(FilterPairs(filled))
        && entries == (if FilterKey in old(entries) then old(entries)[FilterKey := filled] else old(entries))
    {
      var filter := Lookup(entries, FilterKey);
      var filled :- FilledFilter(filter);
      if FilterKey in entries {
        entries := entries[FilterKey := filled];
      }
      r := Ok(FilterPairs(filled));
    }

    /** `pagination_options(options)`, appending to a local list. */
    method PaginationOptions() returns (params: seq<string>)
      ensures params == PaginationPairs(entries)
    {
      if |entries| == 0 {
        return [];
      }
      params := [];
      var count := Lookup(entries, CountKey);
      if Truthy(count) {
        params := params + ["count=" + ToS(count)];
      }
      var start := Lookup(entries, StartIndexKey);
      if Truthy(start) {
        params := params + ["startIndex=" + ToS(start)];
      }
    }

    /** `options_for(options)`. */
    method OptionsFor() returns (r: Result<string>)
      modifies this
      ensures r == QueryString(Some(old(entries)))
      ensures r.Ok? ==> entries == Prepared(old(entries))
      ensures r.Raise? ==> entries == Symbolized(old(entries))
    {
      if |entries| == 0 {
        return Ok("");
      }
      SymbolizeKeys();
      ghost var symbolized := entries;
      var fields := FieldsPairs(Lookup(entries, FieldsKey));
      var filter := FilterOptions();
      ghost var filled := FilledFilter(Lookup(symbolized, FilterKey));
      if filter.Raise? {
        assert filled.Raise?;
        return Raise(filter.error);
      }
      OnlyFilterChanged(symbolized, entries, filled.value);
      var sort := SortPairs(Lookup(entries, SortKey));
      var paging := PaginationOptions();
      QueryPairsOfParts(old(entries), filled.value, fields, filter.value, sort, paging);
      RenderedPairs(old(entries), fields + filter.value + sort + paging);
      r := Ok(Render(fields + filter.value + sort + paging));
    }
  }
}
