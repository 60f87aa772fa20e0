/** The request that combines every option: a list of fields, a filter
    record without an operator, a sort record with an order, a count and a
    start index, written either with Symbols or, as Rails code passes
    them, with Strings for every key and name. Both spellings give the same
    query string, `?count=..&fields=..&filterBy=..&filterOp=equals&
    filterValue=..&sortBy=..&sortOrder=..&startIndex=..`. */
module CombinedQuery {
  import opened Ruby
  import opened Strings
  import opened ByteOrder
  import opened UriEscape
  import opened Query
  import opened QueryProperties
  import opened QueryExamples

  /** A key in the chosen spelling: a String when `str`, else a Symbol. */
  function K(str: bool, n: Bytes): Key {
    if str then Str(n) else Sym(n)
  }

  /** A name in the chosen spelling: a String when `str`, else a Symbol. */
  function V(str: bool, n: Bytes): Value {
    if str then Text(n) else Symbol(n)
  }

  predicate OfKind(m: map<Key, Value>, str: bool) {
    forall k :: k in m ==> k.Str? == str
  }

  /** After `symbolize_keys!`, a hash written in one spelling answers each
      Symbol with the value of that name's key. */
  lemma SymbolizedOfKind(m: map<Key, Value>, str: bool, n: Bytes)
    requires OfKind(m, str)
    ensures Lookup(Symbolized(m), Sym(n)) == Lookup(m, K(str, n))
  {
    if str {
      assert Sym(n) !in m;
    } else {
      assert Str(n) !in m;
    }
  }

  function FieldList(str: bool, names: seq<Bytes>): Value {
    List(seq(|names|, i requires 0 <= i < |names| => V(str, names[i])))
  }

  function FilterRecord(str: bool, field: Bytes, value: Bytes): seq<(Key, Value)> {
    [(K(str, "by"), V(str, field)), (K(str, "value"), Text(value))]
  }

  function SortRecordOf(str: bool, field: Bytes, order: Bytes): seq<(Key, Value)> {
    [(K(str, "by"), V(str, field)), (K(str, "order"), V(str, order))]
  }

  /** `:fields => names, :filter => {:by => field, :value => value},
      :sort => {:by => sortField, :order => order}, :count => count,
      :start_index => start`, in the chosen spelling. */
  function Everything(str: bool, names: seq<Bytes>, field: Bytes, value: Bytes,
                      sortField: Bytes, order: Bytes, count: int, start: int): map<Key, Value>
  {
    map[K(str, "fields") := FieldList(str, names),
        K(str, "filter") := Hash(FilterRecord(str, field, value)),
        K(str, "sort") := Hash(SortRecordOf(str, sortField, order)),
        K(str, "count") := Number(count),
        K(str, "start_index") := Number(start)]
  }

  lemma EverythingLookups(str: bool, names: seq<Bytes>, field: Bytes, value: Bytes,
                          sortField: Bytes, order: Bytes, count: int, start: int)
    ensures var m := Everything(str, names, field, value, sortField, order, count, start);
      && OfKind(m, str) && K(str, "fields") in m
      && Lookup(m, K(str, "fields")) == FieldList(str, names)
      && Lookup(m, K(str, "filter")) == Hash(FilterRecord(str, field, value))
      && Lookup(m, K(str, "sort")) == Hash(SortRecordOf(str, sortField, order))
      && Lookup(m, K(str, "count")) == Number(count)
      && Lookup(m, K(str, "start_index")) == Number(start)
  {
  }

  lemma FieldListPairs(str: bool, names: seq<Bytes>)
    ensures FieldsPairs(FieldList(str, names)) == ["fields=" + Join(names, ",")]
  {
    FieldsList(FieldList(str, names).items, names);
  }

  lemma FilterRecordList(str: bool, field: Bytes, value: Bytes)
    requires Plain(field) && Plain(value)
    ensures ToQueryList(FilterRecord(str, field, value), "filter") == ["filterBy=" + field, "filterValue=" + value]
  {
    FilterPairNames(field);
    FilterPairNames(value);
    PlainEscapes(field);
    PlainEscapes(value);
  }

  /** The filter gains the default operator, whichever spelling its own
      keys use. */
  lemma FilterRecordPairs(str: bool, field: Bytes, value: Bytes)
    requires Plain(field) && Plain(value)
    ensures FilledFilter(Hash(FilterRecord(str, field, value))) == Ok(Hash(FilterRecord(str, field, value) + [DefaultOp]))
    ensures FilterPairs(Hash(FilterRecord(str, field, value) + [DefaultOp]))
         == ["filterBy=" + field, "filterValue=" + value, "filterOp=equals"]
  {
    var es := FilterRecord(str, field, value);
    assert Lacks(es, OpKey);
    FilterDefaultsOp(es);
    FilterRecordList(str, field, value);
  }

  lemma SortPairNames(n: string)
    ensures "sort" + Capitalize("by") + "=" + n == "sortBy=" + n
    ensures "sort" + Capitalize("order") + "=" + n == "sortOrder=" + n
  {
    MemberNames();
    SortPrefixes();
  }

  /** The sort record is recognised by its `by` member in either spelling. */
  lemma SortRecordPairs(str: bool, field: Bytes, order: Bytes)
    requires Plain(field) && Plain(order)
    ensures SortPairs(Hash(SortRecordOf(str, field, order))) == ["sortBy=" + field, "sortOrder=" + order]
  {
    var es := SortRecordOf(str, field, order);
    assert HashGet(es, K(str, "by")) == V(str, field);
    assert HasBy(es);
    SortPairNames(field);
    SortPairNames(order);
    PlainEscapes(field);
    PlainEscapes(order);
  }

  /** The eight pairs in the order `options_for` generates them. */
  function Generated(names: seq<Bytes>, field: Bytes, value: Bytes, sortField: Bytes, order: Bytes,
                     count: int, start: int): seq<string>
  {
    ["fields=" + Join(names, ",")]
    + ["filterBy=" + field, "filterValue=" + value, "filterOp=equals"]
    + ["sortBy=" + sortField, "sortOrder=" + order]
    + ["count=" + Decimal(count), "startIndex=" + Decimal(start)]
  }

  /** The eight pairs in byte order. */
  function Expected(names: seq<Bytes>, field: Bytes, value: Bytes, sortField: Bytes, order: Bytes,
                    count: int, start: int): seq<string>
  {
    ["count=" + Decimal(count)]
    + ["fields=" + Join(names, ",")]
    + ["filterBy=" + field, "filterOp=equals", "filterValue=" + value]
    + ["sortBy=" + sortField, "sortOrder=" + order]
    + ["startIndex=" + Decimal(start)]
  }

  lemma EverythingPairs(str: bool, names: seq<Bytes>, field: Bytes, value: Bytes,
                        sortField: Bytes, order: Bytes, count: int, start: int)
    requires Plain(field) && Plain(value) && Plain(sortField) && Plain(order)
    ensures |Everything(str, names, field, value, sortField, order, count, start)| > 0
    ensures QueryPairs(Everything(str, names, field, value, sortField, order, count, start))
         == Ok(Generated(names, field, value, sortField, order, count, start))
  {
    var m := Everything(str, names, field, value, sortField, order, count, start);
    EverythingLookups(str, names, field, value, sortField, order, count, start);
    var s := Symbolized(m);
    SymbolizedOfKind(m, str, "fields");
    SymbolizedOfKind(m, str, "filter");
    SymbolizedOfKind(m, str, "sort");
    SymbolizedOfKind(m, str, "count");
    SymbolizedOfKind(m, str, "start_index");
    FilterRecordPairs(str, field, value);
    QueryPairsParts(m, Hash(FilterRecord(str, field, value) + [DefaultOp]));
    FieldListPairs(str, names);
    SortRecordPairs(str, sortField, order);
    PaginationNumbers(s, count, start);
  }

  lemma ExpectedSorted(names: seq<Bytes>, field: Bytes, value: Bytes, sortField: Bytes, order: Bytes,
                       count: int, start: int)
    ensures Sorted(Expected(names, field, value, sortField, order, count, start))
  {
    var e := Expected(names, field, value, sortField, order, count, start);
    BelowAt(e[0], e[1], 0);
    BelowAt(e[1], e[2], 2);
    BelowAt(e[2], e[3], 6);
    BelowAt(e[3], e[4], 6);
    BelowAt(e[4], e[5], 0);
    BelowAt(e[5], e[6], 4);
    BelowAt(e[6], e[7], 1);
    SortedChain(e);
  }

  /** Moving the first paging pair to the front and the filter operator
      before the filter value keeps the same pairs. */
  lemma Regroup<T>(fields: seq<T>, filter: seq<T>, filter2: seq<T>, sort: seq<T>, c: T, st: T)
    requires multiset(filter) == multiset(filter2)
    ensures multiset(fields + filter + sort + [c, st]) == multiset([c] + fields + filter2 + sort + [st])
  {
    assert [c, st] == [c] + [st];
  }

  /** Every option at once, in either spelling, renders as the eight pairs
      in byte order. */
  lemma EverythingQuery(str: bool, names: seq<Bytes>, field: Bytes, value: Bytes,
                        sortField: Bytes, order: Bytes, count: int, start: int)
    requires Plain(field) && Plain(value) && Plain(sortField) && Plain(order)
    ensures QueryString(Some(Everything(str, names, field, value, sortField, order, count, start)))
         == Ok("?" + Join(Expected(names, field, value, sortField, order, count, start), "&"))
  {
    ExpectedSorted(names, field, value, sortField, order, count, start);
    SwapLastTwo("filterBy=" + field, "filterValue=" + value, "filterOp=equals");
    Regroup(["fields=" + Join(names, ",")],
            ["filterBy=" + field, "filterValue=" + value, "filterOp=equals"],
            ["filterBy=" + field, "filterOp=equals", "filterValue=" + value],
            ["sortBy=" + sortField, "sortOrder=" + order],
            "count=" + Decimal(count), "startIndex=" + Decimal(start));
    EverythingPairs(str, names, field, value, sortField, order, count, start);
    SortedQuery(Everything(str, names, field, value, sortField, order, count, start),
                Generated(names, field, value, sortField, order, count, start),
                Expected(names, field, value, sortField, order, count, start));
  }

  /** String keys and String names give the same query string as Symbols. */
  lemma SpellingIrrelevant(names: seq<Bytes>, field: Bytes, value: Bytes,
                           sortField: Bytes, order: Bytes, count: int, start: int)
    requires Plain(field) && Plain(value) && Plain(sortField) && Plain(order)
    ensures QueryString(Some(Everything(true, names, field, value, sortField, order, count, start)))
         == QueryString(Some(Everything(false, names, field, value, sortField, order, count, start)))
  {
    EverythingQuery(true, names, field, value, sortField, order, count, start);
    EverythingQuery(false, names, field, value, sortField, order, count, start);
  }

  // ---------------------------------------------------------------------
  // Proof helpers: identities of literal texts and multisets that the
  // proofs above use; they state nothing about the library.

  lemma SortPrefixes()
    ensures "sort" + "By" + "=" == "sortBy="
    ensures "sort" + "Order" + "=" == "sortOrder="
  {
  }

  lemma SwapLastTwo<T>(x: T, y: T, z: T)
    ensures multiset([x, y, z]) == multiset([x, z, y])
  {
  }
}
