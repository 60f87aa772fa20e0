/** The query strings the library's RSpec examples expect, proved of the
    model for one option at a time, with the names left open. The request
    that combines every option is in `CombinedQuery`. */
module QueryExamples {
  import opened Ruby
  import opened Strings
  import opened ByteOrder
  import opened UriEscape
  import opened Query
  import opened QueryProperties

  /** A name that `URI.escape` leaves alone. */
  predicate Plain(s: Bytes) {
    forall i :: 0 <= i < |s| ==> Safe(s[i])
  }

  lemma PlainEscapes(s: Bytes)
    requires Plain(s)
    ensures Escape(s) == s
  {
    EscapeIdentityIffSafe(s);
  }

  lemma SymbolizedSymbols(m: map<Key, Value>)
    requires AllSymbols(m)
    ensures Symbolized(m) == m
  {
    assert Symbolized(m).Keys == m.Keys;
  }

  // ---------------------------------------------------------------------
  // One option at a time.

  /** A hash whose options make the pairs `pairs` renders as any sorted
      arrangement of them. */
  lemma SortedQuery(m: map<Key, Value>, pairs: seq<string>, sorted: seq<string>)
    requires |m| > 0 && QueryPairs(m) == Ok(pairs)
    requires Sorted(sorted) && multiset(sorted) == multiset(pairs)
    ensures QueryString(Some(m)) == Ok("?" + Join(sorted, "&"))
  {
    QueryStringIsSortedPairs(m, sorted);
  }

  /** Any sorted arrangement of the pairs is the one that is rendered. */
  lemma SortedRender(pairs: seq<string>, sorted: seq<string>)
    requires Sorted(sorted) && multiset(sorted) == multiset(pairs)
    ensures Render(pairs) == "?" + Join(sorted, "&")
  {
    SortedUnique(Sort(pairs), sorted);
  }

  /** A hash whose options make exactly one pair renders as `?` and that
      pair. */
  lemma SinglePairQuery(m: map<Key, Value>, p: string)
    requires |m| > 0 && QueryPairs(m) == Ok([p])
    ensures QueryString(Some(m)) == Ok("?" + p)
  {
    QueryStringIsSortedPairs(m, [p]);
  }

  /** In a hash with the one Symbol key `k`, every other Symbol is nil. */
  lemma OnlyKey(k: Bytes, v: Value, j: Bytes)
    requires j != k
    ensures Lookup(map[Sym(k) := v], Sym(j)) == Nil
  {
  }

  /** A hash holding one Symbol key is its own symbolized form and answers
      nil for every other option. */
  lemma SingleOption(k: Bytes, v: Value)
    ensures var m := map[Sym(k) := v];
      && Symbolized(m) == m
      && (k != "fields" ==> Lookup(m, FieldsKey) == Nil)
      && (k != "filter" ==> Lookup(m, FilterKey) == Nil)
      && (k != "sort" ==> Lookup(m, SortKey) == Nil)
      && (k != "count" && k != "start_index" ==> PaginationPairs(m) == [])
  {
    SymbolizedSymbols(map[Sym(k) := v]);
  }

  lemma FieldsSymbolPairs(n: Bytes)
    requires Plain(n) && n != "all"
    ensures QueryPairs(map[FieldsKey := Symbol(n)]) == Ok(["fields=" + n])
  {
    var m := map[FieldsKey := Symbol(n)];
    SingleOption("fields", Symbol(n));
    assert FieldsPairs(Symbol(n)) == ["fields=" + n] by { PlainEscapes(n); }
    QueryPairsOfParts(m, Nil, ["fields=" + n], [], [], []);
    Alone("fields=" + n);
  }

  /** `options_for(:fields => :name)` is `?fields=name`. */
  lemma FieldsSymbolQuery(n: Bytes)
    requires Plain(n) && n != "all"
    ensures QueryString(Some(map[FieldsKey := Symbol(n)])) == Ok("?fields=" + n)
  {
    QueryPrefix("fields=", n, "?fields=");
    FieldsSymbolPairs(n);
    SinglePairQuery(map[FieldsKey := Symbol(n)], "fields=" + n);
  }

  lemma SortSymbolPairs(n: Bytes)
    requires Plain(n)
    ensures QueryPairs(map[SortKey := Symbol(n)]) == Ok(["sortBy=" + n])
  {
    var m := map[SortKey := Symbol(n)];
    SingleOption("sort", Symbol(n));
    assert SortPairs(Symbol(n)) == ["sortBy=" + n] by { PlainEscapes(n); }
    QueryPairsOfParts(m, Nil, [], [], ["sortBy=" + n], []);
    Alone3("sortBy=" + n);
  }

  /** `options_for(:sort => :name)` is `?sortBy=name`. */
  lemma SortSymbolQuery(n: Bytes)
    requires Plain(n)
    ensures QueryString(Some(map[SortKey := Symbol(n)])) == Ok("?sortBy=" + n)
  {
    QueryPrefix("sortBy=", n, "?sortBy=");
    SortSymbolPairs(n);
    SinglePairQuery(map[SortKey := Symbol(n)], "sortBy=" + n);
  }

  /** In a hash with the two Symbol keys `a` and `b`, each has its own value
      and every other Symbol is nil. */
  lemma TwoKeys(a: Bytes, x: Value, b: Bytes, y: Value, j: Bytes)
    requires a != b && j != a && j != b
    ensures Lookup(map[Sym(a) := x, Sym(b) := y], Sym(a)) == x
    ensures Lookup(map[Sym(a) := x, Sym(b) := y], Sym(b)) == y
    ensures Lookup(map[Sym(a) := x, Sym(b) := y], Sym(j)) == Nil
  {
  }

  lemma PagingPairs(count: int, start: int)
    ensures |map[CountKey := Number(count), StartIndexKey := Number(start)]| > 0
    ensures QueryPairs(map[CountKey := Number(count), StartIndexKey := Number(start)])
         == Ok(["count=" + Decimal(count), "startIndex=" + Decimal(start)])
  {
    var m := map[CountKey := Number(count), StartIndexKey := Number(start)];
    TwoKeys("count", Number(count), "start_index", Number(start), "filter");
    TwoKeys("count", Number(count), "start_index", Number(start), "fields");
    TwoKeys("count", Number(count), "start_index", Number(start), "sort");
    SymbolizedSymbols(m);
    QueryPairsParts(m, Nil);
    PaginationNumbers(m, count, start);
    var pairs := ["count=" + Decimal(count), "startIndex=" + Decimal(start)];
    assert FieldsPairs(Nil) == [] && FilterPairs(Nil) == [] && SortPairs(Nil) == [];
    assert QueryPairs(m) == Ok([] + [] + [] + pairs);
    Last(pairs);
  }

  /** `options_for(:count => c, :start_index => s)` is
      `?count=c&startIndex=s`. */
  lemma PagingQuery(count: int, start: int)
    ensures QueryString(Some(map[CountKey := Number(count), StartIndexKey := Number(start)]))
         == Ok("?" + Join(["count=" + Decimal(count), "startIndex=" + Decimal(start)], "&"))
  {
    var m := map[CountKey := Number(count), StartIndexKey := Number(start)];
    var pairs := ["count=" + Decimal(count), "startIndex=" + Decimal(start)];
    assert Sorted(pairs) by {
      PagingSorted(count, start);
    }
    assert |m| > 0 && QueryPairs(m) == Ok(pairs) by {
      PagingPairs(count, start);
    }
    SortedQuery(m, pairs, pairs);
  }

  lemma PagingSorted(count: int, start: int)
    ensures Sorted(["count=" + Decimal(count), "startIndex=" + Decimal(start)])
  {
    var pairs := ["count=" + Decimal(count), "startIndex=" + Decimal(start)];
    BelowAt(pairs[0], pairs[1], 0);
    SortedChain(pairs);
  }

  /** The three pair names of a filter record. */
  lemma FilterPairNames(n: string)
    ensures "filter" + Capitalize("by") + "=" + n == "filterBy=" + n
    ensures "filter" + Capitalize("op") + "=" + n == "filterOp=" + n
    ensures "filter" + Capitalize("value") + "=" + n == "filterValue=" + n
  {
    MemberNames();
    FilterPrefixes();
  }

  lemma FilterRecordKeys(field: Bytes, op: Bytes)
    ensures DistinctKeys([(ByKey, Text(field)), (OpKey, Text(op)), (Sym("value"), Text("bb"))])
  {
  }

  lemma FilterRecordList(field: Bytes, op: Bytes)
    requires Plain(field) && Plain(op)
    ensures ToQueryList([(ByKey, Text(field)), (OpKey, Text(op)), (Sym("value"), Text("bb"))], "filter")
         == ["filterBy=" + field, "filterOp=" + op, "filterValue=bb"]
  {
    FilterPairNames(field);
    FilterPairNames(op);
    FilterPairNames("bb");
    assert "filterValue=" + "bb" == "filterValue=bb";
    assert Plain("bb");
    PlainEscapes("bb");
    PlainEscapes(field);
    PlainEscapes(op);
  }

  /** The record keeps its operator and renders as three pairs. */
  lemma FilterRecordPairs(field: Bytes, op: Bytes)
    requires Plain(field) && Plain(op)
    ensures FilledFilter(Hash([(ByKey, Text(field)), (OpKey, Text(op)), (Sym("value"), Text("bb"))]))
         == Ok(Hash([(ByKey, Text(field)), (OpKey, Text(op)), (Sym("value"), Text("bb"))]))
    ensures FilterPairs(Hash([(ByKey, Text(field)), (OpKey, Text(op)), (Sym("value"), Text("bb"))]))
         == ["filterBy=" + field, "filterOp=" + op, "filterValue=bb"]
  {
    var es := [(ByKey, Text(field)), (OpKey, Text(op)), (Sym("value"), Text("bb"))];
    FilterRecordKeys(field, op);
    FilterRecordList(field, op);
    FilterKeepsOp(es, 1);
  }

  /** A hash whose only option is a filter makes just the pairs of the
      filled filter. */
  lemma OnlyFilterPairs(h: Value, filled: Value, pairs: seq<string>)
    requires FilledFilter(h) == Ok(filled) && FilterPairs(filled) == pairs
    ensures |map[FilterKey := h]| == 1
    ensures QueryPairs(map[FilterKey := h]) == Ok(pairs)
    ensures QueryString(Some(map[FilterKey := h])) == Ok(Render(pairs))
  {
    var m := map[FilterKey := h];
    SingleOption("filter", h);
    QueryPairsOfParts(m, filled, [], pairs, [], []);
    Middle(pairs);
    RenderedPairs(m, pairs);
  }

  /** A hash whose only option is a filter renders as the sorted pairs of
      the filled filter. */
  lemma FilterOnlyQuery(h: Value, filled: Value, pairs: seq<string>, sorted: seq<string>)
    requires FilledFilter(h) == Ok(filled) && FilterPairs(filled) == pairs
    requires Sorted(sorted) && multiset(sorted) == multiset(pairs)
    ensures QueryString(Some(map[FilterKey := h])) == Ok("?" + Join(sorted, "&"))
  {
    OnlyFilterPairs(h, filled, pairs);
    SortedRender(pairs, sorted);
  }

  lemma FilterPairsSorted(field: Bytes, op: Bytes)
    ensures Sorted(["filterBy=" + field, "filterOp=" + op, "filterValue=bb"])
  {
    var pairs := ["filterBy=" + field, "filterOp=" + op, "filterValue=bb"];
    BelowAt(pairs[0], pairs[1], 6);
    BelowAt(pairs[1], pairs[2], 6);
    SortedChain(pairs);
  }

  /** The filter record with an explicit operator: for any field and
      operator, `options_for(:filter => {:by => field, :op => op,
      :value => "bb"})` is `?filterBy=field&filterOp=op&filterValue=bb`. */
  lemma FilterWithOpQuery(field: Bytes, op: Bytes)
    requires Plain(field) && Plain(op)
    ensures QueryString(Some(map[FilterKey := Hash([(ByKey, Text(field)), (OpKey, Text(op)), (Sym("value"), Text("bb"))])]))
         == Ok("?" + Join(["filterBy=" + field, "filterOp=" + op, "filterValue=bb"], "&"))
  {
    var pairs := ["filterBy=" + field, "filterOp=" + op, "filterValue=bb"];
    var h := Hash([(ByKey, Text(field)), (OpKey, Text(op)), (Sym("value"), Text("bb"))]);
    assert Sorted(pairs) by {
      FilterPairsSorted(field, op);
    }
    assert FilledFilter(h) == Ok(h) && FilterPairs(h) == pairs by {
      FilterRecordPairs(field, op);
    }
    FilterOnlyQuery(h, h, pairs, pairs);
  }

  lemma FilterByValueList(field: Bytes, value: Bytes)
    requires Plain(field) && Plain(value)
    ensures ToQueryList([(ByKey, Symbol(field)), (Sym("value"), Text(value))], "filter")
         == ["filterBy=" + field, "filterValue=" + value]
  {
    FilterPairNames(field);
    FilterPairNames(value);
    PlainEscapes(field);
    PlainEscapes(value);
  }

  /** The pairs of a filter record without an operator, before sorting:
      its own members, then the default operator. */
  lemma FilterRecordDefaultPairs(field: Bytes, value: Bytes)
    requires Plain(field) && Plain(value)
    ensures FilledFilter(Hash([(ByKey, Symbol(field)), (Sym("value"), Text(value))]))
         == Ok(Hash([(ByKey, Symbol(field)), (Sym("value"), Text(value))] + [DefaultOp]))
    ensures FilterPairs(Hash([(ByKey, Symbol(field)), (Sym("value"), Text(value))] + [DefaultOp]))
         == ["filterBy=" + field, "filterValue=" + value, "filterOp=equals"]
  {
    var es := [(ByKey, Symbol(field)), (Sym("value"), Text(value))];
    assert Lacks(es, OpKey);
    FilterDefaultsOp(es);
    FilterByValueList(field, value);
  }

  lemma FilterDefaultSorted(field: Bytes, value: Bytes)
    ensures Sorted(["filterBy=" + field, "filterOp=equals", "filterValue=" + value])
    ensures multiset(["filterBy=" + field, "filterOp=equals", "filterValue=" + value])
         == multiset(["filterBy=" + field, "filterValue=" + value, "filterOp=equals"])
  {
    var pairs := ["filterBy=" + field, "filterOp=equals", "filterValue=" + value];
    BelowAt(pairs[0], pairs[1], 6);
    BelowAt(pairs[1], pairs[2], 6);
    SortedChain(pairs);
  }

  /** The filter record without an operator: `options_for(:filter =>
      {:by => field, :value => value})` is
      `?filterBy=field&filterOp=equals&filterValue=value`. */
  lemma FilterDefaultOpQuery(field: Bytes, value: Bytes)
    requires Plain(field) && Plain(value)
    ensures QueryString(Some(map[FilterKey := Hash([(ByKey, Symbol(field)), (Sym("value"), Text(value))])]))
         == Ok("?" + Join(["filterBy=" + field, "filterOp=equals", "filterValue=" + value], "&"))
  {
    var h := Hash([(ByKey, Symbol(field)), (Sym("value"), Text(value))]);
    var filled := Hash([(ByKey, Symbol(field)), (Sym("value"), Text(value))] + [DefaultOp]);
    var pairs := ["filterBy=" + field, "filterValue=" + value, "filterOp=equals"];
    var sorted := ["filterBy=" + field, "filterOp=equals", "filterValue=" + value];
    assert FilledFilter(h) == Ok(filled) && FilterPairs(filled) == pairs by {
      FilterRecordDefaultPairs(field, value);
    }
    assert Sorted(sorted) && multiset(sorted) == multiset(pairs) by {
      FilterDefaultSorted(field, value);
    }
    FilterOnlyQuery(h, filled, pairs, sorted);
  }

  // ---------------------------------------------------------------------
  // Proof helpers: identities of sequences and literal texts that the
  // proofs above use; they state nothing about the library.

  /** `"?" + (p + n)` written with the question mark folded into `p`. */
  lemma QueryPrefix(p: string, n: string, qp: string)
    requires qp == "?" + p
    ensures "?" + (p + n) == qp + n
  {
  }

  lemma Alone(p: string)
    ensures [p] + [] + [] + [] == [p]
  {
  }

  lemma Alone3(p: string)
    ensures [] + [] + [p] + [] == [p]
  {
  }

  lemma Middle(p: seq<string>)
    ensures [] + p + [] + [] == p
  {
  }

  lemma Last(p: seq<string>)
    ensures [] + [] + [] + p == p
  {
  }

  /** `capitalize` of the record members' names. */
  lemma MemberNames()
    ensures Capitalize("by") == "By" && Capitalize("op") == "Op"
    ensures Capitalize("value") == "Value" && Capitalize("order") == "Order"
  {
  }

  lemma FilterPrefixes()
    ensures "filter" + "By" + "=" == "filterBy="
    ensures "filter" + "Op" + "=" == "filterOp="
    ensures "filter" + "Value" + "=" == "filterValue="
  {
  }
}
