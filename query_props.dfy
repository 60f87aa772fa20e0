/** What the query-string encoder promises: the output is the sorted pair
    list; the order in which pairs or hash entries are produced never
    matters; and the per-option rules for fields, filter, sort and paging. */
module QueryProperties {
  import opened Ruby
  import opened Strings
  import opened ByteOrder
  import opened UriEscape
  import opened Query

  // ---------------------------------------------------------------------
  // The overall shape.

  /** For a non-empty options hash, the query string is `?` followed by the
      generated pairs in byte order, joined with `&`: any sorted arrangement
      of the pairs is the one `options_for` renders. */
  lemma QueryStringIsSortedPairs(m: map<Key, Value>, sorted: seq<string>)
    requires |m| > 0 && QueryPairs(m).Ok?
    requires Sorted(sorted) && multiset(sorted) == multiset(QueryPairs(m).value)
    ensures QueryString(Some(m)) == Ok("?" + Join(sorted, "&"))
  {
    SortedUnique(Sort(QueryPairs(m).value), sorted);
  }

  /** The pairs of a hash whose filter is accepted, part by part. */
  lemma QueryPairsParts(m: map<Key, Value>, filled: Value)
    requires FilledFilter(Lookup(Symbolized(m), FilterKey)) == Ok(filled)
    ensures QueryPairs(m) == Ok(FieldsPairs(Lookup(Symbolized(m), FieldsKey)) + FilterPairs(filled)
                                + SortPairs(Lookup(Symbolized(m), SortKey)) + PaginationPairs(Symbolized(m)))
  {
  }

  /** Two pair lists holding the same pairs render the same query string. */
  lemma PairsOrderIrrelevant(p1: seq<string>, p2: seq<string>)
    requires multiset(p1) == multiset(p2)
    ensures Render(p1) == Render(p2)
  {
    SortIgnoresOrder(p1, p2);
  }

  // ---------------------------------------------------------------------
  // Hash entries in another order.

  /** No entry of the hash has key `k`. */
  predicate Lacks(es: seq<(Key, Value)>, k: Key) {
    forall i :: 0 <= i < |es| ==> es[i].0 != k
  }

  predicate DistinctKeys(es: seq<(Key, Value)>) {
    forall i, j :: 0 <= i < j < |es| ==> es[i].0 != es[j].0
  }

  lemma {:induction false} HashGetFound(es: seq<(Key, Value)>, i: nat)
    requires DistinctKeys(es) && i < |es|
    ensures HashGet(es, es[i].0) == es[i].1
  {
    if i > 0 {
      assert es[0].0 != es[i].0;
      assert DistinctKeys(es[1..]) by {
        forall a, b | 0 <= a < b < |es[1..]| ensures es[1..][a].0 != es[1..][b].0 {
          assert es[1..][a] == es[a + 1] && es[1..][b] == es[b + 1];
        }
      }
      HashGetFound(es[1..], i - 1);
    }
  }

  lemma {:induction false} HashGetMissing(es: seq<(Key, Value)>, k: Key)
    requires Lacks(es, k)
    ensures HashGet(es, k) == Nil
  {
    if es != [] {
      HashGetMissing(es[1..], k);
    }
  }

  /** Looking a key up does not depend on the order of a hash's entries. */
  lemma HashGetPermutes(es1: seq<(Key, Value)>, es2: seq<(Key, Value)>, k: Key)
    requires DistinctKeys(es1) && DistinctKeys(es2)
    requires multiset(es1) == multiset(es2)
    ensures HashGet(es1, k) == HashGet(es2, k)
  {
    if i :| 0 <= i < |es1| && es1[i].0 == k {
      assert es1[i] in multiset(es2);
      var j :| 0 <= j < |es2| && es2[j] == es1[i];
      HashGetFound(es1, i);
      HashGetFound(es2, j);
    } else {
      forall j | 0 <= j < |es2| ensures es2[j].0 != k {
        assert es2[j] in multiset(es1);
      }
      HashGetMissing(es1, k);
      HashGetMissing(es2, k);
    }
  }

  lemma ToQueryListAppend(a: seq<(Key, Value)>, b: seq<(Key, Value)>, prefix: string)
    ensures ToQueryList(a + b, prefix) == ToQueryList(a, prefix) + ToQueryList(b, prefix)
  {
    var l, r := ToQueryList(a + b, prefix), ToQueryList(a, prefix) + ToQueryList(b, prefix);
    forall i | 0 <= i < |l| ensures l[i] == r[i] {
      if i < |a| { assert (a + b)[i] == a[i]; } else { assert (a + b)[i] == b[i - |a|]; }
    }
  }

  lemma SplitAt<T>(s: seq<T>, j: nat)
    requires j < |s|
    ensures s == s[..j] + ([s[j]] + s[j + 1..])
  {
  }

  lemma MultisetWithout<T>(s: seq<T>, j: nat)
    requires j < |s|
    ensures multiset(s[..j] + s[j + 1..]) == multiset(s) - multiset{s[j]}
  {
    assert s == s[..j] + [s[j]] + s[j + 1..];
  }

  lemma RemoveMatched<T>(a: seq<T>, b: seq<T>, j: nat)
    requires multiset(a) == multiset(b) && a != [] && j < |b| && b[j] == a[0]
    ensures multiset(a[1..]) == multiset(b[..j] + b[j + 1..])
  {
    MultisetWithout(a, 0);
    MultisetWithout(b, j);
    assert a[..0] + a[1..] == a[1..];
  }

  lemma ToQueryListWithout(b: seq<(Key, Value)>, j: nat, prefix: string)
    requires j < |b|
    ensures multiset(ToQueryList(b, prefix))
         == multiset(ToQueryList(b[..j] + b[j + 1..], prefix)) + multiset{QueryPair(prefix, b[j])}
  {
    SplitAt(b, j);
    ToQueryListAppend(b[..j], [b[j]] + b[j + 1..], prefix);
    ToQueryListAppend([b[j]], b[j + 1..], prefix);
    ToQueryListAppend(b[..j], b[j + 1..], prefix);
  }

  lemma ToQueryListFront(a: seq<(Key, Value)>, prefix: string)
    requires a != []
    ensures multiset(ToQueryList(a, prefix)) == multiset(ToQueryList(a[1..], prefix)) + multiset{QueryPair(prefix, a[0])}
  {
    assert ToQueryList(a, prefix) == [QueryPair(prefix, a[0])] + ToQueryList(a[1..], prefix);
  }

  /** `to_query_list` over a reordered hash gives the same pairs. */
  lemma {:induction false} ToQueryListPermutes(a: seq<(Key, Value)>, b: seq<(Key, Value)>, prefix: string)
    requires multiset(a) == multiset(b)
    ensures multiset(ToQueryList(a, prefix)) == multiset(ToQueryList(b, prefix))
    decreases |a|
  {
    if a == [] {
      assert |multiset(b)| == 0;
    } else {
      assert a[0] in multiset(b);
      var j :| 0 <= j < |b| && b[j] == a[0];
      var rest := b[..j] + b[j + 1..];
      RemoveMatched(a, b, j);
      ToQueryListPermutes(a[1..], rest, prefix);
      ToQueryListWithout(b, j, prefix);
      ToQueryListFront(a, prefix);
    }
  }

  /** A sort record in another entry order yields the same pairs. */
  lemma SortOrderIrrelevant(es1: seq<(Key, Value)>, es2: seq<(Key, Value)>)
    requires DistinctKeys(es1) && DistinctKeys(es2)
    requires multiset(es1) == multiset(es2)
    ensures multiset(SortPairs(Hash(es1))) == multiset(SortPairs(Hash(es2)))
  {
    HashGetPermutes(es1, es2, ByKey);
    HashGetPermutes(es1, es2, Str("by"));
    if HasBy(es1) {
      assert SortPairs(Hash(es1)) == ToQueryList(es1, "sort");
      assert SortPairs(Hash(es2)) == ToQueryList(es2, "sort");
      ToQueryListPermutes(es1, es2, "sort");
    } else {
      assert SortPairs(Hash(es1)) == [] && SortPairs(Hash(es2)) == [];
    }
  }

  lemma KeyIndexOfDistinct(es: seq<(Key, Value)>, j: nat, k: Key)
    requires DistinctKeys(es) && j < |es| && es[j].0 == k
    ensures KeyIndex(es, k) == j
  {
  }

  lemma HasKeyPermutes(es1: seq<(Key, Value)>, es2: seq<(Key, Value)>, k: Key)
    requires multiset(es1) == multiset(es2)
    ensures (exists i :: 0 <= i < |es1| && es1[i].0 == k) ==> (exists j :: 0 <= j < |es2| && es2[j].0 == k)
  {
    if i :| 0 <= i < |es1| && es1[i].0 == k {
      assert es1[i] in multiset(es2);
    }
  }

  lemma DefaultOpPermutes(es1: seq<(Key, Value)>, es2: seq<(Key, Value)>)
    requires DistinctKeys(es1) && DistinctKeys(es2)
    requires multiset(es1) == multiset(es2)
    ensures multiset(WithDefaultOp(es1)) == multiset(WithDefaultOp(es2))
  {
    var op := OpKey;
    HasKeyPermutes(es1, es2, op);
    HasKeyPermutes(es2, es1, op);
    var i1 := KeyIndex(es1, op);
    if i1 < |es1| {
      assert es1[i1] in multiset(es2);
      var j :| 0 <= j < |es2| && es2[j] == es1[i1];
      KeyIndexOfDistinct(es2, j, op);
    }
  }

  lemma FilledHash(es: seq<(Key, Value)>)
    ensures FilledFilter(Hash(es)) == Ok(if es == [] then Hash(es) else Hash(WithDefaultOp(es)))
    ensures FilterPairs(FilledFilter(Hash(es)).value)
         == if es == [] then [] else ToQueryList(WithDefaultOp(es), "filter")
  {
  }

  /** A filter hash in another entry order yields the same pairs. */
  lemma FilterOrderIrrelevant(es1: seq<(Key, Value)>, es2: seq<(Key, Value)>)
    requires DistinctKeys(es1) && DistinctKeys(es2)
    requires multiset(es1) == multiset(es2)
    ensures FilledFilter(Hash(es1)).Ok? && FilledFilter(Hash(es2)).Ok?
    ensures multiset(FilterPairs(FilledFilter(Hash(es1)).value))
         == multiset(FilterPairs(FilledFilter(Hash(es2)).value))
  {
    FilledHash(es1);
    FilledHash(es2);
    if es1 == [] {
      assert |multiset(es2)| == 0;
    } else {
      assert es1[0] in multiset(es2);
      DefaultOpPermutes(es1, es2);
      ToQueryListPermutes(WithDefaultOp(es1), WithDefaultOp(es2), "filter");
    }
  }

  // ---------------------------------------------------------------------
  // fields_options

  /** A single field symbol other than `:all` is sent escaped, and the
      server's percent-decoding recovers the name. */
  lemma FieldsSymbol(n: Bytes)
    requires n != "all"
    ensures exists e :: FieldsPairs(Symbol(n)) == ["fields=" + e] && e == Escape(n) && Unescape(e) == n
  {
    EscapeRoundTrip(n);
  }

  /** A list of fields is sent as the names joined by commas, each name as
      it is, without escaping. */
  lemma FieldsList(items: seq<Value>, names: seq<string>)
    requires |items| == |names|
    requires forall i :: 0 <= i < |items| ==> ToS(items[i]) == names[i]
    ensures FieldsPairs(List(items)) == ["fields=" + Join(names, ",")]
  {
    assert ItemTexts(items) == names;
  }

  // ---------------------------------------------------------------------
  // filter_options

  /** An absent or empty filter contributes nothing and is left as it is. */
  lemma FilterAbsentOrEmpty(v: Value)
    requires v == Nil || v == Hash([])
    ensures FilledFilter(v) == Ok(v) && FilterPairs(v) == []
  {
  }

  lemma DefaultOpPair()
    ensures QueryPair("filter", DefaultOp) == "filterOp=equals"
  {
    OpPairName(Text("equals"));
    EqualsIsSafe();
    assert "filterOp=" + "equals" == "filterOp=equals";
  }

  lemma EqualsIsSafe()
    ensures Escape("equals") == "equals"
  {
    var s: Bytes := "equals";
    assert forall i :: 0 <= i < |s| ==> IsAlphaNum(s[i]);
    EscapeIdentityIffSafe(s);
  }

  lemma OpPairName(v: Value)
    ensures QueryPair("filter", (OpKey, v)) == "filterOp=" + Escape(ToS(v))
    ensures QueryPair("filter", (Str("op"), v)) == "filterOp=" + Escape(ToS(v))
  {
    assert Capitalize("op") == "Op";
  }

  /** Without a `:op` entry the filter gains `:op => "equals"`: every member
      keeps its own pair and `filterOp=equals` is added. */
  lemma FilterDefaultsOp(es: seq<(Key, Value)>)
    requires es != [] && Lacks(es, OpKey)
    ensures FilledFilter(Hash(es)) == Ok(Hash(es + [DefaultOp]))
    ensures FilterPairs(Hash(es + [DefaultOp])) == ToQueryList(es, "filter") + ["filterOp=equals"]
  {
    assert KeyIndex(es, OpKey) == |es|;
    AppendedOpPairs(es);
  }

  lemma AppendedOpPairs(es: seq<(Key, Value)>)
    ensures FilterPairs(Hash(es + [DefaultOp])) == ToQueryList(es, "filter") + ["filterOp=equals"]
  {
    ToQueryListAppend(es, [DefaultOp], "filter");
    DefaultOpPair();
  }

  /** A supplied, truthy `:op` is kept: the filter is unchanged and yields
      exactly one pair per member, among them `filterOp=<op>`. */
  lemma FilterKeepsOp(es: seq<(Key, Value)>, i: nat)
    requires DistinctKeys(es) && i < |es|
    requires es[i].0 == OpKey && Truthy(es[i].1)
    ensures FilledFilter(Hash(es)) == Ok(Hash(es))
    ensures FilterPairs(Hash(es)) == ToQueryList(es, "filter")
    ensures "filterOp=" + Escape(ToS(es[i].1)) in FilterPairs(Hash(es))
  {
    assert WithDefaultOp(es) == es by { KeyIndexOfDistinct(es, i, OpKey); }
    FilledHash(es);
    var pairs := ToQueryList(es, "filter");
    assert pairs[i] == "filterOp=" + Escape(ToS(es[i].1)) by { OpPairName(es[i].1); }
  }

  /** Only the Symbol `:op` is consulted: a filter whose operator is given
      under the String key `'op'` still gains `filterOp=equals`, so both
      operators are sent. */
  lemma FilterStringOpStillDefaults(es: seq<(Key, Value)>, j: nat, op: Bytes)
    requires j < |es| && es[j] == (Str("op"), Text(op))
    requires Lacks(es, OpKey)
    ensures FilledFilter(Hash(es)).Ok?
    ensures "filterOp=" + Escape(op) in FilterPairs(FilledFilter(Hash(es)).value)
    ensures "filterOp=equals" in FilterPairs(FilledFilter(Hash(es)).value)
  {
    FilterDefaultsOp(es);
    OpPairName(Text(op));
    assert ToQueryList(es, "filter")[j] == QueryPair("filter", es[j]);
    assert ToQueryList(es + [DefaultOp], "filter")[|es|] == QueryPair("filter", DefaultOp);
  }

  /** A filter that is neither nil nor a Hash raises, unless it is an empty
      Array or String. */
  lemma FilterRejectsNonHash(v: Value)
    requires !v.Nil? && !v.Hash?
    ensures FilledFilter(v).Raise? <==> !(v == List([]) || v == Text([]))
  {
  }

  // ---------------------------------------------------------------------
  // sort_options

  /** A sort symbol yields only `sortBy=<escaped name>`, which decodes back
      to the name. */
  lemma SortSymbol(n: Bytes)
    ensures exists e :: SortPairs(Symbol(n)) == ["sortBy=" + e] && e == Escape(n) && Unescape(e) == n
  {
    EscapeRoundTrip(n);
  }

  /** A sort record with a truthy `:by` or `'by'` yields one
      `sort<Member>=<value>` pair per member; without one it yields nothing. */
  lemma SortRecord(es: seq<(Key, Value)>)
    ensures HasBy(es) ==>
      && |SortPairs(Hash(es))| == |es|
      && forall i :: 0 <= i < |es| ==>
           SortPairs(Hash(es))[i] == "sort" + Capitalize(es[i].0.name) + "=" + Escape(ToS(es[i].1))
    ensures !HasBy(es) ==> SortPairs(Hash(es)) == []
  {
  }

  // ---------------------------------------------------------------------
  // pagination_options

  /** The count pair does not depend on `:start_index`. */
  lemma CountIndependentOfStart(m: map<Key, Value>, v: Value, p: string)
    requires |m| > 0 && IsPrefix("count=", p)
    ensures p in PaginationPairs(m) <==> p in PaginationPairs(m[StartIndexKey := v])
  {
    var m' := m[StartIndexKey := v];
    assert StartIndexKey in m';
    assert Lookup(m', CountKey) == Lookup(m, CountKey);
    if p in PaginationPairs(m) || p in PaginationPairs(m') {
      assert p[0] == 'c';
    }
  }

  /** The startIndex pair does not depend on `:count`. */
  lemma StartIndependentOfCount(m: map<Key, Value>, v: Value, p: string)
    requires |m| > 0 && IsPrefix("startIndex=", p)
    ensures p in PaginationPairs(m) <==> p in PaginationPairs(m[CountKey := v])
  {
    var m' := m[CountKey := v];
    assert CountKey in m';
    assert Lookup(m', StartIndexKey) == Lookup(m, StartIndexKey);
    if p in PaginationPairs(m) || p in PaginationPairs(m') {
      assert p[0] == 's';
    }
  }

  /** Integer counts are written in decimal, and `to_i` on the server's
      side reads back the same numbers. */
  lemma PaginationNumbers(m: map<Key, Value>, count: int, start: int)
    requires Lookup(m, CountKey) == Number(count)
    requires Lookup(m, StartIndexKey) == Number(start)
    ensures PaginationPairs(m) == ["count=" + Decimal(count), "startIndex=" + Decimal(start)]
    ensures StrToI(Decimal(count)) == count && StrToI(Decimal(start)) == start
  {
    assert CountKey in m;
    StrToIDecimal(count);
    StrToIDecimal(start);
  }

  // ---------------------------------------------------------------------
  // symbolize_keys!

  predicate AllSymbols(m: map<Key, Value>) {
    forall k :: k in m ==> k.Sym?
  }

  /** The same options hash with every top-level Symbol key written as a
      String. */
  function Stringified(m: map<Key, Value>): (r: map<Key, Value>)
    requires AllSymbols(m)
    ensures forall n :: Str(n) in r <==> Sym(n) in m
    ensures forall n :: Sym(n) in m ==> r[Str(n)] == m[Sym(n)]
    ensures forall k :: k in r ==> k.Str?
  {
    map k | k in (set k' | k' in m :: Str(k'.name)) :: m[Sym(k.name)]
  }

  /** Top-level keys may be Strings or Symbols: both spellings give the
      same query string (nested hashes are another matter, see
      `FilterStringOpStillDefaults`). */
  lemma StringKeysSameAsSymbolKeys(m: map<Key, Value>)
    requires AllSymbols(m)
    ensures QueryString(Some(Stringified(m))) == QueryString(Some(m))
  {
    StringifiedSymbolizes(m);
  }

  /** Writing every key as a String changes nothing `symbolize_keys!`
      produces, and keeps an empty hash empty. */
  lemma StringifiedSymbolizes(m: map<Key, Value>)
    requires AllSymbols(m)
    ensures Symbolized(Stringified(m)) == Symbolized(m)
    ensures |Stringified(m)| == 0 <==> |m| == 0
  {
    var s := Stringified(m);
    assert Symbolized(s).Keys == Symbolized(m).Keys;
    if |m| > 0 {
      var k :| k in m;
      assert Str(k.name) in s;
    } else {
      assert m == map[];
    }
  }
}
