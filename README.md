# Portable Contacts client, modelled in Dafny

`PortableContacts` is a small Ruby client for the Portable Contacts API
(the contact-list API that Google, Yahoo and Plaxo offered over OAuth). One
`Client` object holds the provider's base URL and an OAuth access token. It
has three calls:

- `me` reads the token owner's own entry.
- `all` reads a page of the owner's contacts.
- `find(id)` reads one contact.

Each call builds a URL of the form base URL + path + query string and sends it
through the access token with `Accept: application/json`. It then parses the
response and wraps the decoded data:

- A `Person` gives underscored accessors (`display_name`, `emails`, ...) over
  the lower-camel JSON keys, plus a memoised primary `email`.
- A `Collection` holds one `Person` per entry and the page counters
  `total_entries`, `per_page` and `start_index`.

The query string comes from an options hash with up to five options:

- `:fields` (a Symbol, `:all` or a list);
- `:filter` (a record with `by`, `op` and `value`; `op` defaults to
  `"equals"`);
- `:sort` (a Symbol or a record with `by` and `order`);
- `:count`;
- `:start_index`.

Every pair is generated, the pairs are sorted byte-wise, and they are joined
with `&` behind a `?`. `URI.escape` is applied to a fields or sort Symbol and
to every member value of a filter or sort record. The texts of a fields list,
the count and the start index are written unescaped.

The model has one Dafny module per concern:

| file | module | what it holds |
|---|---|---|
| `ruby.dfy` | `Ruby` | `Option`, the raised exceptions, `Result` with `:-`, byte strings |
| `strings.dfy` | `Strings` | `capitalize`, ActiveSupport `camelize(:lower)` and its inverse, `blank?`, Ruby 1.8 `String#each` lines, `Integer#to_s`, `String#to_i` |
| `order.dfy` | `ByteOrder` | Ruby's string order `<=>` and `Array#sort` on strings |
| `uri_escape.dfy` | `UriEscape` | `URI.escape` with its default safe set, and percent-decoding |
| `json_values.dfy` | `JsonValues` | decoded JSON values, Ruby `[]` on each kind, `to_i` |
| `query.dfy` | `Query` | the option values, `symbolize_keys!`, the four option helpers, `to_query_list`, `options_for` (a class `OptionsHash` whose methods update the caller's hash in place) |
| `query_props.dfy` | `QueryProperties` | what the encoder promises: sorted pairs, order independence, filter defaults, sort and paging rules, String keys |
| `examples.dfy` | `QueryExamples` | some of the RSpec query-string examples (a fields or sort Symbol, the filter with and without `:op`, count with start index), one option at a time and for whole families of inputs; the other examples follow from the general rules in `query_props.dfy` |
| `combined_examples.dfy` | `CombinedQuery` | the "all parameters at once" examples, with Symbol keys and with String keys |
| `people.dfy` | `People` | `Person` (a class with a memoised `email` field), the accessor lookup, `Collection` |
| `client.dfy` | `Client` | `parse`, `single`, `collection`, `reverse_merge` defaults, the access token, `Client` with `me`, `all`, `find` |

Methods that update state (`symbolize_keys!`, writing the default `:op`, the
`params <<` appends of `pagination_options`, the `@email ||=` memo, filling a `Collection`, logging a
request) are proved against specification functions. The properties are
proved about those functions.

## Model

| member | source | states |
|---|---|---|
| Strings.Capitalize | lib/portable_contacts.rb:138 | `capitalize` keeps the length, upper-cases the first character and lower-cases every other one |
| Strings.CamelizeLower | lib/portable_contacts.rb:178 | `camelize(:lower)` raises a TypeError exactly on the empty word; otherwise the result starts with the word's first character lower-cased, and a word with no `/`, `_` or line break keeps the rest unchanged |
| Strings.PlainKeyCamelizesToItself | lib/portable_contacts.rb:177-179 | a non-empty lower-camel key on one line, with no `_` or `/`, is unchanged by `camelize(:lower)`, so `person[k]` reads key `k` itself |
| Strings.UnderscoreRoundTrip | lib/portable_contacts.rb:194-203 | `camelize(:lower)` of a plain key's underscored accessor name gives the key back, for every non-empty lower-camel key on one line with no `_` or `/` |
| Strings.Lines | lib/portable_contacts.rb:210 | the lines `collect` walks in a String are non-empty; none holds a line break before its last character, and every line but the last ends with one; the empty text has no lines |
| Strings.LinesCoverText | lib/portable_contacts.rb:210 | the lines that a String entry's `collect` walks concatenate to the whole text |
| Strings.SingleLine | lib/portable_contacts.rb:210 | a non-empty text without a line break is exactly one line |
| Strings.StrToI | lib/portable_contacts.rb:211-213 | `to_i` is negative only when a `-` follows the leading white space and underscores |
| Strings.StrToISkipsBlanks | lib/portable_contacts.rb:211-213 | white space and underscores in front of a number do not change what `to_i` reads (`"_12"` reads 12) |
| Strings.StrToIDecimal | lib/portable_contacts.rb:211-213 | `to_i` of `Integer#to_s` gives back the integer, negative ones included |
| Strings.StrToILeadingDigits | lib/portable_contacts.rb:211-213 | `to_i` of a text that starts with digits is the value of those digits, whatever follows, except for a lone `0` followed by `d` or `D` and a digit, which is the base-ten prefix |
| Strings.StrToIDecimalPrefix | lib/portable_contacts.rb:211-213 | the base-ten prefix `0d` or `0D` in front of the digits is skipped |
| Strings.StrToINoDigits | lib/portable_contacts.rb:211-213 | `to_i` of a text with no leading sign, digit, space or underscore is 0 |
| ByteOrder.BelowReflexive | lib/portable_contacts.rb:65 | Ruby's string order puts every string at or below itself |
| ByteOrder.BelowTotal | lib/portable_contacts.rb:65 | any two strings are comparable |
| ByteOrder.BelowAntisymmetric | lib/portable_contacts.rb:65 | two strings each at or below the other are equal |
| ByteOrder.BelowTransitive | lib/portable_contacts.rb:65 | the order is transitive |
| ByteOrder.Sort | lib/portable_contacts.rb:65 | `pairs.sort` is sorted and a permutation of its input |
| ByteOrder.SortedUnique | lib/portable_contacts.rb:65 | two sorted lists with the same elements are equal |
| ByteOrder.SortIgnoresOrder | lib/portable_contacts.rb:65 | sorting two permutations of one list gives the same list |
| ByteOrder.SortOfSorted | lib/portable_contacts.rb:65 | sorting a sorted list leaves it unchanged |
| UriEscape.Escape | lib/portable_contacts.rb:138 | each byte becomes one character or three, so the result is between one and three times as long as the value |
| UriEscape.EscapeRoundTrip | lib/portable_contacts.rb:138 | percent-decoding an escaped value gives the value back |
| UriEscape.EscapeIdentityIffSafe | lib/portable_contacts.rb:138 | escaping leaves a value unchanged if and only if every byte is in the safe set (so `&` and `=` pass through) |
| UriEscape.EscapeLength | lib/portable_contacts.rb:138 | escaping never shortens a value and lengthens it whenever one byte is unsafe |
| UriEscape.EscapeOutputAlphabet | lib/portable_contacts.rb:138 | every character of an escaped value is safe or a `%` |
| JsonValues.Index | lib/portable_contacts.rb:184 | `value[key]` is a Hash lookup on an object, a substring test on a String, a TypeError on an Array or Integer, and a NoMethodError on nil and booleans |
| JsonValues.ToI | lib/portable_contacts.rb:211-213 | `to_i` is 0 for nil, the number for an Integer, `String#to_i` for a String, and raises for the rest |
| Query.Symbolized | lib/portable_contacts.rb:64 | after `symbolize_keys!` every top-level key is a Symbol; a name is present if it was under either spelling; when both spellings are present the String key's value wins (a fixed choice, see Left out) |
| Query.FieldsPairs | lib/portable_contacts.rb:97-106 | at most one pair, always starting `fields=`; no pair exactly for nil and values without `collect` |
| Query.ToS | lib/portable_contacts.rb:138 | the text of an Integer reads back as that Integer through `to_i` |
| Query.ToQueryList | lib/portable_contacts.rb:137-139 | one pair per entry, in entry order: prefix, capitalised key, `=`, escaped value |
| Query.SortPairs | lib/portable_contacts.rb:108-117 | no pair exactly when the value is neither a Symbol nor a record with a truthy `by`; one pair per member of such a record; every pair starts with `sort` |
| Query.WithDefaultOp | lib/portable_contacts.rb:133 | afterwards `:op` reads a truthy value and every other key reads as before; a filter whose `:op` is already truthy is unchanged |
| Query.FilledFilter | lib/portable_contacts.rb:131-135 | succeeds exactly for nil, a Hash, an empty Array and an empty String; raises TypeError for other Arrays, IndexError for other Strings and NoMethodError on `empty?` for the rest; a non-empty Hash ends with a truthy `:op` and its other keys unchanged, and is left as it is when its `:op` is truthy |
| Query.FilterPairs | lib/portable_contacts.rb:134 | one pair per member of a filled filter Hash, each starting with `filter`; none for other values |
| Query.PaginationPairs | lib/portable_contacts.rb:119-129 | one pair for each of `:count` and `:start_index` that is truthy in a non-empty hash, each starting with `count=` or `startIndex=` |
| Query.QueryPairs | lib/portable_contacts.rb:65 | raises exactly when `filter_options` raises; every pair starts with the name of the option it comes from |
| Query.Render | lib/portable_contacts.rb:65 | the result starts with `?`; no pairs render as `?` alone, and a single pair as `?` followed by that pair |
| Query.QueryString | lib/portable_contacts.rb:62-66 | `""` exactly for nil or empty options; otherwise the string starts with `?`; it raises exactly when `filter_options` raises |
| Query.OptionsHash.SymbolizeKeys | lib/portable_contacts.rb:64 | the caller's hash becomes its symbolized form |
| Query.OptionsHash.FilterOptions | lib/portable_contacts.rb:131-135 | returns the filter pairs and writes the filled filter back into the caller's hash; on a raise, nothing changes |
| Query.OptionsHash.PaginationOptions | lib/portable_contacts.rb:119-129 | appending to `params` one pair at a time yields the pagination pairs of the hash |
| Query.OptionsHash.OptionsFor | lib/portable_contacts.rb:62-66 | answers the query string of the original hash; leaves the hash symbolized with the default `:op` written in, or symbolized only when it raises |
| QueryProperties.QueryStringIsSortedPairs | lib/portable_contacts.rb:62-66 | a non-empty hash renders as `?` plus any sorted arrangement of its pairs joined by `&` |
| QueryProperties.QueryPairsParts | lib/portable_contacts.rb:65 | the pairs are the fields, filter, sort and paging pairs, in that order |
| QueryProperties.PairsOrderIrrelevant | lib/portable_contacts.rb:65 | two pair lists with the same elements render the same query string |
| QueryProperties.HashGetPermutes | lib/portable_contacts.rb:113 | looking a key up in a record with distinct keys does not depend on entry order |
| QueryProperties.ToQueryListPermutes | lib/portable_contacts.rb:137-139 | a reordered record yields the same pairs |
| QueryProperties.SortOrderIrrelevant | lib/portable_contacts.rb:108-117 | a sort record in another entry order yields the same pairs |
| QueryProperties.FilterOrderIrrelevant | lib/portable_contacts.rb:131-139 | a filter record in another entry order is accepted and yields the same pairs |
| QueryProperties.FieldsSymbol | lib/portable_contacts.rb:99-100 | a field Symbol other than `:all` yields only `fields=` plus its escaped name, which decodes back to the name |
| QueryProperties.FieldsList | lib/portable_contacts.rb:101-102 | a list of fields yields `fields=` plus the names joined by `,`, unescaped |
| QueryProperties.FilterAbsentOrEmpty | lib/portable_contacts.rb:132 | an absent or empty filter is left alone and contributes nothing |
| QueryProperties.FilterDefaultsOp | lib/portable_contacts.rb:133-134 | without `:op` the filter gains `:op => "equals"`; its pairs are the members' pairs followed by `filterOp=equals` |
| QueryProperties.FilterKeepsOp | lib/portable_contacts.rb:133-134 | a truthy `:op` is kept; the filter is unchanged and its pairs include `filterOp=` plus the escaped op |
| QueryProperties.FilterStringOpStillDefaults | lib/portable_contacts.rb:133 | an operator under the String key `'op'` is not seen, so both `filterOp=<op>` and `filterOp=equals` are sent |
| QueryProperties.FilterRejectsNonHash | lib/portable_contacts.rb:132-133 | a filter that is neither nil nor a Hash raises unless it is an empty list or empty String |
| QueryProperties.SortSymbol | lib/portable_contacts.rb:110-111 | a sort Symbol yields only `sortBy=` plus its escaped name, which decodes back to the name |
| QueryProperties.SortRecord | lib/portable_contacts.rb:113-116 | a record with a truthy `:by` or `'by'` yields one `sort`-prefixed pair per member; without it, nothing |
| QueryProperties.CountIndependentOfStart | lib/portable_contacts.rb:122-124 | whether a `count=` pair is generated does not depend on `:start_index` |
| QueryProperties.StartIndependentOfCount | lib/portable_contacts.rb:125-127 | whether a `startIndex=` pair is generated does not depend on `:count` |
| QueryProperties.PaginationNumbers | lib/portable_contacts.rb:119-129 | integer count and start give `count=<n>` and `startIndex=<n>` in decimal, which `to_i` reads back |
| QueryProperties.StringKeysSameAsSymbolKeys | lib/portable_contacts.rb:64 | writing every top-level key as a String gives the same query string as the Symbol keys |
| QueryExamples.FieldsSymbolQuery | spec/portable_contacts_spec.rb:30-32 | `options_for(:fields => :n)` is `?fields=n` for every escape-free name other than `all` |
| QueryExamples.SortSymbolQuery | spec/portable_contacts_spec.rb:59-61 | `options_for(:sort => :n)` is `?sortBy=n` for every escape-free name |
| QueryExamples.PagingQuery | spec/portable_contacts_spec.rb:83-85 | `options_for(:count => c, :start_index => s)` is `?count=c&startIndex=s` for all integers |
| QueryExamples.FilterWithOpQuery | spec/portable_contacts_spec.rb:46-54 | a filter with `:by`, `:op` and `:value => "bb"` renders as `?filterBy=f&filterOp=op&filterValue=bb` for every escape-free field and op |
| QueryExamples.FilterDefaultOpQuery | spec/portable_contacts_spec.rb:42-44 | a filter with `:by` and `:value` renders as `?filterBy=f&filterOp=equals&filterValue=v` |
| CombinedQuery.EverythingQuery | spec/portable_contacts_spec.rb:89-95 | all five options at once render as the eight pairs in byte order, in either spelling |
| CombinedQuery.SpellingIrrelevant | spec/portable_contacts_spec.rb:100-106 | String keys and String names give the same query string as Symbols |
| People.FindPrimary | lib/portable_contacts.rb:184 | a found address is one of the addresses and its `"primary"` reads the mark |
| People.FindPrimaryAt | lib/portable_contacts.rb:184 | the search answers the first address whose `"primary"` is the mark |
| People.FindPrimaryNone | lib/portable_contacts.rb:184 | with no address so marked, the search answers none |
| People.EmailOf | lib/portable_contacts.rb:182-186 | raises when `emails` cannot be read; from a non-empty Array of addresses, the e-mail is the `"value"` of one of them |
| People.EmailIsPrimary | lib/portable_contacts.rb:182-186 | the e-mail is the `"value"` of the first address marked primary |
| People.EmailFallsBackToFirst | lib/portable_contacts.rb:182-186 | without a primary address, the e-mail is the first address's `"value"` |
| People.EmailOfNoAddresses | lib/portable_contacts.rb:184 | no addresses, no e-mail (nil) |
| People.Person.constructor | lib/portable_contacts.rb:149-151 | a new contact holds its data and has nothing memoised |
| People.Person.Field | lib/portable_contacts.rb:177-179 | `person[key]` is the data's value under `camelize(:lower)` of the key, nil when absent; the empty key raises a TypeError |
| People.Person.FieldByAccessorName | lib/portable_contacts.rb:177-179 | a plain JSON key (non-empty, lower-camel, on one line, no `_` or `/`) is read both by itself and by its underscored accessor name |
| People.Person.Id | lib/portable_contacts.rb:188-190 | `id` is the data's `"id"` entry |
| People.Person.RespondsTo | lib/portable_contacts.rb:201-203 | true for every entry field; otherwise whether the camelised name is a data key; the empty name raises a TypeError |
| People.Person.Accessor | lib/portable_contacts.rb:194-199 | an accessor succeeds exactly for entry fields and data keys, answering the field; any other non-empty name raises NoMethodError, the empty name a TypeError |
| People.Person.AccessorReadsKey | lib/portable_contacts.rb:194-203 | the underscored accessor of a plain data key (non-empty, lower-camel, on one line, no `_` or `/`) answers that key's value |
| People.Person.Email | lib/portable_contacts.rb:182-186 | answers the e-mail of the data on every call; remembers a truthy answer and keeps a remembered one |
| People.EntryItems | lib/portable_contacts.rb:210 | the items of `entry.collect`: an Array's elements, a String's lines, a NoMethodError for nil, booleans and numbers |
| People.PageOf | lib/portable_contacts.rb:209-214 | raises exactly when walking `"entry"` or reading one of the three counters raises; an Array entry gives its elements, in order |
| People.PageReadsCounters | lib/portable_contacts.rb:209-214 | counters given as numbers or decimal text are read back exactly, entries in order |
| People.PageMissingCountersAreZero | lib/portable_contacts.rb:211-213 | missing counters read as 0 |
| People.PageNeedsEntry | lib/portable_contacts.rb:210 | a response without `"entry"` raises NoMethodError |
| People.PageOfTextEntry | lib/portable_contacts.rb:210 | a text entry gives one contact per line, and the lines make up the text |
| People.NewCollection | lib/portable_contacts.rb:209-214 | one new contact per entry, in order, and the three counters; raises exactly where reading the page does |
| Client.Parse | lib/portable_contacts.rb:84-95 | false without a response or for codes other than 200 and 201; true for a blank body; otherwise the decoded body |
| Client.ParseRaisesOnlyInDecoder | lib/portable_contacts.rb:84-95 | `parse` raises only when the decoder raises on the body of a successful response |
| Client.Single | lib/portable_contacts.rb:68-74 | a Hash with a truthy `"entry"` becomes a new contact of that entry; anything else is answered unchanged |
| Client.CollectionReply | lib/portable_contacts.rb:76-82 | a Hash becomes a collection of its page (or raises where the page does); anything else is answered unchanged |
| Client.AccessToken.Get | lib/portable_contacts.rb:55 | the token logs the URL with its headers and answers the provider's response to that URL |
| Client.ReverseMerge | lib/portable_contacts.rb:31 | `reverse_merge`: every key of either hash, the caller's values winning |
| Client.MergedOption | lib/portable_contacts.rb:43 | after merging and `symbolize_keys!`, an option is the caller's String entry, else the caller's Symbol entry, else the default |
| Client.DefaultFieldsAll | lib/portable_contacts.rb:30-32 | unless the caller names fields, `me` and `find` send `fields=@all` |
| Client.AllDefaultsApply | lib/portable_contacts.rb:42-44 | unless the caller says otherwise, `all` sends `fields=@all` and `count=100` |
| Client.AllCountOverride | lib/portable_contacts.rb:42-44 | a count the caller gives to `all`, under either key spelling, replaces 100 |
| Client.Client.constructor | lib/portable_contacts.rb:23-26 | the client holds the base URL and the access token |
| Client.Client.UrlFor | lib/portable_contacts.rb:58-60 | the URL is the base URL followed by exactly the path |
| Client.Client.RequestUrl | lib/portable_contacts.rb:55 | raises exactly when the query string does; without options the URL is the bare path URL, otherwise `?` follows the path URL |
| Client.Client.Get | lib/portable_contacts.rb:54-56 | one request for URL plus query string with `Accept: application/json`, answering the parsed response; no request when the options raise |
| Client.Client.Me | lib/portable_contacts.rb:30-32 | requests `/@me/@self` with `fields=>:all` merged in and answers `single` of the parsed data |
| Client.Client.All | lib/portable_contacts.rb:42-44 | requests `/@me/@all` with `fields=>:all, count=>100` merged in and answers `collection` of the parsed data |
| Client.Client.Find | lib/portable_contacts.rb:48-50 | requests `/@me/@all/<id>` with `fields=>:all` merged in and answers `single` of the parsed data |

## Left out

- The OAuth signing and the HTTP request behind `@access_token.get` are not modelled. `AccessToken` stands in for them: it answers canned responses by URL and logs every request.
- `JSON.parse` is not modelled. The client takes the decoder as a parameter, and the decoded values hold integers only (no floats).
- `String#to_i` with an explicit base is not modelled, because the library only calls it without one. Base ten, with its `0d` prefix, is.
- Query.FilledFilter: a String filter is assumed shorter than the integer that `:op.to_int` gives in Ruby 1.8, so `[:op]` reads nil and the write raises IndexError. A String longer than that number would read one byte instead. The model does not cover that case, because the number depends on the interpreter's symbol table.
- Collection over an object-valued `"entry"` yields `OutsideModel`, because the order in which Ruby 1.8 walks a Hash is not modelled. So does `email` over a non-empty String `"emails"`.
- Ruby's method dispatch is replaced by an explicit lookup that answers a value or a NoMethodError. This covers `method_missing` falling back to `super`, and `respond_to?` being protected and falling back to `super`.
- The `@email` memo is modelled as the field `email` of `Person`. Aliasing of the `Person` and its data is not modelled, because the data is a value.
- The default `:op` is written into the filter hash as a new value in the caller's options. The model does not capture that Ruby shares this nested Hash object with the caller.
- Query.Symbolized, Client.MergedOption and the String-key case of Client.AllCountOverride: when a name is present both as a Symbol and as a String, the model always keeps the String key's value. That is what ActiveSupport 3's `symbolize_keys!` gives. The ActiveSupport 2.x that the library loads rebuilds the hash pair by pair in Ruby 1.8's hash order, so there the spelling walked last wins. That order is not modelled.
- Strings are byte strings. Multi-byte characters and Unicode escaping are not modelled.
- The primary flag of an address is compared with `"true "`, trailing space included, as the code does. Portable Contacts data writes the flag as `"true"`. So an address flagged in the usual way is not found as primary, and `email` falls back to the first address. The RSpec example at spec/portable_contacts_spec.rb:151-153 passes either way, because its primary address is also its first.
- The RSpec examples are stated for every name that escaping leaves alone, not only for the literal names of the tests. The person and collection fixtures the tests read are not part of this model; their properties are stated for any data.
- `initialize` of `Client` stores its arguments. The model adds the decoder there, as a constructor parameter.
