/** `PortableContacts::Person` and `PortableContacts::Collection`: a contact
    wraps one decoded JSON entry and reads its fields through underscored
    accessor names; a collection is the list of contacts of one page
    together with the paging counters of the response. */
module People {
  import opened Ruby
  import opened Strings
  import opened JsonValues

  // ---------------------------------------------------------------------
  // The accessor names: the Portable Contacts and OpenSocial fields, in
  // their underscored spelling.

  const SingularFields: seq<string> := [
    "id", "display_name", "name", "nickname", "published", "updated", "birthday", "anniversary",
    "gender", "note", "preferred_username", "utc_offset", "connected",
    "about_me", "body_type", "current_location", "drinker", "ethnicity", "fashion", "happiest_when",
    "humor", "living_arrangement", "looking_for", "profile_song", "profile_video", "relationship_status",
    "religion", "romance", "scared_of", "sexual_orientation", "smoker", "status"
  ]

  const PluralFields: seq<string> := [
    "emails", "urls", "phone_numbers", "ims", "photos", "tags", "relationships", "addresses",
    "organizations", "accounts",
    "activities", "books", "cars", "children", "food", "heroes", "interests", "job_interests",
    "languages", "languages_spoken", "movies", "music", "pets", "political_views", "quotes",
    "sports", "turn_offs", "turn_ons", "tv_shows"
  ]

  const EntryFields: seq<string> := SingularFields + PluralFields

  // ---------------------------------------------------------------------
  // The primary e-mail address.

  /** The text `email` compares `e['primary']` with, trailing space
      included. */
  const PrimaryMark: string := "true "

  /** `emails.detect { |e| e['primary'] == 'true ' }`: the first address
      whose "primary" reads the mark, None when there is none. Indexing an
      address that cannot take a string index raises and ends the search. */
  function FindPrimary(items: seq<Json>): (r: Result<Option<Json>>)
    ensures r.Ok? && r.value.Some? ==> r.value.value in items
    ensures r.Ok? && r.value.Some? ==> Index(r.value.value, "primary") == Ok(JString(PrimaryMark))
  {
    if items == [] then Ok(None)
    else
      var p :- Index(items[0], "primary");
      if p == JString(PrimaryMark) then Ok(Some(items[0]))
      else
        var rest :- FindPrimary(items[1..]);
        Ok(rest)
  }

  /** `email` on a contact whose data is `data`: nothing when there are no
      addresses, otherwise the "value" of the primary address or, failing
      one, of the first. `emails.empty?` is asked first: nil, booleans and
      numbers have no `empty?`; a non-empty object is searched as
      `[key, value]` pairs, which cannot take a string index. */
  function EmailOf(data: Json): (r: Result<Json>)
    ensures Index(data, "emails").Raise? ==> r.Raise?
    ensures var emails := Index(data, "emails");
      emails.Ok? && emails.value.JArray? && emails.value.items != [] && r.Ok? ==>
        exists e :: e in emails.value.items && Index(e, "value") == r
  {
    var emails :- Index(data, "emails");
    match emails
    case JArray(items) =>
      if items == [] then Ok(JNull)
      else
        var primary :- FindPrimary(items);
        Index(if primary.Some? then primary.value else items[0], "value")
    case JObject(m) => if m == map[] then Ok(JNull) else Raise(TypeError)
    case JString(s) => if s == [] then Ok(JNull) else Raise(OutsideModel)
    case _ => Raise(NoMethodError("empty?"))
  }

  lemma {:induction false} FindPrimaryAt(items: seq<Json>, i: nat)
    requires i < |items| && Index(items[i], "primary") == Ok(JString(PrimaryMark))
    requires forall j :: 0 <= j < i ==> Index(items[j], "primary").Ok? && Index(items[j], "primary") != Ok(JString(PrimaryMark))
    ensures FindPrimary(items) == Ok(Some(items[i]))
  {
    if i > 0 {
      assert forall j :: 0 <= j < i - 1 ==> items[1..][j] == items[j + 1];
      FindPrimaryAt(items[1..], i - 1);
    }
  }

  lemma {:induction false} FindPrimaryNone(items: seq<Json>)
    requires forall j :: 0 <= j < |items| ==> Index(items[j], "primary").Ok? && Index(items[j], "primary") != Ok(JString(PrimaryMark))
    ensures FindPrimary(items) == Ok(None)
  {
    if items != [] {
      assert forall j :: 0 <= j < |items| - 1 ==> items[1..][j] == items[j + 1];
      FindPrimaryNone(items[1..]);
    }
  }

  /** The address marked primary, the first one so marked, gives the
      e-mail. */
  lemma EmailIsPrimary(data: Json, items: seq<Json>, i: nat)
    requires Index(data, "emails") == Ok(JArray(items))
    requires i < |items| && Index(items[i], "primary") == Ok(JString(PrimaryMark))
    requires forall j :: 0 <= j < i ==> Index(items[j], "primary").Ok? && Index(items[j], "primary") != Ok(JString(PrimaryMark))
    ensures EmailOf(data) == Index(items[i], "value")
  {
    FindPrimaryAt(items, i);
  }

  /** Without an address marked primary, the first address gives the
      e-mail. This includes an address whose "primary" is "true" without
      the trailing space. */
  lemma EmailFallsBackToFirst(data: Json, items: seq<Json>)
    requires Index(data, "emails") == Ok(JArray(items)) && items != []
    requires forall j :: 0 <= j < |items| ==> Index(items[j], "primary").Ok? && Index(items[j], "primary") != Ok(JString(PrimaryMark))
    ensures EmailOf(data) == Index(items[0], "value")
  {
    FindPrimaryNone(items);
  }

  /** No addresses, no e-mail. */
  lemma EmailOfNoAddresses(data: Json)
    requires Index(data, "emails") in {Ok(JArray([])), Ok(JString([])), Ok(JObject(map[]))}
    ensures EmailOf(data) == Ok(JNull)
  {
  }

  /** A contact: its data and the memo of `email`. */
  class Person {
    const data: Json
    var email: Json

    constructor (data: Json)
      ensures this.data == data && email == JNull
    {
      this.data := data;
      email := JNull;
    }

    /** `@email ||=` only remembers a truthy value, and what it remembers
        is the e-mail computed from the data. */
    predicate Valid()
      reads this
    {
      !Truthy(email) || EmailOf(data) == Ok(email)
    }

    /** `person[key]`: the data's value under `key.to_s.camelize(:lower)`;
        the empty key cannot be camelized. */
    function Field(key: string): (r: Result<Json>)
      ensures key == [] ==> r == Raise(TypeError)
      ensures key != [] ==> (r.Ok? <==> data.JObject? || data.JString?)
      ensures key != [] && data.JObject? ==> r == Ok(Get(data.fields, CamelizeLower(key).value))
    {
      var k :- CamelizeLower(key);
      Index(data, k)
    }

    /** A field reached by its JSON key or by the underscored accessor name
        reads the same JSON key. */
    lemma FieldByAccessorName(k: string)
      requires IsPlainKey(k)
      ensures Field(k) == Index(data, k)
      ensures Field(Underscore(k)) == Index(data, k)
    {
      PlainKeyCamelizesToItself(k);
      UnderscoreRoundTrip(k);
    }

    /** `id`: the "id" entry of the data. */
    function Id(): (r: Result<Json>)
      ensures data.JObject? ==> r == Ok(Get(data.fields, "id"))
      ensures data.JArray? || data.JNumber? ==> r == Raise(TypeError)
    {
      assert CamelizeLower("id") == Ok("id");
      Field("id")
    }

    /** `respond_to?(name)`: one of the entry fields, or a key of the data
        (the name is camelized before `has_key?` is sent, and a data value
        that is not an object has no `has_key?`). */
    function RespondsTo(name: string): (r: Result<bool>)
      ensures name in EntryFields ==> r == Ok(true)
      ensures name !in EntryFields && name == [] ==> r == Raise(TypeError)
      ensures name !in EntryFields && name != [] && data.JObject? ==> r == Ok(CamelizeLower(name).value in data.fields)
      ensures name !in EntryFields && name != [] && !data.JObject? ==> r == Raise(NoMethodError("has_key?"))
    {
      if name in EntryFields then Ok(true)
      else
        var key :- CamelizeLower(name);
        if data.JObject? then Ok(key in data.fields) else Raise(NoMethodError("has_key?"))
    }

    /** `method_missing(name)`: an accessor `person.display_name` answers
        the field when `respond_to?` says so, and raises NoMethodError for
        the name otherwise. */
    function Accessor(name: string): (r: Result<Json>)
      ensures name in EntryFields ==> r == Field(name)
      ensures name !in EntryFields && name == [] ==> r == Raise(TypeError)
      ensures data.JObject? && name != [] ==> (r.Ok? <==> name in EntryFields || CamelizeLower(name).value in data.fields)
      ensures data.JObject? && name != [] && r.Ok? ==> r.value == Get(data.fields, CamelizeLower(name).value)
      ensures data.JObject? && name != [] && r.Raise? ==> r.error == NoMethodError(name)
      ensures name !in EntryFields && name != [] && !data.JObject? ==> r == Raise(NoMethodError("has_key?"))
    {
      var responds :- RespondsTo(name);
      if responds then Field(name) else Raise(NoMethodError(name))
    }

    /** The accessor named by the underscored spelling of a plain JSON
        key reads that key: always for an entry field, and for any other
        name when the data has the key. */
    lemma AccessorReadsKey(k: string)
      requires IsPlainKey(k)
      ensures Underscore(k) in EntryFields ==> Accessor(Underscore(k)) == Index(data, k)
      ensures data.JObject? && k in data.fields ==> Accessor(Underscore(k)) == Ok(data.fields[k])
    {
      UnderscoreRoundTrip(k);
    }

    /** `email`, memoised with `||=`: a remembered truthy value is returned
        as it is; otherwise the e-mail is computed and stored. */
    method Email() returns (r: Result<Json>)
      requires Valid()
      modifies this
      ensures Valid()
      ensures r == EmailOf(data)
      ensures Truthy(old(email)) ==> email == old(email)
      ensures !Truthy(old(email)) && r.Ok? ==> email == r.value
      ensures r.Raise? ==> email == old(email)
    {
      if Truthy(email) {
        return Ok(email);
      }
      r := EmailOf(data);
      if r.Ok? {
        email := r.value;
      }
    }
  }

  // ---------------------------------------------------------------------
  // Collections.

  /** What a collection response says: the entry data, one per contact,
      and the three counters. */
  datatype Page = Page(entries: seq<Json>, totalEntries: int, perPage: int, startIndex: int)

  /** The items `data["entry"].collect` walks: an Array's elements; in Ruby
      1.8 a String's lines; nothing for an empty object. nil, booleans and
      numbers have no `collect`. */
  function EntryItems(entry: Json): (r: Result<seq<Json>>)
    ensures entry.JArray? ==> r == Ok(entry.items)
    ensures entry.JString? ==>
      && r.Ok? && |r.value| == |Lines(entry.s)|
      && forall i :: 0 <= i < |r.value| ==> r.value[i] == JString(Lines(entry.s)[i])
    ensures (entry.JNull? || entry.JBool? || entry.JNumber?) ==> r == Raise(NoMethodError("collect"))
  {
    match entry
    case JArray(items) => Ok(items)
    case JString(s) =>
      var lines := Lines(s);
      Ok(seq(|lines|, i requires 0 <= i < |lines| => JString(lines[i])))
    case JObject(m) => if |m| == 0 then Ok([]) else Raise(OutsideModel)
    case _ => Raise(NoMethodError("collect"))
  }

  /** `Collection.new(data)`, as values: the entries, then `to_i` of
      "totalResults", "itemsPerPage" and "startIndex", in that order. */
  function PageOf(data: map<string, Json>): (r: Result<Page>)
    ensures r.Raise? <==>
      || EntryItems(Get(data, "entry")).Raise?
      || ToI(Get(data, "totalResults")).Raise?
      || ToI(Get(data, "itemsPerPage")).Raise?
      || ToI(Get(data, "startIndex")).Raise?
    ensures Get(data, "entry").JArray? && r.Ok? ==> r.value.entries == Get(data, "entry").items
  {
    var entries :- EntryItems(Get(data, "entry"));
    var total :- ToI(Get(data, "totalResults"));
    var perPage :- ToI(Get(data, "itemsPerPage"));
    var start :- ToI(Get(data, "startIndex"));
    Ok(Page(entries, total, perPage, start))
  }

  /** Counters written as decimal strings (or as numbers) are read back as
      those numbers. */
  lemma PageReadsCounters(data: map<string, Json>, items: seq<Json>, total: int, perPage: int, start: int)
    requires Get(data, "entry") == JArray(items)
    requires Get(data, "totalResults") in {JString(Decimal(total)), JNumber(total)}
    requires Get(data, "itemsPerPage") in {JString(Decimal(perPage)), JNumber(perPage)}
    requires Get(data, "startIndex") in {JString(Decimal(start)), JNumber(start)}
    ensures PageOf(data) == Ok(Page(items, total, perPage, start))
  {
    StrToIDecimal(total);
    StrToIDecimal(perPage);
    StrToIDecimal(start);
  }

  /** Missing counters read as 0. */
  lemma PageMissingCountersAreZero(data: map<string, Json>, items: seq<Json>)
    requires Get(data, "entry") == JArray(items)
    requires "totalResults" !in data && "itemsPerPage" !in data && "startIndex" !in data
    ensures PageOf(data) == Ok(Page(items, 0, 0, 0))
  {
  }

  /** A response without "entry" cannot be made into a collection. */
  lemma PageNeedsEntry(data: map<string, Json>)
    requires "entry" !in data
    ensures PageOf(data) == Raise(NoMethodError("collect"))
  {
  }

  /** A text entry becomes one contact per line, and the lines together
      are the whole text. */
  lemma PageOfTextEntry(data: map<string, Json>, s: string)
    requires Get(data, "entry") == JString(s) && PageOf(data).Ok?
    ensures |PageOf(data).value.entries| == |Lines(s)|
    ensures Concat(seq(|Lines(s)|, i requires 0 <= i < |Lines(s)| => PageOf(data).value.entries[i].s)) == s
  {
    var texts := seq(|Lines(s)|, i requires 0 <= i < |Lines(s)| => PageOf(data).value.entries[i].s);
    assert texts == Lines(s);
    LinesCoverText(s);
  }

  /** `PortableContacts::Collection`: the contacts of one page and the
      counters `total_entries`, `per_page` and `start_index`. */
  class Collection {
    const people: seq<Person>
    const totalEntries: int
    const perPage: int
    const startIndex: int

    constructor (people: seq<Person>, totalEntries: int, perPage: int, startIndex: int)
      ensures this.people == people && this.totalEntries == totalEntries
      ensures this.perPage == perPage && this.startIndex == startIndex
    {
      this.people := people;
      this.totalEntries := totalEntries;
      this.perPage := perPage;
      this.startIndex := startIndex;
    }
  }

  /** `c` holds one new contact per entry of `p`, in order, and its
      counters. */
  predicate Shows(c: Collection, p: Page)
    reads c.people
  {
    && |c.people| == |p.entries|
    && (forall i :: 0 <= i < |p.entries| ==> c.people[i].data == p.entries[i] && c.people[i].email == JNull)
    && c.totalEntries == p.totalEntries && c.perPage == p.perPage && c.startIndex == p.startIndex
  }

  /** `Collection.new(data)`: wraps each entry in a new Person, then reads
      the counters; raises where `PageOf` does. */
  method NewCollection(data: map<string, Json>) returns (r: Result<Collection>)
    ensures r.Ok? <==> PageOf(data).Ok?
    ensures r.Raise? ==> r.error == PageOf(data).error
    ensures r.Ok? ==> Shows(r.value, PageOf(data).value)
  {
    var entries :- EntryItems(Get(data, "entry"));
    var people: seq<Person> := [];
    var i := 0;
    while i < |entries|
      invariant 0 <= i <= |entries|
      invariant |people| == i
      invariant forall j :: 0 <= j < i ==> people[j].data == entries[j] && people[j].email == JNull
    {
      var person := new Person(entries[i]);
      people := people + [person];
      i := i + 1;
    }
    var total :- ToI(Get(data, "totalResults"));
    var perPage :- ToI(Get(data, "itemsPerPage"));
    var start :- ToI(Get(data, "startIndex"));
    var c := new Collection(people, total, perPage, start);
    r := Ok(c);
  }
}
