/** `PortableContacts::Client`: builds the request URL of each call, sends
    it through the OAuth access token, reads the response and wraps the
    decoded data as a contact, a collection or the plain value. The access
    token is a stand-in holding canned responses by URL and logging every
    request; `JSON.parse` is a parameter of the client. */
module Client {
  import opened Ruby
  import opened Strings
  import opened JsonValues
  import opened Query
  import opened People

  /** What the access token's `get` answers: the status code as text and
      the body, if any. */
  datatype HttpResponse = HttpResponse(code: string, body: Option<string>)

  /** The value one call of the client answers with. */
  datatype Reply =
    | Contact(person: Person)
    | Contacts(collection: Collection)
    | Data(json: Json)

  const AcceptJson: map<string, string> := map["Accept" := "application/json"]

  /** A 200 or a 201. */
  predicate Succeeded(response: HttpResponse) {
    response.code == "200" || response.code == "201"
  }

  /** `body.blank?`: nil or nothing but white space. */
  predicate BlankBody(response: HttpResponse) {
    response.body.None? || Blank(response.body.value)
  }

  /** `parse(response)`: false without a response or for any status other
      than 200 and 201; true for a success with a blank body; otherwise the
      decoded body (or the parser's exception). */
  function Parse(response: Option<HttpResponse>, decode: string -> Result<Json>): (r: Result<Json>)
    ensures response.None? || !Succeeded(response.value) ==> r == Ok(JBool(false))
    ensures response.Some? && Succeeded(response.value) && BlankBody(response.value) ==> r == Ok(JBool(true))
    ensures response.Some? && Succeeded(response.value) && !BlankBody(response.value) ==>
      r == decode(response.value.body.value)
  {
    match response
    case None => Ok(JBool(false))
    case Some(resp) =>
      if Succeeded(resp) then
        if BlankBody(resp) then Ok(JBool(true)) else decode(resp.body.value)
      else Ok(JBool(false))
  }

  /** A parse that raises did so in the decoder, on the body of a
      successful response. */
  lemma ParseRaisesOnlyInDecoder(response: Option<HttpResponse>, decode: string -> Result<Json>)
    requires Parse(response, decode).Raise?
    ensures response.Some? && Succeeded(response.value) && response.value.body.Some?
    ensures decode(response.value.body.value) == Parse(response, decode)
  {
  }

  /** What `single(data)` answers: a Hash with a truthy "entry" becomes a
      new contact of that entry; anything else is answered as it is. */
  predicate SingleReply(data: Json, r: Reply)
    reads if r.Contact? then {r.person} else {}
  {
    if data.JObject? && JsonValues.Truthy(Get(data.fields, "entry")) then
      r.Contact? && r.person.data == Get(data.fields, "entry") && r.person.email == JNull
    else
      r == Data(data)
  }

  /** What `collection(data)` answers: a Hash becomes a collection of its
      page, or raises where reading the page does; anything else is
      answered as it is. */
  predicate CollectionResult(data: Json, r: Result<Reply>)
    reads if r.Ok? && r.value.Contacts? then r.value.collection.people else []
  {
    if data.JObject? then
      match PageOf(data.fields)
      case Ok(page) => r.Ok? && r.value.Contacts? && Shows(r.value.collection, page)
      case Raise(e) => r == Raise(e)
    else
      r == Ok(Data(data))
  }

  /** `single(data)`. */
  method Single(data: Json) returns (r: Reply)
    ensures SingleReply(data, r)
    ensures r.Contact? <==> data.JObject? && JsonValues.Truthy(Get(data.fields, "entry"))
  {
    if data.JObject? && JsonValues.Truthy(Get(data.fields, "entry")) {
      var person := new Person(Get(data.fields, "entry"));
      r := Contact(person);
    } else {
      r := Data(data);
    }
  }

  /** `collection(data)`. */
  method CollectionReply(data: Json) returns (r: Result<Reply>)
    ensures CollectionResult(data, r)
    ensures data.JObject? ==> (r.Ok? <==> PageOf(data.fields).Ok?)
  {
    if data.JObject? {
      var c :- NewCollection(data.fields);
      r := Ok(Contacts(c));
    } else {
      r := Ok(Data(data));
    }
  }

  /** The provider's answer to a URL. */
  function Answer(responses: map<string, HttpResponse>, url: string): Option<HttpResponse> {
    if url in responses then Some(responses[url]) else None
  }

  /** The OAuth access token, reduced to what the client uses: `get` of a
      URL with headers. */
  class AccessToken {
    const responses: map<string, HttpResponse>
    var requests: seq<(string, map<string, string>)>

    constructor (responses: map<string, HttpResponse>)
      ensures this.responses == responses && requests == []
    {
      this.responses := responses;
      requests := [];
    }

    method Get(url: string, headers: map<string, string>) returns (r: Option<HttpResponse>)
      modifies this
      ensures requests == old(requests) + [(url, headers)]
      ensures r == Answer(responses, url)
    {
      requests := requests + [(url, headers)];
      r := Answer(responses, url);
    }
  }

  /** `options.reverse_merge(defaults)`: the caller's entries win. */
  function ReverseMerge(options: map<Key, Value>, defaults: map<Key, Value>): (r: map<Key, Value>)
    ensures r.Keys == options.Keys + defaults.Keys
    ensures forall k :: k in options ==> r[k] == options[k]
    ensures forall k :: k in defaults && k !in options ==> r[k] == defaults[k]
  {
    defaults + options
  }

  const MeDefaults: map<Key, Value> := map[FieldsKey := Symbol("all")]
  const AllDefaults: map<Key, Value> := map[FieldsKey := Symbol("all"), CountKey := Number(100)]

  /** The option an option name ends up with once `symbolize_keys!` has
      run over the caller's options merged onto Symbol-keyed defaults: the
      caller's String key, else the caller's Symbol key, else the
      default. */
  lemma MergedOption(options: map<Key, Value>, defaults: map<Key, Value>, n: Bytes)
    requires forall k :: k in defaults ==> k.Sym?
    ensures Lookup(Symbolized(ReverseMerge(options, defaults)), Sym(n))
         == if Str(n) in options then options[Str(n)]
            else if Sym(n) in options then options[Sym(n)]
            else Lookup(defaults, Sym(n))
  {
    var m := ReverseMerge(options, defaults);
    assert Str(n) in m <==> Str(n) in options;
  }

  /** The fields pair and the paging pairs are among the pairs of the
      query string. */
  lemma PairsInclude(m: map<Key, Value>)
    requires QueryPairs(m).Ok?
    ensures forall p :: p in FieldsPairs(Lookup(Symbolized(m), FieldsKey)) ==> p in QueryPairs(m).value
    ensures forall p :: p in PaginationPairs(Symbolized(m)) ==> p in QueryPairs(m).value
  {
  }

  lemma FieldsAllByDefault(options: map<Key, Value>, defaults: map<Key, Value>)
    requires forall k :: k in defaults ==> k.Sym?
    requires FieldsKey in defaults && defaults[FieldsKey] == Symbol("all")
    requires FieldsKey !in options && Str("fields") !in options
    requires QueryPairs(ReverseMerge(options, defaults)).Ok?
    ensures "fields=@all" in QueryPairs(ReverseMerge(options, defaults)).value
  {
    MergedOption(options, defaults, "fields");
    AllFieldsLead(ReverseMerge(options, defaults));
  }

  lemma AllFieldsLead(m: map<Key, Value>)
    requires QueryPairs(m).Ok? && Lookup(Symbolized(m), FieldsKey) == Symbol("all")
    ensures |QueryPairs(m).value| > 0 && QueryPairs(m).value[0] == "fields=@all"
  {
    FieldsAllPair();
    FieldsPairLeads(m);
  }

  lemma FieldsPairLeads(m: map<Key, Value>)
    requires QueryPairs(m).Ok?
    ensures FieldsPairs(Lookup(Symbolized(m), FieldsKey)) != [] ==>
      QueryPairs(m).value[0] == FieldsPairs(Lookup(Symbolized(m), FieldsKey))[0]
  {
  }

  /** `me` and `find` ask for every field unless the caller names fields. */
  lemma DefaultFieldsAll(options: map<Key, Value>)
    requires FieldsKey !in options && Str("fields") !in options
    requires QueryPairs(ReverseMerge(options, MeDefaults)).Ok?
    ensures "fields=@all" in QueryPairs(ReverseMerge(options, MeDefaults)).value
  {
    FieldsAllByDefault(options, MeDefaults);
  }

  lemma DefaultCount(options: map<Key, Value>)
    requires CountKey !in options && Str("count") !in options
    ensures PaginationPairs(Symbolized(ReverseMerge(options, AllDefaults)))[0] == "count=100"
  {
    var m := ReverseMerge(options, AllDefaults);
    MergedOption(options, AllDefaults, "count");
    assert CountKey in Symbolized(m);
    Decimal100();
  }

  /** `all` asks for every field and 100 contacts unless the caller says
      otherwise. */
  lemma AllDefaultsApply(options: map<Key, Value>)
    requires FieldsKey !in options && Str("fields") !in options
    requires CountKey !in options && Str("count") !in options
    requires QueryPairs(ReverseMerge(options, AllDefaults)).Ok?
    ensures "fields=@all" in QueryPairs(ReverseMerge(options, AllDefaults)).value
    ensures "count=100" in QueryPairs(ReverseMerge(options, AllDefaults)).value
  {
    FieldsAllByDefault(options, AllDefaults);
    PairsInclude(ReverseMerge(options, AllDefaults));
    DefaultCount(options);
  }

  /** A count the caller gives to `all`, under a Symbol or a String key,
      replaces the default 100. */
  lemma AllCountOverride(options: map<Key, Value>, c: Value)
    requires (Str("count") in options && options[Str("count")] == c)
          || (Str("count") !in options && CountKey in options && options[CountKey] == c)
    requires Query.Truthy(c)
    ensures PaginationPairs(Symbolized(ReverseMerge(options, AllDefaults)))[0] == "count=" + ToS(c)
  {
    MergedOption(options, AllDefaults, "count");
    var s := Symbolized(ReverseMerge(options, AllDefaults));
    assert CountKey in s;
  }

  /** The client of one provider. */
  class Client {
    const baseUrl: string
    const token: AccessToken
    const decode: string -> Result<Json>

    constructor (baseUrl: string, token: AccessToken, decode: string -> Result<Json>)
      ensures this.baseUrl == baseUrl && this.token == token && this.decode == decode
    {
      this.baseUrl := baseUrl;
      this.token := token;
      this.decode := decode;
    }

    /** `url_for(path)`: the base URL followed by the path. */
    function UrlFor(path: string): (r: string)
      ensures |r| == |baseUrl| + |path|
      ensures IsPrefix(baseUrl, r) && r[|baseUrl|..] == path
    {
      baseUrl + path
    }

    /** The URL `get(path, options)` requests, or the exception building
        its query string raises. */
    function RequestUrl(path: string, options: map<Key, Value>): (r: Result<string>)
      ensures r.Raise? <==> QueryString(Some(options)).Raise?
      ensures |options| == 0 ==> r == Ok(UrlFor(path))
      ensures r.Ok? && |options| > 0 ==> |r.value| > |UrlFor(path)| && r.value[|UrlFor(path)|] == '?'
    {
      var q :- QueryString(Some(options));
      assert |options| == 0 ==> UrlFor(path) + q == UrlFor(path);
      Ok(UrlFor(path) + q)
    }

    /** `get(path, options)`: one request for the URL with the query
        string, asking for JSON; no request when the options raise. */
    method Get(path: string, options: map<Key, Value>) returns (r: Result<Json>)
      modifies token
      ensures RequestUrl(path, options).Raise? ==>
        r == Raise(RequestUrl(path, options).error) && token.requests == old(token.requests)
      ensures RequestUrl(path, options).Ok? ==>
        var url := RequestUrl(path, options).value;
        && token.requests == old(token.requests) + [(url, AcceptJson)]
        && r == Parse(Answer(token.responses, url), decode)
    {
      var opts := new OptionsHash(options);
      var q := opts.OptionsFor();
      if q.Raise? {
        return Raise(q.error);
      }
      var url := UrlFor(path) + q.value;
      var response := token.Get(url, AcceptJson);
      r := Parse(response, decode);
    }

    /** `me(options)`: the token owner's own entry, all fields by default. */
    method Me(options: map<Key, Value>) returns (r: Result<Reply>)
      modifies token
      ensures var url := RequestUrl("/@me/@self", ReverseMerge(options, MeDefaults));
        && (url.Raise? ==> r == Raise(url.error) && token.requests == old(token.requests))
        && (url.Ok? ==> token.requests == old(token.requests) + [(url.value, AcceptJson)])
        && (url.Ok? ==> var data := Parse(Answer(token.responses, url.value), decode);
              && (data.Raise? ==> r == Raise(data.error))
              && (data.Ok? ==> r.Ok? && SingleReply(data.value, r.value)))
    {
      var data :- Get("/@me/@self", ReverseMerge(options, MeDefaults));
      var reply := Single(data);
      r := Ok(reply);
    }

    /** `all(options)`: the token owner's contacts, all fields and 100
        per page by default. */
    method All(options: map<Key, Value>) returns (r: Result<Reply>)
      modifies token
      ensures var url := RequestUrl("/@me/@all", ReverseMerge(options, AllDefaults));
        && (url.Raise? ==> r == Raise(url.error) && token.requests == old(token.requests))
        && (url.Ok? ==> token.requests == old(token.requests) + [(url.value, AcceptJson)])
        && (url.Ok? ==> var data := Parse(Answer(token.responses, url.value), decode);
              && (data.Raise? ==> r == Raise(data.error))
              && (data.Ok? ==> CollectionResult(data.value, r)))
    {
      var data :- Get("/@me/@all", ReverseMerge(options, AllDefaults));
      r := CollectionReply(data);
    }

    /** `find(id, options)`: one contact by id, all fields by default. */
    method Find(id: Value, options: map<Key, Value>) returns (r: Result<Reply>)
      modifies token
      ensures var url := RequestUrl("/@me/@all/" + ToS(id), ReverseMerge(options, MeDefaults));
        && (url.Raise? ==> r == Raise(url.error) && token.requests == old(token.requests))
        && (url.Ok? ==> token.requests == old(token.requests) + [(url.value, AcceptJson)])
        && (url.Ok? ==> var data := Parse(Answer(token.responses, url.value), decode);
              && (data.Raise? ==> r == Raise(data.error))
              && (data.Ok? ==> r.Ok? && SingleReply(data.value, r.value)))
    {
      var data :- Get("/@me/@all/" + ToS(id), ReverseMerge(options, MeDefaults));
      var reply := Single(data);
      r := Ok(reply);
    }
  }

  // ---------------------------------------------------------------------
  // Proof helpers: literal texts the proofs above use.

  lemma Decimal100()
    ensures "count=" + Decimal(100) == "count=100"
  {
    assert Digits(1) == "1";
    assert Digits(10) == Digits(1) + [DigitChar(0)] == "10";
    assert Digits(100) == Digits(10) + [DigitChar(0)] == "100";
  }

  lemma FieldsAllPair()
    ensures FieldsPairs(Symbol("all")) == ["fields=@all"]
  {
    assert "fields=" + "@all" == "fields=@all";
  }
}
