/** The contact relay of app/api/contacts/route.ts (POST /api/contacts): validate
    the body, check the server's CRM credentials, split the name, forward the
    contact to the CRM and translate its answer. The handler keeps no state, so it
    is a function from the parsed request body, the configuration and what the
    CRM answers to the call it makes (if any) and the response it sends. */
module Contacts {
  import opened Wrappers
  import opened Ascii

  /** A JSON value as `request.json()` / `response.json()` produce it. */
  datatype Json =
    | JNull
    | JBool(b: bool)
    | JNum(n: real)
    | JStr(s: string)
    | JArr(items: seq<Json>)
    | JObj(fields: map<string, Json>)

  /** JavaScript truthiness of a JSON value. */
  predicate Truthy(v: Json) {
    match v
    case JNull => false
    case JBool(b) => b
    case JNum(n) => n != 0.0
    case JStr(s) => s != ""
    case JArr(_) => true
    case JObj(_) => true
  }

  /** Truthiness of a property read; an absent property (undefined) is falsy. */
  predicate TruthyProp(o: Option<Json>) {
    o.Some? && Truthy(o.value)
  }

  /** `v.key` on a value that is not null: an object's own property, and undefined
      for every other kind of value (none of the keys read here names a property
      of strings, numbers, booleans or arrays). */
  function Prop(v: Json, key: string): Option<Json>
    requires !v.JNull?
  {
    if v.JObj? && key in v.fields then Some(v.fields[key]) else None
  }

  /** The two server-side settings the relay reads from the environment. */
  datatype Config = Config(token: Option<string>, locationId: Option<string>)

  /** The request the relay sends to the CRM's create-contact endpoint. */
  datatype ContactCall = ContactCall(
    url: string, authorization: string, version: string,
    firstName: string, lastName: string, name: string,
    email: Json, phone: Json, locationId: string)

  /** What the CRM request comes to: `fetch` throws, or a response arrives whose
      body parses (Some) or does not (None). */
  datatype Upstream = Unreachable | Replied(status: nat, body: Option<Json>)

  datatype Response = Response(status: nat, body: Json)

  /** One handled request: the CRM call made, if any, and the response sent. */
  datatype Exchange = Exchange(call: Option<ContactCall>, response: Response)

  datatype NameParts = NameParts(first: string, last: string)

  const Endpoint: string := "https://services.leadconnectorhq.com/contacts/"
  const ApiVersion: string := "2021-07-28"
  const RequiredMessage: string := "Name and email are required"
  const ConfigMessage: string := "Server configuration error"
  const InternalMessage: string := "Internal server error"
  const UpstreamPrefix: string := "HighLevel API error: "

  function ErrorResponse(status: nat, message: Json): Response {
    Response(status, JObj(map["error" := message]))
  }

  /** What the catch block sends for any thrown error. */
  const Internal: Response := ErrorResponse(500, JStr(InternalMessage))

  /** `const parts = full.split(' '); firstName = parts[0]; lastName = parts.slice(1).join(' ')`. */
  function SplitName(full: string): (p: NameParts)
    ensures ' ' !in p.first
    ensures |p.first| <= |full| && full[..|p.first|] == p.first
  {
    var parts := Split(full, ' ');
    JoinSplit(full, ' ');
    assert |parts| > 1 ==> full == parts[0] + [' '] + Join(parts[1..], ' ');
    NameParts(parts[0], Join(parts[1..], ' '))
  }

  lemma SplitWithoutSeparator(s: string, sep: char)
    requires sep !in s
    ensures Split(s, sep) == [s]
  {
    JoinSplit(s, sep);
    var parts := Split(s, sep);
    if |parts| > 1 {
      assert false;
    }
  }

  /** The name split loses nothing: the trimmed name is the first name alone when
      the last name is empty, and first name, one space and last name otherwise;
      the last name is empty exactly when the trimmed name has no space. */
  lemma {:induction false} NameSplitRoundTrip(name: string)
    ensures var full := Trim(name); var p := SplitName(full);
            (p.last == "" ==> p.first == full) &&
            (p.last != "" ==> p.first + " " + p.last == full) &&
            (p.last == "" <==> ' ' !in full)
  {
    var full := Trim(name);
    var parts := Split(full, ' ');
    JoinSplit(full, ' ');
    if ' ' !in full {
      SplitWithoutSeparator(full, ' ');
    } else if |parts| == 1 {
      assert false;
    } else {
      // a trimmed name does not end in the separator, so its last part, and with
      // it the last name, is not empty
      assert IsJsSpace(' ');
      SplitLastEmpty(full, ' ');
      assert parts[1..][|parts| - 2] == parts[|parts| - 1];
      JoinNonEmpty(parts[1..], ' ');
    }
  }

  /** The upstream answer translated into the relay's response (the part of the
      handler after the CRM call). */
  function Reply(upstream: Upstream): (r: Response)
    // fetch throws: the generic internal error
    ensures upstream.Unreachable? ==> r == Internal
    // a non-2xx answer keeps its status; the message is the CRM's, else one naming the status
    ensures upstream.Replied? && !(200 <= upstream.status <= 299) && upstream.body != Some(JNull) ==>
              var errorData := if upstream.body.Some? then upstream.body.value else JObj(map[]);
              var m := Prop(errorData, "message");
              r == ErrorResponse(upstream.status,
                     if TruthyProp(m) then m.value else JStr(UpstreamPrefix + NatToString(upstream.status)))
    // a 2xx answer whose body parses to something other than null: success, with its contact or the whole body
    ensures upstream.Replied? && 200 <= upstream.status <= 299 && upstream.body.Some? && !upstream.body.value.JNull? ==>
              var c := Prop(upstream.body.value, "contact");
              r.status == 200 && r.body.JObj? &&
              r.body.fields == map["success" := JBool(true), "contact" := if TruthyProp(c) then c.value else upstream.body.value]
    // an unparseable 2xx body, or a null body where a property is read, throws
    ensures upstream.Replied? && ((200 <= upstream.status <= 299 && upstream.body.None?) || upstream.body == Some(JNull)) ==>
              r == Internal
  {
    match upstream
    case Unreachable => Internal
    case Replied(status, body) =>
      if !(200 <= status <= 299) then
        var errorData := if body.Some? then body.value else JObj(map[]);
        if errorData.JNull? then Internal
        else
          var m := Prop(errorData, "message");
          ErrorResponse(status, if TruthyProp(m) then m.value else JStr(UpstreamPrefix + NatToString(status)))
      else if body.None? || body.value.JNull? then Internal
      else
        var c := Prop(body.value, "contact");
        Response(200, JObj(map["success" := JBool(true), "contact" := if TruthyProp(c) then c.value else body.value]))
  }

  /** The fields the handler destructures from the body. */
  predicate HasNameAndEmail(v: Json)
    requires !v.JNull?
  {
    TruthyProp(Prop(v, "name")) && TruthyProp(Prop(v, "email"))
  }

  predicate Configured(config: Config) {
    Present(config.token) && Present(config.locationId)
  }

  /** POST /api/contacts. `body` is the parsed request body (None when it is not JSON). */
  function HandlePost(body: Option<Json>, config: Config, upstream: Upstream): (x: Exchange)
    // an unparseable or null body throws before validation
    ensures body.None? || body == Some(JNull) ==> x == Exchange(None, Internal)
    // a missing or empty name or email: 400, and no CRM call
    ensures body.Some? && !body.value.JNull? && !HasNameAndEmail(body.value) ==>
              x == Exchange(None, ErrorResponse(400, JStr(RequiredMessage)))
    // missing credentials: 500, and no CRM call
    ensures body.Some? && !body.value.JNull? && HasNameAndEmail(body.value) && !Configured(config) ==>
              x == Exchange(None, ErrorResponse(500, JStr(ConfigMessage)))
    // a truthy name that is not a string: `name.trim` throws, and the catch block answers
    ensures body.Some? && !body.value.JNull? && HasNameAndEmail(body.value) && Configured(config) &&
            !Prop(body.value, "name").value.JStr? ==>
              x == Exchange(None, Internal)
    // the CRM is called exactly when the body is valid, the server configured and the name a string
    ensures x.call.Some? <==>
              body.Some? && !body.value.JNull? && HasNameAndEmail(body.value) && Configured(config) &&
              Prop(body.value, "name").value.JStr?
    // what the call carries, and that the answer to it decides the response
    ensures x.call.Some? ==>
              var name := Prop(body.value, "name").value.s;
              var phone := Prop(body.value, "phone");
              var c := x.call.value;
              c.url == Endpoint && c.version == ApiVersion &&
              c.authorization == "Bearer " + config.token.value &&
              c.locationId == config.locationId.value &&
              c.name == Trim(name) && NameParts(c.firstName, c.lastName) == SplitName(Trim(name)) &&
              c.email == Prop(body.value, "email").value &&
              c.phone == (if TruthyProp(phone) then phone.value else JStr("")) &&
              x.response == Reply(upstream)
    // the only way to reach the 200 response is through a call
    ensures x.response.status == 200 ==> x.call.Some?
  {
    if body.None? || body.value.JNull? then Exchange(None, Internal)
    else
      var v := body.value;
      var name, email, phone := Prop(v, "name"), Prop(v, "email"), Prop(v, "phone");
      if !TruthyProp(name) || !TruthyProp(email) then
        Exchange(None, ErrorResponse(400, JStr(RequiredMessage)))
      else if !Present(config.token) || !Present(config.locationId) then
        Exchange(None, ErrorResponse(500, JStr(ConfigMessage)))
      else if !name.value.JStr? then
        // name.trim is not a function: the catch block answers
        Exchange(None, Internal)
      else
        var full := Trim(name.value.s);
        var parts := SplitName(full);
        var call := ContactCall(
          Endpoint, "Bearer " + config.token.value, ApiVersion,
          parts.first, parts.last, full,
          email.value, if TruthyProp(phone) then phone.value else JStr(""),
          config.locationId.value);
        Exchange(Some(call), Reply(upstream))
  }

  /** A body with its `tags` field, if any, removed. */
  function WithoutTags(v: Json): Json {
    if v.JObj? then JObj(v.fields - {"tags"}) else v
  }

  /** The relay reads only name, email and phone: a `tags` field in the body
      changes neither the CRM call nor the response, and the call has no field
      that could carry one. */
  lemma RelayIgnoresTags(body: Json, config: Config, upstream: Upstream)
    ensures HandlePost(Some(body), config, upstream) == HandlePost(Some(WithoutTags(body)), config, upstream)
  {
    if body.JObj? {
      var w := WithoutTags(body);
      assert Prop(w, "name") == Prop(body, "name");
      assert Prop(w, "email") == Prop(body, "email");
      assert Prop(w, "phone") == Prop(body, "phone");
    }
  }

  /** An exchange of the relay together with the tags its CRM call carries. */
  datatype TaggedExchange = TaggedExchange(exchange: Exchange, tags: Option<Json>)

  /** The relay as a caller that tags its contacts needs it: the same exchange,
      and a CRM call that also carries the body's `tags` (an empty list when the
      body has none). */
  function HandlePostWithTags(body: Option<Json>, config: Config, upstream: Upstream): (r: TaggedExchange)
    ensures r.exchange == HandlePost(body, config, upstream)
    ensures r.tags.Some? <==> r.exchange.call.Some?
    ensures r.tags.Some? ==>
              (body.Some? && !body.value.JNull? &&
               r.tags.value == (var t := Prop(body.value, "tags"); if t.Some? then t.value else JArr([])))
  {
    var x := HandlePost(body, config, upstream);
    if x.call.Some? then
      var t := Prop(body.value, "tags");
      TaggedExchange(x, Some(if t.Some? then t.value else JArr([])))
    else TaggedExchange(x, None)
  }

  /** When the corrected relay calls the CRM, the call carries the body's tags. */
  lemma TagsForwarded(body: Json, config: Config, upstream: Upstream)
    requires !body.JNull? && Prop(body, "tags").Some?
    requires HandlePost(Some(body), config, upstream).call.Some?
    ensures HandlePostWithTags(Some(body), config, upstream).tags == Some(Prop(body, "tags").value)
  {
  }
}
