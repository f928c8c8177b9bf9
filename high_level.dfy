/** The CRM hook of app/hooks/useHighLevel.ts: `createContact` posts a contact to
    the relay at /api/contacts. Its parameter destructures name, email and phone,
    so every other field of the argument it is handed is dropped. */
module HighLevel {
  import opened Wrappers
  import opened Ascii
  import opened Contacts

  /** The body createContact posts: `{ name, email, phone: phone || '' }`. */
  function RequestBody(name: string, email: string, phone: Option<string>): (b: Json)
    ensures b.JObj? && b.fields.Keys == {"name", "email", "phone"}
    ensures b.fields["name"] == JStr(name) && b.fields["email"] == JStr(email)
    ensures b.fields["phone"] == JStr(OrElse(phone, ""))
  {
    JObj(map["name" := JStr(name), "email" := JStr(email), "phone" := JStr(OrElse(phone, ""))])
  }

  /** What the relay makes of the hook's body: the CRM is called exactly when the
      name and the email are non-empty and the server is configured, with the
      trimmed name, the email and the phone or ''; an empty name or email is
      answered with 400. */
  lemma RelayedContact(name: string, email: string, phone: Option<string>, config: Config, upstream: Upstream)
    ensures var x := HandlePost(Some(RequestBody(name, email, phone)), config, upstream);
            (x.call.Some? <==> name != "" && email != "" && Configured(config)) &&
            (x.call.Some? ==> x.call.value.name == Trim(name) && x.call.value.email == JStr(email) &&
                              x.call.value.phone == JStr(OrElse(phone, ""))) &&
            (name == "" || email == "" ==> x.response.status == 400)
  {
    var b := RequestBody(name, email, phone);
    assert Prop(b, "name") == Some(JStr(name));
    assert Prop(b, "email") == Some(JStr(email));
    assert Prop(b, "phone") == Some(JStr(OrElse(phone, "")));
    assert HasNameAndEmail(b) <==> name != "" && email != "";
  }

  /** Strings as a JSON array of strings. */
  function JsonStrings(s: seq<string>): (r: Json)
    ensures r.JArr? && |r.items| == |s|
    ensures forall i :: 0 <= i < |s| ==> r.items[i] == JStr(s[i])
  {
    JArr(seq(|s|, i requires 0 <= i < |s| => JStr(s[i])))
  }

  /** The body of a createContact that forwards its argument's tags as well. */
  function TaggedRequestBody(name: string, email: string, phone: Option<string>, tags: seq<string>): (b: Json)
    ensures b.JObj? && b.fields.Keys == {"name", "email", "phone", "tags"}
    ensures WithoutTags(b) == RequestBody(name, email, phone)
    ensures b.fields["tags"] == JsonStrings(tags)
  {
    var b := JObj(RequestBody(name, email, phone).fields["tags" := JsonStrings(tags)]);
    assert b.fields - {"tags"} == RequestBody(name, email, phone).fields;
    b
  }

  /** The tagged body makes the same CRM call as the hook's body. */
  lemma TaggedBodyReachesCrm(name: string, email: string, phone: Option<string>, tags: seq<string>,
                             config: Config, upstream: Upstream)
    requires name != "" && email != "" && Configured(config)
    ensures var b := TaggedRequestBody(name, email, phone, tags);
            HandlePost(Some(b), config, upstream).call.Some? && Prop(b, "tags") == Some(JsonStrings(tags))
  {
    RelayIgnoresTags(TaggedRequestBody(name, email, phone, tags), config, upstream);
    RelayedContact(name, email, phone, config, upstream);
  }
}
