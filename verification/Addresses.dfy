/** Endpoint addresses across the bridge: the JSON encoder of
    `rust/iroh-rn-core/src/hybrid_iroh.rs`, `addr_info` and `parse_endpoint_addr` of
    `rust/iroh-rn-core/src/endpoint.rs`, and `parseEndpointAddr` and `serializeEndpointAddr` of
    `src/endpoint.ts`. */
module Addresses {
  import opened Base
  import opened Lines
  import opened Json

  /** Text forms of ids, relay URLs and socket addresses, which this model does not look into. */
  datatype TextForm<!T> = TextForm(show: T -> string, parse: string -> Option<T>)

  ghost predicate Inverse<T(!new)>(form: TextForm<T>)
  {
    forall t :: form.parse(form.show(t)) == Some(t)
  }

  datatype Result<+T, +E> = Ok(value: T) | Err(error: E)

  // ---------------------------------------------------------------- writing

  datatype AddrInfo = AddrInfo(id: string, relayUrls: seq<string>, directAddrs: seq<string>)

  function Strings(texts: seq<string>): (vs: seq<Value>)
    ensures |vs| == |texts| && forall i :: 0 <= i < |vs| ==> vs[i] == JString(texts[i])
  {
    seq(|texts|, i requires 0 <= i < |texts| => JString(texts[i]))
  }

  function AddrValue(info: AddrInfo): Value
  {
    JObject([Member("id", JString(info.id)),
             Member("relayUrls", JArray(Strings(info.relayUrls))),
             Member("directAddrs", JArray(Strings(info.directAddrs)))])
  }

  lemma {:induction false} PrintElementsSnoc(vs: seq<Value>, v: Value)
    ensures PrintElements(Native, vs + [v]) == PrintElements(Native, vs) + (if vs == [] then "" else ",") + Print(Native, v)
  {
    if vs == [] {
      assert vs + [v] == [v];
    } else {
      PrintElementsSnoc(vs[1..], v);
      assert (vs + [v])[0] == vs[0] && (vs + [v])[1..] == vs[1..] + [v];
      if |vs| == 1 {
        assert vs[1..] == [];
      }
    }
  }

  /** The array encoder: a comma before every element but the first. */
  method PushStringArray(out: string, values: seq<string>) returns (r: string)
    ensures r == out + Print(Native, JArray(Strings(values)))
  {
    var body := "";
    for i := 0 to |values|
      invariant body == PrintElements(Native, Strings(values[..i]))
    {
      PrintElementsSnoc(Strings(values[..i]), JString(values[i]));
      assert Strings(values[..i + 1]) == Strings(values[..i]) + [JString(values[i])];
      if i > 0 {
        body := body + ",";
      }
      body := PushJsonString(body, values[i]);
    }
    assert values[..|values|] == values;
    r := out + ("[" + body + "]");
  }

  predicate Ordinary(c: char)
  {
    c > ' ' && c != '"' && c != '\\'
  }

  lemma {:induction false} OrdinaryIsItself(s: string)
    requires forall i :: 0 <= i < |s| ==> Ordinary(s[i])
    ensures EscapeAll(Native, s) == s
  {
    if s != [] {
      OrdinaryIsItself(s[1..]);
      assert [s[0]] + s[1..] == s;
    }
  }

  function AddrText(id: string, relayUrls: string, directAddrs: string): string
  {
    "{\"id\":" + id + ",\"relayUrls\":" + relayUrls + ",\"directAddrs\":" + directAddrs + "}"
  }

  lemma PrintThree(a: Member, b: Member, c: Member)
    ensures Print(Native, JObject([a, b, c])) ==
            "{" + (PrintMember(Native, a) + "," + (PrintMember(Native, b) + "," + PrintMember(Native, c))) + "}"
  {
    var ms := [a, b, c];
    assert ms[1..] == [b, c] && [b, c][1..] == [c];
    assert PrintMembers(Native, [c]) == PrintMember(Native, c);
    assert PrintMembers(Native, [b, c]) == PrintMember(Native, b) + "," + PrintMember(Native, c);
    assert PrintMembers(Native, ms) == PrintMember(Native, a) + "," + (PrintMember(Native, b) + "," + PrintMember(Native, c));
  }

  function Named(name: string, text: string): string
  {
    "\"" + name + "\":" + text
  }

  predicate OrdinaryName(name: string)
  {
    forall i :: 0 <= i < |name| ==> Ordinary(name[i])
  }

  lemma PrintNamed(name: string, v: Value)
    requires OrdinaryName(name)
    ensures PrintMember(Native, Member(name, v)) == Named(name, Print(Native, v))
  {
    OrdinaryIsItself(name);
  }

  lemma PrintThreeNamed(a: string, x: Value, b: string, y: Value, c: string, z: Value)
    requires OrdinaryName(a) && OrdinaryName(b) && OrdinaryName(c)
    ensures Print(Native, JObject([Member(a, x), Member(b, y), Member(c, z)])) ==
            "{" + (Named(a, Print(Native, x)) + "," + (Named(b, Print(Native, y)) + "," + Named(c, Print(Native, z)))) + "}"
  {
    PrintThree(Member(a, x), Member(b, y), Member(c, z));
    PrintNamed(a, x);
    PrintNamed(b, y);
    PrintNamed(c, z);
  }

  lemma PrintAddrMembers(id: Value, relays: Value, directs: Value)
    ensures Print(Native, JObject([Member("id", id), Member("relayUrls", relays), Member("directAddrs", directs)])) ==
            AddrText(Print(Native, id), Print(Native, relays), Print(Native, directs))
  {
    PrintThreeNamed("id", id, "relayUrls", relays, "directAddrs", directs);
    AddrPieces(Print(Native, id), Print(Native, relays), Print(Native, directs));
  }

  lemma PrintAddr(info: AddrInfo)
    ensures Print(Native, AddrValue(info)) ==
            AddrText(Quoted(Native, info.id), Print(Native, JArray(Strings(info.relayUrls))), Print(Native, JArray(Strings(info.directAddrs))))
  {
    PrintAddrMembers(JString(info.id), JArray(Strings(info.relayUrls)), JArray(Strings(info.directAddrs)));
  }

  lemma AddrPieces(id: string, relays: string, directs: string)
    ensures "{" + (Named("id", id) + "," + (Named("relayUrls", relays) + "," + Named("directAddrs", directs))) + "}"
            == AddrText(id, relays, directs)
  {
  }

  method EndpointAddrToJson(info: AddrInfo) returns (out: string)
    ensures out == Print(Native, AddrValue(info))
  {
    out := PushJsonString("{\"id\":", info.id);
    out := out + ",\"relayUrls\":";
    out := PushStringArray(out, info.relayUrls);
    out := out + ",\"directAddrs\":";
    out := PushStringArray(out, info.directAddrs);
    out := out + "}";
    PrintAddr(info);
  }

  /** The encoding is one line of JSON that reads back as the same document. */
  lemma AddrDocument(w: Writer, info: AddrInfo)
    ensures Parse(Print(w, AddrValue(info))) == Some(AddrValue(info))
    ensures OneLine(Print(w, AddrValue(info)))
  {
    DocumentRoundTrip(w, AddrValue(info));
    PrintIsPlain(w, AddrValue(info));
    PrintStarts(w, AddrValue(info));
  }

  // ---------------------------------------------------------------- reading

  /** The last member of that name, as every reader here resolves duplicates. */
  function Get(v: Value, key: string): Option<Value>
  {
    if v.JObject? then Find(v.members, key) else None
  }

  function Find(members: seq<Member>, key: string): Option<Value>
  {
    if members == [] then None
    else if members[|members| - 1].name == key then Some(members[|members| - 1].value)
    else Find(members[..|members| - 1], key)
  }

  function TextOf(v: Value): seq<string>
  {
    if v.JString? then [v.text] else []
  }

  /** The string members of an array field; anything else contributes nothing. */
  function JsonStrings(v: Value, key: string): seq<string>
  {
    var found := Get(v, key);
    if found.Some? && found.value.JArray? then FlatMap(TextOf, found.value.elements) else []
  }

  /** `value ?? []` */
  function OrNone(field: Option<Value>): Value
  {
    if field.None? || field.value.JNull? then JArray([]) else field.value
  }

  /** What `parseEndpointAddr` returns, its casts unchecked; an absent id is `undefined`. */
  datatype ScriptAddr = ScriptAddr(id: Option<Value>, relayUrls: Value, directAddrs: Value)

  /** `None` when it throws: the text is not JSON, or is `null`, which has no members. */
  function ScriptParsed(json: string): Option<ScriptAddr>
  {
    var doc := Parse(json);
    if doc.None? || doc.value.JNull? then None
    else Some(ScriptAddr(Get(doc.value, "id"), OrNone(Get(doc.value, "relayUrls")), OrNone(Get(doc.value, "directAddrs"))))
  }

  datatype AddrError = BadJson | MissingId | BadId | BadRelay(text: string) | BadDirect(text: string)

  datatype Transport<U, S> = Relay(url: U) | Ip(socket: S) | Custom(kind: nat)

  /** The transports in the order the address lists them. */
  datatype EndpointAddr<I, U, S> = EndpointAddr(id: I, transports: seq<Transport<U, S>>)

  function MakeRelay<U, S>(url: U): Transport<U, S> { Relay(url) }
  function MakeIp<U, S>(socket: S): Transport<U, S> { Ip(socket) }

  /** Every text parsed, or the first that cannot be. */
  function ParseEach<T, R>(parse: string -> Option<T>, wrap: T -> R, texts: seq<string>): Result<seq<R>, string>
  {
    if texts == [] then Ok([])
    else
      var earlier := ParseEach(parse, wrap, texts[..|texts| - 1]);
      if earlier.Err? then earlier
      else
        var last := parse(texts[|texts| - 1]);
        if last.None? then Err(texts[|texts| - 1]) else Ok(earlier.value + [wrap(last.value)])
  }

  datatype Forms<!I, !U, !S> = Forms(ids: TextForm<I>, urls: TextForm<U>, sockets: TextForm<S>)

  function ParsedAddr<I, U, S>(forms: Forms<I, U, S>, json: string): Result<EndpointAddr<I, U, S>, AddrError>
  {
    var doc := Parse(json);
    if doc.None? then Err(BadJson)
    else
      var idText := Get(doc.value, "id");
      if idText.None? || !idText.value.JString? then Err(MissingId)
      else
        var id := forms.ids.parse(idText.value.text);
        if id.None? then Err(BadId)
        else
          var relays := ParseEach(forms.urls.parse, MakeRelay<U, S>, JsonStrings(doc.value, "relayUrls"));
          if relays.Err? then Err(BadRelay(relays.error))
          else
            var directs := ParseEach(forms.sockets.parse, MakeIp<U, S>, JsonStrings(doc.value, "directAddrs"));
            if directs.Err? then Err(BadDirect(directs.error))
            else Ok(EndpointAddr(id.value, relays.value + directs.value))
  }

  lemma ReadFields(info: AddrInfo)
    ensures var v := AddrValue(info);
      && Get(v, "id") == Some(JString(info.id))
      && JsonStrings(v, "relayUrls") == info.relayUrls
      && JsonStrings(v, "directAddrs") == info.directAddrs
  {
    var ms := AddrValue(info).members;
    assert ms[..2] == [ms[0], ms[1]] && ms[..2][..1] == [ms[0]];
    assert Find(ms, "directAddrs") == Some(ms[2].value);
    assert "relayUrls"[0] != "directAddrs"[0] && "id"[0] != "directAddrs"[0] && "id"[0] != "relayUrls"[0];
    assert Find(ms, "relayUrls") == Find(ms[..2], "relayUrls") == Some(ms[1].value);
    assert Find(ms, "id") == Find(ms[..2], "id") == Find(ms[..1], "id") == Some(ms[0].value);
    TextsOfStrings(info.relayUrls);
    TextsOfStrings(info.directAddrs);
  }

  lemma {:induction false} TextsOfStrings(texts: seq<string>)
    ensures FlatMap(TextOf, Strings(texts)) == texts
  {
    if texts != [] {
      TextsOfStrings(texts[..|texts| - 1]);
      assert Strings(texts)[..|texts| - 1] == Strings(texts[..|texts| - 1]);
    }
  }

  function ScriptAddrOf(info: AddrInfo): ScriptAddr
  {
    ScriptAddr(Some(JString(info.id)), JArray(Strings(info.relayUrls)), JArray(Strings(info.directAddrs)))
  }

  /** The TypeScript reader gets every field of an encoded address, whoever wrote it. */
  lemma ScriptReadsFields(w: Writer, info: AddrInfo)
    ensures ScriptParsed(Print(w, AddrValue(info))) == Some(ScriptAddrOf(info))
  {
    AddrDocument(w, info);
    ReadFields(info);
    var ms := AddrValue(info).members;
    assert ms[..2] == [ms[0], ms[1]];
    assert Find(ms, "directAddrs") == Some(ms[2].value);
    assert "relayUrls"[0] != "directAddrs"[0];
    assert Find(ms, "relayUrls") == Find(ms[..2], "relayUrls") == Some(ms[1].value);
  }

  /** On any text at all: it throws exactly on what is not a JSON document, or is `null`; a list
      that is missing or `null` is empty to it, and any other field is passed on as it is. */
  lemma ScriptDefaults(json: string, key: string)
    ensures ScriptParsed(json).None? <==> Parse(json) in {None, Some(JNull)}
    ensures ScriptParsed(json).Some? && key in {"relayUrls", "directAddrs"} ==>
      var field := Get(Parse(json).value, key);
      var read := if key == "relayUrls" then ScriptParsed(json).value.relayUrls else ScriptParsed(json).value.directAddrs;
      (read == JArray([]) || field == Some(read)) && (field in {None, Some(JNull)} ==> read == JArray([]))
  {
  }

  lemma {:induction false} FindsTheLast(members: seq<Member>, key: string)
    ensures Find(members, key).None? <==> forall m :: m in members ==> m.name != key
    ensures Find(members, key).Some? ==> Member(key, Find(members, key).value) in members
  {
    if members != [] {
      var init, last := members[..|members| - 1], members[|members| - 1];
      assert members == init + [last];
      FindsTheLast(init, key);
    }
  }

  /** What the native reader refuses before it looks at an address: exactly a text that is no JSON,
      and a document without a text under `id`, such as one that is no object. */
  lemma RefusedUnread<I, U, S>(forms: Forms<I, U, S>, json: string)
    ensures ParsedAddr(forms, json) == Err(BadJson) <==> Parse(json).None?
    ensures Parse(json).Some? ==>
      (ParsedAddr(forms, json) == Err(MissingId) <==>
         Get(Parse(json).value, "id").None? || !Get(Parse(json).value, "id").value.JString?)
    ensures Parse(json).Some? && Parse(json).value.JObject? &&
            (forall m :: m in Parse(json).value.members && m.name == "id" ==> !m.value.JString?) ==>
      ParsedAddr(forms, json) == Err(MissingId)
    ensures Parse(json).Some? && !Parse(json).value.JObject? ==> ParsedAddr(forms, json) == Err(MissingId)
  {
    if Parse(json).Some? && Parse(json).value.JObject? {
      FindsTheLast(Parse(json).value.members, "id");
    }
  }

  /** Entries that are no texts are passed over, wherever they stand. */
  lemma StrayEntriesAreSkipped(before: seq<Value>, stray: Value, after: seq<Value>)
    requires !stray.JString?
    ensures FlatMap(TextOf, before + [stray] + after) == FlatMap(TextOf, before + after)
  {
    FlatMapAppend(TextOf, before + [stray], after);
    FlatMapSnoc(TextOf, before, stray);
    FlatMapAppend(TextOf, before, after);
  }

  /** What `parse_endpoint_addr` makes of the fields it finds. */
  function AddrOfFields<I, U, S>(forms: Forms<I, U, S>, info: AddrInfo): Result<EndpointAddr<I, U, S>, AddrError>
  {
    var id := forms.ids.parse(info.id);
    if id.None? then Err(BadId)
    else
      var relays := ParseEach(forms.urls.parse, MakeRelay<U, S>, info.relayUrls);
      if relays.Err? then Err(BadRelay(relays.error))
      else
        var directs := ParseEach(forms.sockets.parse, MakeIp<U, S>, info.directAddrs);
        if directs.Err? then Err(BadDirect(directs.error))
        else Ok(EndpointAddr(id.value, relays.value + directs.value))
  }

  /** Whatever texts an address is encoded from, the reader finds exactly those texts. */
  lemma EncodedFieldsAreRead<I, U, S>(w: Writer, forms: Forms<I, U, S>, info: AddrInfo)
    ensures ParsedAddr(forms, Print(w, AddrValue(info))) == AddrOfFields(forms, info)
  {
    AddrDocument(w, info);
    ReadFields(info);
  }

  // ---------------------------------------------------------------- from an address and back

  function RelayText<U, S>(show: U -> string): Transport<U, S> -> seq<string>
  {
    (t: Transport<U, S>) => if t.Relay? then [show(t.url)] else []
  }

  function DirectText<U, S>(show: S -> string): Transport<U, S> -> seq<string>
  {
    (t: Transport<U, S>) => if t.Ip? then [show(t.socket)] else []
  }

  function InfoOf<I, U, S>(forms: Forms<I, U, S>, addr: EndpointAddr<I, U, S>): AddrInfo
  {
    AddrInfo(forms.ids.show(addr.id),
             FlatMap(RelayText(forms.urls.show), addr.transports),
             FlatMap(DirectText(forms.sockets.show), addr.transports))
  }

  function KeepRelay<U, S>(t: Transport<U, S>): seq<Transport<U, S>>
  {
    if t.Relay? then [t] else []
  }

  function KeepIp<U, S>(t: Transport<U, S>): seq<Transport<U, S>>
  {
    if t.Ip? then [t] else []
  }

  /** The address without its custom transports, relays first. */
  function Surfaced<I, U, S>(addr: EndpointAddr<I, U, S>): EndpointAddr<I, U, S>
  {
    EndpointAddr(addr.id, FlatMap(KeepRelay<U, S>, addr.transports) + FlatMap(KeepIp<U, S>, addr.transports))
  }

  lemma ParseEachSnoc<T, R>(parse: string -> Option<T>, wrap: T -> R, texts: seq<string>, text: string, t: T)
    requires ParseEach(parse, wrap, texts).Ok? && parse(text) == Some(t)
    ensures ParseEach(parse, wrap, texts + [text]) == Ok(ParseEach(parse, wrap, texts).value + [wrap(t)])
  {
    assert (texts + [text])[..|texts + [text]| - 1] == texts;
  }

  lemma {:induction false} RelaysAreReadBack<U(!new), S>(form: TextForm<U>, ts: seq<Transport<U, S>>)
    requires Inverse(form)
    ensures ParseEach(form.parse, MakeRelay<U, S>, FlatMap(RelayText(form.show), ts)) ==
            Ok(FlatMap(KeepRelay<U, S>, ts))
  {
    if ts != [] {
      var init, last := ts[..|ts| - 1], ts[|ts| - 1];
      var texts := FlatMap(RelayText(form.show), init);
      RelaysAreReadBack(form, init);
      var kept := FlatMap(KeepRelay<U, S>, init);
      assert FlatMap(RelayText(form.show), ts) == texts + RelayText<U, S>(form.show)(last);
      assert FlatMap(KeepRelay<U, S>, ts) == kept + KeepRelay(last);
      if last.Relay? {
        ParseEachSnoc(form.parse, MakeRelay<U, S>, texts, form.show(last.url), last.url);
      } else {
        assert texts + [] == texts && kept + [] == kept;
      }
    }
  }

  lemma {:induction false} DirectsAreReadBack<U, S(!new)>(form: TextForm<S>, ts: seq<Transport<U, S>>)
    requires Inverse(form)
    ensures ParseEach(form.parse, MakeIp<U, S>, FlatMap(DirectText(form.show), ts)) ==
            Ok(FlatMap(KeepIp<U, S>, ts))
  {
    if ts != [] {
      var init, last := ts[..|ts| - 1], ts[|ts| - 1];
      var texts := FlatMap(DirectText(form.show), init);
      DirectsAreReadBack(form, init);
      var kept := FlatMap(KeepIp<U, S>, init);
      assert FlatMap(DirectText(form.show), ts) == texts + DirectText<U, S>(form.show)(last);
      assert FlatMap(KeepIp<U, S>, ts) == kept + KeepIp(last);
      if last.Ip? {
        ParseEachSnoc(form.parse, MakeIp<U, S>, texts, form.show(last.socket), last.socket);
      } else {
        assert texts + [] == texts && kept + [] == kept;
      }
    }
  }

  ghost predicate InverseForms<I(!new), U(!new), S(!new)>(forms: Forms<I, U, S>)
  {
    Inverse(forms.ids) && Inverse(forms.urls) && Inverse(forms.sockets)
  }

  /** Encoding an address and parsing it back gives the same id and the same relay and direct
      transports; custom transports are not carried. */
  lemma AddressRoundTrip<I(!new), U(!new), S(!new)>(w: Writer, forms: Forms<I, U, S>, addr: EndpointAddr<I, U, S>)
    requires InverseForms(forms)
    ensures ParsedAddr(forms, Print(w, AddrValue(InfoOf(forms, addr)))) == Ok(Surfaced(addr))
  {
    EncodedFieldsAreRead(w, forms, InfoOf(forms, addr));
    RelaysAreReadBack<U, S>(forms.urls, addr.transports);
    DirectsAreReadBack<U, S>(forms.sockets, addr.transports);
  }

  /** Out and back: an address encoded natively, read and written again by TypeScript, and parsed
      natively, is the same address without its custom transports. */
  lemma AddressSurvivesTheHost<I(!new), U(!new), S(!new)>(forms: Forms<I, U, S>, addr: EndpointAddr<I, U, S>, info: AddrInfo)
    requires InverseForms(forms)
    requires ScriptParsed(Print(Native, AddrValue(InfoOf(forms, addr)))) == Some(ScriptAddrOf(info))
    ensures ParsedAddr(forms, Print(Script, AddrValue(info))) == Ok(Surfaced(addr))
  {
    ScriptReadsFields(Native, InfoOf(forms, addr));
    SameStrings(info.relayUrls, InfoOf(forms, addr).relayUrls);
    SameStrings(info.directAddrs, InfoOf(forms, addr).directAddrs);
    AddressRoundTrip(Script, forms, addr);
  }

  lemma SameStrings(a: seq<string>, b: seq<string>)
    requires Strings(a) == Strings(b)
    ensures a == b
  {
    TextsOfStrings(a);
    TextsOfStrings(b);
  }

  lemma {:induction false} KeptAre<U(!new), S(!new)>(ts: seq<Transport<U, S>>)
    ensures forall t :: t in FlatMap(KeepRelay<U, S>, ts) <==> t in ts && t.Relay?
    ensures forall t :: t in FlatMap(KeepIp<U, S>, ts) <==> t in ts && t.Ip?
  {
    if ts != [] {
      var init, last := ts[..|ts| - 1], ts[|ts| - 1];
      assert ts == init + [last];
      KeptAre<U, S>(init);
    }
  }

  /** The transports survive the trip exactly when none of them is a custom one. */
  lemma TripIsLosslessWithoutCustom<I, U(!new), S(!new)>(addr: EndpointAddr<I, U, S>)
    ensures (forall t :: t in Surfaced(addr).transports <==> t in addr.transports) <==>
            (forall t :: t in addr.transports ==> !t.Custom?)
  {
    KeptAre<U, S>(addr.transports);
    var kept := Surfaced(addr).transports;
    forall t ensures t in kept <==> t in addr.transports && !t.Custom? {}
  }

  // ---------------------------------------------------------------- lists of addresses

  function Encodings(w: Writer, infos: seq<AddrInfo>): (r: seq<string>)
    ensures |r| == |infos| && forall i :: 0 <= i < |r| ==> r[i] == Print(w, AddrValue(infos[i]))
  {
    seq(|infos|, i requires 0 <= i < |infos| => Print(w, AddrValue(infos[i])))
  }

  /** `collect()`: every line parsed, or the first error. */
  function Collect<T, E>(parse: string -> Result<T, E>, lines: seq<string>): Result<seq<T>, E>
  {
    if lines == [] then Ok([])
    else
      var earlier := Collect(parse, lines[..|lines| - 1]);
      if earlier.Err? then earlier
      else
        var last := parse(lines[|lines| - 1]);
        if last.Err? then Err(last.error) else Ok(earlier.value + [last.value])
  }

  lemma {:induction false} CollectAll<T, E>(parse: string -> Result<T, E>, lines: seq<string>, values: seq<T>)
    requires |lines| == |values| && forall i :: 0 <= i < |lines| ==> parse(lines[i]) == Ok(values[i])
    ensures Collect(parse, lines) == Ok(values)
  {
    if lines != [] {
      CollectAll(parse, lines[..|lines| - 1], values[..|values| - 1]);
      assert values[..|values| - 1] + [values[|values| - 1]] == values;
    }
  }

  /** `parse_bootstrap` of a newline-joined list. */
  function ParsedBootstrap<I, U, S>(forms: Forms<I, U, S>, joined: string): Result<seq<EndpointAddr<I, U, S>>, AddrError>
  {
    Collect((line: string) => ParsedAddr(forms, line), SplitJoined(joined))
  }

  function Infos<I, U, S>(forms: Forms<I, U, S>, addrs: seq<EndpointAddr<I, U, S>>): (r: seq<AddrInfo>)
    ensures |r| == |addrs| && forall i :: 0 <= i < |r| ==> r[i] == InfoOf(forms, addrs[i])
  {
    seq(|addrs|, i requires 0 <= i < |addrs| => InfoOf(forms, addrs[i]))
  }

  /** A newline-joined list of encoded addresses splits back into those very lines. */
  lemma EncodedListSplits(w: Writer, infos: seq<AddrInfo>)
    ensures SplitJoined(Join(Encodings(w, infos))) == Encodings(w, infos)
  {
    forall i | 0 <= i < |infos| ensures OneLine(Encodings(w, infos)[i]) {
      AddrDocument(w, infos[i]);
    }
    JoinedListRoundTrip(Encodings(w, infos));
  }

  function SurfacedEach<I, U, S>(addrs: seq<EndpointAddr<I, U, S>>): (r: seq<EndpointAddr<I, U, S>>)
    ensures |r| == |addrs| && forall i :: 0 <= i < |r| ==> r[i] == Surfaced(addrs[i])
  {
    seq(|addrs|, i requires 0 <= i < |addrs| => Surfaced(addrs[i]))
  }

  /** Bootstrap peers: a joined list of encoded addresses is read back as those addresses, in
      order, each without its custom transports. */
  lemma BootstrapRoundTrip<I(!new), U(!new), S(!new)>(w: Writer, forms: Forms<I, U, S>, addrs: seq<EndpointAddr<I, U, S>>)
    requires InverseForms(forms)
    ensures ParsedBootstrap(forms, Join(Encodings(w, Infos(forms, addrs)))) == Ok(SurfacedEach(addrs))
  {
    var lines := Encodings(w, Infos(forms, addrs));
    EncodedListSplits(w, Infos(forms, addrs));
    forall i | 0 <= i < |addrs| ensures ParsedAddr(forms, lines[i]) == Ok(SurfacedEach(addrs)[i]) {
      AddressRoundTrip(w, forms, addrs[i]);
    }
    CollectAll((line: string) => ParsedAddr(forms, line), lines, SurfacedEach(addrs));
  }

  // ---------------------------------------------------------------- the loops

  lemma {:induction false} FirstErrorStays<T, R>(parse: string -> Option<T>, wrap: T -> R, texts: seq<string>, k: nat)
    requires k <= |texts| && ParseEach(parse, wrap, texts[..k]).Err?
    ensures ParseEach(parse, wrap, texts) == ParseEach(parse, wrap, texts[..k])
  {
    if k < |texts| {
      assert texts[..|texts| - 1][..k] == texts[..k];
      FirstErrorStays(parse, wrap, texts[..|texts| - 1], k);
    } else {
      assert texts[..k] == texts;
    }
  }

  /** One of the two parsing loops: appends to `before`, stops at the first bad text. */
  method PushParsed<T, R>(parse: string -> Option<T>, wrap: T -> R, texts: seq<string>, before: seq<R>)
    returns (all: seq<R>, bad: Option<string>)
    ensures bad.None? <==> ParseEach(parse, wrap, texts).Ok?
    ensures bad.None? ==> all == before + ParseEach(parse, wrap, texts).value
    ensures bad.Some? ==> ParseEach(parse, wrap, texts) == Err(bad.value)
  {
    all, bad := before, None;
    for i := 0 to |texts|
      invariant ParseEach(parse, wrap, texts[..i]).Ok?
      invariant all == before + ParseEach(parse, wrap, texts[..i]).value
    {
      var t := parse(texts[i]);
      assert texts[..i + 1][..i] == texts[..i];
      if t.None? {
        FirstErrorStays(parse, wrap, texts, i + 1);
        return all, Some(texts[i]);
      }
      all := all + [wrap(t.value)];
    }
    assert texts[..|texts|] == texts;
  }

  method ParseEndpointAddr<I, U, S>(forms: Forms<I, U, S>, json: string)
    returns (r: Result<EndpointAddr<I, U, S>, AddrError>)
    ensures r == ParsedAddr(forms, json)
  {
    var doc := Parse(json);
    if doc.None? {
      return Err(BadJson);
    }
    var idText := Get(doc.value, "id");
    if idText.None? || !idText.value.JString? {
      return Err(MissingId);
    }
    var id := forms.ids.parse(idText.value.text);
    if id.None? {
      return Err(BadId);
    }
    var transports, bad := PushParsed(forms.urls.parse, MakeRelay<U, S>, JsonStrings(doc.value, "relayUrls"), []);
    if bad.Some? {
      return Err(BadRelay(bad.value));
    }
    assert transports == ParseEach(forms.urls.parse, MakeRelay<U, S>, JsonStrings(doc.value, "relayUrls")).value;
    transports, bad := PushParsed(forms.sockets.parse, MakeIp<U, S>, JsonStrings(doc.value, "directAddrs"), transports);
    if bad.Some? {
      return Err(BadDirect(bad.value));
    }
    return Ok(EndpointAddr(id.value, transports));
  }
}
