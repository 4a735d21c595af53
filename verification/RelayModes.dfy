/** The relay mode of a new endpoint, as one delimited string: written by `serializeRelayMode` in
    `src/endpoint.ts`, read by `parse_relay_mode` in `rust/iroh-rn-core/src/endpoint.rs`. */
module RelayModes {
  import opened Base
  import opened Errors
  import opened Lines
  import opened Addresses

  /** The keyword modes of the TypeScript union, or a list of URLs. */
  datatype Requested = UseDefault | UseDisabled | UseStaging | UseCustom(urls: seq<string>)

  datatype RelayMode<U> = Default | Disabled | Staging | Custom(urls: seq<U>)

  datatype RelayError = UnknownMode(field: string) | InvalidUrl(segment: string) | NoUrls

  function Serialized(mode: Requested): Result<string, IrohError>
  {
    match mode
    case UseDefault => Ok("default")
    case UseDisabled => Ok("disabled")
    case UseStaging => Ok("staging")
    case UseCustom(urls) =>
      if urls == [] then Err(IrohError(2000, "relayMode custom requires at least one relay URL"))
      else Ok(Join(["custom"] + urls))
  }

  function Identity<U>(u: U): U { u }

  function Parsed<U>(form: TextForm<U>, field: string): Result<RelayMode<U>, RelayError>
  {
    if field == "default" then Ok(Default)
    else if field == "disabled" then Ok(Disabled)
    else if field == "staging" then Ok(Staging)
    else
      var parts := Segments(field);
      if parts[0] != "custom" then Err(UnknownMode(field))
      else
        var urls := ParseEach(form.parse, Identity<U>, NonEmpty(parts[1..]));
        if urls.Err? then Err(InvalidUrl(urls.error))
        else if urls.value == [] then Err(NoUrls)
        else Ok(RelayMode.Custom(urls.value))
  }

  /** What the URLs amount to after the trip: the non-empty lines among them. */
  function UrlLines(urls: seq<string>): seq<string>
  {
    SplitJoined(Join(urls))
  }

  lemma CustomSegments(urls: seq<string>)
    requires urls != []
    ensures var parts := Segments(Join(["custom"] + urls));
      parts[0] == "custom" && NonEmpty(parts[1..]) == UrlLines(urls)
  {
    var all := ["custom"] + urls;
    assert all[1..] == urls;
    assert Join(all) == "custom" + "\n" + Join(urls);
    SegmentsAppend("custom", Join(urls));
    OneSegment("custom");
    assert (["custom"] + Segments(Join(urls)))[1..] == Segments(Join(urls));
  }

  /** The keyword modes are read back as themselves. */
  lemma KeywordRoundTrip<U>(form: TextForm<U>, mode: Requested)
    requires !mode.UseCustom?
    ensures Serialized(mode).Ok?
    ensures Parsed(form, Serialized(mode).value) ==
            Ok(if mode.UseDefault? then Default else if mode.UseDisabled? then Disabled else Staging)
  {
    assert "default"[0] != "disabled"[1] && "default"[1] != "disabled"[1];
    assert "staging"[0] != "default"[0] && "staging"[0] != "disabled"[0];
  }

  /** Custom URLs are parsed one by one; a list that is empty is refused when it is written, one
      that is empty but for blank entries when it is read. */
  lemma CustomRoundTrip<U>(form: TextForm<U>, urls: seq<string>)
    ensures urls == [] ==> Serialized(UseCustom(urls)).Err? && Serialized(UseCustom(urls)).error.code == 2000
    ensures urls != [] ==>
      Serialized(UseCustom(urls)).Ok? &&
      var parsed := ParseEach(form.parse, Identity<U>, UrlLines(urls));
      Parsed(form, Serialized(UseCustom(urls)).value) ==
        if parsed.Err? then Err(InvalidUrl(parsed.error))
        else if UrlLines(urls) == [] then Err(NoUrls)
        else Ok(RelayMode.Custom(parsed.value))
  {
    if urls != [] {
      CustomSegments(urls);
      NotAKeyword(urls);
      ParseEachLength(form.parse, Identity<U>, UrlLines(urls));
    }
  }

  lemma NotAKeyword(urls: seq<string>)
    requires urls != []
    ensures Join(["custom"] + urls)[0] == 'c'
  {
    assert (["custom"] + urls)[0] == "custom";
  }

  lemma {:induction false} ParseEachLength<T, R>(parse: string -> Option<T>, wrap: T -> R, texts: seq<string>)
    ensures ParseEach(parse, wrap, texts).Ok? ==> |ParseEach(parse, wrap, texts).value| == |texts|
  {
    if texts != [] {
      ParseEachLength(parse, wrap, texts[..|texts| - 1]);
    }
  }

  /** Exactly these URLs, parsed. */
  function ParsedUrls<U>(form: TextForm<U>, urls: seq<string>): Result<RelayMode<U>, RelayError>
  {
    var parsed := ParseEach(form.parse, Identity<U>, urls);
    if parsed.Err? then Err(InvalidUrl(parsed.error)) else Ok(RelayMode.Custom(parsed.value))
  }

  function Itself(s: string): string { s }
  function Accepted(s: string): Option<string> { Some(s) }

  /** A text form that takes every text as it is. */
  function Verbatim(): TextForm<string>
  {
    TextForm(Itself, Accepted)
  }

  lemma {:induction false} ParseEachAll<T, R>(parse: string -> Option<T>, wrap: T -> R, texts: seq<string>, values: seq<R>)
    requires |texts| == |values|
    requires forall i :: 0 <= i < |texts| ==> parse(texts[i]).Some? && wrap(parse(texts[i]).value) == values[i]
    ensures ParseEach(parse, wrap, texts) == Ok(values)
  {
    if texts != [] {
      ParseEachAll(parse, wrap, texts[..|texts| - 1], values[..|values| - 1]);
      assert values[..|values| - 1] + [values[|values| - 1]] == values;
    }
  }

  /** The native side parses exactly the URLs that were asked for, whatever it makes of them, if
      and only if each of them is one non-empty line. */
  lemma UrlsSurviveIffOneLineEach<U>(form: TextForm<U>, urls: seq<string>)
    requires urls != []
    ensures Parsed(Verbatim(), Serialized(UseCustom(urls)).value) == ParsedUrls(Verbatim(), urls) <==> OneLineEach(urls)
    ensures OneLineEach(urls) ==> Parsed(form, Serialized(UseCustom(urls)).value) == ParsedUrls(form, urls)
  {
    JoinedListRoundTrip(urls);
    CustomRoundTrip(Verbatim(), urls);
    CustomRoundTrip(form, urls);
    ParseEachAll(Accepted, Identity<string>, urls, urls);
    ParseEachAll(Accepted, Identity<string>, UrlLines(urls), UrlLines(urls));
  }

  /** Nothing else is taken for a mode: what is read is a keyword, or `custom` and its URLs on lines
      of their own; and any other field is refused as it stands. */
  lemma OnlyModesAreRead<U>(form: TextForm<U>, field: string)
    ensures Parsed(form, field).Ok? ==>
      field in ["default", "disabled", "staging"] || exists urls: seq<string> :: urls != [] && field == Join(["custom"] + urls)
    ensures field !in ["default", "disabled", "staging"] && Segments(field)[0] != "custom" ==>
      Parsed(form, field) == Err(UnknownMode(field))
  {
    if Parsed(form, field).Ok? && field !in ["default", "disabled", "staging"] {
      var parts := Segments(field);
      SegmentsJoin(field);
      if |parts| == 1 {
        assert parts[1..] == [];
        assert NonEmpty(parts[1..]) == [];
      }
      assert parts == ["custom"] + parts[1..];
    }
  }

  /** Splitting at newlines loses nothing. */
  lemma {:induction false} SegmentsJoin(s: string)
    ensures Join(Segments(s)) == s
  {
    if s != [] {
      SegmentsJoin(s[1..]);
      var rest := Segments(s[1..]);
      if s[0] == '\n' {
        assert Segments(s)[1..] == rest;
        assert s == "" + "\n" + s[1..];
      } else {
        assert Segments(s)[1..] == rest[1..];
        assert s == [s[0]] + s[1..];
      }
    }
  }
}
