/** The URL page: normalising and validating the typed URL, and the page's
    `input` and `validationError` state as submit, edit and the ingest
    result change it. */
module Urls {
  import opened Wrappers
  import opened JsStrings
  import opened PageEffects

  const EmptyInputError := "Please enter a URL"
  const SchemeError := "URL must start with http:// or https://"
  const FormatError := "Invalid URL format"
  /** Shown by submit when validation gives neither an error nor a URL. */
  const FallbackError := "Invalid URL"

  const HttpPrefix := "http://"
  const HttpsPrefix := "https://"

  /** What `new URL(s)` does with a string: throw, or produce a URL record
      whose `protocol` is the scheme followed by a colon. The parser itself
      (the basic URL parser of the WHATWG URL Standard, section 4.4) is a
      parameter of the model. */
  datatype UrlParse = Throws | Parsed(protocol: string)

  /** The `{ url, error }` record validation returns; either may be null. */
  datatype Validation = Validation(url: Option<string>, error: Option<string>)

  predicate HasHttpScheme(s: string) {
    HttpPrefix <= s || HttpsPrefix <= s
  }

  /** A parser that reports the scheme a string already spells out: what the
      WHATWG parser does for strings starting with `http://` or `https://`. */
  ghost predicate SchemeFaithful(parse: string -> UrlParse) {
    forall s :: parse(s).Parsed? ==>
      (HttpPrefix <= s ==> parse(s).protocol == "http:") &&
      (HttpsPrefix <= s ==> parse(s).protocol == "https:")
  }

  /** The "add protocol if missing" step: a string with an http or https
      scheme is kept, any other gets `https://` in front. The test is
      case-sensitive and looks for nothing else, so `ftp://x` becomes
      `https://ftp://x`. */
  function WithScheme(url: string): (r: string)
    ensures HasHttpScheme(r)
    ensures HasHttpScheme(url) ==> r == url
    ensures !HasHttpScheme(url) ==> r == HttpsPrefix + url && r[|HttpsPrefix|..] == url
    ensures url != [] && Trimmed(url) ==> Trimmed(r)
  {
    if !(HttpPrefix <= url) && !(HttpsPrefix <= url) then
      var r := HttpsPrefix + url;
      assert HttpsPrefix <= r;
      assert url != [] ==> r[|r| - 1] == url[|url| - 1];
      r
    else
      url
  }

  /** `normalizeAndValidateUrl`. Exactly one of `url` and `error` is set.
      Blank input is refused with `EmptyInputError`. Otherwise the trimmed
      input, with `https://` added when it has no http or https scheme, is
      handed to the parser: a throw gives `FormatError`, a protocol other than
      `http:` and `https:` gives `SchemeError`, and anything else returns that
      string as the URL. */
  function NormalizeAndValidate(input: string, parse: string -> UrlParse): (r: Validation)
    ensures r.url.Some? != r.error.Some?
    ensures IsBlank(input) ==> r == Validation(None, Some(EmptyInputError))
    ensures r.error == Some(EmptyInputError) <==> IsBlank(input)
    ensures r.url.Some? <==>
      !IsBlank(input) && parse(WithScheme(Trim(input))).Parsed? &&
      parse(WithScheme(Trim(input))).protocol in {"http:", "https:"}
    ensures r.error.Some? ==> r.error.value in {EmptyInputError, SchemeError, FormatError}
    ensures r.error == Some(FormatError) <==>
      !IsBlank(input) && parse(WithScheme(Trim(input))).Throws?
    ensures r.error == Some(SchemeError) <==>
      !IsBlank(input) && parse(WithScheme(Trim(input))).Parsed? &&
      parse(WithScheme(Trim(input))).protocol !in {"http:", "https:"}
    ensures r.url.Some? ==> HasHttpScheme(r.url.value) && Trimmed(r.url.value)
    ensures r.url.Some? && HasHttpScheme(Trim(input)) ==> r.url.value == Trim(input)
    ensures r.url.Some? && !HasHttpScheme(Trim(input)) ==> r.url.value == HttpsPrefix + Trim(input)
  {
    var url := Trim(input);
    if url == "" then
      Validation(None, Some(EmptyInputError))
    else
      var url := WithScheme(url);
      match parse(url)
      case Throws => Validation(None, Some(FormatError))
      case Parsed(protocol) =>
        if protocol != "http:" && protocol != "https:" then
          Validation(None, Some(SchemeError))
        else
          Validation(Some(url), None)
  }

  /** Validating a URL that validation produced gives it back unchanged. */
  lemma NormalizeIdempotent(input: string, parse: string -> UrlParse)
    requires NormalizeAndValidate(input, parse).url.Some?
    ensures var u := NormalizeAndValidate(input, parse).url.value;
      NormalizeAndValidate(u, parse) == Validation(Some(u), None)
  {
    var u := NormalizeAndValidate(input, parse).url.value;
    TrimmedIsFixed(u);
    assert WithScheme(Trim(u)) == u;
  }

  /** With a parser that reports the scheme the string carries, the
      scheme error is never produced: after the prefix step every candidate
      starts with `http://` or `https://`. */
  lemma SchemeErrorNeedsUnfaithfulParser(input: string, parse: string -> UrlParse)
    requires SchemeFaithful(parse)
    ensures NormalizeAndValidate(input, parse).error != Some(SchemeError)
  {
    if !IsBlank(input) {
      var u := WithScheme(Trim(input));
      if parse(u).Parsed? {
        assert HttpPrefix <= u || HttpsPrefix <= u;
        assert parse(u).protocol == "http:" || parse(u).protocol == "https:";
      }
    }
  }

  /** The result of an ingest call: a response body, or a rejected promise. */
  datatype IngestOutcome = Responded(success: bool, message: string) | Failed(reason: string)

  class UrlsPage {
    var input: string
    var validationError: Option<string>

    /** A validation error on screen is one of the messages submit sets. */
    ghost predicate Valid()
      reads this
    {
      validationError.None? ||
      validationError.value in {EmptyInputError, SchemeError, FormatError}
    }

    constructor ()
      ensures Valid() && input == "" && validationError == None
    {
      input := "";
      validationError := None;
    }

    /** `handleSubmit`: an invalid input sets the validation error and calls
        nothing; a valid one clears the error and ingests the normalised URL,
        not the raw input. The input itself is left alone. */
    method HandleSubmit(parse: string -> UrlParse) returns (effects: seq<Effect>)
      requires Valid()
      modifies this`validationError
      ensures Valid()
      ensures var v := NormalizeAndValidate(input, parse);
        (v.url.None? ==> validationError == v.error && effects == []) &&
        (v.url.Some? ==> validationError == None && effects == [IngestUrl(v.url.value)])
    {
      var v := NormalizeAndValidate(input, parse);
      if Truthy(v.error) || !Truthy(v.url) {
        validationError := Some(if Truthy(v.error) then v.error.value else FallbackError);
        effects := [];
        return;
      }
      validationError := None;
      effects := [IngestUrl(v.url.value)];
    }

    /** `handleKeyDown`: Enter submits, whatever the Shift key; any other
        key does nothing. */
    method HandleKeyDown(key: string, parse: string -> UrlParse) returns (effects: seq<Effect>)
      requires Valid()
      modifies this`validationError
      ensures Valid()
      ensures key != "Enter" ==> validationError == old(validationError) && effects == []
      ensures var v := NormalizeAndValidate(input, parse);
        key == "Enter" ==>
          (v.url.None? ==> validationError == v.error && effects == []) &&
          (v.url.Some? ==> validationError == None && effects == [IngestUrl(v.url.value)])
    {
      effects := [];
      if key == "Enter" {
        effects := HandleSubmit(parse);
      }
    }

    /** `handleInputChange`: the input takes the new value and any
        validation error is cleared. */
    method HandleInputChange(value: string)
      requires Valid()
      modifies this
      ensures Valid() && input == value && validationError == None
    {
      input := value;
      if Truthy(validationError) {
        validationError := None;
      }
    }

    /** The mutation's `onSuccess` and `onError`: only a response with
        `success: true` clears the input and the error and invalidates the
        URL list; a soft failure or a rejected call changes nothing. */
    method OnIngestSettled(outcome: IngestOutcome) returns (effects: seq<Effect>)
      requires Valid()
      modifies this
      ensures Valid()
      ensures outcome.Responded? && outcome.success ==>
        input == "" && validationError == None && effects == [Invalidate(UrlsKey)]
      ensures !(outcome.Responded? && outcome.success) ==>
        input == old(input) && validationError == old(validationError) && effects == []
    {
      effects := [];
      if outcome.Responded? && outcome.success {
        input := "";
        validationError := None;
        effects := [Invalidate(UrlsKey)];
      }
    }
  }
}
