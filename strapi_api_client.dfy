/**
 * The CMS client (`StrapiAPIClient`): how request URLs and headers are
 * built, how media URLs are resolved against the base URL, and which of
 * the caller's two callbacks a finished request invokes. The transfer
 * itself and the JSON decoding are inputs of the model.
 */
module StrapiApiClient {
  import opened Wrappers
  import opened StrapiConfig

  const PopulateAll: string := "?populate=*"
  const ContentTypeHeader: string := "Content-Type"
  const AuthorizationHeader: string := "Authorization"
  const JsonContentType: string := "application/json"
  const ParseErrorPrefix: string := "JSON Parse Error: "

  // ---------------------------------------------------------------------
  // Decimal rendering of the record id in the single-item URL.

  predicate IsDigit(ch: char) {
    '0' <= ch <= '9'
  }

  function DigitChar(d: nat): char
    requires d < 10
  {
    "0123456789"[d]
  }

  function DigitValue(ch: char): nat
    requires IsDigit(ch)
  {
    (ch as int - '0' as int) as nat
  }

  /** The decimal digits of `n`, most significant first, without leading zeros. */
  function NatToString(n: nat): (r: string)
    ensures |r| > 0 && (forall i :: 0 <= i < |r| ==> IsDigit(r[i]))
    ensures |r| > 1 ==> r[0] != '0'
  {
    if n < 10 then [DigitChar(n)] else NatToString(n / 10) + [DigitChar(n % 10)]
  }

  /** `id.ToString()` for an `int` id: a `'-'` sign for negative values. */
  function IntToString(i: int): (r: string)
    ensures |r| > 0 && (r[0] == '-' <==> i < 0)
    ensures i < 0 ==> |r| > 1 && r[1..] == NatToString(-i)
    ensures i >= 0 ==> r == NatToString(i)
  {
    if i < 0 then "-" + NatToString(-i) else NatToString(i)
  }

  /** The value of a string of decimal digits. */
  function DecimalValue(s: string): nat
    requires forall i :: 0 <= i < |s| ==> IsDigit(s[i])
  {
    if s == [] then 0 else 10 * DecimalValue(s[..|s| - 1]) + DigitValue(s[|s| - 1])
  }

  /** Reads an optionally signed decimal integer back, as the server does with the id segment. */
  function ParseInt(s: string): Option<int>
  {
    if |s| > 0 && s[0] == '-' then
      if |s| > 1 && forall i :: 1 <= i < |s| ==> IsDigit(s[i]) then var v: int := 0 - DecimalValue(s[1..]); Some(v) else None
    else if |s| > 0 && forall i :: 0 <= i < |s| ==> IsDigit(s[i]) then Some(DecimalValue(s))
    else None
  }

  lemma {:induction false} NatToStringRoundTrip(n: nat)
    ensures DecimalValue(NatToString(n)) == n
  {
    if n >= 10 {
      var s := NatToString(n);
      assert s[..|s| - 1] == NatToString(n / 10);
      NatToStringRoundTrip(n / 10);
    }
  }

  predicate AllDigits(s: string) {
    forall i :: 0 <= i < |s| ==> IsDigit(s[i])
  }

  lemma ParseSigned(digits: string)
    requires |digits| > 0 && AllDigits(digits)
    ensures ParseInt("-" + digits) == Some(0 - DecimalValue(digits))
  {
    var s := "-" + digits;
    assert s[1..] == digits;
    forall k | 1 <= k < |s| ensures IsDigit(s[k]) { assert s[k] == digits[k - 1]; }
  }

  lemma ParseUnsigned(digits: string)
    requires |digits| > 0 && AllDigits(digits)
    ensures ParseInt(digits) == Some(DecimalValue(digits))
  {
    assert digits[0] != '-';
  }

  /** The id written into a URL is read back unchanged. */
  lemma IntToStringRoundTrip(i: int)
    ensures ParseInt(IntToString(i)) == Some(i)
  {
    if i < 0 {
      var n: nat := -i;
      var digits := NatToString(n);
      assert IntToString(i) == "-" + digits;
      ParseSigned(digits);
      NatToStringRoundTrip(n);
      assert DecimalValue(digits) == n;
    } else {
      var n: nat := i;
      var digits := NatToString(n);
      assert IntToString(i) == digits;
      ParseUnsigned(digits);
      NatToStringRoundTrip(n);
    }
  }

  // ---------------------------------------------------------------------
  // URLs.

  predicate IsAbsoluteUrl(url: string) {
    "http://" <= url || "https://" <= url
  }

  /**
   * `GetFullMediaUrl`: `""` for a missing or empty URL, an absolute URL as
   * it is, and a relative one resolved against the base URL by the same
   * rule as an endpoint.
   */
  function GetFullMediaUrl(config: Config, url: Option<string>): (r: string)
    ensures r == "" <==> url.None? || url.value == ""
    ensures url.Some? && IsAbsoluteUrl(url.value) ==> r == url.value
    ensures url.Some? && url.value != "" && !IsAbsoluteUrl(url.value) ==> r == GetFullUrl(config, url.value)
  {
    if url.None? || url.value == "" then ""
    else if IsAbsoluteUrl(url.value) then url.value
    else TrimEnd(config.apiBaseUrl, '/') + url.value
  }

  /** The collection request of `GetARExperiences`: the endpoint's full URL followed by the populate query. */
  function ExperiencesUrl(config: Config): (r: string)
    ensures var collection := GetFullUrl(config, config.arExperiencesEndpoint);
      |r| == |collection| + |PopulateAll| && collection <= r && r[|collection|..] == PopulateAll
  {
    GetFullUrl(config, config.arExperiencesEndpoint) + PopulateAll
  }

  /**
   * The single-item request of `GetARExperience(id)`: the collection URL,
   * a `'/'`, the id (which can be read back) and the populate query.
   */
  function ExperienceUrl(config: Config, id: int): (r: string)
    ensures var collection := GetFullUrl(config, config.arExperiencesEndpoint);
      && collection + "/" <= r
      && |r| > |collection| + 1 + |PopulateAll|
      && r[|r| - |PopulateAll|..] == PopulateAll
  {
    GetFullUrl(config, config.arExperiencesEndpoint) + "/" + IntToString(id) + PopulateAll
  }

  /** The single-item URL extends the list URL's path by `'/'` and the id, which can be read back. */
  lemma ExperienceUrlExtendsCollection(config: Config, id: int)
    ensures var list := ExperiencesUrl(config);
      var collection := list[..|list| - |PopulateAll|];
      var single := ExperienceUrl(config, id);
      && collection + "/" <= single
      && ParseInt(single[|collection| + 1..|single| - |PopulateAll|]) == Some(id)
  {
    var collection := GetFullUrl(config, config.arExperiencesEndpoint);
    var single := ExperienceUrl(config, id);
    assert single[|collection| + 1..|single| - |PopulateAll|] == IntToString(id);
    IntToStringRoundTrip(id);
  }

  /** Different ids never share a single-item URL. */
  lemma ExperienceUrlInjective(config: Config, id1: int, id2: int)
    requires ExperienceUrl(config, id1) == ExperienceUrl(config, id2)
    ensures id1 == id2
  {
    ExperienceUrlExtendsCollection(config, id1);
    ExperienceUrlExtendsCollection(config, id2);
  }

  /** The request URLs under the default settings. */
  lemma DefaultRequestUrls()
    ensures ExperiencesUrl(Default) == "http://localhost:1337/api/ar-experiences?populate=*"
    ensures ExperienceUrl(Default, 42) == "http://localhost:1337/api/ar-experiences/42?populate=*"
    ensures ExperienceUrl(Default, -7) == "http://localhost:1337/api/ar-experiences/-7?populate=*"
  {
    DefaultCollectionUrl();
    ExampleIds();
    ExperienceUrlIs(Default, 42);
    ExperienceUrlIs(Default, -7);
    DefaultItemPaths();
  }

  /** Unfolding step of DefaultRequestUrls: the digits of the two example ids. */
  lemma ExampleIds()
    ensures IntToString(42) == "42" && IntToString(-7) == "-7"
  {
    assert NatToString(4) == "4" && DigitChar(2) == '2';
    assert NatToString(7) == "7";
  }

  /** Unfolding step of DefaultRequestUrls: the default collection URL joined with each example id segment. */
  lemma DefaultItemPaths()
    ensures GetFullUrl(Default, Default.arExperiencesEndpoint) + "/" + "42" + PopulateAll
         == "http://localhost:1337/api/ar-experiences/42?populate=*"
    ensures GetFullUrl(Default, Default.arExperiencesEndpoint) + "/" + "-7" + PopulateAll
         == "http://localhost:1337/api/ar-experiences/-7?populate=*"
  {
    DefaultCollectionUrl();
  }

  /** Unfolding step of DefaultRequestUrls: ExperienceUrl's definition, stated once so the concrete cases need not unfold it. */
  lemma ExperienceUrlIs(config: Config, id: int)
    ensures ExperienceUrl(config, id) == GetFullUrl(config, config.arExperiencesEndpoint) + "/" + IntToString(id) + PopulateAll
  {
  }

  // ---------------------------------------------------------------------
  // Headers.

  /** The headers `SetHeaders` writes: always the JSON content type, a bearer token only when one is configured. */
  function AuthHeaders(config: Config): (h: map<string, string>)
    ensures ContentTypeHeader in h && h[ContentTypeHeader] == JsonContentType
    ensures AuthorizationHeader in h <==> config.apiToken != ""
    ensures AuthorizationHeader in h ==> h[AuthorizationHeader] == "Bearer " + config.apiToken
    ensures h.Keys <= {ContentTypeHeader, AuthorizationHeader}
  {
    var h := map[ContentTypeHeader := JsonContentType];
    if config.apiToken != "" then h[AuthorizationHeader := "Bearer " + config.apiToken] else h
  }

  /** The default configuration sends no credentials. */
  lemma DefaultSendsNoToken()
    ensures AuthHeaders(Default) == map[ContentTypeHeader := JsonContentType]
  {
  }

  /** An outgoing GET request: its URL and its header set, which `SetRequestHeader` overwrites. */
  class WebRequest {
    const url: string
    var headers: map<string, string>

    /** `UnityWebRequest.Get(url)` and the texture and asset-bundle variants: no headers yet. */
    constructor Get(url: string)
      ensures this.url == url && headers == map[]
    {
      this.url := url;
      headers := map[];
    }

    method SetRequestHeader(name: string, value: string)
      modifies this
      ensures headers == old(headers)[name := value]
    {
      headers := headers[name := value];
    }
  }

  /** `SetHeaders(request)`: adds the content type and, with a token, the authorization header. */
  method SetHeaders(config: Config, request: WebRequest)
    modifies request
    ensures request.headers == old(request.headers) + AuthHeaders(config)
  {
    request.SetRequestHeader(ContentTypeHeader, JsonContentType);
    if config.apiToken != "" {
      request.SetRequestHeader(AuthorizationHeader, "Bearer " + config.apiToken);
    }
  }

  /** The request `GetARExperiences` sends. */
  method NewExperiencesRequest(config: Config) returns (request: WebRequest)
    ensures fresh(request)
    ensures request.url == ExperiencesUrl(config) && request.headers == AuthHeaders(config)
  {
    request := new WebRequest.Get(GetFullUrl(config, config.arExperiencesEndpoint) + PopulateAll);
    SetHeaders(config, request);
  }

  /** The request `GetARExperience(id)` sends. */
  method NewExperienceRequest(config: Config, id: int) returns (request: WebRequest)
    ensures fresh(request)
    ensures request.url == ExperienceUrl(config, id) && request.headers == AuthHeaders(config)
  {
    request := new WebRequest.Get(GetFullUrl(config, config.arExperiencesEndpoint) + "/" + IntToString(id) + PopulateAll);
    SetHeaders(config, request);
  }

  /** The request `DownloadImage` and `DownloadAssetBundle` send: resolved URL, no headers at all. */
  method NewMediaRequest(config: Config, url: Option<string>) returns (request: WebRequest)
    ensures fresh(request)
    ensures request.url == GetFullMediaUrl(config, url) && request.headers == map[]
  {
    request := new WebRequest.Get(GetFullMediaUrl(config, url));
  }

  // ---------------------------------------------------------------------
  // Callback dispatch.

  /** How the transfer ended: `request.result == Success` with the body, or the engine's error text. */
  datatype WebResult = Completed(body: string) | Failed(error: string)

  /** The JSON decoder's verdict on a body: a value, or an exception with its message. */
  datatype Parsed<T> = Decoded(value: T) | ParseException(message: string)

  /** One invocation of the caller's `onSuccess` or `onError`. */
  datatype Callback<T> = OnSuccess(value: T) | OnError(message: string)

  /**
   * The callbacks `GetARExperiences` and `GetARExperience` invoke. The
   * decoding and the `onSuccess` call share one `try` block, so an exception
   * from either is reported to `onError` as a parse error: `throws(v)` is the
   * message of the exception `onSuccess(v)` raises, `None` when it returns
   * normally. Exactly one callback runs unless `onSuccess` throws, and then
   * `onError` follows it.
   */
  function Dispatch<T>(result: WebResult, parse: string -> Parsed<T>, throws: T -> Option<string>): (calls: seq<Callback<T>>)
    ensures 1 <= |calls| <= 2
    ensures calls[0].OnError? <==> result.Failed? || parse(result.body).ParseException?
    ensures result.Failed? ==> calls == [OnError(result.error)]
    ensures result.Completed? && parse(result.body).ParseException? ==>
      calls == [OnError(ParseErrorPrefix + parse(result.body).message)]
    ensures result.Completed? && parse(result.body).Decoded? ==>
      var v := parse(result.body).value;
      && calls[0] == OnSuccess(v)
      && (throws(v).None? ==> calls == [OnSuccess(v)])
      && (throws(v).Some? ==> calls == [OnSuccess(v), OnError(ParseErrorPrefix + throws(v).value)])
    ensures calls[|calls| - 1].OnSuccess? <==> result.Completed? && parse(result.body).Decoded? && throws(parse(result.body).value).None?
  {
    match result
    case Failed(error) => [OnError(error)]
    case Completed(body) =>
      match parse(body)
      case Decoded(value) =>
        if throws(value).Some? then [OnSuccess(value), OnError(ParseErrorPrefix + throws(value).value)]
        else [OnSuccess(value)]
      case ParseException(message) => [OnError(ParseErrorPrefix + message)]
  }

  /** With an `onSuccess` that does not throw on any decoded value, exactly one callback runs. */
  lemma DispatchOnce<T>(result: WebResult, parse: string -> Parsed<T>, throws: T -> Option<string>)
    requires forall body :: parse(body).Decoded? ==> throws(parse(body).value).None?
    ensures |Dispatch(result, parse, throws)| == 1
  {
  }

  /**
   * The callbacks `DownloadImage` and `DownloadAssetBundle` invoke: exactly
   * one, with the downloaded content (which may be null) on success.
   */
  function DispatchDownload<T>(result: WebResult, content: string -> T): (calls: seq<Callback<T>>)
    ensures |calls| == 1
    ensures calls[0].OnSuccess? <==> result.Completed?
    ensures result.Completed? ==> calls[0] == OnSuccess(content(result.body))
    ensures result.Failed? ==> calls[0] == OnError(result.error)
  {
    if result.Completed? then [OnSuccess(content(result.body))] else [OnError(result.error)]
  }
}
