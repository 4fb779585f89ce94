/**
 * The CMS connection settings (`StrapiConfig`): a base URL, an optional API
 * token and the endpoint of the AR experience collection, and the rule that
 * joins the base URL with an endpoint.
 */
module StrapiConfig {

  datatype Config = Config(apiBaseUrl: string, apiToken: string, arExperiencesEndpoint: string)

  const DefaultApiBaseUrl: string := "http://localhost:1337"
  const DefaultApiToken: string := ""
  const DefaultArExperiencesEndpoint: string := "/api/ar-experiences"

  /** The field values of a freshly created configuration asset. */
  const Default: Config := Config(DefaultApiBaseUrl, DefaultApiToken, DefaultArExperiencesEndpoint)

  predicate EndsWith(s: string, c: char) {
    |s| > 0 && s[|s| - 1] == c
  }

  predicate AllChar(s: string, c: char) {
    forall i :: 0 <= i < |s| ==> s[i] == c
  }

  /** `n` copies of `c`. */
  function Repeat(c: char, n: nat): (r: string)
    ensures |r| == n && AllChar(r, c)
  {
    if n == 0 then [] else Repeat(c, n - 1) + [c]
  }

  /**
   * `s.TrimEnd(c)`: `s` without every trailing `c`. The result is the
   * longest prefix of `s` that does not end in `c` and beyond which `s`
   * holds only `c`s.
   */
  function TrimEnd(s: string, c: char): (r: string)
    ensures r <= s
    ensures !EndsWith(r, c)
    ensures AllChar(s[|r|..], c)
    decreases |s|
  {
    if EndsWith(s, c) then TrimEnd(s[..|s| - 1], c) else s
  }

  /** The three properties in TrimEnd's contract determine its result. */
  lemma {:induction false} TrimEndUnique(s: string, c: char, p: string)
    requires p <= s && !EndsWith(p, c) && AllChar(s[|p|..], c)
    ensures TrimEnd(s, c) == p
  {
    if EndsWith(s, c) {
      assert p <= s[..|s| - 1];
      assert s[..|s| - 1][|p|..] == s[|p|..|s| - 1];
      TrimEndUnique(s[..|s| - 1], c, p);
    }
  }

  /** Trailing copies of `c` never change what TrimEnd yields. */
  lemma TrimEndIgnoresTrailing(s: string, c: char, n: nat)
    ensures TrimEnd(s + Repeat(c, n), c) == TrimEnd(s, c)
  {
    var p := TrimEnd(s, c);
    var t := s + Repeat(c, n);
    assert p <= t;
    forall i | 0 <= i < |t[|p|..]|
      ensures t[|p|..][i] == c
    {
      if |p| + i < |s| {
        assert t[|p| + i] == s[|p|..][i];
      } else {
        assert t[|p| + i] == Repeat(c, n)[|p| + i - |s|];
      }
    }
    TrimEndUnique(t, c, p);
  }

  /** TrimEnd is idempotent. */
  lemma TrimEndIdempotent(s: string, c: char)
    ensures TrimEnd(TrimEnd(s, c), c) == TrimEnd(s, c)
  {
  }

  /**
   * `GetFullUrl(endpoint)`: the base URL with every trailing `'/'` removed,
   * followed by the endpoint exactly as given.
   */
  function GetFullUrl(config: Config, endpoint: string): (r: string)
    ensures |r| >= |endpoint| && r[|r| - |endpoint|..] == endpoint
    ensures var prefix := r[..|r| - |endpoint|];
      && prefix <= config.apiBaseUrl
      && !EndsWith(prefix, '/')
      && AllChar(config.apiBaseUrl[|prefix|..], '/')
  {
    var prefix := TrimEnd(config.apiBaseUrl, '/');
    assert (prefix + endpoint)[..|prefix|] == prefix;
    prefix + endpoint
  }

  /** Any two functions satisfying GetFullUrl's contract agree: it pins the result down. */
  lemma GetFullUrlDetermined(config: Config, endpoint: string, r: string)
    requires |r| >= |endpoint| && r[|r| - |endpoint|..] == endpoint
    requires var prefix := r[..|r| - |endpoint|];
      && prefix <= config.apiBaseUrl
      && !EndsWith(prefix, '/')
      && AllChar(config.apiBaseUrl[|prefix|..], '/')
    ensures r == GetFullUrl(config, endpoint)
  {
    var prefix := r[..|r| - |endpoint|];
    TrimEndUnique(config.apiBaseUrl, '/', prefix);
    assert r == prefix + endpoint;
  }

  /** Appending any number of `'/'` to the base URL does not change any full URL. */
  lemma GetFullUrlIgnoresTrailingSlashes(config: Config, n: nat, endpoint: string)
    ensures GetFullUrl(config.(apiBaseUrl := config.apiBaseUrl + Repeat('/', n)), endpoint)
         == GetFullUrl(config, endpoint)
  {
    TrimEndIgnoresTrailing(config.apiBaseUrl, '/', n);
  }

  /** A base URL without a trailing `'/'` is joined by plain concatenation. */
  lemma GetFullUrlPlainConcatenation(config: Config, endpoint: string)
    requires !EndsWith(config.apiBaseUrl, '/')
    ensures GetFullUrl(config, endpoint) == config.apiBaseUrl + endpoint
  {
  }

  /**
   * No separator is inserted: the endpoint follows the trimmed base URL
   * directly, so the character before it is never a `'/'` that the base URL
   * ended in, and an endpoint without a leading `'/'` is glued onto the host.
   */
  lemma GetFullUrlInsertsNoSeparator(config: Config, endpoint: string)
    requires TrimEnd(config.apiBaseUrl, '/') != []
    ensures GetFullUrl(config, endpoint) == GetFullUrl(config, "") + endpoint
    ensures var r := GetFullUrl(config, endpoint); |r| > |endpoint| && r[|r| - |endpoint| - 1] != '/'
  {
  }

  /** With the default settings the collection lives at http://localhost:1337/api/ar-experiences. */
  lemma DefaultCollectionUrl()
    ensures GetFullUrl(Default, Default.arExperiencesEndpoint) == "http://localhost:1337/api/ar-experiences"
    ensures Default.apiToken == ""
  {
    assert !EndsWith(Default.apiBaseUrl, '/');
    GetFullUrlPlainConcatenation(Default, Default.arExperiencesEndpoint);
  }
}
