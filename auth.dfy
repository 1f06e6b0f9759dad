/**
 * Reading the API key from an `Authorization` header (`parse_api_key`), and the
 * e-mail check that `register` applies before issuing a key.
 */
module Auth {

  import opened Wrappers
  import opened Text

  /** The key used when the header carries none. */
  const DemoKey := "df_demo_key_123"

  /** The position of the first space. */
  function FirstSpace(s: string): (i: nat)
    requires ' ' in s
    ensures i < |s| && s[i] == ' '
    ensures forall k | 0 <= k < i :: s[k] != ' '
  {
    if s[0] == ' ' then 0
    else
      assert ' ' in s[1..] by { var k :| 0 <= k < |s| && s[k] == ' '; assert s[1..][k - 1] == ' '; }
      1 + FirstSpace(s[1..])
  }

  /** `s.split(" ", 1)[1]`: everything after the first space. */
  function AfterFirstSpace(s: string): (rest: string)
    requires ' ' in s
    ensures var i := |s| - |rest| - 1;
      0 <= i && s[i] == ' ' && (forall k | 0 <= k < i :: s[k] != ' ') && rest == s[i + 1..]
  {
    s[FirstSpace(s) + 1..]
  }

  /** The header, stripped, starts with `Bearer ` or `bearer `. */
  predicate HasBearerPrefix(auth: string): (b: bool)
    ensures b ==> |auth| >= 7 && auth[6] == ' ' && forall k | 0 <= k < 6 :: auth[k] != ' '
  {
    "Bearer " <= auth || "bearer " <= auth
  }

  /** The key a non-empty header names, before the demo-key fallback. */
  function HeaderKey(authorization: string): (key: string)
    ensures key == [] || (!IsSpace(key[0]) && !IsSpace(key[|key| - 1]))
  {
    var auth := Strip(authorization);
    if HasBearerPrefix(auth) then
      assert auth[6] == ' ';
      Strip(AfterFirstSpace(auth))
    else
      auth
  }

  /** `parse_api_key(authorization)`. */
  function ParseApiKey(authorization: Option<string>): (key: string)
    ensures key != []
    ensures !IsSpace(key[0]) && !IsSpace(key[|key| - 1])
  {
    // `if authorization:` skips None and ""; `if not api_key:` treats None and "" alike,
    // so an absent key is the empty string here
    var apiKey :=
      if authorization.Some? && authorization.value != [] then HeaderKey(authorization.value) else [];
    if apiKey == [] then DemoKey else apiKey
  }

  /** An absent, empty or all-whitespace header falls back to the demo key. */
  lemma ApiKeyFallback(authorization: Option<string>)
    requires authorization.None? || All(authorization.value, 0, |authorization.value|, IsSpace)
    ensures ParseApiKey(authorization) == DemoKey
  {
    if authorization.Some? {
      StripIsEmpty(authorization.value);
    }
  }

  /** After a bearer prefix, `split(" ", 1)[1]` is the rest of the header. */
  lemma BearerSplit(auth: string)
    requires HasBearerPrefix(auth)
    ensures ' ' in auth && AfterFirstSpace(auth) == auth[7..]
  {
    var word := if "Bearer " <= auth then "Bearer " else "bearer ";
    assert auth[..7] == word;
    forall k | 0 <= k < 6 ensures auth[k] != ' ' {
      assert auth[k] == word[k];
    }
    assert auth[6] == ' ';
  }

  /** What follows a bearer prefix in a stripped header is not blank. */
  lemma BearerRest(auth: string)
    requires HasBearerPrefix(auth)
    requires !IsSpace(auth[|auth| - 1])
    ensures |auth| > 7 && Strip(auth[7..]) != []
  {
    assert auth[6] == ' ' by { assert auth[..7][6] == ' '; }
    var tail := auth[7..];
    assert tail[|tail| - 1] == auth[|auth| - 1];
    StripIsEmpty(tail);
  }

  /** A non-blank header names its stripped text, less any bearer prefix and the blanks after it. */
  lemma HeaderKeyStripsPrefix(header: string)
    requires Strip(header) != []
    ensures var auth := Strip(header);
      HeaderKey(header) == (if HasBearerPrefix(auth) then Strip(auth[7..]) else auth)
      && HeaderKey(header) != []
  {
    var auth := Strip(header);
    if HasBearerPrefix(auth) {
      BearerSplit(auth);
      BearerRest(auth);
    }
  }

  /**
   * A header with something besides whitespace yields that something, with a leading
   * `Bearer ` or `bearer ` and the whitespace after it removed; the demo key is then
   * never substituted.
   */
  lemma ApiKeyPrefixStripping(header: string)
    requires !All(header, 0, |header|, IsSpace)
    ensures var auth := Strip(header);
      auth != []
      && ParseApiKey(Some(header)) == (if HasBearerPrefix(auth) then Strip(auth[7..]) else auth)
      && (HasBearerPrefix(auth) ==> Strip(auth[7..]) != [])
  {
    StripIsEmpty(header);
    HeaderKeyStripsPrefix(header);
  }

  /**
   * Round trip: a key without surrounding whitespace, sent as `Bearer <key>` or
   * `bearer <key>`, is read back unchanged.
   */
  lemma BearerRoundTrip(scheme: string, key: string)
    requires scheme == "Bearer " || scheme == "bearer "
    requires key != [] && !IsSpace(key[0]) && !IsSpace(key[|key| - 1])
    ensures ParseApiKey(Some(scheme + key)) == key
  {
    var header := scheme + key;
    assert header[0] == scheme[0];
    assert header[|header| - 1] == key[|key| - 1];
    StripKeepsTrimmed(header);
    assert HasBearerPrefix(header) by { assert header[..7] == scheme; }
    assert header[7..] == key;
    StripKeepsTrimmed(key);
    assert !All(header, 0, |header|, IsSpace) by { assert !IsSpace(header[0]); }
    ApiKeyPrefixStripping(header);
  }

  /** Round trip: a bare key without surrounding whitespace or a bearer prefix is read back unchanged. */
  lemma BareKeyRoundTrip(key: string)
    requires key != [] && !IsSpace(key[0]) && !IsSpace(key[|key| - 1])
    requires !HasBearerPrefix(key)
    ensures ParseApiKey(Some(key)) == key
  {
    StripKeepsTrimmed(key);
    assert !All(key, 0, |key|, IsSpace) by { assert !IsSpace(key[0]); }
    ApiKeyPrefixStripping(key);
  }

  /** The header the `/v1/check` test sends, `Bearer df_demo_key_123`, selects the demo key. */
  lemma BearerDemoKeyHeader()
    ensures ParseApiKey(Some("Bearer " + DemoKey)) == DemoKey
  {
    BearerRoundTrip("Bearer ", DemoKey);
  }

  /** The rejection `register` raises. */
  datatype Rejection = Rejection(status: nat, message: string)

  /** The e-mail check of `register`: empty, or without `@`, is rejected with status 400. */
  function CheckEmail(email: string): (rejection: Option<Rejection>)
    ensures rejection.None? <==> exists k | 0 <= k < |email| :: email[k] == '@'
    ensures rejection.Some? ==> rejection.value == Rejection(400, "Valid email required")
  {
    if email == [] || '@' !in email then Some(Rejection(400, "Valid email required")) else None
  }
}
