/** The profile update rule (backend/validations/userSchema.js). */
module UserSchema {

  import opened Base
  import Text

  const HTTP_SCHEME: string := "http://"
  const HTTPS_SCHEME: string := "https://"

  /** `[^ "]+`: at least one character, none a space or a double quote. */
  predicate UrlRest(r: string)
  {
    |r| >= 1 && forall i :: 0 <= i < |r| ==> r[i] != ' ' && r[i] != '"'
  }

  /** `/^(http|https):\/\/[^ "]+$/`. */
  predicate MatchesCallbackPattern(s: string)
  {
    || (Text.StartsWith(s, HTTP_SCHEME) && UrlRest(s[|HTTP_SCHEME|..]))
    || (Text.StartsWith(s, HTTPS_SCHEME) && UrlRest(s[|HTTPS_SCHEME|..]))
  }

  /** `!val || pattern.test(val)`: a missing or empty URL is accepted. */
  predicate CallbackUrlOk(url: Option<string>)
  {
    !Truthy(url) || MatchesCallbackPattern(url.value)
  }

  /** `updateProfileSchema`. */
  predicate UpdateProfileOk(name: Option<string>, callbackUrl: Option<string>)
  {
    (name.Some? ==> |name.value| >= 2) && CallbackUrlOk(callbackUrl)
  }

  /** An accepted non-empty URL starts with one of the two schemes, has
      something after it, and holds no space or double quote anywhere;
      conversely every such string is accepted. */
  lemma AcceptedUrlShape(s: string)
    requires s != ""
    ensures CallbackUrlOk(Some(s)) <==>
      && ((Text.StartsWith(s, HTTPS_SCHEME) && |s| > |HTTPS_SCHEME|) || (Text.StartsWith(s, HTTP_SCHEME) && |s| > |HTTP_SCHEME|))
      && ' ' !in s && '"' !in s
  {
    if Text.StartsWith(s, HTTPS_SCHEME) {
      assert s[..|HTTP_SCHEME|] != HTTP_SCHEME by {
        assert s[4] == 's';
      }
      assert s == HTTPS_SCHEME + s[|HTTPS_SCHEME|..];
    } else if Text.StartsWith(s, HTTP_SCHEME) {
      assert s == HTTP_SCHEME + s[|HTTP_SCHEME|..];
    }
  }

  /** The rejected and accepted examples: "https://" has nothing after the
      scheme, "ftp://x" has the wrong scheme, "https://a b" holds a space;
      "" and "https://example.com/hook" pass. */
  lemma CallbackUrlExamples()
    ensures !CallbackUrlOk(Some("https://"))
    ensures !CallbackUrlOk(Some("ftp://x"))
    ensures !CallbackUrlOk(Some("https://a b"))
    ensures CallbackUrlOk(Some("")) && CallbackUrlOk(None)
    ensures CallbackUrlOk(Some("https://example.com/hook"))
  {
    BareSchemeRejected();
    WrongSchemeRejected();
    SpaceRejected();
    assert "https://example.com/hook"[..8] == HTTPS_SCHEME;
  }

  lemma BareSchemeRejected()
    ensures !CallbackUrlOk(Some("https://"))
  {
    assert "https://"[..7] != HTTP_SCHEME by { assert "https://"[4] == 's'; }
  }

  lemma WrongSchemeRejected()
    ensures !CallbackUrlOk(Some("ftp://x"))
  {
    assert "ftp://x"[..7] != HTTP_SCHEME by { assert "ftp://x"[0] == 'f'; }
  }

  lemma SpaceRejected()
    ensures !CallbackUrlOk(Some("https://a b"))
  {
    assert "https://a b"[..7] != HTTP_SCHEME by { assert "https://a b"[4] == 's'; }
    assert "https://a b"[8..][1] == ' ';
  }
}
