/** The authentication-token holder of the trusted-platform HTTP client
    (src/http/TrustedPlatformHandler.cpp). */
module TrustedPlatform {
  import opened Optional

  /** The characters std::isspace accepts in the "C" locale: space, tab,
      line feed, vertical tab, form feed and carriage return. */
  predicate IsSpace(c: char)
  {
    c == ' ' || 9 <= c as int <= 13
  }

  /** utils::is_empty_or_whitespace: no character of `s` is visible. */
  predicate IsEmptyOrWhitespace(s: string)
  {
    forall i :: 0 <= i < |s| ==> IsSpace(s[i])
  }

  /** What is_authenticated answers for a stored token. */
  predicate Authenticated(token: Option<string>)
  {
    token.Some? && !IsEmptyOrWhitespace(token.value)
  }

  /** A token authenticates exactly when it holds a visible character; in
      particular an absent or empty token never does. */
  lemma AuthenticatedIffVisibleChar(token: Option<string>)
    ensures Authenticated(token) <==> token.Some? && exists i :: 0 <= i < |token.value| && !IsSpace(token.value[i])
    ensures token == None || token == Some("") ==> !Authenticated(token)
  {
  }

  /** Whitespace-only tokens do not authenticate; a token with one visible
      character among spaces does. */
  lemma {:induction false} AuthenticatedExamples()
    ensures !Authenticated(Some(" \t\r\n"))
    ensures Authenticated(Some(" x "))
  {
    assert !IsSpace(" x "[1]);
  }

  /** Appending whitespace to a token does not change whether it authenticates. */
  lemma {:induction false} TrailingWhitespaceIrrelevant(token: string, padding: string)
    requires IsEmptyOrWhitespace(padding)
    ensures Authenticated(Some(token + padding)) <==> Authenticated(Some(token))
  {
    var s := token + padding;
    if Authenticated(Some(token)) {
      var i :| 0 <= i < |token| && !IsSpace(token[i]);
      assert s[i] == token[i];
    }
    if Authenticated(Some(s)) {
      assert forall j :: |token| <= j < |s| ==> s[j] == padding[j - |token|];
      var i :| 0 <= i < |s| && !IsSpace(s[i]);
      assert s[i] == token[i];
    }
  }

  class TrustedPlatformHandler {
    /** The stored token; absent until the first set_auth_token. */
    var authToken: Option<string>

    constructor ()
      ensures authToken.None?
    {
      authToken := None;
    }

    /** is_authenticated(): a read of the stored token. */
    method IsAuthenticated() returns (b: bool)
      ensures b <==> authToken.Some? && exists i :: 0 <= i < |authToken.value| && !IsSpace(authToken.value[i])
    {
      AuthenticatedIffVisibleChar(authToken);
      b := authToken.Some? && !IsEmptyOrWhitespace(authToken.value);
    }

    /** set_auth_token(token): the stored token is replaced by `token`. */
    method SetAuthToken(token: string)
      modifies this
      ensures authToken == Some(token)
    {
      authToken := Some(token);
    }

    /** get_auth_token(): the stored token. */
    method GetAuthToken() returns (token: Option<string>)
      ensures token == authToken
    {
      token := authToken;
    }
  }

  /** set_auth_token followed by get_auth_token returns the token just set; a
      blank token leaves the handler unauthenticated, and a second set
      replaces the first. */
  method SetThenGet(h: TrustedPlatformHandler, first: string, second: string)
    returns (before: Option<string>, after: Option<string>, authenticated: bool)
    modifies h
    ensures before == Some(first)
    ensures after == Some(second) && h.authToken == Some(second)
    ensures IsEmptyOrWhitespace(second) ==> !authenticated
    ensures authenticated <==> Authenticated(Some(second))
  {
    h.SetAuthToken(first);
    before := h.GetAuthToken();
    h.SetAuthToken(second);
    after := h.GetAuthToken();
    authenticated := h.IsAuthenticated();
  }
}
