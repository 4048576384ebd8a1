/** Authentication of websocket connections (core/middleware.py): the
    token is read from the query string, and the user it names becomes
    `scope['user']`. JWT decoding is a foreign call, modelled as the claims
    table of the tokens that decode: a token outside it makes
    `AccessToken(...)` raise. */
module Middleware {
  import opened Base
  import opened Models

  /** The `ValueError` of `dict(...)` when a piece splits into other than
      two parts. */
  datatype ValueError = ValueError(segment: string)

  /** `dict(x.split('=') for x in segments if '=' in x).get('token')`:
      pieces are taken left to right, a piece without '=' is skipped, a
      piece with several raises, and a later `token` entry overwrites an
      earlier one. */
  function TokenParam(segments: seq<string>): (r: Result<Option<string>, ValueError>)
    decreases |segments|
  {
    if segments == [] then Ok(None)
    else
      var n := |segments|;
      var before := TokenParam(segments[..n - 1]);
      var last := segments[n - 1];
      if before.Err? || '=' !in last then before
      else
        var kv := Split(last, '=');
        if |kv| != 2 then Err(ValueError(last))
        else if kv[0] == "token" then Ok(Some(kv[1]))
        else before
  }

  /** `_get_token_from_scope` on the decoded query string. */
  function TokenFromQuery(query: string): Result<Option<string>, ValueError>
  {
    TokenParam(Split(query, '&'))
  }

  lemma SplitNoSep(s: string, c: char)
    requires c !in s
    ensures Split(s, c) == [s]
  {
  }

  lemma SplitPair(k: string, v: string)
    requires '=' !in k && '=' !in v
    ensures Split(k + "=" + v, '=') == [k, v]
  {
    var s := k + "=" + v;
    var i := FirstIndex(s, '=');
    assert s[|k|] == '=';
    assert forall j :: 0 <= j < |k| ==> s[j] == k[j];
    assert i == |k|;
    assert s[..|k|] == k;
    assert s[|k| + 1..] == v;
    SplitNoSep(v, '=');
  }

  /** A piece without '=' never changes the outcome. */
  lemma PieceWithoutEqualsIgnored(segments: seq<string>, piece: string)
    requires '=' !in piece
    ensures TokenParam(segments + [piece]) == TokenParam(segments)
  {
    assert (segments + [piece])[..|segments|] == segments;
  }

  /** The last `token=` piece wins over everything before it. */
  lemma LastTokenWins(segments: seq<string>, v: string)
    requires TokenParam(segments).Ok? && '=' !in v
    ensures TokenParam(segments + ["token=" + v]) == Ok(Some(v))
  {
    var s := segments + ["token=" + v];
    assert s[..|segments|] == segments;
    assert "token=" + v == "token" + "=" + v;
    SplitPair("token", v);
  }

  /** Another well-formed key changes nothing. */
  lemma OtherKeysIgnored(segments: seq<string>, k: string, v: string)
    requires '=' !in k && '=' !in v && k != "token"
    ensures TokenParam(segments + [k + "=" + v]) == TokenParam(segments)
  {
    var s := segments + [k + "=" + v];
    assert s[..|segments|] == segments;
    SplitPair(k, v);
  }

  /** A piece with two or more '=' raises, wherever it stands. */
  lemma {:induction false} ManyEqualsRaises(segments: seq<string>, i: nat)
    requires i < |segments| && Count(segments[i], '=') >= 2
    ensures TokenParam(segments).Err?
    decreases |segments|
  {
    var n := |segments|;
    SplitCount(segments[i], '=');
    if i < n - 1 {
      assert segments[..n - 1][i] == segments[i];
      ManyEqualsRaises(segments[..n - 1], i);
    } else {
      if '=' !in segments[i] {
        CountWithout(segments[i], '=');
      }
    }
  }

  lemma {:induction false} CountWithout(s: string, c: char)
    requires c !in s
    ensures Count(s, c) == 0
    decreases |s|
  {
    if s != [] {
      assert s[0] in s;
      assert forall x :: x in s[1..] ==> x in s;
      CountWithout(s[1..], c);
    }
  }

  /** `_get_user_from_token`: the active user the token's `user_id` claim
      names, or None (AnonymousUser) for an empty token, a token that does
      not decode, or a user that is missing or inactive. */
  function UserFromToken(users: map<Id, User>, claims: map<string, int>, token: Option<string>): (r: Option<Id>)
    ensures r.Some? ==> r.value in users && users[r.value].isActive
    ensures r.Some? ==> token.Some? && token.value in claims && claims[token.value] == r.value
    ensures token.None? || token.value == "" || token.value !in claims ==> r.None?
  {
    if token.None? || token.value == "" then None
    else if token.value !in claims then None
    else
      var u := claims[token.value];
      if u >= 1 && u in users && users[u].isActive then Some(u) else None
  }

  /** A token that decodes to an active user authenticates exactly that
      user. */
  lemma ValidTokenAuthenticates(users: map<Id, User>, claims: map<string, int>, token: string, u: Id)
    requires token != "" && token in claims && claims[token] == u && u in users && users[u].isActive
    ensures UserFromToken(users, claims, Some(token)) == Some(u)
  {
  }

  /** The connection scope; `user` is unset until the middleware runs, and
      None inside it stands for AnonymousUser. */
  class Scope {
    const queryString: string
    var userSet: bool
    var user: Option<Id>

    constructor (queryString: string)
      ensures this.queryString == queryString && !userSet && user.None?
    {
      this.queryString := queryString;
      userSet := false;
      user := None;
    }
  }

  /** `__call__`: the inner application is reached (`called`) exactly when
      the query string parses, and then `scope['user']` has been set; a
      ValueError propagates and leaves the scope as it was. */
  method Call(scope: Scope, users: map<Id, User>, claims: map<string, int>) returns (called: bool)
    modifies scope
    ensures called <==> TokenFromQuery(scope.queryString).Ok?
    ensures called ==> scope.userSet && scope.user == UserFromToken(users, claims, TokenFromQuery(scope.queryString).value)
    ensures !called ==> scope.userSet == old(scope.userSet) && scope.user == old(scope.user)
  {
    var token := TokenFromQuery(scope.queryString);
    if token.Err? {
      return false;
    }
    scope.user := UserFromToken(users, claims, token.value);
    scope.userSet := true;
    called := true;
  }
}
