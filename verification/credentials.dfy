/** The credential read from the environment and the `Authorization` header
    built from it: the credential is used as is when it already names the
    bearer scheme, in any letter case, and is prefixed with the scheme
    otherwise. A missing or empty credential is fatal. */
module Credentials {
  import opened Base

  /** The scheme as the script looks for it, after lower-casing the credential. */
  const SchemeLower := "bearer "

  /** The scheme as the script prepends it. */
  const Scheme := "Bearer "

  /** Lower-casing of one character. Only ASCII letters are folded; no other
      character lower-cases onto a letter of `SchemeLower`, so the scheme test
      below decides exactly as a full Unicode fold would. */
  function LowerChar(c: char): char {
    if 'A' <= c <= 'Z' then (c as int - 'A' as int + 'a' as int) as char else c
  }

  /** Python's `str.lower()`: the string with every character lower-cased,
      position by position. */
  function Lower(s: string): (r: string)
    ensures |r| == |s|
    ensures forall i :: 0 <= i < |s| ==> r[i] == LowerChar(s[i])
  {
    if s == [] then [] else [LowerChar(s[0])] + Lower(s[1..])
  }

  /** The credential already starts with the bearer scheme, in any letter case. */
  predicate HasScheme(token: string) {
    StartsWith(Lower(token), SchemeLower)
  }

  /** The scheme test looks only at the first seven characters, one by one. */
  lemma HasSchemeCharwise(token: string)
    ensures HasScheme(token) <==>
      |token| >= |SchemeLower| &&
      forall i :: 0 <= i < |SchemeLower| ==> LowerChar(token[i]) == SchemeLower[i]
  {
    var low := Lower(token);
    if |token| >= |SchemeLower| {
      if forall i :: 0 <= i < |SchemeLower| ==> LowerChar(token[i]) == SchemeLower[i] {
        assert low[..|SchemeLower|] == SchemeLower;
      }
      if HasScheme(token) {
        forall i | 0 <= i < |SchemeLower|
          ensures LowerChar(token[i]) == SchemeLower[i]
        {
          assert low[..|SchemeLower|][i] == low[i];
        }
      }
    }
  }

  /** The prepended scheme is itself recognised as the scheme. */
  lemma SchemeIsRecognised(token: string)
    ensures HasScheme(Scheme + token)
  {
    var h := Scheme + token;
    forall i | 0 <= i < |SchemeLower|
      ensures LowerChar(h[i]) == SchemeLower[i]
    {
      assert h[i] == Scheme[i];
    }
    HasSchemeCharwise(h);
  }

  /** The header value for a non-empty credential. */
  function Normalise(token: string): (header: string)
    ensures HasScheme(header)
    ensures header == token <==> HasScheme(token)
    ensures !HasScheme(token) ==> header == Scheme + token
    ensures |token| <= |header| && header[|header| - |token|..] == token
  {
    SchemeIsRecognised(token);
    if HasScheme(token) then token else Scheme + token
  }

  /** Normalising a header that was already normalised changes nothing. */
  lemma NormaliseIdempotent(token: string)
    ensures Normalise(Normalise(token)) == Normalise(token)
  {
  }

  /** Two credentials that agree on their first seven characters up to letter
      case are both treated as carrying the scheme, or both as lacking it. */
  lemma SchemeIgnoresCase(t: string, u: string)
    requires |t| >= |SchemeLower| && |u| >= |SchemeLower|
    requires forall i :: 0 <= i < |SchemeLower| ==> LowerChar(t[i]) == LowerChar(u[i])
    ensures HasScheme(t) <==> HasScheme(u)
  {
    HasSchemeCharwise(t);
    HasSchemeCharwise(u);
  }

  /** The `Authorization` header, or the fatal error of a missing credential
      (an unset variable is `None`, an empty one is `Some("")`). */
  function AuthHeader(credential: Option<string>): (r: Result<string>)
    ensures r.Err? <==> credential == None || credential == Some("")
    ensures r.Err? ==> r.error == MissingCredential
    ensures r.Ok? ==> r.value == Normalise(credential.value)
  {
    match credential
    case None => Err(MissingCredential)
    case Some(token) => if token == "" then Err(MissingCredential) else Ok(Normalise(token))
  }

  /** A bare token gains the scheme. */
  lemma AuthHeaderAddsScheme()
    ensures AuthHeader(Some("abc123")) == Ok("Bearer abc123")
  {
    assert !HasScheme("abc123");
    assert Scheme + "abc123" == "Bearer abc123";
  }

  /** A token that already carries the scheme is kept. */
  lemma AuthHeaderKeepsScheme()
    ensures AuthHeader(Some("Bearer abc123")) == Ok("Bearer abc123")
  {
    assert "Bearer abc123" == Scheme + "abc123";
    SchemeIsRecognised("abc123");
  }

  /** Lower-casing works piece by piece. */
  lemma {:induction false} LowerAppend(a: string, b: string)
    ensures Lower(a + b) == Lower(a) + Lower(b)
  {
    if a != [] {
      assert (a + b)[1..] == a[1..] + b;
      LowerAppend(a[1..], b);
    }
  }

  /** The scheme is recognised in upper case too. */
  lemma AuthHeaderKeepsUpperScheme(rest: string)
    ensures AuthHeader(Some("BEARER " + rest)) == Ok("BEARER " + rest)
  {
    LowerAppend("BEARER ", rest);
    assert Lower("BEARER ") == SchemeLower;
    assert Lower("BEARER " + rest)[..|SchemeLower|] == SchemeLower;
  }

  /** The scheme needs its trailing space: without it the scheme is prepended. */
  lemma AuthHeaderNeedsSpace(rest: string)
    requires rest != [] && rest[0] != ' '
    ensures AuthHeader(Some("Bearer" + rest)) == Ok("Bearer Bearer" + rest)
  {
    var t := "Bearer" + rest;
    assert t[6] == rest[0];
    HasSchemeCharwise(t);
    assert Scheme + t == "Bearer Bearer" + rest;
  }
}
