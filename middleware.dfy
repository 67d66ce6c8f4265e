/** `authMiddleware`: take the token after the first space of the
    `Authorization` header, verify it, and either answer 401 or attach the
    decoded claims to the request and pass it on. */
module Middleware {
  import opened Wrappers
  import opened Foreign
  import opened Http

  /** `s.split(sep)` for a one-character separator. */
  function Split(s: string, sep: char): (parts: seq<string>)
    ensures |parts| >= 1
    decreases |s|
  {
    if s == [] then [""]
    else
      var rest := Split(s[1..], sep);
      if s[0] == sep then [""] + rest else [[s[0]] + rest[0]] + rest[1..]
  }

  /** `parts.join(sep)`. */
  function Join(parts: seq<string>, sep: char): string
    requires |parts| >= 1
  {
    if |parts| == 1 then parts[0] else parts[0] + [sep] + Join(parts[1..], sep)
  }

  /** Splitting loses nothing and leaves no separator inside a part. */
  lemma {:induction false} SplitJoin(s: string, sep: char)
    ensures Join(Split(s, sep), sep) == s
    ensures forall i :: 0 <= i < |Split(s, sep)| ==> sep !in Split(s, sep)[i]
    decreases |s|
  {
    if s != [] {
      var rest := Split(s[1..], sep);
      SplitJoin(s[1..], sep);
      if s[0] != sep {
        var parts := Split(s, sep);
        assert parts[0] == [s[0]] + rest[0] && parts[1..] == rest[1..];
        if |rest| > 1 {
          assert Join(rest, sep) == rest[0] + [sep] + Join(rest[1..], sep);
        }
        assert s == [s[0]] + s[1..];
      }
    }
  }

  /** A string without the separator is a single part. */
  lemma {:induction false} SplitWithoutSeparator(w: string, sep: char)
    requires sep !in w
    ensures Split(w, sep) == [w]
    decreases |w|
  {
    if w != [] {
      SplitWithoutSeparator(w[1..], sep);
      assert [w[0]] + w[1..] == w;
    }
  }

  /** The first part is everything up to the first separator. */
  lemma {:induction false} SplitAtFirstSeparator(w: string, sep: char, rest: string)
    requires sep !in w
    ensures Split(w + [sep] + rest, sep) == [w] + Split(rest, sep)
    decreases |w|
  {
    if w == [] {
      assert w + [sep] + rest == [sep] + rest;
      assert ([sep] + rest)[1..] == rest;
    } else {
      SplitAtFirstSeparator(w[1..], sep, rest);
      assert (w + [sep] + rest)[1..] == w[1..] + [sep] + rest;
      assert [w[0]] + w[1..] == w;
    }
  }

  /** A string splits into more than one part exactly when it holds the separator. */
  lemma SplitCount(s: string, sep: char)
    ensures |Split(s, sep)| > 1 <==> sep in s
  {
    SplitJoin(s, sep);
    if sep !in s {
      SplitWithoutSeparator(s, sep);
    }
  }

  /** `(request.header('Authorization') || '').split(' ')[1]`: there is a
      second word exactly when the header holds a space, and it holds none. */
  function TokenFromHeader(header: Option<string>): (token: Option<string>)
    ensures token.Some? <==> Truthy(header) && ' ' in header.value
    ensures token.Some? ==> ' ' !in token.value
  {
    var s := if Truthy(header) then header.value else "";
    var parts := Split(s, ' ');
    SplitCount(s, ' ');
    SplitJoin(s, ' ');
    if |parts| > 1 then Some(parts[1]) else None
  }

  /** Whatever the first word is (it is never compared with `Bearer`), the
      token is the second word. */
  lemma TokenIsSecondWord(scheme: string, token: string, more: string)
    requires ' ' !in scheme && ' ' !in token
    ensures TokenFromHeader(Some(scheme + " " + token)) == Some(token)
    ensures TokenFromHeader(Some(scheme + " " + token + " " + more)) == Some(token)
  {
    SplitAtFirstSeparator(scheme, ' ', token);
    SplitWithoutSeparator(token, ' ');
    SplitAtFirstSeparator(scheme, ' ', token + " " + more);
    SplitAtFirstSeparator(token, ' ', more);
    assert scheme + " " + token + " " + more == scheme + [' '] + (token + " " + more);
  }

  /** No header, an empty one, a single word, or two spaces after the first
      word all leave no usable token. */
  lemma MissingTokens(word: string, rest: string)
    requires ' ' !in word
    ensures !Truthy(TokenFromHeader(None))
    ensures !Truthy(TokenFromHeader(Some("")))
    ensures !Truthy(TokenFromHeader(Some(word)))
    ensures !Truthy(TokenFromHeader(Some(word + "  " + rest)))
  {
    SplitWithoutSeparator(word, ' ');
    assert word + "  " + rest == word + [' '] + (" " + rest);
    SplitAtFirstSeparator(word, ' ', " " + rest);
    SplitAtFirstSeparator("", ' ', rest);
    assert "" + [' '] + rest == " " + rest;
  }

  /** What the gate decides: answer with a 401, or admit with the decoded claims. */
  datatype Decision = Deny(response: Response) | Admit(claims: Claims)

  /** The decision of `authMiddleware` for a header at second `now`. */
  function Authenticate(header: Option<string>, signer: TokenSigner, now: nat): (d: Decision)
    ensures !Truthy(TokenFromHeader(header)) ==> d == Deny(Fail(401, "Missing or invalid token"))
    ensures Truthy(TokenFromHeader(header)) && signer.verify(TokenFromHeader(header).value, now).None? ==>
              d == Deny(Fail(401, "Invalid or expired token"))
    ensures d.Admit? <==> Truthy(TokenFromHeader(header)) && signer.verify(TokenFromHeader(header).value, now).Some?
    ensures d.Admit? ==> Some(d.claims) == signer.verify(TokenFromHeader(header).value, now)
    ensures d.Deny? ==> d.response.status == 401
  {
    var token := TokenFromHeader(header);
    if !Truthy(token) then Deny(Fail(401, "Missing or invalid token"))
    else match signer.verify(token.value, now)
      case None => Deny(Fail(401, "Invalid or expired token"))
      case Some(decoded) => Admit(decoded)
  }

  /** A token signed less than an hour ago, sent as `Bearer <token>` (or after
      any other first word), admits its claims. */
  lemma SignedTokenAdmits(signer: TokenSigner, claims: Claims, iat: nat, scheme: string, now: nat)
    requires signer.Sound()
    requires ' ' !in scheme && now < iat + AccessTokenLifetime
    ensures Authenticate(Some(scheme + " " + signer.sign(claims, iat, AccessTokenLifetime)), signer, now) == Admit(claims)
  {
    TokenIsSecondWord(scheme, signer.sign(claims, iat, AccessTokenLifetime), "");
  }

  /** The request as the gate sees it: its `Authorization` header, the
      `request.user` slot, and how many times `next()` was called. */
  class Request {
    const authorization: Option<string>
    var user: Option<Claims>
    var nextCalls: nat

    constructor (authorization: Option<string>)
      ensures this.authorization == authorization && user == None && nextCalls == 0
    {
      this.authorization := authorization;
      user := None;
      nextCalls := 0;
    }
  }

  /** `authMiddleware(request, response, next)`: returns the response it sends,
      or `None` when it calls `next()` instead; exactly one of the two happens. */
  method AuthMiddleware(request: Request, signer: TokenSigner, now: nat) returns (sent: Option<Response>)
    modifies request`user, request`nextCalls
    ensures match Authenticate(request.authorization, signer, now)
            case Deny(r) =>
              sent == Some(r) && request.user == old(request.user) && request.nextCalls == old(request.nextCalls)
            case Admit(claims) =>
              sent == None && request.user == Some(claims) && request.nextCalls == old(request.nextCalls) + 1
  {
    var token := TokenFromHeader(request.authorization);
    if !Truthy(token) {
      return Some(Fail(401, "Missing or invalid token"));
    }
    var decoded := signer.verify(token.value, now);
    if decoded.None? {
      return Some(Fail(401, "Invalid or expired token"));
    }
    request.user := decoded;
    request.nextCalls := request.nextCalls + 1;
    sent := None;
  }
}
