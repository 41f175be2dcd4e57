/** The PKCE authorization flow of the widget: the S256 code challenge (section 4.2 of RFC 7636),
    the parameters of the authorization and token requests, and the decision taken on each
    answer of the relay that holds the authorization code. */
module AuthFlow {
  import opened Wrappers
  import Text
  import Base64Url

  /** A SHA-256 digest: 32 bytes. */
  type Digest = d: seq<Base64Url.Byte> | |d| == 32 witness seq(32, i => 0)

  /** `generate_code_challenge` once the digest is computed:
      BASE64URL-ENCODE(SHA256(verifier)) without `=` padding. */
  function CodeChallenge(digest: Digest): (challenge: string)
    ensures |challenge| == 43
    ensures forall i :: 0 <= i < |challenge| ==> Base64Url.IsUrlSafeChar(challenge[i])
    ensures '=' !in challenge
    ensures Base64Url.Decode(challenge) == Some(digest)
  {
    Base64Url.EncodeUnpaddedRoundTrip(digest);
    Base64Url.EncodeUnpadded(digest)
  }

  /** `generate_code_challenge(verifier)`; `sha256` stands for hashing the UTF-8 bytes of the
      verifier, which this model leaves uninterpreted. */
  function GenerateCodeChallenge(verifier: string, sha256: string -> Digest): (challenge: string)
    ensures |challenge| == 43 && '=' !in challenge
    ensures Base64Url.Decode(challenge) == Some(sha256(verifier))
  {
    CodeChallenge(sha256(verifier))
  }

  /** Different digests never share a challenge: the challenge determines the digest. */
  lemma CodeChallengeInjective(d1: Digest, d2: Digest)
    requires CodeChallenge(d1) == CodeChallenge(d2)
    ensures d1 == d2
  {
    assert Some(d1) == Base64Url.Decode(CodeChallenge(d1)) == Some(d2);
  }

  /** The fields of `spotify_credentials.json` that the flow uses. */
  datatype AuthCredentials = AuthCredentials(clientId: string, redirectUri: string)

  type Params = seq<(string, string)>

  /** The value of the first parameter named `key`. */
  function Lookup(ps: Params, key: string): (r: Option<string>)
    ensures r.Some? <==> exists i :: 0 <= i < |ps| && ps[i].0 == key
  {
    if |ps| == 0 then None
    else if ps[0].0 == key then Some(ps[0].1)
    else Lookup(ps[1..], key)
  }

  /** A parameter whose name no earlier parameter carries is what a lookup of that name finds. */
  lemma {:induction false} LookupFirst(ps: Params, i: nat)
    requires i < |ps|
    requires forall j :: 0 <= j < i ==> ps[j].0 != ps[i].0
    ensures Lookup(ps, ps[i].0) == Some(ps[i].1)
  {
    if i > 0 {
      LookupFirst(ps[1..], i - 1);
    }
  }

  function Keys(ps: Params): seq<string> {
    seq(|ps|, i requires 0 <= i < |ps| => ps[i].0)
  }

  const AuthorizeEndpoint: string := "https://accounts.spotify.com/authorize"
  const TokenEndpoint: string := "https://accounts.spotify.com/api/token"
  const Scope: string := "user-read-playback-state user-modify-playback-state"

  /** The query parameters of the authorization URL built by `start_spotify_auth`. */
  function AuthorizationParams(creds: AuthCredentials, challenge: string, codeId: string): (ps: Params)
    ensures Keys(ps) == ["client_id", "response_type", "redirect_uri", "scope",
                         "code_challenge_method", "code_challenge", "state"]
    ensures Lookup(ps, "response_type") == Some("code")
    ensures Lookup(ps, "scope") == Some(Scope)
    ensures Lookup(ps, "code_challenge_method") == Some("S256")
    ensures Lookup(ps, "code_challenge") == Some(challenge)
    ensures Lookup(ps, "state") == Some(codeId)
    ensures Lookup(ps, "client_id") == Some(creds.clientId)
    ensures Lookup(ps, "redirect_uri") == Some(creds.redirectUri)
  {
    var ps := [("client_id", creds.clientId),
               ("response_type", "code"),
               ("redirect_uri", creds.redirectUri),
               ("scope", Scope),
               ("code_challenge_method", "S256"),
               ("code_challenge", challenge),
               ("state", codeId)];
    AuthorizationKeys(ps, creds.clientId, creds.redirectUri, challenge, codeId);
    LookupFirst(ps, 0); LookupFirst(ps, 1); LookupFirst(ps, 2); LookupFirst(ps, 3);
    AuthorizationLaterLookups(ps, creds.clientId, creds.redirectUri, challenge, codeId);
    ps
  }

  // The two halves of the proof of the contract above, kept apart so that each stays small.

  lemma AuthorizationKeys(ps: Params, clientId: string, redirectUri: string, challenge: string, codeId: string)
    requires ps == [("client_id", clientId), ("response_type", "code"), ("redirect_uri", redirectUri),
                    ("scope", Scope), ("code_challenge_method", "S256"), ("code_challenge", challenge),
                    ("state", codeId)]
    ensures Keys(ps) == ["client_id", "response_type", "redirect_uri", "scope",
                         "code_challenge_method", "code_challenge", "state"]
  {
  }

  lemma AuthorizationLaterLookups(ps: Params, clientId: string, redirectUri: string, challenge: string, codeId: string)
    requires ps == [("client_id", clientId), ("response_type", "code"), ("redirect_uri", redirectUri),
                    ("scope", Scope), ("code_challenge_method", "S256"), ("code_challenge", challenge),
                    ("state", codeId)]
    ensures Lookup(ps, "code_challenge_method") == Some("S256")
    ensures Lookup(ps, "code_challenge") == Some(challenge)
    ensures Lookup(ps, "state") == Some(codeId)
  {
    LookupFirst(ps, 4); LookupFirst(ps, 5); LookupFirst(ps, 6);
  }

  /** The form body that `exchange_code_for_token` posts to the token endpoint. */
  function TokenRequestParams(creds: AuthCredentials, code: string, verifier: string): (ps: Params)
    ensures Keys(ps) == ["client_id", "grant_type", "code", "redirect_uri", "code_verifier"]
    ensures Lookup(ps, "grant_type") == Some("authorization_code")
    ensures Lookup(ps, "code") == Some(code)
    ensures Lookup(ps, "code_verifier") == Some(verifier)
    ensures Lookup(ps, "client_id") == Some(creds.clientId)
    ensures Lookup(ps, "redirect_uri") == Some(creds.redirectUri)
  {
    var ps := [("client_id", creds.clientId),
               ("grant_type", "authorization_code"),
               ("code", code),
               ("redirect_uri", creds.redirectUri),
               ("code_verifier", verifier)];
    LookupFirst(ps, 0); LookupFirst(ps, 1); LookupFirst(ps, 2);
    LookupFirst(ps, 3); LookupFirst(ps, 4);
    ps
  }

  /** The two requests of one flow fit together as section 4.6 of RFC 7636 checks them: the
      challenge sent for authorization is the transform of the verifier sent with the code,
      and both name the same client and redirect URI. */
  lemma RequestsAreBound(creds: AuthCredentials, verifier: string, sha256: string -> Digest,
                         codeId: string, code: string)
    ensures
      var auth := AuthorizationParams(creds, GenerateCodeChallenge(verifier, sha256), codeId);
      var token := TokenRequestParams(creds, code, verifier);
      && Lookup(token, "code_verifier").Some?
      && Lookup(auth, "code_challenge") == Some(GenerateCodeChallenge(Lookup(token, "code_verifier").value, sha256))
      && Lookup(auth, "client_id") == Lookup(token, "client_id")
      && Lookup(auth, "redirect_uri") == Lookup(token, "redirect_uri")
  {
  }

  /** The relay URL polled for the code: the redirect URI without trailing slashes, then
      `/check-code?id=` and the id of this authorization attempt. */
  function PollUrl(redirectUri: string, codeId: string): (url: string)
    ensures exists base ::
      && |base| <= |redirectUri| && base == redirectUri[..|base|]
      && (|base| == 0 || base[|base| - 1] != '/')
      && (forall i :: |base| <= i < |redirectUri| ==> redirectUri[i] == '/')
      && url == base + "/check-code?id=" + codeId
  {
    var base := Text.RStrip(redirectUri, '/');
    base + "/check-code?id=" + codeId
  }

  /** What the relay answered: an exception (network error, body that is not JSON), or an
      HTTP status with the `code` field of the JSON body when present. */
  datatype RelayResponse = RelayFault | RelayReply(status: int, code: Option<string>)

  /** What `poll_for_token` does next. */
  datatype PollStep = StopPolling | ExchangeCode(code: string) | RetryAfter(delayMs: nat)

  const PollRetryDelayMs: nat := 2000

  /** The branch structure of `poll_for_token`: no attempt id stops the loop, a 200 answer with
      a code leads to the exchange, everything else (404, other statuses, a 200 without code,
      an exception) polls again after two seconds. */
  function PollDecision(codeId: Option<string>, relay: RelayResponse): (step: PollStep)
    ensures step.StopPolling? <==> codeId.None? || codeId == Some("")
    ensures step.ExchangeCode? <==>
      && codeId.Some? && codeId.value != ""
      && relay.RelayReply? && relay.status == 200 && relay.code.Some?
    ensures step.ExchangeCode? ==> relay.code == Some(step.code)
    ensures step.RetryAfter? ==> step.delayMs == PollRetryDelayMs
  {
    if codeId.None? || codeId.value == "" then StopPolling
    else match relay
      case RelayFault => RetryAfter(PollRetryDelayMs)
      case RelayReply(status, code) =>
        if status == 200 && code.Some? then ExchangeCode(code.value)
        else RetryAfter(PollRetryDelayMs)
  }
}
