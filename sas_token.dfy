/**
 * The shared access signature that both connection-string converters build
 * (scripts/iot.js `generateSasToken`, generator.py `createSasToken`): the
 * record it carries, its textual form and the reading of that text back.
 */
module SasToken {
  import opened Wrappers
  import opened Text

  /**
   * Library calls the model does not compute: `encodeURIComponent`, and the
   * base64 text of HMAC-SHA256 keyed with the base64-decoded signing key
   * over the UTF-8 bytes of a message.
   */
  datatype Primitives = Primitives(
    encodeUriComponent: string -> string,
    hmacSha256Base64: (string, string) -> string)

  /** `encodeURIComponent` percent-escapes '&', so no encoded text contains one. */
  ghost predicate EscapesAmpersand(prims: Primitives)
  {
    forall s :: '&' !in prims.encodeUriComponent(s)
  }

  /** sr: the URI-encoded resource, sig: the URI-encoded signature, se: expiry in epoch seconds, skn: the policy name. */
  datatype Token = Token(resource: string, signature: string, expiry: nat, policy: string)

  const Scheme: string := "SharedAccessSignature "
  const Labels: seq<string> := ["sr=", "sig=", "se=", "skn="]

  /** The text the HMAC is computed over: the encoded resource, a newline, the expiry. */
  function StringToSign(resource: string, expiry: nat): string
  {
    resource + "\n" + NatToString(expiry)
  }

  /** The signature a key gives for a resource and expiry, base64 then URI-encoded. */
  function SignatureFor(prims: Primitives, signingKey: string, resource: string, expiry: nat): string
  {
    prims.encodeUriComponent(prims.hmacSha256Base64(signingKey, StringToSign(resource, expiry)))
  }

  /** The token signed for `resourceUri` under `signingKey`, expiring at `expiry`. */
  function Sign(prims: Primitives, resourceUri: string, signingKey: string, policyName: string, expiry: nat): (t: Token)
    ensures t.resource == prims.encodeUriComponent(resourceUri)
    ensures t.signature == SignatureFor(prims, signingKey, t.resource, expiry)
    ensures t.expiry == expiry && t.policy == policyName
  {
    var resource := prims.encodeUriComponent(resourceUri);
    Token(resource, SignatureFor(prims, signingKey, resource, expiry), expiry, policyName)
  }

  /** `SharedAccessSignature sr=<resource>&sig=<signature>&se=<expiry>&skn=<policy>` */
  function TokenText(t: Token): string
  {
    Scheme + Labelled(Labels, [t.resource, t.signature, NatToString(t.expiry), t.policy], '&')
  }

  /** Reads a token text back; None when the text is not laid out as `TokenText` lays it out. */
  function ParseToken(s: string): Option<Token>
  {
    match After(Scheme, s)
    case None => None
    case Some(body) =>
      match Unlabel(body, Labels, '&')
      case None => None
      case Some(v) =>
        match ParseNat(v[2])
        case None => None
        case Some(se) => Some(Token(v[0], v[1], se, v[3]))
  }

  /**
   * Round trip: the text of a token whose fields contain no '&' reads back
   * as that token.
   */
  lemma ParseTokenText(t: Token)
    requires '&' !in t.resource && '&' !in t.signature && '&' !in t.policy
    ensures ParseToken(TokenText(t)) == Some(t)
  {
    var values := [t.resource, t.signature, NatToString(t.expiry), t.policy];
    assert '&' !in NatToString(t.expiry) by {
      var d := NatToString(t.expiry);
      assert forall i :: 0 <= i < |d| ==> d[i] != '&';
    }
    assert forall i :: 0 <= i < 4 ==> '&' !in Labels[i] by {
      assert Labels[0] == "sr=" && Labels[1] == "sig=" && Labels[2] == "se=" && Labels[3] == "skn=";
    }
    LabelledRoundTrip(Labels, values, '&');
    var body := Labelled(Labels, values, '&');
    assert After(Scheme, Scheme + body) == Some(body) by {
      assert (Scheme + body)[..|Scheme|] == Scheme;
      assert (Scheme + body)[|Scheme|..] == body;
    }
    ParseNatToString(t.expiry);
  }

  /**
   * What a service holding the key checks: the text reads as a token whose
   * signature is the one the key gives for its own resource and expiry.
   */
  ghost predicate Verifies(prims: Primitives, s: string, signingKey: string)
  {
    match ParseToken(s)
    case None => false
    case Some(t) => t.signature == SignatureFor(prims, signingKey, t.resource, t.expiry)
  }

  /**
   * A signed token's text verifies under the key that signed it, and the
   * reader recovers the encoded resource, the expiry and the policy name.
   */
  lemma SignedTokenVerifies(prims: Primitives, resourceUri: string, signingKey: string, policyName: string, expiry: nat)
    requires EscapesAmpersand(prims)
    requires '&' !in policyName
    ensures var s := TokenText(Sign(prims, resourceUri, signingKey, policyName, expiry));
      && Verifies(prims, s, signingKey)
      && ParseToken(s) == Some(Token(prims.encodeUriComponent(resourceUri),
                                     SignatureFor(prims, signingKey, prims.encodeUriComponent(resourceUri), expiry),
                                     expiry, policyName))
  {
    var t := Sign(prims, resourceUri, signingKey, policyName, expiry);
    assert '&' !in t.resource;
    assert '&' !in t.signature;
    ParseTokenText(t);
  }

  /** Two signed tokens with the same text were signed for the same expiry: the text pins down `se`. */
  lemma TokenTextFixesExpiry(t1: Token, t2: Token)
    requires '&' !in t1.resource && '&' !in t1.signature && '&' !in t1.policy
    requires '&' !in t2.resource && '&' !in t2.signature && '&' !in t2.policy
    requires TokenText(t1) == TokenText(t2)
    ensures t1 == t2
  {
    ParseTokenText(t1);
    ParseTokenText(t2);
  }
}
