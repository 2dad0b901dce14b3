/**
 * `encodeAsDeepLink` (packages/client/src/utils.ts): an interaction message
 * becomes a link the Jolocom wallet opens, by prefixing the consent scheme.
 */
module DeepLink {
  import opened Js

  const DeepLinkPrefix: string := "jolocomwallet://consent/"

  function EncodeAsDeepLink(interactionMessage: string): (r: string)
    ensures |r| == |interactionMessage| + 24
    ensures r[..24] == DeepLinkPrefix && r[24..] == interactionMessage
  {
    DeepLinkPrefix + interactionMessage
  }

  /** The inverse: the message a deep link carries, if it is one. */
  function DecodeDeepLink(link: string): (r: Option<string>)
    ensures r.Some? <==> |link| >= 24 && link[..24] == DeepLinkPrefix
    ensures r.Some? ==> EncodeAsDeepLink(r.value) == link
  {
    if |link| >= |DeepLinkPrefix| && link[..|DeepLinkPrefix|] == DeepLinkPrefix then
      assert link == link[..24] + link[24..];
      Some(link[|DeepLinkPrefix|..])
    else None
  }

  /** Stripping the prefix gives the message back. */
  lemma DeepLinkRoundTrip(interactionMessage: string)
    ensures DecodeDeepLink(EncodeAsDeepLink(interactionMessage)) == Some(interactionMessage)
  {
  }

  /** Distinct messages give distinct links. */
  lemma DeepLinkInjective(m1: string, m2: string)
    requires EncodeAsDeepLink(m1) == EncodeAsDeepLink(m2)
    ensures m1 == m2
  {
    DeepLinkRoundTrip(m1);
    DeepLinkRoundTrip(m2);
  }
}
