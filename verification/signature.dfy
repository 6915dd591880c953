/**
  Signature checks of the payment gateway. The keyed hash (HMAC-SHA256 rendered
  as a lowercase hex digest) and the JSON serialisation of a webhook body are
  library calls; the model takes them as function parameters, so every fact
  proved here holds whichever hash function is supplied. What the server adds
  is the message it authenticates and the comparison, which is plain string
  equality against a header or body field that may be missing.
 */
module Signature {
  import opened Basics

  /** `Hmac(secret, message)`: the hex digest the server computes. */
  type Hmac = (string, string) -> string

  const Delimiter: char := '|'

  /** The message authenticated on the client verification path: order id, "|", payment id. */
  function PaymentMessage(orderId: string, paymentId: string): (m: string)
    ensures |m| == |orderId| + 1 + |paymentId|
    ensures m[..|orderId|] == orderId
    ensures m[|orderId|] == Delimiter
    ensures m[|orderId| + 1..] == paymentId
  {
    orderId + [Delimiter] + paymentId
  }

  /**
    Strict equality between the computed digest and the supplied signature.
    An absent signature (`undefined` in the request) never equals a string.
   */
  predicate Matches(hmac: Hmac, secret: string, message: string, provided: Option<string>) {
    provided.Some? && provided.value == hmac(secret, message)
  }

  /** The digest of a message always passes, and nothing else does. */
  lemma MatchesExactlyTheDigest(hmac: Hmac, secret: string, message: string, provided: Option<string>)
    ensures Matches(hmac, secret, message, Some(hmac(secret, message)))
    ensures Matches(hmac, secret, message, provided) <==> provided == Some(hmac(secret, message))
    ensures !Matches(hmac, secret, message, None)
  {
  }

  /** Changing any single character of a valid signature makes it fail. */
  lemma TamperedSignatureFails(hmac: Hmac, secret: string, message: string, i: nat, c: char)
    requires i < |hmac(secret, message)|
    requires c != hmac(secret, message)[i]
    ensures !Matches(hmac, secret, message, Some(hmac(secret, message)[i := c]))
  {
    assert hmac(secret, message)[i := c][i] != hmac(secret, message)[i];
  }

  /**
    While order ids carry no "|", the verification message determines both
    ids: a signature for one (order, payment) pair is never a signature for another.
   */
  lemma PaymentMessageInjective(o1: string, p1: string, o2: string, p2: string)
    requires Delimiter !in o1 && Delimiter !in o2
    requires PaymentMessage(o1, p1) == PaymentMessage(o2, p2)
    ensures o1 == o2 && p1 == p2
  {
  }
}
