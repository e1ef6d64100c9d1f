/** Payment signatures. HMAC-SHA256 itself is an oracle (`Mac`), passed in as a
    function; what is modelled is the message the gateway signs and the lowercase
    hex encoding of the digest, as `hmac_sha256` in the verification function and
    `digest("hex")` in the server produce it. */
module Hmac {
  import opened Js
  import JsString

  newtype byte = x: int | 0 <= x < 256

  /** HMAC-SHA256 keyed by the first argument, over the second: an uninterpreted oracle. */
  type Mac = (string, string) -> seq<byte>

  function HexDigit(d: nat): char
    requires d < 16
  {
    "0123456789abcdef"[d]
  }

  predicate IsLowerHexDigit(c: char) {
    '0' <= c <= '9' || 'a' <= c <= 'f'
  }

  /** `n.toString(16)` */
  function ToHexString(n: nat): (s: string)
    ensures |s| >= 1
  {
    if n < 16 then [HexDigit(n)] else ToHexString(n / 16) + [HexDigit(n % 16)]
  }

  /** `s.padStart(len, fill)` for a one-character fill. */
  function PadStart(s: string, len: nat, fill: char): (r: string)
    ensures |r| == if |s| >= len then |s| else len
    decreases len - |s|
  {
    if |s| >= len then s else PadStart([fill] + s, len, fill)
  }

  /** `b.toString(16).padStart(2, "0")` */
  function ByteToHex(b: byte): string {
    PadStart(ToHexString(b as nat), 2, '0')
  }

  /** Each byte takes exactly two lowercase hex digits, high nibble first. */
  lemma ByteToHexDigits(b: byte)
    ensures ByteToHex(b) == [HexDigit(b as nat / 16), HexDigit(b as nat % 16)]
  {
    if b < 16 {
      assert ToHexString(b as nat) == [HexDigit(b as nat)];
      assert PadStart([HexDigit(b as nat)], 2, '0') == PadStart(['0', HexDigit(b as nat)], 2, '0');
      assert HexDigit(0) == '0';
    } else {
      assert ToHexString(b as nat / 16) == [HexDigit(b as nat / 16)];
    }
  }

  /** `Array.from(bytes).map(b => b.toString(16).padStart(2, "0")).join("")` */
  function HexEncode(bs: seq<byte>): string {
    JsString.Join(seq(|bs|, i requires 0 <= i < |bs| => ByteToHex(bs[i])), "")
  }

  lemma HexEncodeCons(bs: seq<byte>)
    requires bs != []
    ensures HexEncode(bs) == [HexDigit(bs[0] as nat / 16), HexDigit(bs[0] as nat % 16)] + HexEncode(bs[1..])
  {
    var xs := seq(|bs|, i requires 0 <= i < |bs| => ByteToHex(bs[i]));
    var ys := seq(|bs| - 1, i requires 0 <= i < |bs| - 1 => ByteToHex(bs[1..][i]));
    assert xs[1..] == ys;
    ByteToHexDigits(bs[0]);
    if |bs| == 1 {
      assert HexEncode(bs[1..]) == "";
    }
  }

  lemma {:induction false} HexEncodeLength(bs: seq<byte>)
    ensures |HexEncode(bs)| == 2 * |bs|
    ensures forall i :: 0 <= i < |HexEncode(bs)| ==> IsLowerHexDigit(HexEncode(bs)[i])
  {
    if bs != [] {
      HexEncodeCons(bs);
      HexEncodeLength(bs[1..]);
    }
  }

  function HexValue(c: char): Option<nat> {
    if '0' <= c <= '9' then Some((c as int) - ('0' as int))
    else if 'a' <= c <= 'f' then Some((c as int) - ('a' as int) + 10)
    else None
  }

  /** Reads back a lowercase hex string, two digits per byte. */
  function HexDecode(s: string): Option<seq<byte>> {
    if s == [] then Some([])
    else if |s| == 1 then None
    else
      match (HexValue(s[0]), HexValue(s[1]), HexDecode(s[2..]))
      case (Some(hi), Some(lo), Some(rest)) =>
        if hi < 16 && lo < 16 then Some([(hi * 16 + lo) as byte] + rest) else None
      case _ => None
  }

  lemma HexValueOfDigit(d: nat)
    requires d < 16
    ensures HexValue(HexDigit(d)) == Some(d)
  {
  }

  /** One step of decoding: two valid digits, then a decodable rest. */
  lemma HexDecodeStep(s: string, hi: nat, lo: nat, rest: seq<byte>)
    requires |s| >= 2 && hi < 16 && lo < 16
    requires HexValue(s[0]) == Some(hi) && HexValue(s[1]) == Some(lo) && HexDecode(s[2..]) == Some(rest)
    ensures HexDecode(s) == Some([(hi * 16 + lo) as byte] + rest)
  {
  }

  /** Decoding the encoding gives the bytes back. */
  lemma {:induction false} DecodeEncode(bs: seq<byte>)
    ensures HexDecode(HexEncode(bs)) == Some(bs)
  {
    if bs != [] {
      HexEncodeCons(bs);
      DecodeEncode(bs[1..]);
      var s := HexEncode(bs);
      var b := bs[0] as nat;
      assert s[2..] == HexEncode(bs[1..]);
      HexValueOfDigit(b / 16);
      HexValueOfDigit(b % 16);
      HexDecodeStep(s, b / 16, b % 16, bs[1..]);
      assert (b / 16 * 16 + b % 16) as byte == bs[0];
      assert [bs[0]] + bs[1..] == bs;
    }
  }

  /** Distinct digests give distinct signatures. */
  lemma HexEncodeInjective(a: seq<byte>, b: seq<byte>)
    requires HexEncode(a) == HexEncode(b)
    ensures a == b
  {
    DecodeEncode(a);
    DecodeEncode(b);
  }

  /** `hmac_sha256(message, secret)` in the verification function; also what
      `createHmac("sha256", secret).update(message).digest("hex")` yields on the server. */
  function HmacHex(mac: Mac, secret: string, message: string): string {
    HexEncode(mac(secret, message))
  }

  /** The message the gateway signs: `razorpay_order_id + "|" + razorpay_payment_id`. */
  function SignedMessage(gatewayOrderId: string, paymentId: string): (m: string)
    ensures |m| == |gatewayOrderId| + 1 + |paymentId|
    ensures m[..|gatewayOrderId|] == gatewayOrderId && m[|gatewayOrderId|] == '|'
    ensures m[|gatewayOrderId| + 1..] == paymentId
  {
    gatewayOrderId + "|" + paymentId
  }

  /** The signature a client must submit for a gateway order and payment. */
  function ExpectedSignature(mac: Mac, secret: string, gatewayOrderId: string, paymentId: string): string {
    HmacHex(mac, secret, SignedMessage(gatewayOrderId, paymentId))
  }

  /** When gateway order ids contain no `|`, the message determines both ids. */
  lemma SignedMessageInjective(o1: string, p1: string, o2: string, p2: string)
    requires '|' !in o1 && '|' !in o2
    requires SignedMessage(o1, p1) == SignedMessage(o2, p2)
    ensures o1 == o2 && p1 == p2
  {
  }

  /** Without that condition two different id pairs share one message, so one
      signature covers both. */
  lemma SignedMessageAmbiguous()
    ensures SignedMessage("a|b", "c") == SignedMessage("a", "b|c")
  {
  }
}
