/** The payment service: signature check of a gateway callback, hex encoding
    of the MAC and the order request sent to the gateway. */
module Payment {
  import opened Wrappers
  import Numbers

  /** Java's `byte`. */
  newtype JByte = x: int | -128 <= x < 128

  const HexDigits := "0123456789abcdef"

  /** The value `%x` formats: a negative byte plus 2^8. */
  function Unsigned(b: JByte): (n: nat)
    ensures n < 256
    ensures (n - b as int) % 256 == 0
  {
    if b < 0 then b as int + 256 else b as int
  }

  /** `String.format("%02x", b)`: two lowercase hex digits. */
  function ByteHex(b: JByte): string {
    [HexDigits[Unsigned(b) / 16], HexDigits[Unsigned(b) % 16]]
  }

  /** The hex text of a byte array, byte after byte. */
  function HexOf(bytes: seq<JByte>): string {
    if bytes == [] then "" else HexOf(bytes[..|bytes| - 1]) + ByteHex(bytes[|bytes| - 1])
  }

  /** `bytesToHex`: append two digits per byte. */
  method BytesToHex(bytes: seq<JByte>) returns (r: string)
    ensures r == HexOf(bytes)
  {
    r := "";
    for i := 0 to |bytes|
      invariant r == HexOf(bytes[..i])
    {
      assert bytes[..i + 1][..i] == bytes[..i];
      r := r + ByteHex(bytes[i]);
    }
    assert bytes[..|bytes|] == bytes;
  }

  /** Every character of the hex text is a lowercase hex digit. */
  lemma {:induction false} HexOfLowercase(bytes: seq<JByte>)
    ensures forall i :: 0 <= i < |HexOf(bytes)| ==> HexOf(bytes)[i] in HexDigits
  {
    if bytes != [] {
      var init := bytes[..|bytes| - 1];
      HexOfLowercase(init);
      var last := ByteHex(bytes[|bytes| - 1]);
      assert last[0] in HexDigits && last[1] in HexDigits;
      assert HexOf(bytes) == HexOf(init) + last;
    }
  }

  /** Byte `i` becomes characters `2i` and `2i + 1`: the input order is kept. */
  lemma {:induction false} HexOfAt(bytes: seq<JByte>)
    ensures |HexOf(bytes)| == 2 * |bytes|
    ensures forall i :: 0 <= i < |bytes| ==>
      HexOf(bytes)[2 * i] == ByteHex(bytes[i])[0] && HexOf(bytes)[2 * i + 1] == ByteHex(bytes[i])[1]
  {
    HexOfLength(bytes);
    if bytes != [] {
      var init := bytes[..|bytes| - 1];
      HexOfAt(init);
      HexOfLength(init);
      var h := HexOf(bytes);
      assert h == HexOf(init) + ByteHex(bytes[|bytes| - 1]);
      forall i | 0 <= i < |bytes|
        ensures h[2 * i] == ByteHex(bytes[i])[0] && h[2 * i + 1] == ByteHex(bytes[i])[1]
      {
        if i < |init| {
          assert bytes[i] == init[i];
        }
      }
    }
  }

  /** Value of a lowercase hex digit. */
  function HexValue(c: char): (v: nat)
    ensures v < 16
  {
    if '0' <= c <= '9' then (c - '0') as nat
    else if 'a' <= c <= 'f' then (c - 'a') as nat + 10
    else 0
  }

  function ByteOf(hi: char, lo: char): JByte {
    var v := HexValue(hi) * 16 + HexValue(lo);
    if v >= 128 then (v - 256) as JByte else v as JByte
  }

  /** Reading hex text back into bytes, two digits at a time. */
  function DecodeHex(s: string): seq<JByte> {
    if |s| < 2 then [] else DecodeHex(s[..|s| - 2]) + [ByteOf(s[|s| - 2], s[|s| - 1])]
  }

  lemma ByteHexRoundTrip(b: JByte)
    ensures ByteOf(ByteHex(b)[0], ByteHex(b)[1]) == b
  {
    var n := Unsigned(b);
    assert HexValue(HexDigits[n / 16]) == n / 16;
    assert HexValue(HexDigits[n % 16]) == n % 16;
  }

  /** Decoding the hex text gives the bytes back: the encoding loses nothing. */
  lemma {:induction false} HexRoundTrip(bytes: seq<JByte>)
    ensures DecodeHex(HexOf(bytes)) == bytes
  {
    if bytes != [] {
      var init := bytes[..|bytes| - 1];
      var b := bytes[|bytes| - 1];
      HexRoundTrip(init);
      DecodeHexStep(HexOf(init), ByteHex(b)[0], ByteHex(b)[1]);
      ByteHexRoundTrip(b);
      assert bytes == init + [b];
    }
  }

  /** Two more digits decode to one more byte. */
  lemma DecodeHexStep(s: string, hi: char, lo: char)
    ensures DecodeHex(s + [hi, lo]) == DecodeHex(s) + [ByteOf(hi, lo)]
  {
    var t := s + [hi, lo];
    assert t[..|t| - 2] == s;
  }

  lemma {:induction false} HexOfLength(bytes: seq<JByte>)
    ensures |HexOf(bytes)| == 2 * |bytes|
  {
    if bytes != [] {
      HexOfLength(bytes[..|bytes| - 1]);
    }
  }

  /** Different MACs never give the same signature text. */
  lemma HexOfInjective(a: seq<JByte>, b: seq<JByte>)
    requires HexOf(a) == HexOf(b)
    ensures a == b
  {
    HexRoundTrip(a);
    HexRoundTrip(b);
  }

  /** Neither null nor empty. */
  predicate Present(s: Option<string>) { s.Some? && |s.value| > 0 }

  /** The text the gateway signs. */
  function SignedMessage(orderId: string, paymentId: string): string {
    orderId + "|" + paymentId
  }

  /** With order ids free of '|', the message names the order and the
      payment it was made from. */
  lemma SignedMessageInjective(o1: string, p1: string, o2: string, p2: string)
    requires '|' !in o1 && '|' !in o2
    requires SignedMessage(o1, p1) == SignedMessage(o2, p2)
    ensures o1 == o2 && p1 == p2
  {
    var m := SignedMessage(o1, p1);
    BarAfterOrderId(o1, p1);
    BarAfterOrderId(o2, p2);
    assert o1 == m[..|o1|] && o2 == m[..|o2|];
    assert p1 == m[|o1| + 1..] && p2 == m[|o2| + 1..];
  }

  /** The first '|' of the message is the one after the order id. */
  lemma BarAfterOrderId(orderId: string, paymentId: string)
    requires '|' !in orderId
    ensures Numbers.IndexOf(SignedMessage(orderId, paymentId), '|') == |orderId|
  {
    var m := SignedMessage(orderId, paymentId);
    var k := Numbers.IndexOf(m, '|');
    assert m[|orderId|] == '|';
    assert forall i :: 0 <= i < |orderId| ==> m[i] == orderId[i];
  }

  /** `verifyPayment`. `mac` is HMAC-SHA256 under the key secret of the UTF-8
      bytes of its argument; None stands for an exception while computing it. */
  function VerifyPayment(orderId: Option<string>, paymentId: Option<string>, signature: Option<string>,
                         mac: string -> Option<seq<JByte>>): (ok: bool)
    ensures ok ==> Present(orderId) && Present(paymentId) && Present(signature)
  {
    if !Present(orderId) || !Present(paymentId) || !Present(signature) then false
    else
      match mac(SignedMessage(orderId.value, paymentId.value))
      case None => false
      case Some(hash) => HexOf(hash) == signature.value
  }

  /** For present fields the check passes exactly for the hex text of the MAC
      of the message, and a failing MAC rejects. */
  lemma VerifyPaymentExactly(orderId: string, paymentId: string, signature: string,
                             mac: string -> Option<seq<JByte>>)
    requires |orderId| > 0 && |paymentId| > 0 && |signature| > 0
    ensures VerifyPayment(Some(orderId), Some(paymentId), Some(signature), mac) <==>
      exists hash :: mac(SignedMessage(orderId, paymentId)) == Some(hash) && HexOf(hash) == signature
  {
    var m := mac(SignedMessage(orderId, paymentId));
    if m.Some? {
      var hash := m.value;
      assert m == Some(hash);
    }
  }

  /** The comparison is case-sensitive: a signature with any character that
      is not a lowercase hex digit (an uppercase digit, say) is rejected. */
  lemma VerifyRejectsNonLowercase(orderId: Option<string>, paymentId: Option<string>, signature: Option<string>,
                                  mac: string -> Option<seq<JByte>>, i: int)
    requires signature.Some? && 0 <= i < |signature.value| && signature.value[i] !in HexDigits
    ensures !VerifyPayment(orderId, paymentId, signature, mac)
  {
    if Present(orderId) && Present(paymentId) {
      var m := mac(SignedMessage(orderId.value, paymentId.value));
      if m.Some? {
        HexOfLowercase(m.value);
      }
    }
  }

  /** The body of the gateway's order request. */
  datatype OrderRequest = OrderRequest(amount: int, currency: string, receipt: string)

  const Currency := "INR"

  /** The amount in paise as a Java int: times 100, drop the fraction, keep the low
      32 bits. */
  function Paise(amount: real): (p: int)
    ensures -0x8000_0000 <= p < 0x8000_0000
  {
    Numbers.ToInt32(Numbers.TruncateTowardZero(amount * 100.0))
  }

  /** Below 2^31 paise the request carries the amount in whole paise, the
      fraction of a paisa dropped. */
  lemma PaiseInRange(amount: real)
    ensures 0.0 <= amount * 100.0 < 0x8000_0000 as real ==>
      Paise(amount) as real <= amount * 100.0 < Paise(amount) as real + 1.0
  {
    if 0.0 <= amount * 100.0 < 0x8000_0000 as real {
      var t := Numbers.TruncateTowardZero(amount * 100.0);
      var r := Numbers.ToInt32(t);
      assert 0 <= t < 0x8000_0000;
      assert (r - t) % 0x1_0000_0000 == 0;
      assert -0x1_0000_0000 < r - t < 0x1_0000_0000;
    }
  }

  /** 21474837 rupees wraps to a negative number of paise, as does every amount
      from 21474836.48 up to 42949672.95 rupees; larger amounts wrap again. */
  lemma PaiseWraps()
    ensures Paise(21474837.0) == 2147483700 - 0x1_0000_0000
  {
  }

  /** `createRazorpayOrder`'s request. */
  function OrderRequestFor(amount: real, receipt: string): (r: OrderRequest)
    ensures r.currency == Currency && r.receipt == receipt
    ensures 0.0 <= amount * 100.0 < 0x8000_0000 as real ==>
      r.amount as real <= amount * 100.0 < r.amount as real + 1.0
  {
    PaiseInRange(amount);
    OrderRequest(Paise(amount), Currency, receipt)
  }
}
