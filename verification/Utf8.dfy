/** UTF-8 as section 3 of RFC 3629 defines it, and decoding that ignores errors. */
module Utf8 {
  import opened Common

  /** Six bits of payload. */
  function Tail(n: nat): Byte { 0x80 + n % 64 }

  function EncodeChar(c: char): (bytes: Bytes)
    ensures 1 <= |bytes| <= 4
  {
    var n := c as int;
    if n < 0x80 then [n]
    else if n < 0x800 then [0xC0 + n / 64, Tail(n)]
    else if n < 0x10000 then [0xE0 + n / 64 / 64, Tail(n / 64), Tail(n)]
    else [0xF0 + n / 64 / 64 / 64, Tail(n / 64 / 64), Tail(n / 64), Tail(n)]
  }

  function Encode(text: string): Bytes {
    if text == "" then [] else EncodeChar(text[0]) + Encode(text[1..])
  }

  /** The length a lead byte announces; 0 for a byte that cannot begin a character. */
  function Announced(lead: Byte): nat {
    if lead < 0x80 then 1
    else if 0xC0 <= lead < 0xE0 then 2
    else if 0xE0 <= lead < 0xF0 then 3
    else if 0xF0 <= lead < 0xF8 then 4
    else 0
  }

  predicate Continues(b: Byte) { 0x80 <= b < 0xC0 }

  function Payload(b: Byte): int { b - 0x80 }

  /** The code point of `n` bytes, lead byte first. */
  function CodePoint(bytes: Bytes, n: nat): int
    requires 1 <= n <= 4 && n <= |bytes|
  {
    var lead: int := bytes[0];
    if n == 1 then lead
    else if n == 2 then (lead - 0xC0) * 64 + Payload(bytes[1])
    else if n == 3 then ((lead - 0xE0) * 64 + Payload(bytes[1])) * 64 + Payload(bytes[2])
    else (((lead - 0xF0) * 64 + Payload(bytes[1])) * 64 + Payload(bytes[2])) * 64 + Payload(bytes[3])
  }

  /** The smallest code point that needs `n` bytes. */
  function Least(n: nat): int { if n == 1 then 0 else if n == 2 then 0x80 else if n == 3 then 0x800 else 0x10000 }

  /** The character at the front, if the bytes there are well formed: complete, in the shortest
      form, not a surrogate and within the code space. */
  function DecodeFirst(bytes: Bytes): (c: Option<char>)
    requires bytes != []
    ensures c.Some? ==> Announced(bytes[0]) > 0
  {
    var n := Announced(bytes[0]);
    if n == 0 || |bytes| < n || (exists i :: 1 <= i < n && !Continues(bytes[i])) then None
    else
      var code := CodePoint(bytes, n);
      if Least(n) <= code < 0x110000 && !(0xD800 <= code < 0xE000) then Some(code as char) else None
  }

  /** `decode("utf-8", errors="ignore")`. */
  function DecodeIgnore(bytes: Bytes): string
    decreases |bytes|
  {
    if bytes == [] then ""
    else match DecodeFirst(bytes)
      case Some(c) => [c] + DecodeIgnore(bytes[Announced(bytes[0])..])
      case None => DecodeIgnore(bytes[1..])
  }

  lemma EncodedShape(c: char)
    ensures
      var bytes := EncodeChar(c);
      && Announced(bytes[0]) == |bytes|
      && (forall i :: 1 <= i < |bytes| ==> Continues(bytes[i]))
  {
  }

  lemma CodePointOfEncoded(c: char)
    ensures CodePoint(EncodeChar(c), |EncodeChar(c)|) == c as int && Least(|EncodeChar(c)|) <= c as int
  {
  }

  lemma FirstOfEncoded(c: char, rest: Bytes)
    ensures DecodeFirst(EncodeChar(c) + rest) == Some(c)
  {
    var bytes := EncodeChar(c) + rest;
    EncodedShape(c);
    CodePointOfEncoded(c);
    assert forall i :: 0 <= i < |EncodeChar(c)| ==> bytes[i] == EncodeChar(c)[i];
    assert CodePoint(bytes, |EncodeChar(c)|) == CodePoint(EncodeChar(c), |EncodeChar(c)|);
  }

  lemma {:induction false} ContinuationsAreIgnored(bytes: Bytes)
    requires forall i :: 0 <= i < |bytes| ==> Continues(bytes[i])
    ensures DecodeIgnore(bytes) == ""
  {
    if bytes != [] {
      ContinuationsAreIgnored(bytes[1..]);
    }
  }

  /** A character cut short leaves nothing behind. */
  lemma CutCharIsIgnored(c: char, m: nat)
    requires m < |EncodeChar(c)|
    ensures DecodeIgnore(EncodeChar(c)[..m]) == ""
  {
    if m > 0 {
      var bytes := EncodeChar(c)[..m];
      EncodedShape(c);
      assert Announced(bytes[0]) > |bytes|;
      ContinuationsAreIgnored(bytes[1..]);
    }
  }

  /** The number of whole characters within the first `m` bytes. */
  function WholeChars(text: string, m: nat): (k: nat)
    ensures k <= |text|
  {
    if text == "" || |EncodeChar(text[0])| > m then 0 else 1 + WholeChars(text[1..], m - |EncodeChar(text[0])|)
  }

  lemma {:induction false} EncodeConcat(a: string, b: string)
    ensures Encode(a + b) == Encode(a) + Encode(b)
  {
    if a == "" {
      assert a + b == b;
    } else {
      assert (a + b)[1..] == a[1..] + b;
      EncodeConcat(a[1..], b);
    }
  }

  /** Whole characters are the longest prefix whose encoding takes at most `m` bytes. */
  lemma {:induction false} WholeCharsIsLongest(text: string, m: nat)
    ensures |Encode(text[..WholeChars(text, m)])| <= m
    ensures forall k :: WholeChars(text, m) < k <= |text| ==> |Encode(text[..k])| > m
  {
    if text != "" {
      var n := |EncodeChar(text[0])|;
      forall k | 0 < k <= |text| ensures |Encode(text[..k])| == n + |Encode(text[1..][..k - 1])| {
        assert text[..k][1..] == text[1..][..k - 1];
      }
      if n <= m {
        WholeCharsIsLongest(text[1..], m - n);
      }
    }
  }

  /** Decoding any prefix of an encoded text gives exactly its whole characters. */
  lemma {:induction false} DecodeOfCut(text: string, m: nat)
    requires m <= |Encode(text)|
    ensures DecodeIgnore(Encode(text)[..m]) == text[..WholeChars(text, m)]
  {
    if text == "" {
    } else {
      var first, rest := EncodeChar(text[0]), Encode(text[1..]);
      var n := |first|;
      if m < n {
        assert Encode(text)[..m] == first[..m];
        CutCharIsIgnored(text[0], m);
      } else {
        assert Encode(text)[..m] == first + rest[..m - n];
        EncodedShape(text[0]);
        FirstOfEncoded(text[0], rest[..m - n]);
        assert (first + rest[..m - n])[n..] == rest[..m - n];
        DecodeOfCut(text[1..], m - n);
        assert text[..WholeChars(text, m)] == [text[0]] + text[1..][..WholeChars(text[1..], m - n)];
      }
    }
  }
}
