/**
 Cutting a message body to a number of bytes at a character boundary
 (app/core/channels/drivers/http.py).
 */
module CapUtf8 {
  import opened Common

  /** A code point of a Python string, surrogates included. */
  type Code = c: int | 0 <= c <= 0x10FFFF

  type Byte = b: int | 0 <= b <= 0xFF

  datatype EncodeError = SurrogatesNotAllowed

  predicate IsSurrogate(c: Code) { 0xD800 <= c <= 0xDFFF }

  predicate IsContinuation(b: Byte) { 0x80 <= b <= 0xBF }

  /** Section 3 of RFC 3629. */
  function EncodeOne(c: Code): seq<Byte> {
    if c < 0x80 then [c]
    else if c < 0x800 then [0xC0 + c / 0x40, 0x80 + c % 0x40]
    else if c < 0x10000 then [0xE0 + c / 0x1000, 0x80 + c / 0x40 % 0x40, 0x80 + c % 0x40]
    else [0xF0 + c / 0x40000, 0x80 + c / 0x1000 % 0x40, 0x80 + c / 0x40 % 0x40, 0x80 + c % 0x40]
  }

  function Encode(text: seq<Code>): seq<Byte> {
    if text == [] then [] else EncodeOne(text[0]) + Encode(text[1..])
  }

  predicate IsEncodable(text: seq<Code>) { forall c :: c in text ==> !IsSurrogate(c) }

  /** How long the sequence of a lead byte is; 0 for a byte that leads none. */
  function LengthOf(lead: Byte): nat {
    if lead < 0x80 then 1
    else if 0xC0 <= lead < 0xE0 then 2
    else if 0xE0 <= lead < 0xF0 then 3
    else if 0xF0 <= lead < 0xF8 then 4
    else 0
  }

  /** The code point that well-formed bytes begin with: complete, in continuation
      bytes, not overlong, not a surrogate, in range. */
  function HeadOf(bs: seq<Byte>): Option<Code>
    requires bs != []
  {
    var n := LengthOf(bs[0]);
    if n == 0 || |bs| < n || exists i :: 1 <= i < n && !IsContinuation(bs[i]) then None
    else if n == 1 then Some(bs[0])
    else if n == 2 then InRange(Two(bs[0] - 0xC0, Low(bs[1])), 0x80)
    else if n == 3 then InRange(Three(bs[0] - 0xE0, Low(bs[1]), Low(bs[2])), 0x800)
    else InRange(Four(bs[0] - 0xF0, Low(bs[1]), Low(bs[2]), Low(bs[3])), 0x10000)
  }

  /** The six bits that a continuation byte carries. */
  function Low(b: int): int { b - 0x80 }

  function Two(a: int, b: int): int { a * 0x40 + b }

  function Three(a: int, b: int, c: int): int { a * 0x1000 + b * 0x40 + c }

  function Four(a: int, b: int, c: int, d: int): int { a * 0x40000 + b * 0x1000 + c * 0x40 + d }

  function InRange(c: int, least: nat): Option<Code> {
    if least <= c <= 0x10FFFF && !IsSurrogate(c) then Some(c) else None
  }

  /** bytes.decode(errors="ignore"): what is malformed is skipped, byte by byte. */
  function DecodeIgnore(bs: seq<Byte>): seq<Code> {
    if bs == [] then []
    else if HeadOf(bs).Some? then [HeadOf(bs).value] + DecodeIgnore(bs[LengthOf(bs[0])..])
    else DecodeIgnore(bs[1..])
  }

  function CapUtf8(text: seq<Code>, maxBytes: nat): Result<seq<Code>, EncodeError> {
    if !IsEncodable(text) then Err(SurrogatesNotAllowed)
    else
      var encoded := Encode(text);
      if |encoded| <= maxBytes then Ok(text) else Ok(DecodeIgnore(encoded[..maxBytes]))
  }

  // ----- One character -----

  lemma Digits(c: nat)
    ensures Two(c / 0x40, c % 0x40) == c
    ensures Three(c / 0x1000, c / 0x40 % 0x40, c % 0x40) == c
    ensures Four(c / 0x40000, c / 0x1000 % 0x40, c / 0x40 % 0x40, c % 0x40) == c
  {
    var (d, e) := (c / 0x40, c / 0x1000);
    assert e == d / 0x40 && c / 0x40000 == e / 0x40;
  }

  lemma HeadOfEncoded(c: Code, rest: seq<Byte>)
    requires !IsSurrogate(c)
    ensures var bs := EncodeOne(c) + rest;
            HeadOf(bs) == Some(c) && LengthOf(bs[0]) == |EncodeOne(c)|
  {
    Digits(c);
    var bs := EncodeOne(c) + rest;
    LeadAndRest(c);
    var n := |EncodeOne(c)|;
    assert forall i :: 0 <= i < n ==> bs[i] == EncodeOne(c)[i];
    assert forall i :: 1 <= i < n ==> IsContinuation(bs[i]);
    hide Two, Three, Four, LengthOf, IsContinuation;
  }

  /** The lead byte tells the length; the others are continuation bytes. */
  lemma LeadAndRest(c: Code)
    ensures LengthOf(EncodeOne(c)[0]) == |EncodeOne(c)|
    ensures forall i :: 1 <= i < |EncodeOne(c)| ==> IsContinuation(EncodeOne(c)[i])
  {
  }

  lemma {:induction false} ContinuationsAreIgnored(bs: seq<Byte>)
    requires forall b :: b in bs ==> IsContinuation(b)
    ensures DecodeIgnore(bs) == []
  {
    if bs != [] {
      assert bs[0] in bs;
      ContinuationsAreIgnored(bs[1..]);
    }
  }

  /** A sequence cut short decodes to nothing. */
  lemma CutCharacterIsIgnored(c: Code, n: nat)
    requires n < |EncodeOne(c)|
    ensures DecodeIgnore(EncodeOne(c)[..n]) == []
  {
    var bs := EncodeOne(c)[..n];
    if n > 0 {
      LeadAndRest(c);
      hide EncodeOne, LengthOf, IsContinuation;
      ContinuationsAreIgnored(bs[1..]);
    }
  }

  /** The first example of section 7 of RFC 3629: "A<NOT IDENTICAL TO><ALPHA>.". */
  lemma EncodedExample()
    ensures Encode([0x41, 0x2262, 0x391, 0x2E]) == [0x41, 0xE2, 0x89, 0xA2, 0xCE, 0x91, 0x2E]
    ensures EncodeOne(0x233B4) == [0xF0, 0xA3, 0x8E, 0xB4]
  {
    assert [0x41, 0x2262, 0x391, 0x2E][1..] == [0x2262, 0x391, 0x2E];
    assert [0x2262, 0x391, 0x2E][1..] == [0x391, 0x2E] && [0x391, 0x2E][1..] == [0x2E] && [0x2E][1..] == [];
  }

  // ----- Whole texts -----

  /** `r` is the longest prefix of `text` whose encoding fits in `n` bytes. */
  ghost predicate IsLongestFitting(r: seq<Code>, text: seq<Code>, n: nat) {
    && r <= text && |Encode(r)| <= n
    && forall k :: |r| < k <= |text| ==> |Encode(text[..k])| > n
  }

  /** Cutting the bytes of a text anywhere and decoding with ignore drops only the
      characters that no longer fit, and never alters an earlier one. */
  lemma {:induction false} CutDecodesToLongest(text: seq<Code>, n: nat)
    requires IsEncodable(text) && n <= |Encode(text)|
    ensures IsLongestFitting(DecodeIgnore(Encode(text)[..n]), text, n)
  {
    if text != [] {
      var (c, tail) := (text[0], text[1..]);
      var one := EncodeOne(c);
      if n < |one| {
        assert Encode(text)[..n] == one[..n];
        CutCharacterIsIgnored(c, n);
        forall k | 0 < k <= |text| ensures |Encode(text[..k])| > n {
          assert text[..k][0] == c;
        }
      } else {
        CutDecodesToLongest(tail, n - |one|);
        var rest := Encode(tail)[..n - |one|];
        assert Encode(text)[..n] == one + rest;
        HeadOfEncoded(c, rest);
        var r := DecodeIgnore(rest);
        assert (one + rest)[|one|..] == rest;
        assert DecodeIgnore(one + rest) == [c] + r;
        hide DecodeIgnore, EncodeOne;
        FirstMore(c, r, tail, n);
        assert [c] + tail == text;
      }
    }
  }

  lemma FirstMore(c: Code, r: seq<Code>, tail: seq<Code>, n: nat)
    requires n >= |EncodeOne(c)| && IsLongestFitting(r, tail, n - |EncodeOne(c)|)
    ensures IsLongestFitting([c] + r, [c] + tail, n)
  {
    hide EncodeOne;
    var text := [c] + tail;
    assert ([c] + r)[1..] == r;
    forall k | |r| + 1 < k <= |text| ensures |Encode(text[..k])| > n {
      assert text[..k][0] == c && text[..k][1..] == tail[..k - 1];
    }
  }

  lemma {:induction false} DecodeInvertsEncode(text: seq<Code>)
    requires IsEncodable(text)
    ensures DecodeIgnore(Encode(text)) == text
  {
    if text != [] {
      var (one, rest) := (EncodeOne(text[0]), Encode(text[1..]));
      HeadOfEncoded(text[0], rest);
      assert (one + rest)[|one|..] == rest;
      hide HeadOf, EncodeOne;
      DecodeInvertsEncode(text[1..]);
    }
  }

  /** The result is the longest prefix that fits, and the text itself exactly when
      it fits; only a text with surrogates raises. */
  lemma CapIsLongestFitting(text: seq<Code>, maxBytes: nat)
    ensures CapUtf8(text, maxBytes).Err? <==> exists c :: c in text && IsSurrogate(c)
    ensures CapUtf8(text, maxBytes).Ok? ==>
              && IsLongestFitting(CapUtf8(text, maxBytes).value, text, maxBytes)
              && (CapUtf8(text, maxBytes).value == text <==> |Encode(text)| <= maxBytes)
  {
    if IsEncodable(text) && |Encode(text)| > maxBytes {
      CutDecodesToLongest(text, maxBytes);
    }
  }

  /** Longest is meant: no prefix that fits is longer. */
  lemma NoLongerPrefixFits(text: seq<Code>, maxBytes: nat, p: seq<Code>)
    requires CapUtf8(text, maxBytes).Ok? && p <= text && |Encode(p)| <= maxBytes
    ensures p <= CapUtf8(text, maxBytes).value
  {
    CapIsLongestFitting(text, maxBytes);
    assert p == text[..|p|];
  }
}
