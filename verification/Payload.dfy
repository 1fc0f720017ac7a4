/** Error messages are cut before they are stored, never inside a character. */
module Payload {
  import opened Push

  const MAX_ERROR_PAYLOAD_LEN := 8 * 1024

  /** "…[truncated]" in UTF-8. */
  const TRUNCATION_MARKER: Text :=
    [0xE2, 0x80, 0xA6, 0x5B, 0x74, 0x72, 0x75, 0x6E, 0x63, 0x61, 0x74, 0x65, 0x64, 0x5D]

  predicate Continuation(b: Byte) {
    0x80 <= b < 0xC0
  }

  /** The encoding of one character: a leading byte and up to three others. */
  predicate Character(bytes: Text) {
    && 1 <= |bytes| <= 4 && (bytes[0] < 128 || 192 <= bytes[0])
    && forall i :: 1 <= i < |bytes| ==> 128 <= bytes[i] < 192
  }

  predicate Characters(chars: seq<Text>) {
    forall i :: 0 <= i < |chars| ==> Character(chars[i])
  }

  function Encode(chars: seq<Text>): Text {
    if chars == [] then [] else chars[0] + Encode(chars[1..])
  }

  /** `str::is_char_boundary`. */
  predicate CharBoundary(text: Text, i: nat) {
    i == 0 || i == |text| || (i < |text| && !Continuation(text[i]))
  }

  lemma {:induction false} EncodeStep(chars: seq<Text>, k: nat)
    requires k < |chars|
    ensures Encode(chars[..k + 1]) == Encode(chars[..k]) + chars[k]
    decreases k
  {
    if k == 0 {
      assert chars[..1] == [chars[0]] && Encode([chars[0]][1..]) == [];
    } else {
      EncodeStep(chars[1..], k - 1);
      assert chars[..k + 1][1..] == chars[1..][..k] && chars[..k][1..] == chars[1..][..k - 1];
    }
  }

  /** The boundaries of an encoded text are the ends of its prefixes. */
  lemma {:induction false} BoundaryEndsAPrefix(chars: seq<Text>, i: nat) returns (k: nat)
    requires Characters(chars) && i <= |Encode(chars)| && CharBoundary(Encode(chars), i)
    ensures k <= |chars| && Encode(chars)[..i] == Encode(chars[..k])
    decreases |chars|
  {
    if i == 0 {
      k := 0;
    } else {
      var first, rest := chars[0], Encode(chars[1..]);
      assert forall j :: 0 <= j < |first| ==> Encode(chars)[j] == first[j];
      assert i >= |first|;
      assert i < |Encode(chars)| ==> Encode(chars)[i] == rest[i - |first|];
      k := BoundaryEndsAPrefix(chars[1..], i - |first|);
      assert chars[..k + 1][1..] == chars[1..][..k];
      k := k + 1;
    }
  }

  /** And every prefix ends at a boundary. */
  lemma {:induction false} PrefixEndsAtABoundary(chars: seq<Text>, k: nat)
    requires Characters(chars) && k <= |chars|
    ensures |Encode(chars[..k])| <= |Encode(chars)| && CharBoundary(Encode(chars), |Encode(chars[..k])|)
    decreases |chars|
  {
    if k > 0 {
      PrefixEndsAtABoundary(chars[1..], k - 1);
      assert chars[..k][1..] == chars[1..][..k - 1];
      var first, rest, i := chars[0], Encode(chars[1..]), |Encode(chars[1..][..k - 1])|;
      assert Encode(chars[..k]) == first + Encode(chars[1..][..k - 1]);
      assert i < |rest| ==> Encode(chars)[i + |first|] == rest[i];
      if i == 0 && rest != [] {
        assert !Continuation(chars[1][0]);
      }
    }
  }

  /** `truncate_error_payload`: as many whole characters as fit, then the marker. */
  method TruncateErrorPayload(text: Text, ghost chars: seq<Text>) returns (stored: Text, ghost kept: nat)
    requires Characters(chars) && text == Encode(chars)
    ensures |text| <= 8_192 ==> stored == text
    ensures |text| > 8_192 ==>
              && kept < |chars| && stored == Encode(chars[..kept]) + TRUNCATION_MARKER
              && |Encode(chars[..kept])| <= 8_192 < |Encode(chars[..kept + 1])|
  {
    stored, kept := text, 0;
    if |text| > MAX_ERROR_PAYLOAD_LEN {
      var cut: nat := MAX_ERROR_PAYLOAD_LEN;
      while cut > 0 && !CharBoundary(text, cut)
        invariant cut <= MAX_ERROR_PAYLOAD_LEN
        invariant forall i: nat :: cut < i <= MAX_ERROR_PAYLOAD_LEN ==> !CharBoundary(text, i)
      {
        cut := cut - 1;
      }
      kept := BoundaryEndsAPrefix(chars, cut);
      assert chars[..|chars|] == chars;
      EncodeStep(chars, kept);
      PrefixEndsAtABoundary(chars, kept + 1);
      stored := text[..cut] + TRUNCATION_MARKER;
    }
  }
}
