/** Which objects of a StoreMetadataRequest the walker takes, and where it finds them. */
module Bf25Objects {
  import opened Options
  import opened Bf25

  /** ICCID, service provider name, profile name, icon type, icon, profile class, policy rules,
      notification configuration and profile owner. */
  predicate HasField(tag: string) {
    || Upper(tag) == "5A"
    || Upper(tag) == "91" || Upper(tag) == "92" || Upper(tag) == "93" || Upper(tag) == "94" || Upper(tag) == "95"
    || Upper(tag) == "99"
    || Upper(tag) == "B6" || Upper(tag) == "B7"
  }

  lemma FieldTagsAreKnown(tag: string)
    ensures Upper(tag) in KNOWN <==> HasField(tag)
  {
  }

  /**
   A turn at an object consumes its tag, length and content.  It sets one field,
   the object's own, if the object is one of the nine the profile has and its
   content can be decoded; otherwise it sets nothing.
   */
  lemma ObjectSetsItsField(fill: Filler, decode: Decoder, str: string, offset: nat, t: Tlv)
    requires |str| <= I32_MAX
    requires At(str, offset, t) && IsTlv(t) && Honest(fill, decode) && Recomputable(t, decode)
    ensures
      var turn := TurnAt(fill, str, offset);
      && turn.Move? && turn.consumed == |t.tag| + |t.length| + |t.content|
      && if HasField(t.tag) && decode(Upper(t.tag), t.content).Some?
         then turn.fields == map[Upper(t.tag) := decode(Upper(t.tag), t.content).value]
         else turn.fields == map[]
  {
    TurnTakesObject(fill, decode, str, offset, t);
    FieldTagsAreKnown(t.tag);
  }

  /** The text of the objects, one after the other. */
  function Texts(tlvs: seq<Tlv>): string {
    if tlvs == [] then "" else Text(tlvs[0]) + Texts(tlvs[1..])
  }

  lemma {:induction false} TextsSize(tlvs: seq<Tlv>)
    ensures |Texts(tlvs)| == BodySize(tlvs)
  {
    if tlvs != [] {
      TextsSize(tlvs[1..]);
    }
  }

  lemma {:induction false} TextsAreBody(str: string, offset: nat, tlvs: seq<Tlv>)
    requires offset + |Texts(tlvs)| <= |str| && str[offset..offset + |Texts(tlvs)|] == Texts(tlvs)
    ensures BodyAt(str, offset, tlvs)
    decreases tlvs
  {
    if tlvs != [] {
      var text, first, rest := Texts(tlvs), Text(tlvs[0]), Texts(tlvs[1..]);
      assert text[0..|first|] == first && text[|first|..|text|] == rest;
      SliceOfSlice(str, offset, text, 0, |first|);
      SliceOfSlice(str, offset, text, |first|, |text|);
      TextsAreBody(str, offset + |first|, tlvs[1..]);
    }
  }

  /** A BF25 object in the text: its tag in either case, a length field that states its content, the content. */
  predicate IsRequest(str: string, start: nat, whole: Tlv) {
    && At(str, start, whole) && |whole.tag| == 4 && Upper(whole.tag) == "BF25"
    && |whole.content| % 2 == 0
    && BerLength(whole.length, 0) == Some(Length(|whole.content| / 2, |whole.length|))
  }

  function ContentStart(start: nat, whole: Tlv): nat {
    start + |whole.tag| + |whole.length|
  }

  /** The envelope is the object's content. */
  lemma EnvelopeIsRead(str: string, start: nat, whole: Tlv)
    requires |str| <= I32_MAX && IsRequest(str, start, whole)
    ensures Envelope(str, start) == Some(Span(ContentStart(start, whole), ContentStart(start, whole) + |whole.content|))
  {
    PartsOfText(str, start, whole);
    LengthIsLocal(str, start + 4, whole.length);
  }

  lemma ContentIsBody(str: string, start: nat, whole: Tlv, tlvs: seq<Tlv>)
    requires At(str, start, whole) && whole.content == Texts(tlvs)
    ensures BodyAt(str, ContentStart(start, whole), tlvs)
  {
    var text, a := Text(whole), |whole.tag| + |whole.length|;
    assert text[a..|text|] == whole.content;
    SliceOfSlice(str, start, text, a, |text|);
    TextsAreBody(str, start + a, tlvs);
  }

  lemma RequestIsEnvelope(str: string, start: nat, whole: Tlv, tlvs: seq<Tlv>) returns (value: Span)
    requires |str| <= I32_MAX && IsRequest(str, start, whole) && whole.content == Texts(tlvs)
    ensures value.start == ContentStart(start, whole) && EnvelopeAt(str, start, tlvs, value)
  {
    EnvelopeIsRead(str, start, whole);
    ContentIsBody(str, start, whole, tlvs);
    TextsSize(tlvs);
    value := Span(ContentStart(start, whole), ContentStart(start, whole) + |whole.content|);
  }

  /**
   A text that contains a BF25 object (in either case) whose content is a list of
   at most 200 well-formed objects is parsed object by object, and each field is
   the last of its objects that can be decoded.
   */
  lemma ParseTakesText(fill: Filler, decode: Decoder, str: string, start: nat, whole: Tlv, tlvs: seq<Tlv>)
    requires |str| <= I32_MAX && IsRequest(str, start, whole) && whole.content == Texts(tlvs)
    requires Honest(fill, decode) && WellFormed(tlvs, decode) && |tlvs| <= 200
    ensures Parse(fill, str, start) ==
            Walked(FieldsOf(tlvs, decode, map[]), Boundaries(ContentStart(start, whole), tlvs))
  {
    var value := RequestIsEnvelope(str, start, whole, tlvs);
    ParseTakesEnvelope(fill, decode, str, start, tlvs, value);
  }

  /** Anything that does not begin with the BF25 tag is refused. */
  lemma OtherTagsThrow(fill: Filler, str: string, start: nat)
    requires start + 4 > |str| || Upper(str[start..start + 4]) != "BF25"
    ensures Parse(fill, str, start).Threw?
  {
  }

  /** No parse makes more than 200 turns. */
  lemma AtMost200Turns(fill: Filler, str: string, start: int)
    requires |str| <= I32_MAX
    ensures Parse(fill, str, start).Walked? ==> |Parse(fill, str, start).stops| <= 201
  {
    OffsetsGrow(fill, str, start);
  }

  /** Where the text ends the walk ends: with fewer than two characters left, or the second octet of a tag missing. */
  lemma EndOfText(fill: Filler, str: string, offset: nat)
    requires offset <= |str| <= I32_MAX && offset + 4 <= I32_MAX
    ensures |str| - offset < 2 ==> TurnAt(fill, str, offset) == Break(map[])
    ensures
      2 <= |str| - offset < 4 && OctetAt(str, offset).Some? && OctetAt(str, offset).value % 32 == 31 ==>
        TurnAt(fill, str, offset) == Break(map[])
  {
  }

  /** A first octet is two digits, or one digit after a sign; with anything else the parse throws. */
  lemma FirstOctetIs(fill: Filler, str: string, offset: nat)
    requires offset + 2 <= |str| <= I32_MAX
    ensures
      var high, low := Digit(str[offset]), Digit(str[offset + 1]);
      && (high.Some? && low.Some? ==> TagByte(str, offset) == Some(16 * high.value + low.value))
      && (str[offset] == '+' && low.Some? ==> TagByte(str, offset) == Some(low.value))
      && (str[offset] == '-' && low.Some? ==> TagByte(str, offset) == Some(0 - low.value))
      && (low.None? || (high.None? && str[offset] != '+' && str[offset] != '-') ==>
            TagByte(str, offset) == None && TurnAt(fill, str, offset).Throw?)
  {
  }

  /** Tags are compared in upper case: every letter from a to z is replaced by its capital. */
  lemma UpperIs(s: string, k: nat)
    requires k < |s|
    ensures 'a' <= s[k] <= 'z' ==> 'A' <= Upper(s)[k] <= 'Z' && s[k] as int - Upper(s)[k] as int == 32
    ensures !('a' <= s[k] <= 'z') ==> Upper(s)[k] == s[k]
  {
  }
}
