// The replacement BF25 (StoreMetadataRequest) walker: a bounded loop over BER-TLV objects written
// as hexadecimal text, which must skip what it does not know and never lose its place.
// Lengths follow ITU-T X.690 section 8.1.3 and tags section 8.1.2.

module Bf25 {
  import opened Options

  const MAX_ITERATIONS: nat := 200

  // ---- Hexadecimal text ----

  function Digit(c: char): Option<nat> {
    if '0' <= c <= '9' then Some((c as int) - ('0' as int))
    else if 'A' <= c <= 'F' then Some((c as int) - ('A' as int) + 10)
    else if 'a' <= c <= 'f' then Some((c as int) - ('a' as int) + 10)
    else None
  }

  /** The octet written by the two characters at `offset`. */
  function OctetAt(str: string, offset: nat): (o: Option<nat>)
    ensures o.Some? ==> o.value < 256 && offset + 2 <= |str|
  {
    if offset + 2 > |str| then None
    else
      match (Digit(str[offset]), Digit(str[offset + 1]))
      case (Some(h), Some(l)) => Some(16 * h + l)
      case _ => None
  }

  /** What `toInt(16)` makes of two characters: it also takes one digit after a sign. */
  function TagByte(str: string, offset: nat): (b: Option<int>)
    requires offset + 2 <= |str|
    ensures OctetAt(str, offset).Some? ==> b == Some(OctetAt(str, offset).value)
  {
    match (Digit(str[offset]), Digit(str[offset + 1]))
    case (Some(h), Some(l)) => Some(16 * h + l)
    case (None, Some(l)) =>
      var v: int := l;
      if str[offset] == '+' then Some(v) else if str[offset] == '-' then Some(-v) else None
    case _ => None
  }

  const I32_MAX := 0x7FFF_FFFF

  /** Kotlin's Int arithmetic wraps around. */
  function AsInt(n: int): (r: int)
    ensures -0x8000_0000 <= r <= I32_MAX
    ensures -0x8000_0000 <= n <= I32_MAX ==> r == n
  {
    var m := n % 0x1_0000_0000;
    if m <= I32_MAX then m else m - 0x1_0000_0000
  }

  function UpperChar(c: char): char {
    if 'a' <= c <= 'z' then ((c as int) - 32) as char else c
  }

  function Upper(s: string): (r: string)
    ensures |r| == |s|
  {
    seq(|s|, k requires 0 <= k < |s| => UpperChar(s[k]))
  }

  // ---- X.690 length octets ----

  datatype Length = Length(octets: nat, nibbles: nat)

  /** The big-endian number in the `k` octets at `offset`. */
  function BigEndian(str: string, offset: nat, k: nat): Option<nat> {
    if k == 0 then Some(0)
    else
      match (BigEndian(str, offset, k - 1), OctetAt(str, offset + 2 * (k - 1)))
      case (Some(high), Some(low)) => Some(256 * high + low)
      case _ => None
  }

  /** The definite length at `offset`; the indefinite (80) and reserved (FF) forms are errors. */
  function BerLength(str: string, offset: nat): Option<Length> {
    match OctetAt(str, offset)
    case None => None
    case Some(first) =>
      if first < 0x80 then Some(Length(first, 2))
      else if first == 0x80 || first == 0xFF then None
      else
        match BigEndian(str, offset + 2, first - 0x80)
        case None => None
        case Some(n) => Some(Length(n, 2 + 2 * (first - 0x80)))
  }

  function OctetCount(n: nat): nat {
    if n < 256 then 1 else 1 + OctetCount(n / 256)
  }

  /** Nibbles of the shortest length octets for `n`. */
  function ShortestLength(n: int): (size: nat)
    ensures size >= 2
  {
    if n < 0x80 then 2 else 2 + 2 * OctetCount(n)
  }

  function Power256(k: nat): (p: nat)
    ensures p >= 1
  {
    if k == 0 then 1 else 256 * Power256(k - 1)
  }

  lemma {:induction false} BigEndianBound(str: string, offset: nat, k: nat)
    ensures BigEndian(str, offset, k).Some? ==> BigEndian(str, offset, k).value < Power256(k)
  {
    if k != 0 {
      BigEndianBound(str, offset, k - 1);
    }
  }

  lemma {:induction false} OctetCountBound(n: nat, k: nat)
    requires 1 <= k && n < Power256(k)
    ensures OctetCount(n) <= k
  {
    assert Power256(k) == 256 * Power256(k - 1) && Power256(0) == 1;
    if n >= 256 && k > 1 {
      OctetCountBound(n / 256, k - 1);
    }
  }

  /** No length field is shorter than the shortest one for the number it states. */
  lemma ShortestIsShortest(str: string, offset: nat)
    ensures BerLength(str, offset).Some? ==>
              ShortestLength(BerLength(str, offset).value.octets) <= BerLength(str, offset).value.nibbles
  {
    var l := BerLength(str, offset);
    if l.Some? {
      var first := OctetAt(str, offset).value;
      if first >= 0x80 {
        BigEndianBound(str, offset + 2, first - 0x80);
        OctetCountBound(l.value.octets, first - 0x80);
      }
    }
  }

  lemma OctetIsLocal(str: string, at: nat, part: string, offset: nat)
    requires at + |part| <= |str| && str[at..at + |part|] == part
    requires OctetAt(part, offset).Some?
    ensures OctetAt(str, at + offset) == OctetAt(part, offset)
  {
    assert part[offset] == str[at + offset];
    assert part[offset + 1] == str[at + offset + 1];
  }

  lemma {:induction false} BigEndianIsLocal(str: string, at: nat, part: string, offset: nat, k: nat)
    requires at + |part| <= |str| && str[at..at + |part|] == part
    requires BigEndian(part, offset, k).Some?
    ensures BigEndian(str, at + offset, k) == BigEndian(part, offset, k)
  {
    if k != 0 {
      BigEndianIsLocal(str, at, part, offset, k - 1);
      OctetIsLocal(str, at, part, offset + 2 * (k - 1));
      assert at + offset + 2 * (k - 1) == at + (offset + 2 * (k - 1));
    }
  }

  /** A length field reads the same wherever it stands. */
  lemma LengthIsLocal(str: string, at: nat, part: string)
    requires at + |part| <= |str| && str[at..at + |part|] == part
    requires BerLength(part, 0).Some?
    ensures BerLength(str, at) == BerLength(part, 0)
  {
    OctetIsLocal(str, at, part, 0);
    var first := OctetAt(part, 0).value;
    if first >= 0x80 {
      BigEndianIsLocal(str, at, part, 2, first - 0x80);
    }
  }

  // ---- The encoding side ----

  function HexChar(v: nat): char
    requires v < 16
  {
    if v < 10 then (('0' as int) + v) as char else (('A' as int) + v - 10) as char
  }

  function OctetText(v: nat): string
    requires v < 256
  {
    [HexChar(v / 16), HexChar(v % 16)]
  }

  /** `n` in `k` octets, most significant first. */
  function NumberText(n: nat, k: nat): (text: string)
    ensures |text| == 2 * k
  {
    if k == 0 then "" else NumberText(n / 256, k - 1) + OctetText(n % 256)
  }

  /** The shortest length octets for `n` (X.690 section 10.1). */
  function LengthText(n: nat): (text: string)
    requires OctetCount(n) <= 126
    ensures |text| == ShortestLength(n)
  {
    if n < 0x80 then OctetText(n) else OctetText(0x80 + OctetCount(n)) + NumberText(n, OctetCount(n))
  }

  lemma {:induction false} FitsItsOctets(n: nat)
    ensures n < Power256(OctetCount(n))
  {
    assert Power256(1) == 256 * Power256(0);
    if n >= 256 {
      FitsItsOctets(n / 256);
    }
  }

  lemma OctetReadsBack(v: nat, rest: string)
    requires v < 256
    ensures OctetAt(OctetText(v) + rest, 0) == Some(v)
  {
  }

  lemma {:induction false} NumberReadsBack(n: nat, k: nat)
    requires n < Power256(k)
    ensures BigEndian(NumberText(n, k), 0, k) == Some(n)
  {
    if k != 0 {
      var high, low := NumberText(n / 256, k - 1), OctetText(n % 256);
      var text := high + low;
      NumberReadsBack(n / 256, k - 1);
      BigEndianIsLocal(text, 0, high, 0, k - 1);
      OctetReadsBack(n % 256, "");
      assert low + "" == low && text[|high|..|high| + |low|] == low;
      OctetIsLocal(text, |high|, low, 0);
    }
  }

  lemma LongForm(text: string, k: nat, n: nat)
    requires 1 <= k <= 126 && OctetAt(text, 0) == Some(0x80 + k) && BigEndian(text, 2, k) == Some(n)
    ensures BerLength(text, 0) == Some(Length(n, 2 + 2 * k))
  {
  }

  lemma LongFormReadsBack(k: nat, number: string, n: nat)
    requires 1 <= k <= 126 && |number| == 2 * k && BigEndian(number, 0, k) == Some(n)
    ensures BerLength(OctetText(0x80 + k) + number, 0) == Some(Length(n, 2 + 2 * k))
  {
    OctetReadsBack(0x80 + k, number);
    LongFormAfter(OctetText(0x80 + k), k, number, n);
  }

  lemma LongFormAfter(head: string, k: nat, number: string, n: nat)
    requires 1 <= k <= 126 && |head| == 2 && |number| == 2 * k && BigEndian(number, 0, k) == Some(n)
    requires OctetAt(head + number, 0) == Some(0x80 + k)
    ensures BerLength(head + number, 0) == Some(Length(n, 2 + 2 * k))
  {
    var text := head + number;
    assert text[2..2 + |number|] == number;
    BigEndianIsLocal(text, 2, number, 0, k);
    LongForm(text, k, n);
  }

  /** The shortest length field reads back as the number it was made for. */
  lemma LengthRoundTrip(n: nat)
    requires OctetCount(n) <= 126
    ensures BerLength(LengthText(n), 0) == Some(Length(n, ShortestLength(n)))
  {
    if n < 0x80 {
      OctetReadsBack(n, "");
      assert LengthText(n) + "" == LengthText(n);
    } else {
      var k := OctetCount(n);
      FitsItsOctets(n);
      NumberReadsBack(n, k);
      LongFormReadsBack(k, NumberText(n, k), n);
    }
  }

  lemma DigitOfUpper(c: char)
    ensures Digit(UpperChar(c)) == Digit(c)
  {
  }

  /** Upper-casing hexadecimal text changes no octet. */
  lemma CaseDoesNotMatter(str: string, offset: nat)
    ensures OctetAt(Upper(str), offset) == OctetAt(str, offset)
    ensures Upper(Upper(str)) == Upper(str)
  {
    if offset + 2 <= |str| {
      DigitOfUpper(str[offset]);
      DigitOfUpper(str[offset + 1]);
    }
  }

  // ---- One turn of the loop ----

  /** What a foreign filler gives back: the value with its reported size in nibbles (for the
      notification list, the size of every entry that is not null), or an exception. */
  datatype Fill = Filled(value: string, size: int, entries: seq<Option<int>>) | FillFailed

  type Filler = (string, string, int) -> Fill

  const KNOWN: set<string> := {"5A", "91", "92", "93", "94", "95", "99", "B6", "B7"}

  datatype Turn =
    | Move(fields: map<string, string>, consumed: nat)
    | Break(fields: map<string, string>)
    | Throw

  function HalfTowardsZero(n: int): int {
    if n >= 0 then n / 2 else -(-n / 2)
  }

  function InnerOctets(entries: seq<Option<int>>): int {
    if |entries| == 0 then 0
    else InnerOctets(entries[..|entries| - 1]) +
         (match entries[|entries| - 1] case None => 0 case Some(n) => HalfTowardsZero(n))
  }

  function Skipped(str: string, offset: nat, tagNibbles: nat): Turn {
    match BerLength(str, offset + tagNibbles)
    case None => Break(map[])
    case Some(l) =>
      var consumed := ObjectSize(tagNibbles, l);
      if consumed > 0 then Move(map[], consumed) else Break(map[])
  }

  function ObjectSize(tagNibbles: nat, l: Length): int {
    AsInt(tagNibbles + l.nibbles + 2 * l.octets)
  }

  function Took(tag: string, value: string, consumed: int): Turn {
    if consumed > 0 then Move(map[tag := value], consumed) else Break(map[tag := value])
  }

  /** The size the walker works out for a notification list from the entries it was given. */
  function RecomputedSize(entries: seq<Option<int>>): int {
    var inner := AsInt(InnerOctets(entries));
    AsInt(2 + ShortestLength(inner) + 2 * inner)
  }

  function Process(fill: Filler, str: string, offset: nat, tag: string): Turn {
    if tag !in KNOWN then Skipped(str, offset, |tag|)
    else
      match fill(tag, str, offset)
      case FillFailed => Skipped(str, offset, |tag|)
      case Filled(value, size, entries) =>
        if tag == "94" then
          match BerLength(str, offset + 2)
          case None => Skipped(str, offset, |tag|)
          case Some(l) => Took(tag, value, ObjectSize(2, l))
        else if tag == "B6" then Took(tag, value, RecomputedSize(entries))
        else Took(tag, value, AsInt(size))
  }

  /** `offset` may have wrapped around; then the substring throws. */
  function TurnAt(fill: Filler, str: string, offset: int): Turn {
    if AsInt(offset + 2) > |str| then Break(map[])
    else if offset < 0 || offset + 2 > |str| then Throw
    else
      match TagByte(str, offset)
      case None => Throw
      case Some(first) =>
        if first % 32 != 31 then Process(fill, str, offset, Upper(str[offset..offset + 2]))
        else if AsInt(offset + 4) > |str| then Break(map[])
        else if offset + 4 > |str| then Throw
        else Process(fill, str, offset, Upper(str[offset..offset + 4]))
  }

  // ---- The walk ----

  function Turns(fill: Filler, str: string): int -> Turn {
    (offset: int) => TurnAt(fill, str, offset)
  }

  /** The fields set, and every offset at which the loop test was evaluated or the loop left. */
  datatype Walked = Walked(fields: map<string, string>, stops: seq<int>) | Threw

  function After(stops: seq<int>, w: Walked): Walked {
    if w.Threw? then Threw else Walked(w.fields, stops + w.stops)
  }

  function Walk(turn: int -> Turn, offset: int, dataEnd: int, budget: nat, fields: map<string, string>): Walked
    decreases budget, offset
  {
    if offset >= dataEnd || budget == 0 then Walked(fields, [offset])
    else
      match turn(offset)
      case Throw => Threw
      case Break(found) => Walked(fields + found, [offset])
      case Move(found, consumed) =>
        After([offset], Walk(turn, AsInt(offset + consumed), dataEnd, budget - 1, fields + found))
  }

  datatype Span = Span(start: nat, end: int)

  /** Where the value of the BF25 object at `start` begins and ends. */
  function Envelope(str: string, start: int): Option<Span> {
    if start < 0 || start + 4 > |str| || Upper(str[start..start + 4]) != "BF25" then None
    else
      match BerLength(str, start + 4)
      case None => None
      case Some(l) => Some(Span(start + 4 + l.nibbles, AsInt(start + 4 + l.nibbles + 2 * l.octets)))
  }

  /** The whole parse: the envelope's tag and length, then the walk. */
  function Parse(fill: Filler, str: string, start: int): Walked {
    match Envelope(str, start)
    case None => Threw
    case Some(value) => Walk(Turns(fill, str), value.start, value.end, MAX_ITERATIONS, map[])
  }

  lemma AfterAfter(a: seq<int>, b: seq<int>, w: Walked)
    ensures After(a, After(b, w)) == After(a + b, w)
  {
    if w.Walked? {
      assert a + (b + w.stops) == (a + b) + w.stops;
    }
  }

  method ParseStoreMetadata(fill: Filler, str: string, start: int) returns (result: Walked)
    ensures result == Parse(fill, str, start)
  {
    var value := Envelope(str, start);
    if value.None? {
      return Threw;
    }
    result := WalkBody(Turns(fill, str), value.value.start, value.value.end);
  }

  method WalkBody(turn: int -> Turn, dataStart: nat, dataEnd: int) returns (result: Walked)
    ensures result == Walk(turn, dataStart, dataEnd, MAX_ITERATIONS, map[])
  {
    var offset: int := dataStart;
    var iterations: nat := 0;
    var fields: map<string, string> := map[];
    var stops: seq<int> := [];
    while offset < dataEnd && iterations < MAX_ITERATIONS
      invariant iterations <= MAX_ITERATIONS
      invariant After(stops, Walk(turn, offset, dataEnd, MAX_ITERATIONS - iterations, fields))
             == Walk(turn, dataStart, dataEnd, MAX_ITERATIONS, map[])
      decreases MAX_ITERATIONS - iterations
    {
      iterations := iterations + 1;
      match turn(offset) {
        case Throw =>
          return Threw;
        case Break(found) =>
          return Walked(fields + found, stops + [offset]);
        case Move(found, consumed) =>
          var next := AsInt(offset + consumed);
          AfterAfter(stops, [offset], Walk(turn, next, dataEnd, MAX_ITERATIONS - iterations, fields + found));
          stops := stops + [offset];
          fields := fields + found;
          offset := next;
      }
    }
    result := Walked(fields, stops + [offset]);
  }

  ghost predicate Increasing(s: seq<int>) {
    forall i, j :: 0 <= i < j < |s| ==> s[i] < s[j]
  }

  /** Strictly increasing, except that the last offset may have wrapped around after the last turn allowed. */
  ghost predicate GrowsFrom(w: Walked, offset: int, budget: nat) {
    w.Walked? ==>
      && 1 <= |w.stops| <= budget + 1 && w.stops[0] == offset
      && Increasing(w.stops[..|w.stops| - 1])
      && (Increasing(w.stops) || (w.stops[|w.stops| - 1] < 0 && |w.stops| == budget + 1))
  }

  /** A turn moves on by a positive Int, and at a wrapped offset it throws. */
  ghost predicate MovesOn(turn: int -> Turn) {
    forall offset: int ::
      && (turn(offset).Move? ==> 0 < turn(offset).consumed <= I32_MAX)
      && (-0x8000_0000 <= offset < 0 ==> turn(offset).Throw?)
  }

  lemma TurnMovesOn(fill: Filler, str: string, offset: int)
    ensures TurnAt(fill, str, offset).Move? ==> 0 < TurnAt(fill, str, offset).consumed <= I32_MAX
    ensures -0x8000_0000 <= offset < 0 && str != "" ==> TurnAt(fill, str, offset).Throw?
  {
  }

  lemma GrowsOn(w: Walked, rest: Walked, offset: nat, next: int, budget: nat)
    requires budget > 0 && w == After([offset], rest) && GrowsFrom(rest, next, budget - 1)
    requires next > offset || (next < 0 && (rest.Threw? || budget == 1))
    ensures GrowsFrom(w, offset, budget)
  {
    if w.Walked? {
      var n := |rest.stops|;
      assert w.stops[..n] == [offset] + rest.stops[..n - 1];
      forall i, j | 0 <= i < j < n ensures w.stops[i] < w.stops[j] {
        if i == 0 && next > offset { assert rest.stops[..n - 1][0] == next; }
        if i > 0 { assert rest.stops[..n - 1][i - 1] < rest.stops[..n - 1][j - 1]; }
      }
    }
  }

  lemma {:induction false} WalkGrows(turn: int -> Turn, offset: nat, dataEnd: nat, budget: nat,
                                     fields: map<string, string>)
    requires MovesOn(turn) && offset <= I32_MAX
    ensures GrowsFrom(Walk(turn, offset, dataEnd, budget, fields), offset, budget)
    decreases budget
  {
    if offset < dataEnd && budget != 0 && turn(offset).Move? {
      var next := AsInt(offset + turn(offset).consumed);
      var found := fields + turn(offset).fields;
      var rest := Walk(turn, next, dataEnd, budget - 1, found);
      if next >= 0 {
        WalkGrows(turn, next, dataEnd, budget - 1, found);
      } else if budget > 1 {
        assert turn(next).Throw?;
      }
      GrowsOn(Walk(turn, offset, dataEnd, budget, fields), rest, offset, next, budget);
    }
  }

  /**
   Whatever the text and the fillers do, at most 200 objects are tried, at strictly
   increasing offsets.  A length that makes an offset wrap around ends the parse
   with an exception, unless it was the last turn: only then is a parse returned,
   and only its final offset is negative.
   */
  lemma OffsetsGrow(fill: Filler, str: string, start: int)
    requires |str| <= I32_MAX
    ensures var w := Parse(fill, str, start);
            w.Walked? ==>
              && 1 <= |w.stops| <= MAX_ITERATIONS + 1
              && Increasing(w.stops[..|w.stops| - 1])
              && (Increasing(w.stops) || (w.stops[|w.stops| - 1] < 0 && |w.stops| == MAX_ITERATIONS + 1))
  {
    var value := Envelope(str, start);
    if value.Some? {
      forall offset: int
        ensures Turns(fill, str)(offset).Move? ==> 0 < Turns(fill, str)(offset).consumed <= I32_MAX
        ensures -0x8000_0000 <= offset < 0 ==> Turns(fill, str)(offset).Throw?
      {
        TurnMovesOn(fill, str, offset);
      }
      LengthFits(str, start + 4);
      if value.value.end >= 0 {
        WalkGrows(Turns(fill, str), value.value.start, value.value.end, MAX_ITERATIONS, map[]);
      }
    }
  }

  /** A length field that can be read lies within the text. */
  lemma LengthFits(str: string, offset: nat)
    ensures BerLength(str, offset).Some? ==> offset + BerLength(str, offset).value.nibbles <= |str|
  {
    if BerLength(str, offset).Some? {
      var first := OctetAt(str, offset).value;
      if first >= 0x80 {
        NumberFits(str, offset + 2, first - 0x80);
      }
    }
  }

  lemma {:induction false} NumberFits(str: string, offset: nat, k: nat)
    ensures k > 0 && BigEndian(str, offset, k).Some? ==> offset + 2 * k <= |str|
  {
    if k > 1 {
      NumberFits(str, offset, k - 1);
    }
  }

  // ---- Well-formed bodies ----

  datatype Tlv = Tlv(tag: string, length: string, content: string)

  function Text(t: Tlv): string {
    t.tag + t.length + t.content
  }

  /** Identifier octets of one or two octets (X.690 section 8.1.2). */
  predicate IsTag(tag: string) {
    || (|tag| == 2 && OctetAt(tag, 0).Some? && OctetAt(tag, 0).value % 32 != 31)
    || (|tag| == 4 && OctetAt(tag, 0).Some? && OctetAt(tag, 0).value % 32 == 31
        && OctetAt(tag, 2).Some? && OctetAt(tag, 2).value < 0x80)
  }

  predicate IsTlv(t: Tlv) {
    && IsTag(t.tag)
    && BerLength(t.length, 0).Some?
    && BerLength(t.length, 0).value == Length(|t.content| / 2, |t.length|)
    && |t.content| % 2 == 0
  }

  predicate At(str: string, offset: nat, t: Tlv) {
    offset + |Text(t)| <= |str| && str[offset..offset + |Text(t)|] == Text(t)
  }

  /** The objects stand one after the other from `offset`. */
  predicate BodyAt(str: string, offset: nat, tlvs: seq<Tlv>)
    decreases tlvs
  {
    if tlvs == [] then offset <= |str|
    else At(str, offset, tlvs[0]) && BodyAt(str, offset + |Text(tlvs[0])|, tlvs[1..])
  }

  function BodySize(tlvs: seq<Tlv>): nat {
    if tlvs == [] then 0 else |Text(tlvs[0])| + BodySize(tlvs[1..])
  }

  /** The offsets between objects, from the first object's to the one after the last. */
  function Boundaries(offset: nat, tlvs: seq<Tlv>): seq<int>
    decreases tlvs
  {
    if tlvs == [] then [offset] else [offset] + Boundaries(offset + |Text(tlvs[0])|, tlvs[1..])
  }

  /** What a value's octets mean, or None when its filler rejects them. */
  type Decoder = (string, string) -> Option<string>

  ghost predicate Reports(f: Fill, decode: Decoder, t: Tlv) {
    match decode(Upper(t.tag), t.content)
    case None => f.FillFailed?
    case Some(v) =>
      && f.Filled? && f.value == v
      && (Upper(t.tag) != "94" && Upper(t.tag) != "B6" ==> f.size == |Text(t)|)
      && (Upper(t.tag) == "B6" ==> 2 * InnerOctets(f.entries) == |t.content|)
  }

  /** Fillers that decode the object they are pointed at and report its size truthfully. */
  ghost predicate Honest(fill: Filler, decode: Decoder) {
    forall str: string, offset: nat, t: Tlv ::
      At(str, offset, t) && IsTlv(t) && Upper(t.tag) in KNOWN ==> Reports(fill(Upper(t.tag), str, offset), decode, t)
  }

  /** The one thing the walker assumes about the text: a notification list it can decode has the
      shortest length octets for its content. */
  ghost predicate Recomputable(t: Tlv, decode: Decoder) {
    Upper(t.tag) == "B6" && decode("B6", t.content).Some? ==> |t.length| == ShortestLength(|t.content| / 2)
  }

  function FieldsOf(tlvs: seq<Tlv>, decode: Decoder, fields: map<string, string>): map<string, string> {
    if tlvs == [] then fields
    else FieldsOf(tlvs[1..], decode, fields + FieldOf(tlvs[0], decode))
  }

  function FieldOf(t: Tlv, decode: Decoder): map<string, string> {
    if Upper(t.tag) in KNOWN && decode(Upper(t.tag), t.content).Some?
    then map[Upper(t.tag) := decode(Upper(t.tag), t.content).value] else map[]
  }

  lemma PartsOfText(str: string, offset: nat, t: Tlv)
    requires At(str, offset, t)
    ensures str[offset..offset + |t.tag|] == t.tag
    ensures str[offset + |t.tag|..offset + |t.tag| + |t.length|] == t.length
  {
    var text := Text(t);
    var a, b := |t.tag|, |t.tag| + |t.length|;
    assert text[..a] == t.tag && text[a..b] == t.length;
    SliceOfSlice(str, offset, text, 0, a);
    SliceOfSlice(str, offset, text, a, b);
  }

  lemma SliceOfSlice(str: string, offset: nat, text: string, a: nat, b: nat)
    requires a <= b <= |text| && offset + |text| <= |str| && str[offset..offset + |text|] == text
    ensures str[offset + a..offset + b] == text[a..b]
  {
    forall k | 0 <= k < b - a ensures str[offset + a..offset + b][k] == text[a..b][k] {
      assert str[offset..offset + |text|][a + k] == text[a + k];
    }
  }

  /** Tag and length octets of an object are read off the text as they are. */
  lemma ObjectIsRead(str: string, offset: nat, t: Tlv)
    requires At(str, offset, t) && IsTlv(t)
    ensures OctetAt(str, offset) == OctetAt(t.tag, 0)
    ensures str[offset..offset + |t.tag|] == t.tag
    ensures BerLength(str, offset + |t.tag|) == Some(Length(|t.content| / 2, |t.length|))
    ensures |Text(t)| == |t.tag| + |t.length| + 2 * (|t.content| / 2)
  {
    PartsOfText(str, offset, t);
    OctetIsLocal(str, offset, t.tag, 0);
    LengthIsLocal(str, offset + |t.tag|, t.length);
  }

  /** Both tag forms lead to the object's own tag. */
  lemma TagIsRead(fill: Filler, str: string, offset: nat, t: Tlv)
    requires |str| <= I32_MAX && offset + |t.tag| <= |str| && IsTag(t.tag)
    requires OctetAt(str, offset) == OctetAt(t.tag, 0) && str[offset..offset + |t.tag|] == t.tag
    ensures TurnAt(fill, str, offset) == Process(fill, str, offset, Upper(t.tag))
  {
    assert TagByte(str, offset) == Some(OctetAt(t.tag, 0).value);
    assert AsInt(offset + |t.tag|) == offset + |t.tag|;
    if |t.tag| == 2 {
      assert str[offset..offset + 2] == t.tag;
    } else {
      assert str[offset..offset + 4] == t.tag && AsInt(offset + 2) == offset + 2;
    }
  }

  lemma ObjectIsProcessed(fill: Filler, decode: Decoder, str: string, offset: nat, t: Tlv)
    requires |str| <= I32_MAX
    requires At(str, offset, t) && IsTlv(t) && Honest(fill, decode) && Recomputable(t, decode)
    requires BerLength(str, offset + |t.tag|) == Some(Length(|t.content| / 2, |t.length|))
    ensures Process(fill, str, offset, Upper(t.tag)) == Move(FieldOf(t, decode), |Text(t)|)
  {
    var tag := Upper(t.tag);
    assert ObjectSize(|tag|, Length(|t.content| / 2, |t.length|)) == |Text(t)|;
    if tag in KNOWN {
      assert Reports(fill(tag, str, offset), decode, t);
    }
  }

  /** One turn at an object consumes it exactly and sets exactly its field. */
  lemma TurnTakesObject(fill: Filler, decode: Decoder, str: string, offset: nat, t: Tlv)
    requires |str| <= I32_MAX
    requires At(str, offset, t) && IsTlv(t) && Honest(fill, decode) && Recomputable(t, decode)
    ensures TurnAt(fill, str, offset) == Move(FieldOf(t, decode), |Text(t)|)
  {
    ObjectIsRead(str, offset, t);
    TagIsRead(fill, str, offset, t);
    ObjectIsProcessed(fill, decode, str, offset, t);
  }

  /** The recomputed size of a notification list is its real one exactly when its length octets
      are the shortest; otherwise the walker lands before the next object. */
  lemma RecomputedSizeIsRightIff(str: string, offset: nat, t: Tlv, entries: seq<Option<int>>)
    requires At(str, offset, t) && IsTlv(t) && Upper(t.tag) == "B6" && |str| <= I32_MAX
    requires 2 * InnerOctets(entries) == |t.content|
    ensures RecomputedSize(entries) <= |Text(t)|
    ensures RecomputedSize(entries) == |Text(t)| <==> |t.length| == ShortestLength(|t.content| / 2)
  {
    ObjectIsRead(str, offset, t);
    ShortestIsShortest(t.length, 0);
  }

  ghost predicate Takes(turn: int -> Turn, decode: Decoder, str: string, t: Tlv) {
    |Text(t)| > 0 && forall offset: nat :: At(str, offset, t) ==> turn(offset) == Move(FieldOf(t, decode), |Text(t)|)
  }

  lemma {:induction false} WalkTakesBody(turn: int -> Turn, decode: Decoder, str: string, offset: nat, dataEnd: nat,
                                         tlvs: seq<Tlv>, budget: nat, fields: map<string, string>)
    requires BodyAt(str, offset, tlvs) && dataEnd == offset + BodySize(tlvs) && |tlvs| <= budget && |str| <= I32_MAX
    requires forall t :: t in tlvs ==> Takes(turn, decode, str, t)
    ensures Walk(turn, offset, dataEnd, budget, fields)
         == Walked(FieldsOf(tlvs, decode, fields), Boundaries(offset, tlvs))
    decreases tlvs
  {
    if tlvs != [] {
      var t := tlvs[0];
      assert Takes(turn, decode, str, t);
      WalkTakesBody(turn, decode, str, offset + |Text(t)|, dataEnd, tlvs[1..], budget - 1, fields + FieldOf(t, decode));
    }
  }

  ghost predicate WellFormed(tlvs: seq<Tlv>, decode: Decoder) {
    forall t :: t in tlvs ==> IsTlv(t) && Recomputable(t, decode)
  }

  lemma TurnsTake(fill: Filler, decode: Decoder, str: string, t: Tlv)
    requires IsTlv(t) && Honest(fill, decode) && Recomputable(t, decode) && |str| <= I32_MAX
    ensures Takes(Turns(fill, str), decode, str, t)
  {
    forall offset: nat | At(str, offset, t)
      ensures Turns(fill, str)(offset) == Move(FieldOf(t, decode), |Text(t)|)
    {
      TurnTakesObject(fill, decode, str, offset, t);
    }
  }

  /** A BF25 object at `start` whose value is exactly `tlvs`. */
  ghost predicate EnvelopeAt(str: string, start: nat, tlvs: seq<Tlv>, value: Span) {
    && Envelope(str, start) == Some(value)
    && value.end == value.start + BodySize(tlvs)
    && BodyAt(str, value.start, tlvs)
  }

  lemma BodyIsTaken(fill: Filler, decode: Decoder, str: string, offset: nat, dataEnd: nat, tlvs: seq<Tlv>, budget: nat,
                    w: Walked)
    requires BodyAt(str, offset, tlvs) && dataEnd == offset + BodySize(tlvs) && |tlvs| <= budget
    requires Honest(fill, decode) && WellFormed(tlvs, decode) && |str| <= I32_MAX
    requires w == Walk(Turns(fill, str), offset, dataEnd, budget, map[])
    ensures w == Walked(FieldsOf(tlvs, decode, map[]), Boundaries(offset, tlvs))
  {
    var turn := Turns(fill, str);
    forall t | t in tlvs ensures Takes(turn, decode, str, t) {
      TurnsTake(fill, decode, str, t);
    }
    WalkTakesBody(turn, decode, str, offset, dataEnd, tlvs, budget, map[]);
  }

  /** A well-formed body of at most 200 objects is walked object by object to its end. */
  lemma ParseTakesEnvelope(fill: Filler, decode: Decoder, str: string, start: nat, tlvs: seq<Tlv>, value: Span)
    requires EnvelopeAt(str, start, tlvs, value) && Honest(fill, decode) && |tlvs| <= MAX_ITERATIONS
    requires WellFormed(tlvs, decode) && |str| <= I32_MAX
    ensures Parse(fill, str, start) == Walked(FieldsOf(tlvs, decode, map[]), Boundaries(value.start, tlvs))
  {
    BodyIsTaken(fill, decode, str, value.start, value.end, tlvs, MAX_ITERATIONS, Parse(fill, str, start));
  }

  lemma {:induction false} BoundariesEnd(offset: nat, tlvs: seq<Tlv>)
    ensures |Boundaries(offset, tlvs)| == |tlvs| + 1
    ensures Boundaries(offset, tlvs)[|tlvs|] == offset + BodySize(tlvs)
    decreases tlvs
  {
    if tlvs != [] {
      BoundariesEnd(offset + |Text(tlvs[0])|, tlvs[1..]);
    }
  }

  // ---- What the fields are ----

  ghost predicate Sets(t: Tlv, decode: Decoder, field: string) {
    Upper(t.tag) == field && field in KNOWN && decode(field, t.content).Some?
  }

  ghost predicate SetsLast(tlvs: seq<Tlv>, decode: Decoder, field: string, j: nat)
    requires j < |tlvs|
  {
    Sets(tlvs[j], decode, field) && forall k: nat :: j < k < |tlvs| ==> !Sets(tlvs[k], decode, field)
  }

  /** A field holds its last decodable occurrence, or what it held before if there is none. */
  lemma {:induction false} FieldsAreLastOccurrences(tlvs: seq<Tlv>, decode: Decoder, fields: map<string, string>,
                                                    field: string)
    ensures var m := FieldsOf(tlvs, decode, fields);
            if exists j: nat :: j < |tlvs| && Sets(tlvs[j], decode, field)
            then field in m && exists j: nat :: j < |tlvs| && SetsLast(tlvs, decode, field, j)
                                                 && m[field] == decode(field, tlvs[j].content).value
            else (field in m <==> field in fields) && (field in m ==> m[field] == fields[field])
  {
    if tlvs != [] {
      var rest := tlvs[1..];
      var next := fields + FieldOf(tlvs[0], decode);
      FieldsAreLastOccurrences(rest, decode, next, field);
      assert forall j: nat :: j < |rest| ==> rest[j] == tlvs[j + 1];
      if j: nat :| j < |rest| && SetsLast(rest, decode, field, j)
                   && FieldsOf(rest, decode, next)[field] == decode(field, rest[j].content).value {
        assert forall k: nat :: j + 1 < k < |tlvs| ==> tlvs[k] == rest[k - 1];
        assert SetsLast(tlvs, decode, field, j + 1);
      }
    }
  }

  lemma {:induction false} FieldsSkipUnknown(before: seq<Tlv>, t: Tlv, after: seq<Tlv>, decode: Decoder,
                                             fields: map<string, string>)
    requires Upper(t.tag) !in KNOWN
    ensures FieldsOf(before + [t] + after, decode, fields) == FieldsOf(before + after, decode, fields)
  {
    if before == [] {
      assert (before + [t] + after)[1..] == after;
      assert before + after == after;
      assert fields + map[] == fields;
    } else {
      assert (before + [t] + after)[1..] == before[1..] + [t] + after;
      assert (before + after)[1..] == before[1..] + after;
      FieldsSkipUnknown(before[1..], t, after, decode, fields + FieldOf(before[0], decode));
    }
  }

  /** Inserting an object with an unknown tag anywhere changes no field of the parse. */
  lemma UnknownObjectsAreIgnored(fill: Filler, decode: Decoder, plain: string, extended: string, start: nat,
                                 before: seq<Tlv>, t: Tlv, after: seq<Tlv>, short: Span, long: Span)
    requires Honest(fill, decode) && Upper(t.tag) !in KNOWN && IsTlv(t)
    requires WellFormed(before + after, decode)
    requires |before + after| < MAX_ITERATIONS && |plain| <= I32_MAX && |extended| <= I32_MAX
    requires EnvelopeAt(plain, start, before + after, short) && EnvelopeAt(extended, start, before + [t] + after, long)
    ensures Parse(fill, plain, start).Walked? && Parse(fill, extended, start).Walked?
    ensures Parse(fill, extended, start).fields == Parse(fill, plain, start).fields
  {
    assert forall u :: u in before + [t] + after ==> u == t || u in before + after;
    ParseTakesEnvelope(fill, decode, plain, start, before + after, short);
    ParseTakesEnvelope(fill, decode, extended, start, before + [t] + after, long);
    FieldsSkipUnknown(before, t, after, decode, map[]);
  }
}
