/**
 * Unpadded base64url, section 5 of RFC 4648 (src/shared/hosted-contract.ts,
 * base64urlEncode and base64urlDecode): four characters of six bits for every
 * three bytes, two or three for a last one or two. Decoding ignores the bits of
 * the last character that no byte uses, as atob does.
 */
module Base64Url {
  import opened Common

  type Byte = bv8

  /** Six bits. */
  type Sextet = n: bv8 | n < 64

  /** Table 2. */
  function LetterAt(place: int): char
    requires 0 <= place < 64
  {
    if place < 26 then ('A' as int + place) as char
    else if place < 52 then ('a' as int + place - 26) as char
    else if place < 62 then ('0' as int + place - 52) as char
    else if place == 62 then '-' else '_'
  }

  function Letter(n: Sextet): char { LetterAt(n as int) }

  predicate IsLetter(c: char) { 'A' <= c <= 'Z' || 'a' <= c <= 'z' || '0' <= c <= '9' || c == '-' || c == '_' }

  function Place(c: char): (p: int)
    requires IsLetter(c)
    ensures 0 <= p < 64
  {
    if 'A' <= c <= 'Z' then c as int - 'A' as int
    else if 'a' <= c <= 'z' then c as int - 'a' as int + 26
    else if '0' <= c <= '9' then c as int - '0' as int + 52
    else if c == '-' then 62 else 63
  }

  function Value(c: char): Sextet
    requires IsLetter(c)
  {
    Place(c) as bv8
  }

  /** The four sextets of three bytes, and the three bytes of four sextets. */
  function First(a: Byte): Sextet { a >> 2 }
  function Second(a: Byte, b: Byte): Sextet { ((a & 3) << 4) | (b >> 4) }
  function Third(b: Byte, c: Byte): Sextet { ((b & 15) << 2) | (c >> 6) }
  function Fourth(c: Byte): Sextet { c & 63 }
  function ByteA(s: Sextet, t: Sextet): Byte { (s << 2) | (t >> 4) }
  function ByteB(t: Sextet, u: Sextet): Byte { ((t & 15) << 4) | (u >> 2) }
  function ByteC(u: Sextet, v: Sextet): Byte { ((u & 3) << 6) | v }

  function Sextets(bytes: seq<Byte>): seq<Sextet>
    decreases |bytes|
  {
    if bytes == [] then []
    else if |bytes| == 1 then [First(bytes[0]), Second(bytes[0], 0)]
    else if |bytes| == 2 then [First(bytes[0]), Second(bytes[0], bytes[1]), Third(bytes[1], 0)]
    else
      [First(bytes[0]), Second(bytes[0], bytes[1]), Third(bytes[1], bytes[2]), Fourth(bytes[2])] + Sextets(bytes[3..])
  }

  function Bytes(s: seq<Sextet>): seq<Byte>
    requires |s| % 4 != 1
    decreases |s|
  {
    if s == [] then []
    else if |s| == 2 then [ByteA(s[0], s[1])]
    else if |s| == 3 then [ByteA(s[0], s[1]), ByteB(s[1], s[2])]
    else [ByteA(s[0], s[1]), ByteB(s[1], s[2]), ByteC(s[2], s[3])] + Bytes(s[4..])
  }

  function Text(s: seq<Sextet>): (text: string)
    ensures |text| == |s|
  {
    seq(|s|, k requires 0 <= k < |s| => Letter(s[k]))
  }

  predicate Letters(text: string) { forall k | 0 <= k < |text| :: IsLetter(text[k]) }

  function Values(text: string): (s: seq<Sextet>)
    requires Letters(text)
    ensures |s| == |text|
  {
    seq(|text|, k requires 0 <= k < |text| => Value(text[k]))
  }

  function Encode(bytes: seq<Byte>): string { Text(Sextets(bytes)) }

  /** Null for the empty text too: its pattern asks for one character at least. */
  function Decode(text: string): Option<seq<Byte>> {
    if text == "" || !Letters(text) || |text| % 4 == 1 then None else Some(Bytes(Values(text)))
  }

  // ----- letters and groups ------------------------------------------------------

  lemma PlaceOfLetter(place: int)
    requires 0 <= place < 64
    ensures IsLetter(LetterAt(place)) && Place(LetterAt(place)) == place
  {
  }

  lemma LetterOfPlace(c: char)
    requires IsLetter(c)
    ensures LetterAt(Place(c)) == c
  {
  }

  lemma PlaceAsBits(place: int)
    requires 0 <= place < 64
    ensures place as bv8 < 64 && place as bv8 as int == place
  {
    assert place as bv8 as int == place;
  }

  lemma LetterOfValue(c: char)
    requires IsLetter(c)
    ensures Letter(Value(c)) == c
  {
    PlaceAsBits(Place(c));
    LetterOfPlace(c);
  }

  lemma TextValues(s: seq<Sextet>)
    ensures Letters(Text(s)) && Values(Text(s)) == s
  {
    forall k | 0 <= k < |s| ensures IsLetter(Letter(s[k])) && Value(Letter(s[k])) == s[k] {
      PlaceOfLetter(s[k] as int);
    }
  }

  lemma ValuesText(text: string)
    requires Letters(text)
    ensures Text(Values(text)) == text
  {
    forall k | 0 <= k < |text| ensures Letter(Value(text[k])) == text[k] {
      LetterOfValue(text[k]);
    }
    assert |Text(Values(text))| == |text|;
  }

  /** Three bytes to four sextets and back. */
  lemma Group(a: Byte, b: Byte, c: Byte)
    ensures ByteA(First(a), Second(a, b)) == a && ByteB(Second(a, b), Third(b, c)) == b
            && ByteC(Third(b, c), Fourth(c)) == c
  {
  }

  /** Four sextets to three bytes and back; the last of two or three loses its unused bits. */
  lemma Ungroup(s: Sextet, t: Sextet, u: Sextet, v: Sextet)
    ensures var a, b, c := ByteA(s, t), ByteB(t, u), ByteC(u, v);
            && First(a) == s && Second(a, b) == t && Third(b, c) == u && Fourth(c) == v
            && (Second(a, 0) == t <==> t & 15 == 0) && (Third(b, 0) == u <==> u & 3 == 0)
  {
  }

  lemma MoreSextets(bytes: seq<Byte>)
    requires |bytes| > 2
    ensures var four := [First(bytes[0]), Second(bytes[0], bytes[1]), Third(bytes[1], bytes[2]), Fourth(bytes[2])];
            Sextets(bytes) == four + Sextets(bytes[3..]) && Sextets(bytes)[4..] == Sextets(bytes[3..])
  {
  }

  lemma MoreBytes(s: seq<Sextet>)
    requires |s| > 3 && |s| % 4 != 1
    ensures var three := [ByteA(s[0], s[1]), ByteB(s[1], s[2]), ByteC(s[2], s[3])];
            Bytes(s) == three + Bytes(s[4..]) && Bytes(s)[3..] == Bytes(s[4..])
  {
  }

  lemma FewBytes(bytes: seq<Byte>)
    requires 1 <= |bytes| <= 2
    ensures Bytes(Sextets(bytes)) == bytes
  {
    if |bytes| == 1 {
      Group(bytes[0], 0, 0);
      assert Bytes(Sextets(bytes)) == [bytes[0]];
    } else {
      Group(bytes[0], bytes[1], 0);
      assert Bytes(Sextets(bytes)) == [bytes[0], bytes[1]];
    }
  }

  lemma FirstBytes(bytes: seq<Byte>)
    requires |bytes| > 2 && |Sextets(bytes)| % 4 != 1 && |Sextets(bytes[3..])| % 4 != 1
    ensures Bytes(Sextets(bytes)) == bytes[..3] + Bytes(Sextets(bytes[3..]))
  {
    MoreSextets(bytes);
    MoreBytes(Sextets(bytes));
    Group(bytes[0], bytes[1], bytes[2]);
    assert bytes[..3] == [bytes[0], bytes[1], bytes[2]];
  }

  lemma {:induction false} SextetCount(bytes: seq<Byte>)
    ensures |Sextets(bytes)| % 4 != 1 && (bytes != [] ==> Sextets(bytes) != [])
    decreases |bytes|
  {
    if |bytes| > 2 {
      SextetCount(bytes[3..]);
      MoreSextets(bytes);
    }
  }

  lemma {:induction false} BytesOfSextets(bytes: seq<Byte>)
    ensures |Sextets(bytes)| % 4 != 1 && Bytes(Sextets(bytes)) == bytes
    decreases |bytes|
  {
    SextetCount(bytes);
    if |bytes| > 2 {
      BytesOfSextets(bytes[3..]);
      FirstBytes(bytes);
      assert bytes == bytes[..3] + bytes[3..];
    } else if bytes != [] {
      FewBytes(bytes);
    }
  }

  /** Decoding undoes encoding, except that no bytes at all do not come back. */
  lemma DecodeUndoesEncode(bytes: seq<Byte>)
    ensures Decode(Encode(bytes)) == if bytes == [] then None else Some(bytes)
  {
    TextValues(Sextets(bytes));
    SextetCount(bytes);
    BytesOfSextets(bytes);
  }

  /** The last character's unused bits are zero. */
  predicate Canonical(s: seq<Sextet>) {
    (|s| % 4 == 2 ==> s[|s| - 1] & 15 == 0) && (|s| % 4 == 3 ==> s[|s| - 1] & 3 == 0)
  }

  lemma TwoSextets(s: seq<Sextet>)
    requires |s| == 2
    ensures Sextets(Bytes(s)) == s <==> Canonical(s)
  {
    Ungroup(s[0], s[1], 0, 0);
    assert Sextets(Bytes(s)) == [s[0], Second(ByteA(s[0], s[1]), 0)] && s == [s[0], s[1]];
  }

  lemma ThreeSextets(s: seq<Sextet>)
    requires |s| == 3
    ensures Sextets(Bytes(s)) == s <==> Canonical(s)
  {
    Ungroup(s[0], s[1], s[2], 0);
    assert Sextets(Bytes(s)) == [s[0], s[1], Third(ByteB(s[1], s[2]), 0)] && s == [s[0], s[1], s[2]];
  }

  lemma {:induction false} SextetsOfBytes(s: seq<Sextet>)
    requires |s| % 4 != 1
    ensures Sextets(Bytes(s)) == s <==> Canonical(s)
    decreases |s|
  {
    if |s| == 2 {
      TwoSextets(s);
    } else if |s| == 3 {
      ThreeSextets(s);
    } else if |s| > 3 {
      SextetsOfBytes(s[4..]);
      FirstGroup(s);
      CanonicalTail(s);
    }
  }

  lemma CanonicalTail(s: seq<Sextet>)
    requires |s| > 3
    ensures Canonical(s) <==> Canonical(s[4..])
  {
  }

  lemma FirstGroup(s: seq<Sextet>)
    requires |s| > 3 && |s| % 4 != 1
    ensures Sextets(Bytes(s)) == s <==> Sextets(Bytes(s[4..])) == s[4..]
  {
    MoreBytes(s);
    MoreSextets(Bytes(s));
    Ungroup(s[0], s[1], s[2], s[3]);
    assert s == [s[0], s[1], s[2], s[3]] + s[4..];
  }

  /** Encoding undoes decoding exactly for the texts whose unused bits are zero, so two texts can decode alike. */
  lemma EncodeUndoesDecode(text: string)
    ensures Decode(text).Some? ==> Letters(text) && (Encode(Decode(text).value) == text <==> Canonical(Values(text)))
  {
    if Decode(text).Some? {
      var s := Values(text);
      SextetsOfBytes(s);
      ValuesText(text);
      TextValues(Sextets(Bytes(s)));
      TextValues(s);
    }
  }

  // ----- the text itself ---------------------------------------------------------------

  /** Table 2: three runs of letters in order, then the two characters safe in URLs. */
  lemma AlphabetIs(place: int)
    requires 0 <= place < 64
    ensures place < 26 ==> LetterAt(place) as int == 'A' as int + place
    ensures 26 <= place < 52 ==> LetterAt(place) as int == 'a' as int + (place - 26)
    ensures 52 <= place < 62 ==> LetterAt(place) as int == '0' as int + (place - 52)
    ensures place == 62 ==> LetterAt(place) == '-'
    ensures place == 63 ==> LetterAt(place) == '_'
  {
  }

  /** Three bytes as 24 bits. */
  function ByteBits(a: Byte, b: Byte, c: Byte): bv24 { ((a as bv24) << 16) | ((b as bv24) << 8) | (c as bv24) }

  /** Four sextets as 24 bits. */
  function SextetBits(s: Sextet, t: Sextet, u: Sextet, v: Sextet): bv24 {
    ((s as bv24) << 18) | ((t as bv24) << 12) | ((u as bv24) << 6) | (v as bv24)
  }

  /** Four characters as 24 bits, by their places. */
  function PlaceBits(text: string): bv24
    requires |text| == 4 && Letters(text)
  {
    SextetBits(Value(text[0]), Value(text[1]), Value(text[2]), Value(text[3]))
  }

  lemma SextetsAreTheBits(a: Byte, b: Byte, c: Byte)
    ensures SextetBits(First(a), Second(a, b), Third(b, c), Fourth(c)) == ByteBits(a, b, c)
  {
  }

  /** The text of three bytes, or of a last one or two with zeros behind them. */
  function GroupText(bytes: seq<Byte>): string
    requires bytes != []
  {
    var b := if |bytes| > 1 then bytes[1] else 0;
    var c := if |bytes| > 2 then bytes[2] else 0;
    Text([First(bytes[0]), Second(bytes[0], b), Third(b, c), Fourth(c)])
  }

  /**
   * Every three bytes are four characters that stand for the same 24 bits; of a
   * last one or two bytes, with zeros behind them, only the two or three characters
   * that say something are kept.
   */
  lemma GroupsAreTheBits(bytes: seq<Byte>)
    requires bytes != []
    ensures |GroupText(bytes)| == 4 && Letters(GroupText(bytes))
    ensures PlaceBits(GroupText(bytes)) == ByteBits(bytes[0], if |bytes| > 1 then bytes[1] else 0,
                                                if |bytes| > 2 then bytes[2] else 0)
    ensures Encode(bytes) == if |bytes| < 3 then GroupText(bytes)[..|bytes| + 1]
                             else GroupText(bytes) + Encode(bytes[3..])
  {
    var a, b, c := bytes[0], if |bytes| > 1 then bytes[1] else 0, if |bytes| > 2 then bytes[2] else 0;
    var s := [First(a), Second(a, b), Third(b, c), Fourth(c)];
    SextetsAreTheBits(a, b, c);
    TextValues(s);
    if |bytes| < 3 {
      assert Sextets(bytes) == s[..|bytes| + 1];
      assert Encode(bytes) == Text(s)[..|bytes| + 1];
    } else {
      assert Sextets(bytes) == s + Sextets(bytes[3..]);
      TextJoins(s, Sextets(bytes[3..]));
    }
  }

  lemma TextJoins(s: seq<Sextet>, t: seq<Sextet>)
    ensures Text(s + t) == Text(s) + Text(t)
  {
  }
}
