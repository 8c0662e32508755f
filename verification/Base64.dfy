/** The base64 of Node's Buffer: the encoding of section 4 of RFC 4648, and a decoding that skips characters outside the
  * alphabet, takes the URL-safe letters too, and stops at the first padding character. */
module Base64 {

  type Byte = b: nat | b < 256

  type Sextet = d: nat | d < 64

  function Letter(d: Sextet): char {
    if d < 26 then 'A' + d as char
    else if d < 52 then 'a' + (d - 26) as char
    else if d < 62 then '0' + (d - 52) as char
    else if d == 62 then '+'
    else '/'
  }

  predicate IsLetter(c: char) {
    'A' <= c <= 'Z' || 'a' <= c <= 'z' || '0' <= c <= '9' || c == '+' || c == '/' || c == '-' || c == '_'
  }

  function SextetOf(c: char): Sextet
    requires IsLetter(c)
  {
    if 'A' <= c <= 'Z' then c as int - 'A' as int
    else if 'a' <= c <= 'z' then c as int - 'a' as int + 26
    else if '0' <= c <= '9' then c as int - '0' as int + 52
    else if c == '+' || c == '-' then 62
    else 63
  }

  lemma LetterRoundTrip(d: Sextet)
    ensures IsLetter(Letter(d)) && SextetOf(Letter(d)) == d && Letter(d) != ':' && Letter(d) != '='
  {
  }

  /** The letters of three bytes, and of the one or two at the end. */
  function Three(a: Byte, b: Byte, c: Byte): string {
    [Letter(a / 4), Letter(a % 4 * 16 + b / 16), Letter(b % 16 * 4 + c / 64), Letter(c % 64)]
  }

  function Encode(data: seq<Byte>): string {
    if |data| == 0 then ""
    else if |data| == 1 then [Letter(data[0] / 4), Letter(data[0] % 4 * 16), '=', '=']
    else if |data| == 2 then [Letter(data[0] / 4), Letter(data[0] % 4 * 16 + data[1] / 16), Letter(data[1] % 16 * 4), '=']
    else Three(data[0], data[1], data[2]) + Encode(data[3..])
  }

  /** The letters of a text up to its first padding character. */
  function Letters(text: string): seq<Sextet> {
    if |text| == 0 || text[0] == '=' then []
    else if IsLetter(text[0]) then [SextetOf(text[0])] + Letters(text[1..])
    else Letters(text[1..])
  }

  /** The three bytes of four letters. */
  function First(d0: Sextet, d1: Sextet): Byte { d0 as int * 4 + d1 as int / 16 }

  function Second(d1: Sextet, d2: Sextet): Byte { d1 as int % 16 * 16 + d2 as int / 4 }

  function Third(d2: Sextet, d3: Sextet): Byte { d2 as int % 4 * 64 + d3 as int }

  function Join(ds: seq<Sextet>): seq<Byte> {
    if |ds| < 2 then []
    else if |ds| == 2 then [First(ds[0], ds[1])]
    else if |ds| == 3 then [First(ds[0], ds[1]), Second(ds[1], ds[2])]
    else [First(ds[0], ds[1]), Second(ds[1], ds[2]), Third(ds[2], ds[3])] + Join(ds[4..])
  }

  function Decode(text: string): seq<Byte> {
    Join(Letters(text))
  }

  lemma LettersOfLetter(d: Sextet, rest: string)
    ensures Letters([Letter(d)] + rest) == [d] + Letters(rest)
  {
    LetterRoundTrip(d);
    assert ([Letter(d)] + rest)[1..] == rest;
  }

  lemma LettersOfThree(a: Byte, b: Byte, c: Byte, rest: string)
    ensures Letters(Three(a, b, c) + rest) == [a / 4, a % 4 * 16 + b / 16, b % 16 * 4 + c / 64, c % 64] + Letters(rest)
  {
    var d0, d1, d2, d3 := a / 4, a % 4 * 16 + b / 16, b % 16 * 4 + c / 64, c % 64;
    LettersOfLetter(d3, rest);
    LettersOfLetter(d2, [Letter(d3)] + rest);
    LettersOfLetter(d1, [Letter(d2)] + ([Letter(d3)] + rest));
    LettersOfLetter(d0, [Letter(d1)] + ([Letter(d2)] + ([Letter(d3)] + rest)));
    assert Three(a, b, c) + rest == [Letter(d0)] + ([Letter(d1)] + ([Letter(d2)] + ([Letter(d3)] + rest)));
  }

  lemma JoinThree(a: Byte, b: Byte, c: Byte, ds: seq<Sextet>)
    ensures Join([a / 4, a % 4 * 16 + b / 16, b % 16 * 4 + c / 64, c % 64] + ds) == [a, b, c] + Join(ds)
  {
    var all := [a / 4, a % 4 * 16 + b / 16, b % 16 * 4 + c / 64, c % 64] + ds;
    assert all[4..] == ds;
  }

  lemma RoundTripOne(a: Byte)
    ensures Decode(Encode([a])) == [a]
  {
    LettersOfLetter(a % 4 * 16, "==");
    LettersOfLetter(a / 4, [Letter(a % 4 * 16)] + "==");
    assert Encode([a]) == [Letter(a / 4)] + ([Letter(a % 4 * 16)] + "==");
  }

  lemma RoundTripTwo(a: Byte, b: Byte)
    ensures Decode(Encode([a, b])) == [a, b]
  {
    var d0, d1, d2 := a / 4, a % 4 * 16 + b / 16, b % 16 * 4;
    assert Encode([a, b]) == [Letter(d0)] + ([Letter(d1)] + ([Letter(d2)] + "="));
    hide Letter, Encode, Letters;
    assert Letters("=") == [] by { NoLetters(); }
    LettersOfLetter(d2, "=");
    LettersOfLetter(d1, [Letter(d2)] + "=");
    LettersOfLetter(d0, [Letter(d1)] + ([Letter(d2)] + "="));
    assert Letters(Encode([a, b])) == [d0, d1, d2];
  }

  lemma NoLetters()
    ensures Letters("=") == []
  {
  }

  /** Every sequence of bytes comes back from its base64. */
  lemma {:induction false} RoundTrip(data: seq<Byte>)
    ensures Decode(Encode(data)) == data
  {
    if |data| == 0 {
    } else if |data| == 1 {
      assert data == [data[0]];
      RoundTripOne(data[0]);
    } else if |data| == 2 {
      assert data == [data[0], data[1]];
      RoundTripTwo(data[0], data[1]);
    } else {
      RoundTrip(data[3..]);
      LettersOfThree(data[0], data[1], data[2], Encode(data[3..]));
      JoinThree(data[0], data[1], data[2], Letters(Encode(data[3..])));
      assert data == [data[0], data[1], data[2]] + data[3..];
    }
  }

  /** No colon occurs in base64, so colons can separate its fields. */
  lemma {:induction false} NoColon(data: seq<Byte>)
    ensures ':' !in Encode(data)
  {
    if |data| >= 3 {
      NoColon(data[3..]);
      LetterRoundTrip(data[0] / 4);
      LetterRoundTrip(data[0] % 4 * 16 + data[1] / 16);
      LetterRoundTrip(data[1] % 16 * 4 + data[2] / 64);
      LetterRoundTrip(data[2] % 64);
    } else if |data| > 0 {
      LetterRoundTrip(data[0] / 4);
      LetterRoundTrip(data[0] % 4 * 16);
      if |data| == 2 {
        LetterRoundTrip(data[0] % 4 * 16 + data[1] / 16);
        LetterRoundTrip(data[1] % 16 * 4);
      }
    }
  }

  // ---------- against section 4 of RFC 4648 ----------

  /** Table 1 in ASCII codes. */
  function CodeOf(d: Sextet): int {
    if d <= 25 then 65 + d else if d <= 51 then 71 + d else if d <= 61 then d - 4 else if d == 62 then 43 else 47
  }

  lemma LetterInTable(d: Sextet)
    ensures Letter(d) as int == CodeOf(d)
  {
  }

  /** Three bytes become the four letters whose values make up the same 24 bits. */
  lemma EncodesThree(a: Byte, b: Byte, c: Byte, rest: seq<Byte>) returns (d: seq<Sextet>)
    ensures |d| == 4 && d[0] as int * 262144 + d[1] as int * 4096 + d[2] as int * 64 + d[3] == a * 65536 + b * 256 + c
    ensures
      var text := Encode([a, b, c] + rest);
      |text| == 4 + |Encode(rest)| && text[4..] == Encode(rest) && forall i :: 0 <= i < 4 ==> text[i] as int == CodeOf(d[i])
  {
    d := [a / 4, a % 4 * 16 + b / 16, b % 16 * 4 + c / 64, c % 64];
    assert ([a, b, c] + rest)[3..] == rest;
    LetterInTable(d[0]);
    LetterInTable(d[1]);
    LetterInTable(d[2]);
    LetterInTable(d[3]);
  }

  /** One or two bytes at the end are filled up with zero bits, and the text with padding. */
  lemma EncodesLast(a: Byte, b: Byte) returns (d: seq<Sextet>, e: seq<Sextet>)
    ensures |d| == 2 && d[0] as int * 64 + d[1] == a * 16 && Encode([a]) == [CodeOf(d[0]) as char, CodeOf(d[1]) as char, '=', '=']
    ensures |e| == 3 && e[0] as int * 4096 + e[1] as int * 64 + e[2] == (a * 256 + b) * 4
    ensures Encode([a, b]) == [CodeOf(e[0]) as char, CodeOf(e[1]) as char, CodeOf(e[2]) as char, '=']
  {
    d := [a / 4, a % 4 * 16];
    e := [a / 4, a % 4 * 16 + b / 16, b % 16 * 4];
    LetterInTable(d[0]);
    LetterInTable(d[1]);
    LetterInTable(e[1]);
    LetterInTable(e[2]);
  }

  /** Padding ends a text, the URL-safe letters stand for the usual ones, and any other character is skipped. */
  lemma {:induction false} DecodesLeniently(before: string, c: char, after: string)
    ensures c == '=' ==> Letters(before + [c] + after) == Letters(before)
    ensures c == '-' ==> Letters(before + [c] + after) == Letters(before + ['+'] + after)
    ensures c == '_' ==> Letters(before + [c] + after) == Letters(before + ['/'] + after)
    ensures c !in "-_=" && (forall d: Sextet :: CodeOf(d) != c as int) ==> Letters(before + [c] + after) == Letters(before + after)
  {
    if |before| == 0 {
      FirstLetter(c, after);
      assert before + [c] + after == [c] + after && before + after == after;
    } else {
      DecodesLeniently(before[1..], c, after);
      Shift(before, c, after);
      Shift(before, '+', after);
      Shift(before, '/', after);
      assert (before + after)[1..] == before[1..] + after;
    }
  }

  /** Each four letters are three bytes, and letters that are left over fill no further byte. */
  lemma {:induction false} DecodedLength(ds: seq<Sextet>)
    ensures |Join(ds)| == |ds| * 3 / 4
  {
    if |ds| >= 4 { DecodedLength(ds[4..]); }
  }

  lemma Shift(before: string, c: char, after: string)
    requires |before| > 0
    ensures
      Letters(before + [c] + after)
      == if before[0] == '=' then [] else (if IsLetter(before[0]) then [SextetOf(before[0])] else []) + Letters(before[1..] + [c] + after)
  {
    assert (before + [c] + after)[1..] == before[1..] + [c] + after;
  }

  lemma FirstLetter(c: char, after: string)
    ensures c == '=' ==> Letters([c] + after) == Letters("")
    ensures c == '-' ==> Letters([c] + after) == Letters(['+'] + after)
    ensures c == '_' ==> Letters([c] + after) == Letters(['/'] + after)
    ensures c !in "-_=" && (forall d: Sextet :: CodeOf(d) != c as int) ==> Letters([c] + after) == Letters(after)
  {
    assert ([c] + after)[1..] == after && (['+'] + after)[1..] == after && (['/'] + after)[1..] == after;
    if IsLetter(c) && c !in "-_" {
      LetterInTable(SextetOf(c));
      assert CodeOf(SextetOf(c)) == c as int;
    }
  }
}
