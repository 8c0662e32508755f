/** apps/api/src/common/crypto/wallet-key-encryption.ts: wallet keys at rest, as iv:tag:ciphertext in base64. The cipher
  * itself is given by its contract. */
module Envelope {
  import opened Domain
  import opened Base64

  const IV_LENGTH: nat := 12
  const AUTH_TAG_LENGTH: nat := 16
  const KEY_LENGTH: nat := 32

  type Bytes = seq<Byte>

  datatype Sealed = Sealed(ciphertext: Bytes, tag: Bytes)

  /** AES-256-GCM: seal(key, iv, plaintext), and open(key, iv, sealed), which fails unless the tag is right. */
  datatype Aead = Aead(seal: (Bytes, Bytes, Bytes) -> Sealed, open: (Bytes, Bytes, Sealed) -> Option<Bytes>)

  ghost predicate Lawful(a: Aead) {
    && (forall key, iv, plaintext {:trigger a.seal(key, iv, plaintext)} ::
          |a.seal(key, iv, plaintext).tag| == AUTH_TAG_LENGTH && a.open(key, iv, a.seal(key, iv, plaintext)) == Some(plaintext))
    && (forall key, iv, sealed {:trigger a.open(key, iv, sealed)} ::
          a.open(key, iv, sealed).Some? ==> a.seal(key, iv, a.open(key, iv, sealed).value) == sealed)
  }

  datatype Error = KeyNotConfigured | KeyMalformed | InvalidPayload | InvalidIvLength | InvalidTagLength | NotAuthentic

  datatype Result<+T> = Ok(value: T) | Err(error: Error)

  // ---------- the key ----------

  predicate IsHex(c: char) { '0' <= c <= '9' || 'a' <= c <= 'f' || 'A' <= c <= 'F' }

  function HexValue(c: char): (d: nat)
    requires IsHex(c)
    ensures d < 16
  {
    if '0' <= c <= '9' then c as int - '0' as int
    else if 'a' <= c <= 'f' then c as int - 'a' as int + 10
    else c as int - 'A' as int + 10
  }

  predicate AllHex(text: string) { forall i :: 0 <= i < |text| ==> IsHex(text[i]) }

  /** Buffer.from(text, 'hex') */
  function FromHex(text: string): (data: Bytes)
    requires AllHex(text)
    ensures |data| == |text| / 2
  {
    if |text| < 2 then [] else [HexValue(text[0]) * 16 + HexValue(text[1])] + FromHex(text[2..])
  }

  const DIGITS := "0123456789abcdef"

  /** Bytes in lower-case hex. */
  function Printed(data: Bytes): string {
    if |data| == 0 then "" else [DIGITS[data[0] / 16], DIGITS[data[0] % 16]] + Printed(data[1..])
  }

  const CAPITALS := map['A' := 'a', 'B' := 'b', 'C' := 'c', 'D' := 'd', 'E' := 'e', 'F' := 'f']

  function Lower(c: char): char { if c in CAPITALS then CAPITALS[c] else c }

  function LowerCase(text: string): string { seq(|text|, i requires 0 <= i < |text| => Lower(text[i])) }

  predicate OnlyDigits(text: string) { forall i :: 0 <= i < |text| ==> Lower(text[i]) in DIGITS }

  lemma HexIsDigits(text: string)
    ensures AllHex(text) <==> OnlyDigits(text)
  {
    forall i | 0 <= i < |text| ensures IsHex(text[i]) <==> Lower(text[i]) in DIGITS { HexIsDigit(text[i]); }
  }

  lemma HexIsDigit(c: char)
    ensures IsHex(c) <==> Lower(c) in DIGITS
  {
    assert IsHex(c) ==> DIGITS[HexValue(c)] == Lower(c);
  }

  lemma DigitPrints(c: char)
    requires IsHex(c)
    ensures DIGITS[HexValue(c)] == Lower(c)
  {
  }

  /** The bytes read from hex print as the text, in lower case. */
  lemma {:induction false} FromHexPrints(text: string)
    requires AllHex(text) && |text| % 2 == 0
    ensures Printed(FromHex(text)) == LowerCase(text)
  {
    if |text| >= 2 {
      var data := FromHex(text);
      DigitPrints(text[0]);
      DigitPrints(text[1]);
      hide HexValue, Lower;
      FromHexPrints(text[2..]);
      assert data[0] / 16 == HexValue(text[0]) && data[0] % 16 == HexValue(text[1]);
      assert data[1..] == FromHex(text[2..]);
      assert LowerCase(text) == [Lower(text[0]), Lower(text[1])] + LowerCase(text[2..]);
    }
  }

  /** White space and line ends of ECMAScript. */
  predicate IsSpace(c: char) {
    || '\U{9}' <= c <= '\U{d}' || c == ' ' || c == '\U{a0}' || c == '\U{1680}' || '\U{2000}' <= c <= '\U{200a}'
    || c == '\U{2028}' || c == '\U{2029}' || c == '\U{202f}' || c == '\U{205f}' || c == '\U{3000}' || c == '\U{feff}'
  }

  predicate AllSpace(text: string) { forall i :: 0 <= i < |text| ==> IsSpace(text[i]) }

  /** The code points of ECMAScript's WhiteSpace and LineTerminator, sections 12.2 and 12.3 of ECMA-262. */
  const SPACE_CODES: set<int> := {
    0x9, 0xA, 0xB, 0xC, 0xD, 0x20, 0xA0, 0x1680, 0x2000, 0x2001, 0x2002, 0x2003, 0x2004, 0x2005, 0x2006, 0x2007, 0x2008, 0x2009,
    0x200A, 0x2028, 0x2029, 0x202F, 0x205F, 0x3000, 0xFEFF}

  predicate OnlySpaces(text: string) { forall i :: 0 <= i < |text| ==> text[i] as int in SPACE_CODES }

  lemma SpaceCodes(text: string)
    ensures AllSpace(text) <==> OnlySpaces(text)
  {
    forall i | 0 <= i < |text| ensures IsSpace(text[i]) <==> text[i] as int in SPACE_CODES { SpaceCode(text[i]); }
  }

  lemma SpaceCode(c: char)
    ensures IsSpace(c) <==> c as int in SPACE_CODES
  {
  }

  /** What Trim takes off is white space. */
  lemma {:induction false} TrimmedOff(text: string) returns (before: string, after: string)
    ensures text == before + Trim(text) + after && AllSpace(before) && AllSpace(after)
    decreases |text|
  {
    before, after := "", "";
    if |text| > 0 && IsSpace(text[0]) {
      before, after := TrimmedOff(text[1..]);
      before := [text[0]] + before;
    } else if |text| > 0 && IsSpace(text[|text| - 1]) {
      before, after := TrimmedOff(text[..|text| - 1]);
      after := after + [text[|text| - 1]];
    }
  }

  /** raw.trim() */
  function Trim(text: string): string {
    if |text| == 0 then text
    else if IsSpace(text[0]) then Trim(text[1..])
    else if IsSpace(text[|text| - 1]) then Trim(text[..|text| - 1])
    else text
  }

  lemma {:induction false} TrimSpaces(before: string, text: string, after: string)
    requires AllSpace(before) && AllSpace(after) && |text| > 0 && !IsSpace(text[0]) && !IsSpace(text[|text| - 1])
    ensures Trim(before + text + after) == text
    decreases |before| + |after|
  {
    var all := before + text + after;
    if |before| > 0 {
      assert all[1..] == before[1..] + text + after;
      TrimSpaces(before[1..], text, after);
    } else if |after| > 0 {
      assert all[..|all| - 1] == before + text + after[..|after| - 1];
      TrimSpaces(before, text, after[..|after| - 1]);
    } else {
      assert all == text;
    }
  }

  /** WALLET_ENCRYPTION_KEY */
  function EncryptionKey(env: Option<string>): (key: Result<Bytes>)
    ensures key.Ok? <==> env.Some? && |Trim(env.value)| == 64 && OnlyDigits(Trim(env.value))
    ensures key.Ok? ==> |key.value| == 32 && Printed(key.value) == LowerCase(Trim(env.value))
    ensures key == Err(KeyNotConfigured) <==> env.None? || env.value == ""
    ensures key.Err? ==> key.error.KeyNotConfigured? || key.error.KeyMalformed?
  {
    if env.None? || env.value == "" then Err(KeyNotConfigured)
    else
      var trimmed := Trim(env.value);
      HexIsDigits(trimmed);
      if |trimmed| != 64 || !AllHex(trimmed) then Err(KeyMalformed)
      else
        FromHexPrints(trimmed);
        Ok(FromHex(trimmed))
  }

  /** White space around the 64 digits does not matter. */
  lemma SpacesIgnored(before: string, digits: string, after: string)
    requires OnlySpaces(before) && OnlySpaces(after) && |digits| == 64 && OnlyDigits(digits)
    ensures EncryptionKey(Some(before + digits + after)).Ok? && EncryptionKey(Some(digits)).Ok?
    ensures EncryptionKey(Some(before + digits + after)) == EncryptionKey(Some(digits))
    ensures Printed(EncryptionKey(Some(digits)).value) == LowerCase(digits)
  {
    SpaceCodes(before);
    SpaceCodes(after);
    HexIsDigits(digits);
    TrimSpaces(before, digits, after);
    TrimSpaces("", digits, "");
    assert "" + digits + "" == digits;
  }

  /** And that is all that is accepted: each configured text is 64 digits with white space around them, and two texts give
    * the same key only if their digits are the same up to case. */
  lemma KeysAreDigits(text: string) returns (before: string, digits: string, after: string)
    requires EncryptionKey(Some(text)).Ok?
    ensures text == before + digits + after && OnlySpaces(before) && OnlySpaces(after) && |digits| == 64 && OnlyDigits(digits)
    ensures Printed(EncryptionKey(Some(text)).value) == LowerCase(digits)
    ensures forall other: string :: EncryptionKey(Some(other)) == EncryptionKey(Some(text)) ==> LowerCase(Trim(other)) == LowerCase(digits)
  {
    digits := Trim(text);
    before, after := TrimmedOff(text);
    SpaceCodes(before);
    SpaceCodes(after);
  }

  // ---------- the text ----------

  /** payload.split(':') */
  function Split(text: string): (parts: seq<string>)
    ensures |parts| > 0
  {
    if |text| == 0 then [""]
    else
      var rest := Split(text[1..]);
      if text[0] == ':' then [""] + rest else [[text[0]] + rest[0]] + rest[1..]
  }

  lemma {:induction false} SplitWord(word: string)
    requires ':' !in word
    ensures Split(word) == [word]
  {
    if |word| > 0 {
      assert word[0] in word && word == [word[0]] + word[1..];
      SplitWord(word[1..]);
    }
  }

  lemma {:induction false} SplitFirst(word: string, rest: string)
    requires ':' !in word
    ensures Split(word + ":" + rest) == [word] + Split(rest)
  {
    var text := word + ":" + rest;
    if |word| == 0 {
      assert text[1..] == rest;
    } else {
      assert word[0] in word && word == [word[0]] + word[1..];
      SplitFirst(word[1..], rest);
      assert text[1..] == word[1..] + ":" + rest;
    }
  }

  lemma SplitThree(a: string, b: string, c: string)
    requires ':' !in a && ':' !in b && ':' !in c
    ensures Split(a + ":" + b + ":" + c) == [a, b, c]
  {
    SplitWord(c);
    SplitFirst(b, c);
    SplitFirst(a, b + ":" + c);
    assert a + ":" + b + ":" + c == a + ":" + (b + ":" + c);
  }

  /** What a stored text says, as far as decryption looks at it. */
  datatype Fields = Fields(iv: Bytes, sealed: Sealed)

  function FieldsOf(payload: string): Option<Fields> {
    var parts := Split(payload);
    if |parts| != 3 then None else Some(Fields(Decode(parts[0]), Sealed(Decode(parts[2]), Decode(parts[1]))))
  }

  function TextOf(f: Fields): string {
    Encode(f.iv) + ":" + Encode(f.sealed.tag) + ":" + Encode(f.sealed.ciphertext)
  }

  /** Printing and parsing: fields of any lengths come back. */
  lemma FieldsRoundTrip(f: Fields)
    ensures FieldsOf(TextOf(f)) == Some(f)
  {
    NoColon(f.iv);
    NoColon(f.sealed.tag);
    NoColon(f.sealed.ciphertext);
    SplitThree(Encode(f.iv), Encode(f.sealed.tag), Encode(f.sealed.ciphertext));
    RoundTrip(f.iv);
    RoundTrip(f.sealed.tag);
    RoundTrip(f.sealed.ciphertext);
  }

  // ---------- encryption and decryption ----------

  function EncryptPrivateKey(a: Aead, env: Option<string>, iv: Bytes, plaintext: Bytes): Result<string> {
    var key := EncryptionKey(env);
    if key.Err? then Err(key.error)
    else
      var sealed := a.seal(key.value, iv, plaintext);
      Ok(Encode(iv) + ":" + Encode(sealed.tag) + ":" + Encode(sealed.ciphertext))
  }

  function DecryptPrivateKey(a: Aead, env: Option<string>, payload: string): Result<Bytes> {
    var key := EncryptionKey(env);
    if key.Err? then Err(key.error)
    else
      var parts := Split(payload);
      if |parts| != 3 then Err(InvalidPayload)
      else
        var iv, tag, ciphertext := Decode(parts[0]), Decode(parts[1]), Decode(parts[2]);
        if |iv| != IV_LENGTH then Err(InvalidIvLength)
        else if |tag| != AUTH_TAG_LENGTH then Err(InvalidTagLength)
        else
          var plaintext := a.open(key.value, iv, Sealed(ciphertext, tag));
          if plaintext.None? then Err(NotAuthentic) else Ok(plaintext.value)
  }

  /** A stored key is the base64 of the initialisation vector, of the tag and of the ciphertext, in this order. */
  lemma StoredText(a: Aead, env: Option<string>, iv: Bytes, plaintext: Bytes)
    requires EncryptionKey(env).Ok?
    ensures
      var payload, sealed := EncryptPrivateKey(a, env, iv, plaintext), a.seal(EncryptionKey(env).value, iv, plaintext);
      payload.Ok? && Split(payload.value) == [Encode(iv), Encode(sealed.tag), Encode(sealed.ciphertext)]
  {
    var sealed := a.seal(EncryptionKey(env).value, iv, plaintext);
    NoColon(iv);
    NoColon(sealed.tag);
    NoColon(sealed.ciphertext);
    SplitThree(Encode(iv), Encode(sealed.tag), Encode(sealed.ciphertext));
  }

  /** For every configured key and every initialisation vector, a key that was encrypted decrypts to itself. */
  lemma DecryptsWhatWasEncrypted(a: Aead, env: Option<string>, iv: Bytes, plaintext: Bytes)
    requires Lawful(a) && EncryptionKey(env).Ok? && |iv| == IV_LENGTH
    ensures
      var payload := EncryptPrivateKey(a, env, iv, plaintext);
      payload.Ok? && DecryptPrivateKey(a, env, payload.value) == Ok(plaintext)
  {
    FieldsRoundTrip(Fields(iv, a.seal(EncryptionKey(env).value, iv, plaintext)));
  }

  /** A text with the same fields as an encryption of this plaintext under this key. */
  ghost predicate Encrypts(a: Aead, env: Option<string>, iv: Bytes, plaintext: Bytes, payload: string) {
    && |iv| == IV_LENGTH
    && EncryptPrivateKey(a, env, iv, plaintext).Ok?
    && FieldsOf(payload).Some? && FieldsOf(payload) == FieldsOf(EncryptPrivateKey(a, env, iv, plaintext).value)
  }

  /** Decryption accepts encryptions and nothing else. */
  lemma DecryptsOnlyEncryptions(a: Aead, env: Option<string>, payload: string, plaintext: Bytes)
    requires Lawful(a)
    ensures DecryptPrivateKey(a, env, payload) == Ok(plaintext) <==> exists iv: Bytes :: Encrypts(a, env, iv, plaintext, payload)
  {
    if DecryptPrivateKey(a, env, payload) == Ok(plaintext) {
      var f := FieldsOf(payload).value;
      assert a.seal(EncryptionKey(env).value, f.iv, plaintext) == f.sealed;
      FieldsRoundTrip(f);
      assert Encrypts(a, env, f.iv, plaintext, payload);
    }
    if exists iv: Bytes :: Encrypts(a, env, iv, plaintext, payload) {
      var iv: Bytes :| Encrypts(a, env, iv, plaintext, payload);
      FieldsRoundTrip(Fields(iv, a.seal(EncryptionKey(env).value, iv, plaintext)));
    }
  }

  /** Why a text is not decrypted. */
  lemma DecryptionRefuses(a: Aead, env: Option<string>, payload: string)
    requires Lawful(a) && EncryptionKey(env).Ok?
    ensures
      var result, fields := DecryptPrivateKey(a, env, payload), FieldsOf(payload);
      && (result == Err(InvalidPayload) <==> |Split(payload)| != 3)
      && (result == Err(InvalidIvLength) <==> fields.Some? && |fields.value.iv| != 12)
      && (result == Err(InvalidTagLength) <==> fields.Some? && |fields.value.iv| == 12 && |fields.value.sealed.tag| != 16)
      && (result == Err(NotAuthentic) <==>
            && fields.Some? && |fields.value.iv| == 12 && |fields.value.sealed.tag| == 16
            && forall plaintext {:trigger Encrypts(a, env, fields.value.iv, plaintext, payload)} :: !Encrypts(a, env, fields.value.iv, plaintext, payload))
  {
    var result, fields := DecryptPrivateKey(a, env, payload), FieldsOf(payload);
    if fields.Some? && |fields.value.iv| == 12 && |fields.value.sealed.tag| == 16 {
      forall plaintext | Encrypts(a, env, fields.value.iv, plaintext, payload) ensures result == Ok(plaintext) {
        assert exists iv: Bytes :: Encrypts(a, env, iv, plaintext, payload);
        DecryptsOnlyEncryptions(a, env, payload, plaintext);
      }
      if result.Ok? {
        DecryptsOnlyEncryptions(a, env, payload, result.value);
        var iv: Bytes :| Encrypts(a, env, iv, result.value, payload);
        FieldsRoundTrip(Fields(iv, a.seal(EncryptionKey(env).value, iv, result.value)));
      }
    }
  }
}
