/**
 * `PasswordUtils`: passwords are stored as the lower-case hexadecimal text of
 * their SHA-256 digest (FIPS PUB 180-4). The digest itself is a parameter:
 * `Some(d)` when the platform provides the algorithm, `None` when it does
 * not, in which case the password is stored as it is.
 */
module PasswordUtils {
  import opened Nullable
  import opened Numbers
  import opened Text

  /** A value of Java's `byte`. */
  type JByte = b: int | -128 <= b <= 127

  /** A message digest over the bytes of the password's text. */
  type Digest = string -> seq<JByte>

  /** `0xff & b`: the byte's bits read as an unsigned number. */
  function Unsigned(b: JByte): (u: int)
    ensures 0 <= u < 256
    ensures (u - b) % 256 == 0
  {
    if b < 0 then b + 256 else b
  }

  /** The byte whose bits, read unsigned, are `u`. */
  function Signed(u: int): (b: JByte)
    requires 0 <= u < 256
    ensures Unsigned(b) == u
  {
    if u >= 128 then u - 256 else u
  }

  predicate IsLowerHex(c: char) {
    '0' <= c <= '9' || 'a' <= c <= 'f'
  }

  function HexDigit(d: int): (c: char)
    requires 0 <= d < 16
    ensures IsLowerHex(c)
  {
    if d < 10 then ('0' as int + d) as char else ('a' as int + d - 10) as char
  }

  function HexValue(c: char): (d: int)
    requires IsLowerHex(c)
    ensures 0 <= d < 16
  {
    if c <= '9' then c as int - '0' as int else c as int - 'a' as int + 10
  }

  lemma HexValueOfDigit(d: int)
    requires 0 <= d < 16
    ensures HexValue(HexDigit(d)) == d
  {
  }

  /** `Integer.toHexString(v)` for a value of one byte: no leading zero. */
  function ToHexString(v: int): (s: string)
    requires 0 <= v < 256
    ensures |s| == 1 <==> v < 16
  {
    if v < 16 then [HexDigit(v)] else [HexDigit(v / 16), HexDigit(v % 16)]
  }

  /**
   * One iteration of the encoding loop: `toHexString(0xff & b)`, padded with
   * a '0' when it has a single digit. The result is always the high nibble
   * followed by the low nibble.
   */
  function ByteHex(b: JByte): (s: string)
    ensures |s| == 2
    ensures s[0] == HexDigit(Unsigned(b) / 16) && s[1] == HexDigit(Unsigned(b) % 16)
  {
    var hex := ToHexString(Unsigned(b));
    if |hex| == 1 then "0" + hex else hex
  }

  /** The hexadecimal text of a byte sequence, one `ByteHex` per byte in order. */
  function HexOfBytes(bytes: seq<JByte>): (s: string)
    ensures |s| == 2 * |bytes|
    ensures forall j | 0 <= j < |s| :: IsLowerHex(s[j])
    decreases |bytes|
  {
    if |bytes| == 0 then ""
    else HexOfBytes(bytes[..|bytes| - 1]) + ByteHex(bytes[|bytes| - 1])
  }

  /**
   * Characters `2i` and `2i + 1` of the text are the high and low nibbles of
   * byte `i`.
   */
  lemma {:induction false} HexOfBytesNibbles(bytes: seq<JByte>)
    ensures forall i | 0 <= i < |bytes| ::
      HexOfBytes(bytes)[2 * i] == HexDigit(Unsigned(bytes[i]) / 16) &&
      HexOfBytes(bytes)[2 * i + 1] == HexDigit(Unsigned(bytes[i]) % 16)
    decreases |bytes|
  {
    if |bytes| > 0 {
      var init := bytes[..|bytes| - 1];
      HexOfBytesNibbles(init);
      var s := HexOfBytes(bytes);
      assert s == HexOfBytes(init) + ByteHex(bytes[|bytes| - 1]);
      forall i | 0 <= i < |bytes|
        ensures s[2 * i] == HexDigit(Unsigned(bytes[i]) / 16)
        ensures s[2 * i + 1] == HexDigit(Unsigned(bytes[i]) % 16)
      {
        if i < |bytes| - 1 {
          assert bytes[i] == init[i];
        }
      }
    }
  }

  /** Reads lower-case hexadecimal text back into bytes, two digits per byte. */
  function DecodeHex(s: string): (bytes: seq<JByte>)
    requires |s| % 2 == 0
    requires forall j | 0 <= j < |s| :: IsLowerHex(s[j])
    ensures |bytes| * 2 == |s|
  {
    seq(|s| / 2, i requires 0 <= i < |s| / 2 =>
      Signed(HexValue(s[2 * i]) * 16 + HexValue(s[2 * i + 1])))
  }

  /** Decoding undoes the encoding. */
  lemma DecodeHexOfBytes(bytes: seq<JByte>)
    ensures DecodeHex(HexOfBytes(bytes)) == bytes
  {
    HexOfBytesNibbles(bytes);
    var s := HexOfBytes(bytes);
    var d := DecodeHex(s);
    assert |d| == |bytes|;
    forall i | 0 <= i < |bytes| ensures d[i] == bytes[i] {
      var u := Unsigned(bytes[i]);
      HexValueOfDigit(u / 16);
      HexValueOfDigit(u % 16);
      assert HexValue(s[2 * i]) * 16 + HexValue(s[2 * i + 1]) == u;
    }
  }

  /** Distinct byte sequences have distinct hexadecimal texts. */
  lemma HexOfBytesInjective(bytes: seq<JByte>, other: seq<JByte>)
    requires HexOfBytes(bytes) == HexOfBytes(other)
    ensures bytes == other
  {
    DecodeHexOfBytes(bytes);
    DecodeHexOfBytes(other);
  }

  /**
   * The `StringBuilder` loop of `hashPassword`: appends each byte's hex text,
   * padding single digits with '0'.
   */
  method EncodeHex(hash: seq<JByte>) returns (hex: string)
    ensures hex == HexOfBytes(hash)
    ensures |hex| == 2 * |hash|
  {
    hex := "";
    var i := 0;
    while i < |hash|
      invariant 0 <= i <= |hash|
      invariant hex == HexOfBytes(hash[..i])
    {
      var h := ToHexString(Unsigned(hash[i]));
      if |h| == 1 {
        hex := hex + "0";
      }
      hex := hex + h;
      assert hash[..i + 1][..i] == hash[..i];
      i := i + 1;
    }
    assert hash[..i] == hash;
  }

  /**
   * `hashPassword`: the hex text of the digest, or the password unchanged
   * when the algorithm is unavailable.
   */
  function HashPassword(password: string, digest: Option<Digest>): (h: string)
    ensures digest.None? ==> h == password
    ensures digest.Some? ==> |h| == 2 * |digest.value(password)|
    ensures digest.Some? ==> forall j | 0 <= j < |h| :: IsLowerHex(h[j])
    ensures digest.Some? ==> DecodeHex(h) == digest.value(password)
  {
    match digest
    case None => password
    case Some(d) =>
      var h := HexOfBytes(d(password));
      DecodeHexOfBytes(d(password));
      h
  }

  /** `verifyPassword`: the password's hash equals the stored text. */
  predicate VerifyPassword(password: string, hashed: string, digest: Option<Digest>) {
    HashPassword(password, digest) == hashed
  }

  /**
   * A stored hash always verifies its own password; with SHA-256's 32-byte
   * digest the stored text has 64 characters; and a password verifies
   * against a stored hash exactly when its digest is the stored digest.
   */
  lemma VerifyRoundTrip(password: string, other: string, digest: Option<Digest>)
    ensures VerifyPassword(password, HashPassword(password, digest), digest)
    ensures digest.Some? && |digest.value(password)| == 32 ==> |HashPassword(password, digest)| == 64
    ensures digest.Some? ==>
      (VerifyPassword(other, HashPassword(password, digest), digest) <==>
       digest.value(other) == digest.value(password))
  {
    if digest.Some? && VerifyPassword(other, HashPassword(password, digest), digest) {
      HexOfBytesInjective(digest.value(other), digest.value(password));
    }
  }

  /**
   * Without the algorithm every password is its own stored text, so any
   * text verifies against itself, including one that looks like a hash.
   */
  lemma WithoutDigestPasswordsAreStoredPlain(password: string)
    ensures HashPassword(password, None) == password
    ensures VerifyPassword(password, password, None)
  {
  }

  /**
   * `isPasswordValid`: false for `null` and for fewer than six UTF-16 code
   * units; no other rule.
   */
  function IsPasswordValid(password: Option<string>): (valid: bool)
    ensures !valid <==> password.None? || Utf16Length(password.value) < 6
    ensures password.Some? && |password.value| >= 6 ==> valid
    ensures password.Some? && |password.value| < 3 ==> !valid
  {
    password.Some? && Utf16Length(password.value) >= 6
  }

  /** Three emoji make a valid password: each is two code units long. */
  lemma ThreeEmojiAreLongEnough()
    ensures IsPasswordValid(Some("🌱🌵🌿"))
  {
    assert Utf16Length("🌱🌵🌿") == 2 + Utf16Length("🌱🌵");
    assert Utf16Length("🌱🌵") == 2 + Utf16Length("🌱");
  }

  /**
   * `generateRecoveryCode`: `(int) (random * 9000) + 1000` as decimal
   * text, where `random` is the value `Math.random()` returned.
   */
  function RecoveryCode(random: real): (code: string)
    requires 0.0 <= random < 1.0
    ensures |code| == 4 && AllDigits(code)
    ensures ParseLong(code).Some? && 1000 <= ParseLong(code).value <= 9999
  {
    var n := TruncateToInt(random * 9000.0) + 1000;
    FourDigits(n);
    ParseLongOfDecimalString(n);
    DecimalString(n)
  }

  /** Every four-digit code from 1000 to 9999 is produced by some random value. */
  lemma EveryCodeReachable(n: int)
    requires 1000 <= n <= 9999
    ensures var random := (n - 1000) as real / 9000.0;
      0.0 <= random < 1.0 && ParseLong(RecoveryCode(random)) == Some(n)
  {
    var random := (n - 1000) as real / 9000.0;
    assert random * 9000.0 == (n - 1000) as real;
    ParseLongOfDecimalString(n);
  }
}
