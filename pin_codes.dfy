/**
 * The `set_pin` and `delete_pin` flow actions: validation of the user id and
 * of the PIN text, and the encoding of the PIN into the `setPinCode` command's
 * buffer, one byte per character holding the digit's value.
 *
 * The PIN check is `isNaN(Number(pin))` on the trimmed text, not "all digits":
 * any text the ECMAScript StringToNumber grammar (section 7.1.4.1.1 of
 * ECMA-262) accepts passes, so "12.5", "1e10", "0x1F" and "Infinity" are
 * accepted PINs. Their non-digit characters are written with Buffer
 * `writeUInt8`, which coerces the character to NaN and stores 0.
 */
module PinCodes {
  import opened Results
  import opened JsValues
  import opened DoorLockCluster

  /** The lowest and highest user slot the lock accepts. */
  const MinUserId := 1
  const MaxUserId := 50
  /** The accepted PIN lengths. */
  const MinPinLength := 4
  const MaxPinLength := 8

  // Trimming (String.prototype.trim)

  /** WhiteSpace or LineTerminator code points, as String.prototype.trim strips them. */
  const TrimmableChars: set<char> := {
    0x09 as char, 0x0A as char, 0x0B as char, 0x0C as char, 0x0D as char, 0x20 as char,
    0xA0 as char, 0x1680 as char,
    0x2000 as char, 0x2001 as char, 0x2002 as char, 0x2003 as char, 0x2004 as char, 0x2005 as char,
    0x2006 as char, 0x2007 as char, 0x2008 as char, 0x2009 as char, 0x200A as char,
    0x2028 as char, 0x2029 as char, 0x202F as char, 0x205F as char, 0x3000 as char, 0xFEFF as char
  }

  predicate IsTrimmable(c: char) {
    c in TrimmableChars
  }

  function TrimStart(s: string): string {
    if |s| > 0 && IsTrimmable(s[0]) then TrimStart(s[1..]) else s
  }

  function TrimEnd(s: string): string {
    if |s| > 0 && IsTrimmable(s[|s| - 1]) then TrimEnd(s[..|s| - 1]) else s
  }

  /** `s.trim()`. */
  function Trim(s: string): string {
    TrimEnd(TrimStart(s))
  }

  /** The text neither starts nor ends with a trimmable character. */
  predicate IsTrimmed(t: string) {
    t == [] || (!IsTrimmable(t[0]) && !IsTrimmable(t[|t| - 1]))
  }

  lemma {:induction false} TrimStartSpec(s: string)
    ensures exists i :: 0 <= i <= |s| && TrimStart(s) == s[i..] && forall k :: 0 <= k < i ==> IsTrimmable(s[k])
    ensures TrimStart(s) == [] || !IsTrimmable(TrimStart(s)[0])
  {
    if |s| > 0 && IsTrimmable(s[0]) {
      TrimStartSpec(s[1..]);
      var i :| 0 <= i <= |s[1..]| && TrimStart(s[1..]) == s[1..][i..] && forall k :: 0 <= k < i ==> IsTrimmable(s[1..][k]);
      assert s[1..][i..] == s[i + 1..];
      assert forall k :: 0 <= k < i + 1 ==> IsTrimmable(s[k]) by {
        forall k | 0 <= k < i + 1 ensures IsTrimmable(s[k]) {
          if k > 0 { assert s[k] == s[1..][k - 1]; }
        }
      }
    } else {
      assert TrimStart(s) == s[0..];
    }
  }

  lemma {:induction false} TrimEndSpec(s: string)
    ensures exists j :: 0 <= j <= |s| && TrimEnd(s) == s[..j] && forall k :: j <= k < |s| ==> IsTrimmable(s[k])
    ensures TrimEnd(s) == [] || !IsTrimmable(TrimEnd(s)[|TrimEnd(s)| - 1])
  {
    if |s| > 0 && IsTrimmable(s[|s| - 1]) {
      var p := s[..|s| - 1];
      TrimEndSpec(p);
      var j :| 0 <= j <= |p| && TrimEnd(p) == p[..j] && forall k :: j <= k < |p| ==> IsTrimmable(p[k]);
      assert p[..j] == s[..j];
    } else {
      assert TrimEnd(s) == s[..|s|];
    }
  }

  /** The trimmed text starts and ends with a character that is not trimmable. */
  lemma TrimIsTrimmed(s: string)
    ensures IsTrimmed(Trim(s))
  {
    var u := TrimStart(s);
    TrimStartSpec(s);
    TrimEndSpec(u);
    var j :| 0 <= j <= |u| && TrimEnd(u) == u[..j] && forall k :: j <= k < |u| ==> IsTrimmable(u[k]);
    if Trim(s) != [] {
      assert Trim(s)[0] == u[0];
    }
  }

  /**
   * Trimming keeps a contiguous part of the text, drops only trimmable characters
   * around it, and leaves none at either end.
   */
  lemma TrimSpec(s: string)
    ensures IsTrimmed(Trim(s))
    ensures exists i, j ::
              && 0 <= i <= j <= |s|
              && Trim(s) == s[i..j]
              && (forall k :: 0 <= k < i ==> IsTrimmable(s[k]))
              && (forall k :: j <= k < |s| ==> IsTrimmable(s[k]))
  {
    TrimIsTrimmed(s);
    TrimStartSpec(s);
    var i :| 0 <= i <= |s| && TrimStart(s) == s[i..] && forall k :: 0 <= k < i ==> IsTrimmable(s[k]);
    var j := TrimEndSlice(s[i..]);
    assert s[i..][..j] == s[i..i + j];
  }

  /** The end of a text that trimming at the end cuts off is all trimmable. */
  lemma TrimEndSlice(u: string) returns (j: nat)
    ensures j <= |u| && TrimEnd(u) == u[..j]
    ensures forall k :: j <= k < |u| ==> IsTrimmable(u[k])
  {
    TrimEndSpec(u);
    j :| 0 <= j <= |u| && TrimEnd(u) == u[..j] && forall k :: j <= k < |u| ==> IsTrimmable(u[k]);
  }

  lemma {:induction false} TrimStartOfTrimmed(t: string)
    requires t == [] || !IsTrimmable(t[0])
    ensures TrimStart(t) == t
  {
  }

  lemma {:induction false} TrimEndOfTrimmed(t: string)
    requires t == [] || !IsTrimmable(t[|t| - 1])
    ensures TrimEnd(t) == t
  {
  }

  /** Trimming twice is trimming once. */
  lemma TrimIdempotent(s: string)
    ensures Trim(Trim(s)) == Trim(s)
  {
    TrimSpec(s);
    var t := Trim(s);
    TrimStartOfTrimmed(t);
    TrimEndOfTrimmed(t);
  }

  // Number(text) is NaN (the StringNumericLiteral grammar)

  predicate IsDigit(c: char) {
    '0' <= c <= '9'
  }

  /** Zero or more decimal digits. */
  predicate AllDigits(s: string) {
    forall i :: 0 <= i < |s| ==> IsDigit(s[i])
  }

  /** DecimalDigits: one or more decimal digits. */
  predicate IsDecimalDigits(s: string) {
    |s| > 0 && AllDigits(s)
  }

  /** SignedInteger: an optional sign and DecimalDigits. */
  predicate IsSignedInteger(s: string) {
    IsDecimalDigits(s) || (|s| > 0 && (s[0] == '+' || s[0] == '-') && IsDecimalDigits(s[1..]))
  }

  /** `digits`, `digits.`, `digits.digits` or `.digits`: the part before any exponent. */
  predicate IsMantissa(m: string) {
    IsDecimalDigits(m) ||
    (|m| >= 2 && exists p :: 0 <= p < |m| && m[p] == '.' && AllDigits(m[..p]) && AllDigits(m[p + 1..]))
  }

  /** The index of the first 'e' or 'E', or the length when there is none. */
  function ExponentStart(s: string): (k: nat)
    ensures k <= |s|
    ensures forall i :: 0 <= i < k ==> s[i] != 'e' && s[i] != 'E'
    ensures k < |s| ==> s[k] == 'e' || s[k] == 'E'
  {
    if s == [] || s[0] == 'e' || s[0] == 'E' then 0 else 1 + ExponentStart(s[1..])
  }

  /** StrUnsignedDecimalLiteral: `Infinity`, or a mantissa with an optional exponent part. */
  predicate IsUnsignedDecimal(s: string) {
    s == "Infinity" ||
    var k := ExponentStart(s);
    IsMantissa(s[..k]) && (k == |s| || IsSignedInteger(s[k + 1..]))
  }

  /** StrDecimalLiteral: an optional sign and an unsigned decimal literal. */
  predicate IsStrDecimalLiteral(s: string) {
    IsUnsignedDecimal(s) || (|s| > 0 && (s[0] == '+' || s[0] == '-') && IsUnsignedDecimal(s[1..]))
  }

  predicate IsHexDigit(c: char) {
    IsDigit(c) || 'a' <= c <= 'f' || 'A' <= c <= 'F'
  }

  /** NonDecimalIntegerLiteral: `0b`, `0o` or `0x` and at least one digit of that base, unsigned. */
  predicate IsNonDecimalIntegerLiteral(s: string) {
    |s| >= 3 && s[0] == '0' &&
    (((s[1] == 'b' || s[1] == 'B') && (forall i :: 2 <= i < |s| ==> s[i] == '0' || s[i] == '1')) ||
     ((s[1] == 'o' || s[1] == 'O') && (forall i :: 2 <= i < |s| ==> '0' <= s[i] <= '7')) ||
     ((s[1] == 'x' || s[1] == 'X') && (forall i :: 2 <= i < |s| ==> IsHexDigit(s[i]))))
  }

  /** StrNumericLiteral. */
  predicate IsStrNumericLiteral(s: string) {
    IsStrDecimalLiteral(s) || IsNonDecimalIntegerLiteral(s)
  }

  /** `isNaN(Number(s))`: the trimmed text is neither empty (which reads as 0) nor a numeric literal. */
  predicate NumberIsNaN(s: string) {
    var t := Trim(s);
    t != [] && !IsStrNumericLiteral(t)
  }

  /** The length and numeric test `set_pin` applies to the trimmed PIN. */
  predicate PinAccepted(pin: string) {
    MinPinLength <= |pin| <= MaxPinLength && !NumberIsNaN(pin)
  }

  /** Every text of four to eight decimal digits is accepted. */
  lemma DigitPinAccepted(pin: string)
    requires MinPinLength <= |pin| <= MaxPinLength && AllDigits(pin)
    ensures PinAccepted(pin)
  {
    TrimStartOfTrimmed(pin);
    TrimEndOfTrimmed(pin);
    assert ExponentStart(pin) == |pin|;
    assert pin[..|pin|] == pin;
  }

  /**
   * A numeric literal (the trimmed text `Number` parses) holds ASCII characters only; the
   * white space `Number` strips around it need not be ASCII.
   */
  lemma AcceptedPinIsAscii(pin: string)
    requires IsStrNumericLiteral(pin)
    ensures forall i :: 0 <= i < |pin| ==> pin[i] as int < 0x80
  {
    if IsUnsignedDecimal(pin) {
      UnsignedDecimalIsAscii(pin);
    } else if IsStrDecimalLiteral(pin) {
      UnsignedDecimalIsAscii(pin[1..]);
      forall i | 1 <= i < |pin| ensures pin[i] as int < 0x80 {
        assert pin[i] == pin[1..][i - 1];
      }
    }
  }

  /**
   * The PIN `set_pin` accepts, already trimmed, holds ASCII characters only, so its JavaScript
   * length counts characters and the buffer has one byte per character.
   */
  lemma SentPinIsAscii(pin: string)
    ensures PinAccepted(Trim(pin)) ==> forall i :: 0 <= i < |Trim(pin)| ==> Trim(pin)[i] as int < 0x80
  {
    if PinAccepted(Trim(pin)) {
      TrimIdempotent(pin);
      AcceptedPinIsAscii(Trim(pin));
    }
  }

  lemma UnsignedDecimalIsAscii(s: string)
    requires IsUnsignedDecimal(s)
    ensures forall i :: 0 <= i < |s| ==> s[i] as int < 0x80
  {
    if s != "Infinity" {
      var k := ExponentStart(s);
      var m := s[..k];
      forall i | 0 <= i < k ensures s[i] as int < 0x80 {
        assert s[i] == m[i];
        if !IsDecimalDigits(m) {
          var p :| 0 <= p < |m| && m[p] == '.' && AllDigits(m[..p]) && AllDigits(m[p + 1..]);
          if i < p { assert m[i] == m[..p][i]; }
          if i > p { assert m[i] == m[p + 1..][i - p - 1]; }
        }
      }
      if k < |s| {
        var e := s[k + 1..];
        forall i | k + 1 <= i < |s| ensures s[i] as int < 0x80 {
          assert s[i] == e[i - k - 1];
          if !IsDecimalDigits(e) && i > k + 1 { assert e[i - k - 1] == e[1..][i - k - 2]; }
        }
      }
    }
  }

  // Encoding

  /** `+c` for a one-character string, stored by `writeUInt8`: a digit's value, NaN (stored as 0) otherwise. */
  function DigitValue(c: char): uint8 {
    if IsDigit(c) then c as int - '0' as int else 0
  }

  /** The PIN buffer: one byte per character of the trimmed PIN. */
  function PinBytes(pin: string): seq<uint8> {
    seq(|pin|, i requires 0 <= i < |pin| => DigitValue(pin[i]))
  }

  /** The digit text a buffer of digit values spells. */
  function DigitText(bytes: seq<uint8>): string
    requires forall i :: 0 <= i < |bytes| ==> bytes[i] < 10
  {
    seq(|bytes|, i requires 0 <= i < |bytes| => DigitChar(bytes[i]))
  }

  /**
   * For an all-digit PIN, the buffer is as long as the PIN, byte i is the numeric value of
   * digit i (not its character code), and the digits can be read back from the buffer.
   */
  lemma DigitPinBytes(pin: string)
    requires AllDigits(pin)
    ensures |PinBytes(pin)| == |pin|
    ensures forall i :: 0 <= i < |pin| ==> PinBytes(pin)[i] == pin[i] as int - '0' as int < 10
    ensures DigitText(PinBytes(pin)) == pin
  {
  }

  /** Two different all-digit PINs never share a buffer. */
  lemma DigitPinBytesInjective(a: string, b: string)
    requires AllDigits(a) && AllDigits(b)
    requires PinBytes(a) == PinBytes(b)
    ensures a == b
  {
    DigitPinBytes(a);
    DigitPinBytes(b);
  }

  /** Buffer.alloc followed by the `writeUInt8` loop over the PIN's characters. */
  method EncodePin(pin: string) returns (bytes: seq<uint8>)
    ensures bytes == PinBytes(pin)
  {
    var buffer := new uint8[|pin|](_ => 0);
    for idx := 0 to |pin|
      invariant forall k :: 0 <= k < idx ==> buffer[k] == DigitValue(pin[k])
    {
      buffer[idx] := DigitValue(pin[idx]);
    }
    bytes := buffer[..];
  }

  // The flow actions

  datatype PinError =
    | UserIdOutOfRange(id: int)   // "User id should be between 1-50"
    | InvalidPin(pin: string)     // "Pin should be 4-8 digits"

  /** The `setPinCode` arguments, in the order the command declares them. */
  datatype SetPinCodeArgs = SetPinCodeArgs(userId: int, userStatus: nat, userType: nat, pinLength: nat, pin: seq<uint8>) {
    function Fields(): seq<(string, ArgValue)> {
      [("userId", IntValue(userId)), ("userStatus", IntValue(userStatus)), ("userType", IntValue(userType)),
       ("pinLength", IntValue(pinLength)), ("pin", BufferValue(pin))]
    }
  }

  /** The `clearPinCode` arguments. */
  datatype ClearPinCodeArgs = ClearPinCodeArgs(userId: int) {
    function Fields(): seq<(string, ArgValue)> {
      [("userId", IntValue(userId))]
    }
  }

  predicate ValidUserId(id: int) {
    MinUserId <= id <= MaxUserId
  }

  /**
   * The `set_pin` action: a Failure means the action threw and no command was sent;
   * a Success is the `setPinCode` command it sends.
   */
  method SetPin(id: int, pin: string) returns (r: Result<SetPinCodeArgs, PinError>)
    ensures !ValidUserId(id) ==> r == Failure(UserIdOutOfRange(id))
    ensures ValidUserId(id) && !PinAccepted(Trim(pin)) ==> r == Failure(InvalidPin(Trim(pin)))
    ensures r.Success? <==> ValidUserId(id) && PinAccepted(Trim(pin))
    ensures r.Success? ==>
      r.value.userId == id && r.value.userStatus == 0 && r.value.userType == 0 &&
      r.value.pinLength == |Trim(pin)| && r.value.pin == PinBytes(Trim(pin))
    ensures r.Success? ==> Conforms(SetPinCode.args, r.value.Fields())
  {
    if id < MinUserId || id > MaxUserId {
      return Failure(UserIdOutOfRange(id));
    }
    var newPin := Trim(pin);
    if |newPin| < MinPinLength || |newPin| > MaxPinLength || NumberIsNaN(newPin) {
      return Failure(InvalidPin(newPin));
    }
    var pinAsBuffer := EncodePin(newPin);
    r := Success(SetPinCodeArgs(id, 0x00, 0x00, |newPin|, pinAsBuffer));
    assert UserStatusValues[0].value == 0 && UserTypeValues[0].value == 0;
  }

  /** The `delete_pin` action: rejects an out-of-range id, otherwise sends `clearPinCode`. */
  function ClearPin(id: int): (r: Result<ClearPinCodeArgs, PinError>)
    ensures r.Success? <==> ValidUserId(id)
    ensures r.Failure? ==> r.error == UserIdOutOfRange(id)
    ensures r.Success? ==> r.value.userId == id && Conforms(ClearPinCode.args, r.value.Fields())
  {
    if id < MinUserId || id > MaxUserId then Failure(UserIdOutOfRange(id))
    else Success(ClearPinCodeArgs(id))
  }

  /** A decimal fraction passes the numeric test; its point is stored as 0. */
  lemma DecimalFractionPinAccepted()
    ensures PinAccepted("12.5") && PinBytes("12.5") == [1, 2, 0, 5]
  {
    TrimStartOfTrimmed("12.5"); TrimEndOfTrimmed("12.5");
    assert ExponentStart("12.5") == 4;
    assert "12.5"[..4] == "12.5";
    assert "12.5"[..2] == "12" && "12.5"[3..] == "5";
  }

  /** An exponent form passes the numeric test. */
  lemma ExponentPinAccepted()
    ensures PinAccepted("1e10")
  {
    TrimStartOfTrimmed("1e10"); TrimEndOfTrimmed("1e10");
    assert ExponentStart("1e10") == 1;
    assert "1e10"[..1] == "1" && "1e10"[2..] == "10";
  }

  /** A hexadecimal literal and the word Infinity pass the numeric test. */
  lemma HexAndInfinityPinsAccepted()
    ensures PinAccepted("0x1F")
    ensures PinAccepted("Infinity")
  {
    TrimStartOfTrimmed("0x1F"); TrimEndOfTrimmed("0x1F");
    TrimStartOfTrimmed("Infinity"); TrimEndOfTrimmed("Infinity");
  }

  /** A letter or an inner space makes the text NaN, and three digits are too short. */
  lemma MalformedPinsRejected()
    ensures !PinAccepted("12a4")
    ensures !PinAccepted("12 34")
    ensures !PinAccepted("123")
  {
    TrimStartOfTrimmed("12a4"); TrimEndOfTrimmed("12a4");
    assert ExponentStart("12a4") == 4;
    assert "12a4"[..4] == "12a4";
    assert !IsDigit("12a4"[2]);
    TrimStartOfTrimmed("12 34"); TrimEndOfTrimmed("12 34");
    assert ExponentStart("12 34") == 5;
    assert "12 34"[..5] == "12 34";
    assert !IsDigit("12 34"[2]);
  }
}
