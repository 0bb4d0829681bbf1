/** The login form's submit handler (static/js/hashPassword.js): it stops
    the browser's own submission, checks for the Web Crypto API, trims the
    typed password and refuses an empty one, hashes its UTF-8 bytes with
    SHA-256, writes the digest as lower-case hex into a hidden "password"
    input and submits the form.

    SHA-256 itself is not modelled: it is a parameter that maps bytes to a
    32-byte digest. The same hex form is what Python's hexdigest() writes
    on the server. */
module HashPassword {
  import opened JsString
  import opened Utf8

  /** A SHA-256 digest: 32 bytes. */
  type Digest = s: seq<byte> | |s| == 32 witness seq(32, i => 0 as byte)

  /** A character of "0123456789abcdef". */
  predicate IsHexDigit(c: char) {
    '0' <= c <= '9' || 'a' <= c <= 'f'
  }

  /** The lower-case hex digit of d. */
  function HexDigit(d: nat): (c: char)
    requires d < 16
    ensures IsHexDigit(c)
  {
    if d < 10 then ('0' as int + d) as char else ('a' as int + d - 10) as char
  }

  /** The value of a lower-case hex digit, None for any other character. */
  function DigitValue(c: char): (d: Option<nat>)
    ensures d.Some? <==> IsHexDigit(c)
    ensures d.Some? ==> d.value < 16 && HexDigit(d.value) == c
  {
    if '0' <= c <= '9' then Some(c as int - '0' as int)
    else if 'a' <= c <= 'f' then Some(c as int - 'a' as int + 10)
    else None
  }

  /** Reading a digit back gives its value. */
  lemma DigitValueOfHexDigit(d: nat)
    requires d < 16
    ensures DigitValue(HexDigit(d)) == Some(d)
  {
  }

  /** `n.toString(16)`: the lower-case hex digits of n, no leading zeros. */
  function ToRadix16(n: nat): (s: string)
    ensures s != []
    ensures n < 16 ==> s == [HexDigit(n)]
    ensures 16 <= n < 256 ==> s == [HexDigit(n / 16), HexDigit(n % 16)]
  {
    if n < 16 then [HexDigit(n)] else ToRadix16(n / 16) + [HexDigit(n % 16)]
  }

  /** `s.padStart(width, pad)` with a one-character pad. */
  function PadStart(s: string, width: nat, pad: char): (r: string)
    ensures |r| == if |s| < width then width else |s|
    ensures r[|r| - |s|..] == s
    ensures forall i :: 0 <= i < |r| - |s| ==> r[i] == pad
  {
    if |s| < width then seq(width - |s|, i => pad) + s else s
  }

  /** The two hex digits of a byte, the high nibble first. */
  function ByteToHex(b: byte): (h: string)
    ensures |h| == 2 && IsHexDigit(h[0]) && IsHexDigit(h[1])
  {
    [HexDigit(b as nat / 16), HexDigit(b as nat % 16)]
  }

  /** `byte.toString(16).padStart(2, '0')` is ByteToHex: toString gives one
      digit below 16, which the padding completes with a zero, and two from
      16 on. */
  lemma ByteToHexIsPaddedRadix(b: byte)
    ensures PadStart(ToRadix16(b as nat), 2, '0') == ByteToHex(b)
  {
    var n := b as nat;
    if n < 16 {
      assert n / 16 == 0 && n % 16 == n;
      assert HexDigit(0) == '0';
    }
  }

  /** `hashArray.map(byteToHex).join('')`. */
  function HexEncode(bs: seq<byte>): (s: string)
    ensures |s| == 2 * |bs|
  {
    if bs == [] then "" else ByteToHex(bs[0]) + HexEncode(bs[1..])
  }

  predicate AllHexDigits(s: string) {
    forall i :: 0 <= i < |s| ==> IsHexDigit(s[i])
  }

  /** The hex form holds lower-case hex digits only. */
  lemma {:induction false} HexEncodeDigits(bs: seq<byte>)
    ensures AllHexDigits(HexEncode(bs))
    decreases |bs|
  {
    if bs != [] {
      HexEncodeDigits(bs[1..]);
      var s, h, t := HexEncode(bs), ByteToHex(bs[0]), HexEncode(bs[1..]);
      forall i | 0 <= i < |s| ensures IsHexDigit(s[i]) {
        if i >= 2 {
          assert s[i] == t[i - 2];
        }
      }
    }
  }

  /** Reading hex back: two digits per byte, None for an odd length or a
      character that is not a lower-case hex digit. */
  function HexDecode(s: string): (r: Option<seq<byte>>)
    ensures r.Some? ==> 2 * |r.value| == |s|
    decreases |s|
  {
    if s == [] then Some([])
    else if |s| == 1 then None
    else
      match (DigitValue(s[0]), DigitValue(s[1]), HexDecode(s[2..]))
      case (Some(hi), Some(lo), Some(rest)) => Some([(hi * 16 + lo) as byte] + rest)
      case _ => None
  }

  /** The hex form determines the bytes. */
  lemma {:induction false} HexDecodeEncode(bs: seq<byte>)
    ensures HexDecode(HexEncode(bs)) == Some(bs)
    decreases |bs|
  {
    if bs != [] {
      var s := HexEncode(bs);
      assert s[2..] == HexEncode(bs[1..]);
      HexDecodeEncode(bs[1..]);
      var b := bs[0] as nat;
      DigitValueOfHexDigit(b / 16);
      DigitValueOfHexDigit(b % 16);
      assert s[0] == HexDigit(b / 16) && s[1] == HexDigit(b % 16);
      assert (b / 16) * 16 + b % 16 == b;
      assert bs == [bs[0]] + bs[1..];
    }
  }

  /** Every even-length string of lower-case hex digits is the hex form of
      the bytes it decodes to. */
  lemma {:induction false} HexEncodeDecode(s: string)
    requires |s| % 2 == 0 && AllHexDigits(s)
    ensures HexDecode(s).Some?
    ensures HexEncode(HexDecode(s).value) == s
    decreases |s|
  {
    if s != [] {
      assert AllHexDigits(s[2..]) by {
        forall i | 0 <= i < |s| - 2 ensures IsHexDigit(s[2..][i]) {
          assert s[2..][i] == s[i + 2];
        }
      }
      HexEncodeDecode(s[2..]);
      var hi, lo := DigitValue(s[0]).value, DigitValue(s[1]).value;
      var b := (hi * 16 + lo) as byte;
      assert b as nat / 16 == hi && b as nat % 16 == lo;
      assert s == [s[0], s[1]] + s[2..];
    }
  }

  lemma HexEncodeInjective(a: seq<byte>, b: seq<byte>)
    requires HexEncode(a) == HexEncode(b)
    ensures a == b
  {
    HexDecodeEncode(a);
    HexDecodeEncode(b);
  }

  lemma HexExamples()
    ensures ByteToHex(0x0A) == "0a"
    ensures ByteToHex(0xFF) == "ff"
    ensures HexEncode([0x00, 0x10]) == "0010"
  {
    assert HexEncode([0x10]) == "10";
  }

  const NoCryptoAlert := "Crypto API is not supported in your browser."
  const EmptyPasswordAlert := "Please enter a password."

  /** What the handler decides. */
  datatype SubmitOutcome =
    | NoCrypto
    | EmptyPassword
    | Submitted(hashHex: string)

  /** The hex string the handler submits for a typed password. */
  function ClientHash(typed: string, sha256: seq<byte> -> Digest): (h: string)
  {
    HexEncode(sha256(Encode(Trim(typed))))
  }

  function HandlerOutcome(cryptoAvailable: bool, typed: string, sha256: seq<byte> -> Digest): SubmitOutcome {
    if !cryptoAvailable then NoCrypto
    else if Trim(typed) == "" then EmptyPassword
    else Submitted(ClientHash(typed, sha256))
  }

  /** The handler submits exactly when the Crypto API is there and the
      password is not blank, and what it submits is 64 lower-case hex digits
      that determine the digest of the trimmed password's bytes. */
  lemma HandlerOutcomeCases(cryptoAvailable: bool, typed: string, sha256: seq<byte> -> Digest)
    ensures HandlerOutcome(cryptoAvailable, typed, sha256).NoCrypto? <==> !cryptoAvailable
    ensures HandlerOutcome(cryptoAvailable, typed, sha256).EmptyPassword? <==> cryptoAvailable && AllWhiteSpace(typed)
    ensures HandlerOutcome(cryptoAvailable, typed, sha256).Submitted? ==>
              var h := HandlerOutcome(cryptoAvailable, typed, sha256).hashHex;
              var digest: seq<byte> := sha256(Encode(Trim(typed)));
              |h| == 64 && AllHexDigits(h) && HexDecode(h) == Some(digest)
  {
    TrimEmptyIff(typed);
    HexEncodeDigits(sha256(Encode(Trim(typed))));
    HexDecodeEncode(sha256(Encode(Trim(typed))));
  }

  /** White space typed around the password changes nothing. */
  lemma HandlerIgnoresSurroundingSpace(cryptoAvailable: bool, a: string, typed: string, b: string, sha256: seq<byte> -> Digest)
    requires AllWhiteSpace(a) && AllWhiteSpace(b)
    ensures HandlerOutcome(cryptoAvailable, a + Trim(typed) + b, sha256) == HandlerOutcome(cryptoAvailable, typed, sha256)
  {
    TrimIsTrimmed(typed);
    TrimPadded(a, Trim(typed), b);
  }

  /** What the handler does to the page and the browser, in order. */
  datatype Effect =
    | PreventDefault
    | Alert(message: string)
    | AppendHiddenInput(name: string, value: string)
    | ConsoleLog(hashHex: string)
    | SubmitForm

  function HandlerEffects(o: SubmitOutcome): seq<Effect> {
    match o
    case NoCrypto => [PreventDefault, Alert(NoCryptoAlert)]
    case EmptyPassword => [PreventDefault, Alert(EmptyPasswordAlert)]
    case Submitted(h) => [PreventDefault, AppendHiddenInput("password", h), ConsoleLog(h), SubmitForm]
  }

  function CountSubmits(effects: seq<Effect>): nat {
    multiset(effects)[SubmitForm]
  }

  /** The default submission is always stopped first; a refused password
      gives one alert and no submission; an accepted one is submitted once,
      as the last step, after the hidden input carrying the hash is added. */
  lemma HandlerEffectsOrder(cryptoAvailable: bool, typed: string, sha256: seq<byte> -> Digest)
    ensures var o := HandlerOutcome(cryptoAvailable, typed, sha256);
            var e := HandlerEffects(o);
            e[0] == PreventDefault &&
            (!o.Submitted? ==> |e| == 2 && e[1].Alert? && CountSubmits(e) == 0) &&
            (o.Submitted? ==>
               CountSubmits(e) == 1 && e[|e| - 1] == SubmitForm &&
               exists i :: 0 <= i < |e| - 1 && e[i] == AppendHiddenInput("password", ClientHash(typed, sha256)))
  {
    var o := HandlerOutcome(cryptoAvailable, typed, sha256);
    var e := HandlerEffects(o);
    if o.Submitted? {
      assert e[1] == AppendHiddenInput("password", ClientHash(typed, sha256));
      assert e[1..][1..][1..][1..] == [];
    } else {
      assert e[1..][1..] == [];
    }
  }

  /** The login page while the handler runs: the inputs of the form as
      name/value pairs and everything the handler did, in order. */
  class LoginPage {
    var formInputs: seq<(string, string)>
    var effects: seq<Effect>

    constructor (inputs: seq<(string, string)>)
      ensures formInputs == inputs && effects == []
    {
      formInputs := inputs;
      effects := [];
    }

    /** hashPassword(event). */
    method OnSubmit(cryptoAvailable: bool, typed: string, sha256: seq<byte> -> Digest)
      modifies this
      ensures var o := HandlerOutcome(cryptoAvailable, typed, sha256);
              effects == old(effects) + HandlerEffects(o) &&
              formInputs == old(formInputs) + (if o.Submitted? then [("password", o.hashHex)] else [])
    {
      effects := effects + [PreventDefault];
      if !cryptoAvailable {
        effects := effects + [Alert(NoCryptoAlert)];
        return;
      }
      var password := Trim(typed);
      if password == "" {
        effects := effects + [Alert(EmptyPasswordAlert)];
        return;
      }
      var data := Encode(password);
      var hashBuffer := sha256(data);
      var hashHex := HexEncode(hashBuffer);
      formInputs := formInputs + [("password", hashHex)];
      effects := effects + [AppendHiddenInput("password", hashHex)];
      effects := effects + [ConsoleLog(hashHex)];
      effects := effects + [SubmitForm];
    }
  }
}
