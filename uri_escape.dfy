/** `URI.escape` of Ruby 1.8 with its default pattern: a byte passes through
    when it is an unreserved character of RFC 2396 (section 2.3), a reserved
    character of RFC 2396 (section 2.2), `[` or `]`; any other byte becomes
    `%` and two upper-case hexadecimal digits. Note that `&` and `=` are
    reserved characters and so pass through unescaped. */
module UriEscape {
  import opened Ruby

  predicate IsAlphaNum(c: char) {
    'a' <= c <= 'z' || 'A' <= c <= 'Z' || '0' <= c <= '9'
  }

  /** The "mark" characters of section 2.3. */
  predicate IsMark(c: char) {
    c in "-_.!~*'()"
  }

  /** The reserved characters of section 2.2. */
  predicate IsReserved(c: char) {
    c in ";/?:@&=+$,"
  }

  predicate Safe(c: char) {
    IsAlphaNum(c) || IsMark(c) || IsReserved(c) || c == '[' || c == ']'
  }

  function HexDigit(d: nat): (c: char)
    requires d < 16
  {
    "0123456789ABCDEF"[d]
  }

  predicate IsHex(c: char) {
    '0' <= c <= '9' || 'A' <= c <= 'F' || 'a' <= c <= 'f'
  }

  function HexValue(c: char): (v: nat)
    requires IsHex(c)
    ensures v < 16
  {
    if '0' <= c <= '9' then c as int - 48
    else if 'A' <= c <= 'F' then c as int - 55
    else c as int - 87
  }

  function EscapeByte(c: Byte): string {
    if Safe(c) then [c] else ['%', HexDigit(c as int / 16), HexDigit(c as int % 16)]
  }

  /** Each byte becomes one character or three. */
  function Escape(s: Bytes): (r: string)
    ensures |s| <= |r| <= 3 * |s|
  {
    if s == [] then [] else EscapeByte(s[0]) + Escape(s[1..])
  }

  /** Percent-decoding, the inverse the server applies: `%XX` with two
      hexadecimal digits stands for the byte XX, anything else for itself. */
  function Unescape(s: string): string {
    if |s| >= 3 && s[0] == '%' && IsHex(s[1]) && IsHex(s[2]) then
      [(HexValue(s[1]) * 16 + HexValue(s[2])) as char] + Unescape(s[3..])
    else if s == [] then []
    else [s[0]] + Unescape(s[1..])
  }

  lemma HexDigitValue(d: nat)
    requires d < 16
    ensures IsHex(HexDigit(d)) && HexValue(HexDigit(d)) == d
  {
  }

  lemma EscapeByteDecodes(c: Byte, rest: string)
    ensures Unescape(EscapeByte(c) + rest) == [c] + Unescape(rest)
  {
    if Safe(c) {
      assert c != '%';
      assert ([c] + rest)[1..] == rest;
    } else {
      var hi, lo := c as int / 16, c as int % 16;
      HexDigitValue(hi);
      HexDigitValue(lo);
      var e := EscapeByte(c) + rest;
      assert e[3..] == rest;
      assert (HexValue(e[1]) * 16 + HexValue(e[2])) as char == c;
    }
  }

  /** Escaping loses nothing: decoding an escaped string gives it back. */
  lemma {:induction false} EscapeRoundTrip(s: Bytes)
    ensures Unescape(Escape(s)) == s
  {
    if s != [] {
      EscapeByteDecodes(s[0], Escape(s[1..]));
      EscapeRoundTrip(s[1..]);
      assert s == [s[0]] + s[1..];
    }
  }

  lemma {:induction false} EscapeLength(s: Bytes)
    ensures |Escape(s)| >= |s|
    ensures (exists i :: 0 <= i < |s| && !Safe(s[i])) ==> |Escape(s)| > |s|
  {
    if s != [] {
      EscapeLength(s[1..]);
      if exists i :: 0 <= i < |s| && !Safe(s[i]) {
        var i :| 0 <= i < |s| && !Safe(s[i]);
        if i > 0 { assert !Safe(s[1..][i - 1]); }
      }
    }
  }

  /** A string is left unchanged by escaping exactly when every byte of it
      is in the safe set. */
  lemma {:induction false} EscapeIdentityIffSafe(s: Bytes)
    ensures Escape(s) == s <==> forall i :: 0 <= i < |s| ==> Safe(s[i])
  {
    if forall i :: 0 <= i < |s| ==> Safe(s[i]) {
      if s != [] {
        assert forall i :: 0 <= i < |s[1..]| ==> Safe(s[1..][i]) by {
          forall i | 0 <= i < |s[1..]| ensures Safe(s[1..][i]) { assert s[1..][i] == s[i + 1]; }
        }
        EscapeIdentityIffSafe(s[1..]);
        assert s == [s[0]] + s[1..];
      }
    } else {
      EscapeLength(s);
    }
  }

  /** Every character of an escaped string is safe or the `%` that starts
      an escape. */
  lemma {:induction false} EscapeOutputAlphabet(s: Bytes)
    ensures forall i :: 0 <= i < |Escape(s)| ==> Safe(Escape(s)[i]) || Escape(s)[i] == '%'
  {
    if s != [] {
      EscapeOutputAlphabet(s[1..]);
      var e, rest := EscapeByte(s[0]), Escape(s[1..]);
      forall i | 0 <= i < |e + rest| ensures Safe((e + rest)[i]) || (e + rest)[i] == '%' {
        if i >= |e| { assert (e + rest)[i] == rest[i - |e|]; }
      }
    }
  }
}
