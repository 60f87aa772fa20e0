/** String operations of Ruby 1.8 and ActiveSupport that the library calls:
    ASCII case conversion, `capitalize`, `camelize(:lower)`, `join`,
    `String#[]` with a string argument, `blank?`, `Integer#to_s` and
    `String#to_i`. Case conversion is ASCII-only, as in Ruby 1.8. */
module Strings {
  import opened Ruby

  predicate IsUpper(c: char) { 'A' <= c <= 'Z' }

  predicate IsLower(c: char) { 'a' <= c <= 'z' }

  predicate IsDigit(c: char) { '0' <= c <= '9' }

  function Upcase(c: char): char {
    if IsLower(c) then (c as int - 32) as char else c
  }

  function Downcase(c: char): char {
    if IsUpper(c) then (c as int + 32) as char else c
  }

  function DowncaseAll(s: string): (r: string)
    ensures |r| == |s|
    ensures forall i :: 0 <= i < |s| ==> r[i] == Downcase(s[i])
  {
    if s == [] then [] else [Downcase(s[0])] + DowncaseAll(s[1..])
  }

  /** Ruby's `String#capitalize`: the first character upper-cased, every
      other character lower-cased. */
  function Capitalize(s: string): (r: string)
    ensures |r| == |s|
    ensures |s| > 0 ==> r[0] == Upcase(s[0])
    ensures forall i :: 0 < i < |s| ==> r[i] == Downcase(s[i])
  {
    if s == [] then [] else [Upcase(s[0])] + DowncaseAll(s[1..])
  }

  // ---------------------------------------------------------------------
  // ActiveSupport's camelize. `camelize` first turns every "/x" into "::X"
  // and then upper-cases every character that `(?:^|_)(.)` matches: the
  // first character of each line and every character that follows an
  // underscore, dropping that underscore (`.` does not match a line
  // break). `camelize(:lower)` is the first character of the word,
  // lower-cased, followed by the rest of `camelize(word)`; on the empty
  // word that rest is nil, and adding nil to a String raises a TypeError.

  function SlashPass(s: string): (r: string)
    ensures s != [] ==> r != []
    ensures '/' !in s ==> r == s
  {
    if s == [] then []
    else if s[0] == '/' then "::" + (if |s| >= 2 then [Upcase(s[1])] + SlashPass(s[2..]) else [])
    else [s[0]] + SlashPass(s[1..])
  }

  /** The `(?:^|_)(.)` pass; `lineStart` says whether `^` matches before
      the first character of `t`. */
  function CamelPass(t: string, lineStart: bool): (r: string)
    ensures !lineStart && '_' !in t && '\n' !in t ==> r == t
  {
    if t == [] then []
    else if lineStart && t[0] != '\n' then [Upcase(t[0])] + CamelPass(t[1..], false)
    else if |t| >= 2 && t[0] == '_' && t[1] != '\n' then [Upcase(t[1])] + CamelPass(t[2..], false)
    else [t[0]] + CamelPass(t[1..], t[0] == '\n')
  }

  function Camelize(s: string): (r: string)
    ensures s != [] ==> r != []
  {
    CamelPass(SlashPass(s), true)
  }

  /** `camelize(:lower)`: the empty word raises; a word without `/`, `_`
      or line break only has its first character lower-cased. */
  function CamelizeLower(s: string): (r: Result<string>)
    ensures r.Raise? <==> s == []
    ensures r.Raise? ==> r.error == TypeError
    ensures r.Ok? ==> r.value != [] && r.value[0] == Downcase(s[0])
    ensures r.Ok? && '/' !in s && '_' !in s && '\n' !in s ==> r.value == [Downcase(s[0])] + s[1..]
  {
    if s == [] then Raise(TypeError) else Ok([Downcase(s[0])] + Camelize(s)[1..])
  }

  /** The accessor-name form of a lower-camel key: every upper-case letter
      becomes an underscore followed by its lower-case letter. */
  function Underscore(k: string): string {
    if k == [] then []
    else (if IsUpper(k[0]) then ['_', Downcase(k[0])] else [k[0]]) + Underscore(k[1..])
  }

  /** A key as JSON data writes it: non-empty, lower-camel, on one line,
      with no underscore and no slash. */
  predicate IsPlainKey(k: string) {
    && k != []
    && !IsUpper(k[0])
    && '_' !in k
    && '/' !in k
    && '\n' !in k
  }

  /** A plain key is left unchanged by `camelize(:lower)`. */
  lemma PlainKeyCamelizesToItself(k: string)
    requires IsPlainKey(k)
    ensures CamelizeLower(k) == Ok(k)
  {
    assert k == [k[0]] + k[1..];
  }

  lemma {:induction false} UnderscoreNoSlash(k: string)
    requires '/' !in k
    ensures '/' !in Underscore(k)
  {
    if k != [] {
      assert '/' !in k[1..];
      UnderscoreNoSlash(k[1..]);
    }
  }

  lemma {:induction false} CamelPassUndoesUnderscore(t: string)
    requires '_' !in t && '\n' !in t
    ensures CamelPass(Underscore(t), false) == t
  {
    if t != [] {
      var c, rest := t[0], Underscore(t[1..]);
      assert '_' !in t[1..] && '\n' !in t[1..];
      CamelPassUndoesUnderscore(t[1..]);
      var u := Underscore(t);
      if IsUpper(c) {
        assert u == ['_', Downcase(c)] + rest;
        assert u[1] != '\n' && u[2..] == rest;
        assert CamelPass(u, false) == [Upcase(Downcase(c))] + CamelPass(rest, false);
      } else {
        assert u == [c] + rest;
        assert u[0] != '_' && u[0] != '\n' && u[1..] == rest;
        assert CamelPass(u, false) == [c] + CamelPass(rest, false);
      }
      assert t == [c] + t[1..];
    }
  }

  /** Every plain key is reachable from its underscored accessor name:
      `camelize(:lower)` inverts `Underscore` on plain keys. */
  lemma UnderscoreRoundTrip(k: string)
    requires IsPlainKey(k)
    ensures CamelizeLower(Underscore(k)) == Ok(k)
  {
    var u := Underscore(k);
    assert u == [k[0]] + Underscore(k[1..]);
    UnderscoreNoSlash(k);
    assert '_' !in k[1..] && '\n' !in k[1..];
    CamelPassUndoesUnderscore(k[1..]);
    assert u[1..] == Underscore(k[1..]);
    assert Camelize(u) == [Upcase(k[0])] + k[1..];
    assert k == [k[0]] + k[1..];
  }

  // ---------------------------------------------------------------------
  // Array#join and the pieces of String the library touches.

  function Join(parts: seq<string>, sep: string): string {
    if parts == [] then []
    else if |parts| == 1 then parts[0]
    else parts[0] + sep + Join(parts[1..], sep)
  }

  function Concat(parts: seq<string>): string {
    if parts == [] then [] else parts[0] + Concat(parts[1..])
  }

  /** Length of the first line of `s`, its line break included. */
  function LineLength(s: string): (n: nat)
    ensures s != [] ==> 1 <= n <= |s|
    ensures n <= |s|
    ensures forall j :: 0 <= j < n - 1 ==> s[j] != '\n'
    ensures 0 < n < |s| ==> s[n - 1] == '\n'
  {
    if s == [] then 0 else if s[0] == '\n' then 1 else 1 + LineLength(s[1..])
  }

  /** The lines `String#each` yields in Ruby 1.8, each keeping its line break. */
  function Lines(s: string): (r: seq<string>)
    ensures r == [] <==> s == []
    ensures forall i :: 0 <= i < |r| ==> r[i] != [] && '\n' !in r[i][..|r[i]| - 1]
    ensures forall i :: 0 <= i < |r| - 1 ==> r[i][|r[i]| - 1] == '\n'
    decreases |s|
  {
    if s == [] then [] else [s[..LineLength(s)]] + Lines(s[LineLength(s)..])
  }

  lemma {:induction false} LinesCoverText(s: string)
    ensures Concat(Lines(s)) == s
    decreases |s|
  {
    if s != [] {
      var n := LineLength(s);
      LinesCoverText(s[n..]);
      assert s == s[..n] + s[n..];
    }
  }

  lemma {:induction false} LineLengthWithoutBreak(s: string)
    requires '\n' !in s
    ensures LineLength(s) == |s|
  {
    if s != [] {
      assert '\n' !in s[1..];
      LineLengthWithoutBreak(s[1..]);
    }
  }

  /** A text without a line break is a single line. */
  lemma SingleLine(s: string)
    requires s != [] && '\n' !in s
    ensures Lines(s) == [s]
  {
    LineLengthWithoutBreak(s);
    assert s[|s|..] == [];
    assert s[..|s|] == s;
  }

  predicate IsPrefix(p: string, s: string) {
    |p| <= |s| && s[..|p|] == p
  }

  /** `sub` occurs in `s`: what `s[sub]` tests in Ruby. */
  predicate Contains(s: string, sub: string) {
    IsPrefix(sub, s) || (s != [] && Contains(s[1..], sub))
  }

  /** The characters C's `isspace` accepts (space, tab, line feed, vertical
      tab, form feed, carriage return). */
  predicate IsSpace(c: char) {
    c == ' ' || (9 <= c as int <= 13)
  }

  /** ActiveSupport's `String#blank?`: nothing but white space. */
  predicate Blank(s: string) {
    forall i :: 0 <= i < |s| ==> IsSpace(s[i])
  }

  // ---------------------------------------------------------------------
  // Integer#to_s and String#to_i in base ten.

  function DigitChar(d: nat): Byte
    requires d < 10
  {
    (48 + d) as char
  }

  function DigitValue(c: char): int {
    c as int - 48
  }

  /** The decimal digits of `n`, most significant first. */
  function Digits(n: nat): (r: Bytes)
    ensures r != [] && forall i :: 0 <= i < |r| ==> IsDigit(r[i])
  {
    if n < 10 then [DigitChar(n)] else Digits(n / 10) + [DigitChar(n % 10)]
  }

  /** `Integer#to_s`. */
  function Decimal(n: int): Bytes {
    if n < 0 then "-" + Digits(-n) else Digits(n)
  }

  /** The value of a run of decimal digits. */
  function DigitsValue(ds: string): (r: int)
    requires forall i :: 0 <= i < |ds| ==> IsDigit(ds[i])
    ensures r >= 0
  {
    if ds == [] then 0
    else
      assert IsDigit(ds[|ds| - 1]);
      DigitsValue(ds[..|ds| - 1]) * 10 + DigitValue(ds[|ds| - 1])
  }

  /** What `to_i` skips before the sign: white space and underscores. */
  function SkipBlanks(s: string): string {
    if s != [] && (IsSpace(s[0]) || s[0] == '_') then SkipBlanks(s[1..]) else s
  }

  /** The leading digits of `s`; an underscore between two digits is
      skipped, as Ruby allows in number literals. */
  function ScanDigits(s: string): (r: string)
    ensures forall i :: 0 <= i < |r| ==> IsDigit(r[i])
  {
    if s == [] || !IsDigit(s[0]) then []
    else if |s| >= 3 && s[1] == '_' && IsDigit(s[2]) then [s[0]] + ScanDigits(s[2..])
    else [s[0]] + ScanDigits(s[1..])
  }

  /** The digits after the sign: a base-ten prefix `0d` or `0D` is
      skipped, then the leading digits are read; 0 when there are none. */
  function Unsigned(t: string): (r: int)
    ensures r >= 0
  {
    var u := if |t| >= 2 && t[0] == '0' && (t[1] == 'd' || t[1] == 'D') then t[2..] else t;
    DigitsValue(ScanDigits(u))
  }

  /** `String#to_i`: leading white space and underscores, an optional
      sign, then the unsigned part. */
  function StrToI(s: string): (r: int)
    ensures r < 0 ==> SkipBlanks(s) != [] && SkipBlanks(s)[0] == '-'
  {
    var t := SkipBlanks(s);
    if t != [] && t[0] == '-' then -Unsigned(t[1..])
    else if t != [] && t[0] == '+' then Unsigned(t[1..])
    else Unsigned(t)
  }

  lemma {:induction false} ScanAllDigits(s: string)
    requires forall i :: 0 <= i < |s| ==> IsDigit(s[i])
    ensures ScanDigits(s) == s
  {
    if s != [] {
      ScanAllDigits(s[1..]);
      assert s == [s[0]] + s[1..];
    }
  }

  lemma {:induction false} DigitsValueOfDigits(n: nat)
    ensures DigitsValue(Digits(n)) == n
  {
    if n >= 10 {
      DigitsValueOfDigits(n / 10);
      var ds := Digits(n);
      assert ds[..|ds| - 1] == Digits(n / 10);
    }
  }

  /** `to_i` reads back what `to_s` wrote. */
  lemma StrToIDecimal(n: int)
    ensures StrToI(Decimal(n)) == n
  {
    var m: nat := if n < 0 then -n else n;
    var ds := Digits(m);
    ScanAllDigits(ds);
    DigitsValueOfDigits(m);
    if n < 0 {
      var t := Decimal(n);
      assert t == "-" + ds;
      assert SkipBlanks(t) == t;
      assert t[1..] == ds;
    } else {
      assert IsDigit(ds[0]);
      assert SkipBlanks(ds) == ds;
    }
  }

  lemma {:induction false} ScanDigitsStopsAfter(ds: string, rest: string)
    requires forall i :: 0 <= i < |ds| ==> IsDigit(ds[i])
    requires rest == [] || (!IsDigit(rest[0]) && !(rest[0] == '_' && |rest| >= 2 && IsDigit(rest[1])))
    ensures ScanDigits(ds + rest) == ds
  {
    if ds != [] {
      ScanDigitsStopsAfter(ds[1..], rest);
      assert (ds + rest)[1..] == ds[1..] + rest;
      assert ds == [ds[0]] + ds[1..];
    } else {
      assert ds + rest == rest;
    }
  }

  /** A text that starts with a digit has no white space or sign to skip. */
  lemma StrToIUnsigned(t: string)
    requires t != [] && IsDigit(t[0])
    ensures StrToI(t) == Unsigned(t)
  {
    assert SkipBlanks(t) == t;
  }

  /** `to_i` of a text that starts with digits is the value of those
      digits, whatever follows them, unless the digits are a lone `0`
      followed by the prefix letter `d` or `D` and more digits. */
  lemma StrToILeadingDigits(ds: string, rest: string)
    requires ds != [] && forall i :: 0 <= i < |ds| ==> IsDigit(ds[i])
    requires rest == [] || (!IsDigit(rest[0]) && !(rest[0] == '_' && |rest| >= 2 && IsDigit(rest[1])))
    requires !(ds == "0" && |rest| >= 2 && (rest[0] == 'd' || rest[0] == 'D') && IsDigit(rest[1]))
    ensures StrToI(ds + rest) == DigitsValue(ds)
  {
    var t := ds + rest;
    assert t[0] == ds[0];
    StrToIUnsigned(t);
    if |t| >= 2 && t[0] == '0' && (t[1] == 'd' || t[1] == 'D') {
      assert |ds| == 1;
      assert t[2..] == rest[1..];
      assert DigitsValue(ds) == 0 by { assert ds[..0] == []; }
    } else {
      ScanDigitsStopsAfter(ds, rest);
    }
  }

  /** The prefix `0d` or `0D` in front of the digits does not change what
      `to_i` reads. */
  lemma StrToIDecimalPrefix(p: string, ds: string, rest: string)
    requires p == "0d" || p == "0D"
    requires forall i :: 0 <= i < |ds| ==> IsDigit(ds[i])
    requires rest == [] || (!IsDigit(rest[0]) && !(rest[0] == '_' && |rest| >= 2 && IsDigit(rest[1])))
    ensures StrToI(p + ds + rest) == DigitsValue(ds)
  {
    var t := p + (ds + rest);
    assert p + ds + rest == t;
    assert t[0] == '0' && (t[1] == 'd' || t[1] == 'D');
    assert t[2..] == ds + rest;
    StrToIUnsigned(t);
    ScanDigitsStopsAfter(ds, rest);
    assert Unsigned(t) == DigitsValue(ScanDigits(ds + rest));
  }

  /** `to_i` of a text that does not start with a sign or a digit (after
      white space) is 0. */
  lemma StrToINoDigits(s: string)
    requires s == [] || (!IsSpace(s[0]) && s[0] != '_' && !IsDigit(s[0]) && s[0] != '-' && s[0] != '+')
    ensures StrToI(s) == 0
  {
  }

  /** Underscores and white space in front of a number are skipped, so
      `"_12".to_i` is 12 and `" _-5".to_i` is -5. */
  lemma StrToISkipsBlanks(b: string, s: string)
    requires forall i :: 0 <= i < |b| ==> IsSpace(b[i]) || b[i] == '_'
    ensures StrToI(b + s) == StrToI(s)
  {
    SkipBlanksPrefix(b, s);
  }

  lemma {:induction false} SkipBlanksPrefix(b: string, s: string)
    requires forall i :: 0 <= i < |b| ==> IsSpace(b[i]) || b[i] == '_'
    ensures SkipBlanks(b + s) == SkipBlanks(s)
  {
    if b != [] {
      assert (b + s)[1..] == b[1..] + s;
      SkipBlanksPrefix(b[1..], s);
    } else {
      assert b + s == s;
    }
  }
}
