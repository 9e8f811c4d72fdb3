/** The texts that callbacks are made of: parts separated by colons, and versions in decimal. */
module CallbackText {
  import opened Wrappers

  const LIMIT_BYTES := 64
  const MAX_SAFE_INTEGER := 0x1f_ffff_ffff_ffff
  const VERSION_LIMIT := 1_000_000_000_000_000

  /** The length of a text in bytes of UTF-8. */
  function Utf8Length(text: string): nat {
    if text == "" then 0
    else
      var c := text[|text| - 1] as int;
      Utf8Length(text[..|text| - 1]) + (if c < 0x80 then 1 else if c < 0x800 then 2 else if c < 0x1_0000 then 3 else 4)
  }

  predicate Ascii(text: string) {
    forall i :: 0 <= i < |text| ==> text[i] as int < 0x80
  }

  lemma {:induction false} AsciiLength(text: string)
    requires Ascii(text)
    ensures Utf8Length(text) == |text|
  {
    if text != "" { AsciiLength(text[..|text| - 1]); }
  }

  predicate StartsWith(text: string, prefix: string) {
    |prefix| <= |text| && text[..|prefix|] == prefix
  }

  // ---- Parts ----

  function Join(parts: seq<string>): string
    requires parts != []
  {
    if |parts| == 1 then parts[0] else parts[0] + ":" + Join(parts[1..])
  }

  function Split(text: string): (parts: seq<string>)
    ensures parts != []
  {
    if text == "" then [""]
    else
      var rest := Split(text[1..]);
      if text[0] == ':' then [""] + rest else [[text[0]] + rest[0]] + rest[1..]
  }

  lemma {:induction false} SplitOne(part: string)
    requires ':' !in part
    ensures Split(part) == [part]
  {
    if part != "" {
      SplitOne(part[1..]);
      assert part[0] in part && [part[0]] + part[1..] == part;
    }
  }

  lemma {:induction false} SplitFirst(part: string, rest: string)
    requires ':' !in part
    ensures Split(part + ":" + rest) == [part] + Split(rest)
  {
    var text := part + ":" + rest;
    if part == "" {
      assert text[1..] == rest;
    } else {
      SplitFirst(part[1..], rest);
      assert text[1..] == part[1..] + ":" + rest;
      assert part[0] in part && [part[0]] + part[1..] == part;
    }
  }

  /** Joining is undone by splitting as long as no part contains the separator. */
  lemma {:induction false} SplitUndoesJoin(parts: seq<string>)
    requires parts != [] && forall k :: 0 <= k < |parts| ==> ':' !in parts[k]
    ensures Split(Join(parts)) == parts
  {
    if |parts| == 1 {
      SplitOne(parts[0]);
    } else {
      SplitUndoesJoin(parts[1..]);
      SplitFirst(parts[0], Join(parts[1..]));
      assert parts == [parts[0]] + parts[1..];
    }
  }

  /** And splitting by joining: the parts of a text contain no separator, and make up the text. */
  lemma {:induction false} JoinUndoesSplit(text: string)
    ensures Join(Split(text)) == text
    ensures forall k :: 0 <= k < |Split(text)| ==> ':' !in Split(text)[k]
  {
    if text != "" {
      JoinUndoesSplit(text[1..]);
      var rest := Split(text[1..]);
      if text[0] == ':' {
        JoinPair("", rest);
        assert [':'] == ":" && text == [text[0]] + text[1..];
      } else {
        var first := [text[0]] + rest[0];
        assert text == [text[0]] + text[1..];
        if |rest| == 1 {
          assert Split(text) == [first];
        } else {
          JoinPair(rest[0], rest[1..]);
          assert rest == [rest[0]] + rest[1..];
          JoinPair(first, rest[1..]);
        }
      }
    }
  }

  lemma JoinPair(first: string, rest: seq<string>)
    requires rest != []
    ensures Join([first] + rest) == first + ":" + Join(rest)
  {
    assert ([first] + rest)[1..] == rest;
  }

  // ---- Versions ----

  predicate IsDigit(c: char) {
    '0' <= c <= '9'
  }

  function Digit(n: nat): char
    requires n < 10
  {
    "0123456789"[n]
  }

  function Decimal(n: nat): (text: string)
    ensures text != "" && forall i :: 0 <= i < |text| ==> IsDigit(text[i])
  {
    if n < 10 then [Digit(n)] else Decimal(n / 10) + [Digit(n % 10)]
  }

  predicate AllDigits(text: string) {
    forall i :: 0 <= i < |text| ==> IsDigit(text[i])
  }

  function NumberOf(text: string): nat
    requires AllDigits(text)
  {
    if text == "" then 0 else 10 * NumberOf(text[..|text| - 1]) + (text[|text| - 1] as int - '0' as int)
  }

  function Power10(n: nat): nat {
    if n == 0 then 1 else 10 * Power10(n - 1)
  }

  lemma {:induction false} DecimalDenotes(n: nat)
    ensures NumberOf(Decimal(n)) == n
  {
    if n < 10 {
      assert Decimal(n)[..0] == "";
    } else {
      DecimalDenotes(n / 10);
      assert Decimal(n)[..|Decimal(n)| - 1] == Decimal(n / 10);
    }
  }

  lemma {:induction false} DecimalLength(n: nat, digits: nat)
    requires digits >= 1
    ensures |Decimal(n)| <= digits <==> n < Power10(digits)
  {
    if n < 10 {
      PowerGrows(digits);
    } else if digits == 1 {
      assert Power10(1) == 10;
    } else {
      DecimalLength(n / 10, digits - 1);
      assert n / 10 < Power10(digits - 1) <==> n < 10 * Power10(digits - 1);
    }
  }

  lemma {:induction false} PowerGrows(digits: nat)
    requires digits >= 1
    ensures Power10(digits) >= 10
  {
    if digits > 1 { PowerGrows(digits - 1); }
  }

  lemma FifteenDigits()
    ensures Power10(15) == VERSION_LIMIT
  {
    assert Power10(5) == 100_000;
    assert Power10(10) == 100_000 * Power10(5) by {
      calc { Power10(10); 10 * Power10(9); 100 * Power10(8); 1000 * Power10(7); 10_000 * Power10(6); 100_000 * Power10(5); }
    }
    calc { Power10(15); 10 * Power10(14); 100 * Power10(13); 1000 * Power10(12); 10_000 * Power10(11); 100_000 * Power10(10); }
  }

  /** parseVersion: one to fifteen digits that denote a positive number. */
  function ParseVersion(text: string): Option<nat> {
    if 1 <= |text| <= 15 && AllDigits(text) && NumberOf(text) > 0 then Some(NumberOf(text)) else None
  }

  predicate IsVersion(version: int) {
    1 <= version <= MAX_SAFE_INTEGER
  }

  /** A printed version is read back exactly when it has at most fifteen digits. */
  lemma VersionRoundTrip(version: nat)
    requires version >= 1
    ensures ParseVersion(Decimal(version)) == if version < VERSION_LIMIT then Some(version) else None
  {
    DecimalDenotes(version);
    DecimalLength(version, 15);
    FifteenDigits();
  }

  lemma SafeVersionIsShort(version: nat)
    requires IsVersion(version)
    ensures |Decimal(version)| <= 16
  {
    DecimalLength(version, 16);
    FifteenDigits();
    assert Power10(16) == 10 * Power10(15);
  }

  // ---- Callbacks ----

  /** callbackData: `None` when it throws because the text is too long. */
  function CallbackData(parts: seq<string>): Option<string>
    requires parts != []
  {
    var text := Join(parts);
    if Utf8Length(text) > LIMIT_BYTES then None else Some(text)
  }

  /** A part as the program uses them: short, ASCII and without the separator. */
  predicate Plain(part: string) {
    |part| <= 20 && Ascii(part) && ':' !in part
  }

  /** Four plain parts, the last of them a version, always fit and can be taken apart again. */
  lemma FourParts(prefix: string, code: string, value: string, version: nat)
    requires Plain(prefix) && Plain(code) && Plain(value) && |prefix| + |code| + |value| <= 45 && IsVersion(version)
    ensures var parts := [prefix, code, value, Decimal(version)];
            && CallbackData(parts) == Some(Join(parts)) && Utf8Length(Join(parts)) <= LIMIT_BYTES
            && Split(Join(parts)) == parts
            && StartsWith(Join(parts), prefix + ":")
  {
    var parts := [prefix, code, value, Decimal(version)];
    var tail := code + ":" + (value + ":" + Decimal(version));
    var last := Decimal(version);
    JoinPair(value, [last]);
    JoinPair(code, [value, last]);
    JoinPair(prefix, [code, value, last]);
    assert Join(parts) == prefix + ":" + tail;
    SafeVersionIsShort(version);
    AsciiLength(Join(parts));
    SplitUndoesJoin(parts);
    assert Join(parts)[..|prefix| + 1] == prefix + ":";
  }

  lemma FiveParts(prefix: string, code: string, feature: string, value: string, version: nat)
    requires Plain(prefix) && Plain(code) && Plain(feature) && Plain(value)
    requires |prefix| + |code| + |feature| + |value| <= 44 && IsVersion(version)
    ensures var parts := [prefix, code, feature, value, Decimal(version)];
            && CallbackData(parts) == Some(Join(parts)) && Utf8Length(Join(parts)) <= LIMIT_BYTES
            && Split(Join(parts)) == parts
            && StartsWith(Join(parts), prefix + ":")
  {
    var parts := [prefix, code, feature, value, Decimal(version)];
    var tail := code + ":" + (feature + ":" + (value + ":" + Decimal(version)));
    var last := Decimal(version);
    JoinPair(value, [last]);
    JoinPair(feature, [value, last]);
    JoinPair(code, [feature, value, last]);
    JoinPair(prefix, [code, feature, value, last]);
    assert Join(parts) == prefix + ":" + tail;
    SafeVersionIsShort(version);
    AsciiLength(Join(parts));
    SplitUndoesJoin(parts);
    assert Join(parts)[..|prefix| + 1] == prefix + ":";
  }
}
