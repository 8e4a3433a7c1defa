/** Byte-string helpers with the meaning PHP gives them. Strings are
    sequences of characters, one character per byte; only ASCII letters
    change case, as with PHP's strtoupper/strtolower. */
module Text {

  predicate IsLower(c: char) { 'a' <= c <= 'z' }
  predicate IsUpper(c: char) { 'A' <= c <= 'Z' }
  predicate IsAsciiLetter(c: char) { IsLower(c) || IsUpper(c) }
  predicate IsDigit(c: char) { '0' <= c <= '9' }

  /** PHP's truthiness of a string: every string except "" and "0" is true. */
  predicate Truthy(s: string) { s != "" && s != "0" }

  function ToUpper(c: char): (u: char)
    ensures IsLower(c) ==> IsUpper(u)
    ensures !IsLower(c) ==> u == c
  {
    if IsLower(c) then (c as int - 32) as char else c
  }

  function ToLower(c: char): (l: char)
    ensures IsUpper(c) ==> IsLower(l)
    ensures !IsUpper(c) ==> l == c
  {
    if IsUpper(c) then (c as int + 32) as char else c
  }

  function Upper(s: string): (r: string)
    ensures |r| == |s|
    ensures forall i | 0 <= i < |s| :: r[i] == ToUpper(s[i])
  {
    seq(|s|, i requires 0 <= i < |s| => ToUpper(s[i]))
  }

  function Lower(s: string): (r: string)
    ensures |r| == |s|
    ensures forall i | 0 <= i < |s| :: r[i] == ToLower(s[i])
  {
    seq(|s|, i requires 0 <= i < |s| => ToLower(s[i]))
  }

  /** The characters PHP's trim() removes by default. */
  predicate IsTrimmable(c: char) {
    c == ' ' || c == '\t' || c == '\n' || c == '\r' || c == '\0' || c == '\U{000B}'
  }

  function TrimStart(s: string): (r: string)
    ensures |r| <= |s|
    ensures r == s[|s| - |r|..]
    ensures r == [] || !IsTrimmable(r[0])
    ensures forall i | 0 <= i < |s| - |r| :: IsTrimmable(s[i])
  {
    if |s| > 0 && IsTrimmable(s[0]) then TrimStart(s[1..]) else s
  }

  function TrimEnd(s: string): (r: string)
    ensures |r| <= |s|
    ensures r == s[..|r|]
    ensures r == [] || !IsTrimmable(r[|r| - 1])
    ensures forall i | |r| <= i < |s| :: IsTrimmable(s[i])
  {
    if |s| > 0 && IsTrimmable(s[|s| - 1]) then TrimEnd(s[..|s| - 1]) else s
  }

  function Trim(s: string): string { TrimEnd(TrimStart(s)) }

  /** What a `required` rule accepts of a text: something besides blanks. */
  predicate Filled(s: string) { Trim(s) != "" }

  /** PHP's explode(): the pieces between separators, always at least one. */
  function Split(s: string, sep: char): (parts: seq<string>)
    ensures |parts| >= 1
    decreases |s|
  {
    if |s| == 0 then [""]
    else
      var rest := Split(s[1..], sep);
      if s[0] == sep then [""] + rest
      else [[s[0]] + rest[0]] + rest[1..]
  }

  /** PHP's implode(). */
  function Join(parts: seq<string>, sep: string): string
  {
    if |parts| == 0 then ""
    else if |parts| == 1 then parts[0]
    else parts[0] + sep + Join(parts[1..], sep)
  }

  lemma {:induction false} SplitWithoutSeparator(p: string, sep: char)
    requires sep !in p
    ensures Split(p, sep) == [p]
    decreases |p|
  {
    if |p| > 0 {
      SplitWithoutSeparator(p[1..], sep);
      assert [p[0]] + p[1..] == p;
    }
  }

  lemma {:induction false} SplitAfterPiece(p: string, rest: string, sep: char)
    requires sep !in p
    ensures Split(p + [sep] + rest, sep) == [p] + Split(rest, sep)
    decreases |p|
  {
    var s := p + [sep] + rest;
    if |p| == 0 {
      assert s[1..] == rest;
    } else {
      assert s[1..] == p[1..] + [sep] + rest;
      SplitAfterPiece(p[1..], rest, sep);
      assert [p[0]] + p[1..] == p;
    }
  }

  /** explode() undoes implode() when no piece holds the separator. */
  lemma {:induction false} SplitJoin(parts: seq<string>, sep: char)
    requires |parts| >= 1
    requires forall i | 0 <= i < |parts| :: sep !in parts[i]
    ensures Split(Join(parts, [sep]), sep) == parts
    decreases |parts|
  {
    if |parts| == 1 {
      SplitWithoutSeparator(parts[0], sep);
    } else {
      SplitJoin(parts[1..], sep);
      SplitAfterPiece(parts[0], Join(parts[1..], [sep]), sep);
      assert [parts[0]] + parts[1..] == parts;
    }
  }

  function DigitChar(d: nat): (c: char)
    requires d < 10
    ensures IsDigit(c)
  {
    (48 + d) as char
  }

  /** Decimal rendering of a natural number, as PHP's (string) cast and %d give it. */
  function NatToString(n: nat): (s: string)
    ensures |s| >= 1
    ensures forall i | 0 <= i < |s| :: IsDigit(s[i])
    ensures s[0] == '0' <==> n == 0
  {
    if n < 10 then [DigitChar(n)] else NatToString(n / 10) + [DigitChar(n % 10)]
  }

  lemma FourDigits(n: nat)
    requires 1000 <= n <= 9999
    ensures |NatToString(n)| == 4
  {
    var a := n / 10;
    var b := a / 10;
    var c := b / 10;
    assert 1 <= c < 10 && 10 <= b && 100 <= a;
    assert |NatToString(c)| == 1;
    assert |NatToString(b)| == 2;
    assert |NatToString(a)| == 3;
  }

  lemma NatToStringShort(n: nat)
    requires n < 1000
    ensures |NatToString(n)| <= 3
  {
    if n >= 10 {
      if n / 10 >= 10 {
        assert |NatToString(n / 10 / 10)| == 1;
      }
    }
  }

  function Pad3(n: nat): (s: string)
    requires n < 1000
    ensures |s| == 3 && forall i | 0 <= i < 3 :: IsDigit(s[i])
  {
    if n < 10 then "00" + NatToString(n)
    else if n < 100 then assert |NatToString(n / 10)| == 1; "0" + NatToString(n)
    else assert |NatToString(n / 10 / 10)| == 1; NatToString(n)
  }

  /** PHP's number_format(n, 0, '.', ','): digits grouped by three with
      commas, a comma before every third digit from the right, and no
      leading zero. */
  function GroupThousands(n: nat): (s: string)
    ensures |s| >= 1 && IsDigit(s[0])
    ensures forall i | 0 <= i < |s| :: IsDigit(s[i]) || s[i] == ','
    ensures forall i | 0 <= i < |s| :: s[i] == ',' <==> (|s| - i) % 4 == 0
    ensures s[0] == '0' <==> n == 0
  {
    if n < 1000 then
      NatToStringShort(n);
      NatToString(n)
    else
      var head := GroupThousands(n / 1000);
      var tail := Pad3(n % 1000);
      GroupAppend(head, tail);
      head + "," + tail
  }

  /** Appending a comma and three digits keeps a comma before every third
      digit from the right, and nowhere else. */
  lemma GroupAppend(head: string, tail: string)
    requires |head| >= 1 && IsDigit(head[0])
    requires forall i | 0 <= i < |head| :: IsDigit(head[i]) || head[i] == ','
    requires forall i | 0 <= i < |head| :: head[i] == ',' <==> (|head| - i) % 4 == 0
    requires |tail| == 3 && forall i | 0 <= i < 3 :: IsDigit(tail[i])
    ensures var s := head + "," + tail;
            && s[0] == head[0]
            && (forall i | 0 <= i < |s| :: IsDigit(s[i]) || s[i] == ',')
            && (forall i | 0 <= i < |s| :: s[i] == ',' <==> (|s| - i) % 4 == 0)
  {
    var s := head + "," + tail;
    forall i | 0 <= i < |s|
      ensures IsDigit(s[i]) || s[i] == ','
      ensures s[i] == ',' <==> (|s| - i) % 4 == 0
    {
      if i < |head| {
        assert s[i] == head[i] && |s| - i == (|head| - i) + 4;
      } else if i == |head| {
        assert s[i] == ',' && |s| - i == 4;
      } else {
        assert s[i] == tail[i - |head| - 1] && 1 <= |s| - i <= 3;
      }
    }
  }

  /** The number a string of decimal digits denotes. */
  function DecimalValue(s: string): int
  {
    if s == [] then 0 else DecimalValue(s[..|s| - 1]) * 10 + (s[|s| - 1] as int - 48)
  }

  function Pow10(k: nat): nat
  {
    if k == 0 then 1 else 10 * Pow10(k - 1)
  }

  /** The text with its grouping commas removed. */
  function DropCommas(s: string): string
  {
    if s == [] then [] else (if s[0] == ',' then [] else [s[0]]) + DropCommas(s[1..])
  }

  lemma {:induction false} DropCommasAppend(a: string, b: string)
    ensures DropCommas(a + b) == DropCommas(a) + DropCommas(b)
    decreases |a|
  {
    if a == [] {
      assert a + b == b;
    } else {
      assert (a + b)[0] == a[0] && (a + b)[1..] == a[1..] + b;
      DropCommasAppend(a[1..], b);
    }
  }

  lemma {:induction false} DecimalValueAppend(a: string, b: string)
    ensures DecimalValue(a + b) == DecimalValue(a) * Pow10(|b|) + DecimalValue(b)
    decreases |b|
  {
    if b == [] {
      assert a + b == a;
    } else {
      var b' := b[..|b| - 1];
      assert (a + b)[..|a + b| - 1] == a + b';
      DecimalValueAppend(a, b');
    }
  }

  /** The decimal rendering reads back as the number. */
  lemma {:induction false} NatToStringValue(n: nat)
    ensures DecimalValue(NatToString(n)) == n
    decreases n
  {
    if n >= 10 {
      var s := NatToString(n);
      assert s[..|s| - 1] == NatToString(n / 10);
      NatToStringValue(n / 10);
    }
  }

  lemma Pad3Value(n: nat)
    requires n < 1000
    ensures DecimalValue(Pad3(n)) == n
  {
    NatToStringValue(n);
    if n < 10 {
      DecimalValueAppend("00", NatToString(n));
    } else if n < 100 {
      assert |NatToString(n / 10)| == 1;
      DecimalValueAppend("0", NatToString(n));
    } else {
      assert |NatToString(n / 10 / 10)| == 1;
    }
  }

  /** Removing the commas of a grouped number keeps the head's digits, then the three of the last group. */
  lemma GroupedDigits(n: nat)
    requires n >= 1000
    ensures DropCommas(GroupThousands(n)) == DropCommas(GroupThousands(n / 1000)) + Pad3(n % 1000)
  {
    var head := GroupThousands(n / 1000);
    var tail := Pad3(n % 1000);
    var comma := ",";
    assert DropCommas(comma[1..]) == [];
    assert DropCommas(comma) == [];
    DropCommasAppend(head, comma);
    DropCommasIdentity(tail);
    DropCommasAppend(head + comma, tail);
    assert GroupThousands(n) == (head + comma) + tail;
  }

  /** number_format only inserts separators: without its commas the text reads back as the number. */
  lemma {:induction false} GroupThousandsValue(n: nat)
    ensures DecimalValue(DropCommas(GroupThousands(n))) == n
    decreases n
  {
    if n < 1000 {
      DropCommasIdentity(NatToString(n));
      NatToStringValue(n);
    } else {
      var head := DropCommas(GroupThousands(n / 1000));
      var tail := Pad3(n % 1000);
      GroupedDigits(n);
      Pad3Value(n % 1000);
      GroupThousandsValue(n / 1000);
      DecimalValueAppend(head, tail);
      assert Pow10(|tail|) == 1000;
      assert DecimalValue(head + tail) == (n / 1000) * 1000 + n % 1000;
    }
  }

  lemma {:induction false} DropCommasIdentity(s: string)
    requires forall i | 0 <= i < |s| :: IsDigit(s[i])
    ensures DropCommas(s) == s
    decreases |s|
  {
    if s != [] {
      DropCommasIdentity(s[1..]);
    }
  }
}
