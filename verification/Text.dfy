/** Words separated by whitespace, and bytes in hexadecimal (Base16, section 8 of RFC 4648, in lower case). */
module Text {
  import opened Options

  /** Characters with the Unicode property White_Space. */
  predicate IsSpace(c: char) {
    || '\t' <= c <= '\r' || c == ' ' || c == '\U{85}' || c == '\U{A0}' || c == '\U{1680}'
    || '\U{2000}' <= c <= '\U{200A}' || c == '\U{2028}' || c == '\U{2029}' || c == '\U{202F}'
    || c == '\U{205F}' || c == '\U{3000}'
  }

  /** Non-empty and without whitespace. */
  predicate Token(t: string) {
    t != "" && forall i :: 0 <= i < |t| ==> !IsSpace(t[i])
  }

  function WordLength(s: string): (n: nat)
    ensures n <= |s|
    ensures forall i :: 0 <= i < n ==> !IsSpace(s[i])
    ensures n < |s| ==> IsSpace(s[n])
  {
    if s == "" || IsSpace(s[0]) then 0 else 1 + WordLength(s[1..])
  }

  function Split(s: string): seq<string>
    decreases |s|
  {
    if s == "" then []
    else if IsSpace(s[0]) then Split(s[1..])
    else [s[..WordLength(s)]] + Split(s[WordLength(s)..])
  }

  function Join(ts: seq<string>): string {
    if ts == [] then "" else if |ts| == 1 then ts[0] else ts[0] + " " + Join(ts[1..])
  }

  /** Splitting yields words only. */
  lemma {:induction false} SplitYieldsTokens(s: string)
    ensures forall t :: t in Split(s) ==> Token(t)
    decreases |s|
  {
    if s == "" {
    } else {
      if IsSpace(s[0]) {
        SplitYieldsTokens(s[1..]);
      } else {
        SplitYieldsTokens(s[WordLength(s)..]);
      }
    }
  }

  /** A word followed by a space and any text is split off that text. */
  lemma SplitCons(t: string, rest: string)
    requires Token(t)
    ensures Split(t + " " + rest) == [t] + Split(rest)
    ensures Split(t) == [t]
  {
    var s := t + " " + rest;
    assert IsSpace(s[|t|]);
    assert forall i :: 0 <= i < |t| ==> s[i] == t[i];
    assert WordLength(s) == |t|;
    assert s[..|t|] == t;
    assert s[|t|..] == " " + rest;
    assert s[|t|..][1..] == rest;
    assert WordLength(t) == |t|;
    assert t[..|t|] == t && t[|t|..] == "";
  }

  /** Without whitespace, though perhaps empty. */
  predicate Spaceless(s: string) {
    forall i :: 0 <= i < |s| ==> !IsSpace(s[i])
  }

  /** The words of a text without whitespace. */
  function WordsOf(s: string): seq<string> {
    if s == "" then [] else [s]
  }

  /** A field without whitespace is one word, or none when it is empty. */
  lemma SplitField(s: string, rest: string)
    requires Spaceless(s)
    ensures Split(s) == WordsOf(s)
    ensures Split(s + " " + rest) == WordsOf(s) + Split(rest)
  {
    if s == "" {
      assert s + " " + rest == " " + rest;
      assert (" " + rest)[1..] == rest;
    } else {
      SplitCons(s, rest);
    }
  }

  lemma {:induction false} SplitJoin(ts: seq<string>)
    requires forall t :: t in ts ==> Token(t)
    ensures Split(Join(ts)) == ts
  {
    if ts == [] {
    } else {
      SplitCons(ts[0], Join(ts[1..]));
      SplitJoin(ts[1..]);
    }
  }

  /** Words with single spaces between them and none around. */
  predicate SingleSpaced(s: string) {
    s == Join(Split(s))
  }

  // ---------- bytes ----------

  type Byte = b: int | 0 <= b < 256

  function HexDigit(n: int): char
    requires 0 <= n < 16
  {
    "0123456789abcdef"[n]
  }

  function DigitValue(c: char): Option<int> {
    if '0' <= c <= '9' then Some(c as int - '0' as int)
    else if 'a' <= c <= 'f' then Some(c as int - 'a' as int + 10)
    else if 'A' <= c <= 'F' then Some(c as int - 'A' as int + 10)
    else None
  }

  lemma DigitRoundTrip(n: int)
    requires 0 <= n < 16
    ensures DigitValue(HexDigit(n)) == Some(n) && !IsSpace(HexDigit(n)) && HexDigit(n) != '+'
  {}

  /** One or two hexadecimal digits; a leading plus sign is tolerated before a digit. */
  function ParseByte(s: string): (r: Option<int>)
    ensures r.Some? ==> 0 <= r.value < 256
  {
    if |s| == 1 && DigitValue(s[0]).Some? then DigitValue(s[0])
    else if |s| == 2 && s[0] == '+' then DigitValue(s[1])
    else if |s| == 2 && DigitValue(s[0]).Some? && DigitValue(s[1]).Some?
      then Some(16 * DigitValue(s[0]).value + DigitValue(s[1]).value)
    else None
  }

  function HexPair(b: Byte): (s: string)
    ensures |s| == 2
  {
    [HexDigit(b / 16), HexDigit(b % 16)]
  }

  function HexText(data: seq<Byte>): string {
    if data == [] then "" else HexText(data[..|data| - 1]) + HexPair(data[|data| - 1])
  }

  /** Where the last chunk of two characters (or of one) begins. */
  function LastChunk(len: nat): (n: nat)
    requires len > 0
    ensures n < len && n % 2 == 0
  {
    if len % 2 == 0 then len - 2 else len - 1
  }

  /** Reads chunks of two characters; the last chunk may be a single one. */
  function ParseHex(s: string): Option<seq<Byte>> {
    if s == "" then Some([])
    else
      var n := LastChunk(|s|);
      var head, last := ParseHex(s[..n]), ParseByte(s[n..]);
      if head.Some? && last.Some? then Some(head.value + [last.value as Byte]) else None
  }

  method WriteHex(data: seq<Byte>) returns (s: string)
    ensures s == HexText(data)
  {
    s := "";
    for i := 0 to |data|
      invariant s == HexText(data[..i])
    {
      assert data[..i + 1][..i] == data[..i];
      s := s + [HexDigit(data[i] / 16), HexDigit(data[i] % 16)];
    }
    assert data[..|data|] == data;
  }

  method ReadHex(s: string) returns (r: Option<seq<Byte>>)
    ensures r == ParseHex(s)
  {
    var data: seq<Byte> := [];
    var i := 0;
    while i < |s|
      invariant 0 <= i <= |s| && (i % 2 == 0 || i == |s|)
      invariant ParseHex(s[..i]) == Some(data)
      decreases |s| - i
    {
      var n := if i + 2 <= |s| then i + 2 else |s|;
      var byte := ParseByte(s[i..n]);
      ParseHexPrefix(s, i, n);
      if byte.None? {
        ParseHexFailsOn(s, n);
        return None;
      }
      data := data + [byte.value as Byte];
      i := n;
    }
    assert s[..i] == s;
    r := Some(data);
  }

  lemma {:induction false} ParseHexFailsOn(s: string, n: nat)
    requires n <= |s| && (n % 2 == 0 || n == |s|) && ParseHex(s[..n]).None?
    ensures ParseHex(s).None?
    decreases |s|
  {
    if n == |s| {
      assert s[..n] == s;
    } else {
      var m := LastChunk(|s|);
      assert n <= m;
      assert s[..m][..n] == s[..n];
      ParseHexFailsOn(s[..m], n);
    }
  }

  lemma ParseHexSnoc(head: string, last: string)
    requires |head| % 2 == 0 && 1 <= |last| <= 2
    ensures ParseHex(head + last)
         == if ParseHex(head).Some? && ParseByte(last).Some?
            then Some(ParseHex(head).value + [ParseByte(last).value as Byte]) else None
  {
    var s := head + last;
    assert LastChunk(|s|) == |head|;
    assert s[..|head|] == head && s[|head|..] == last;
  }

  lemma ParseHexPrefix(s: string, i: nat, n: nat)
    requires i < |s| && i % 2 == 0 && n == if i + 2 <= |s| then i + 2 else |s|
    ensures ParseHex(s[..n])
         == if ParseHex(s[..i]).Some? && ParseByte(s[i..n]).Some?
            then Some(ParseHex(s[..i]).value + [ParseByte(s[i..n]).value as Byte]) else None
  {
    var head, last := s[..i], s[i..n];
    assert s[..n] == head + last;
    ParseHexSnoc(head, last);
  }

  lemma ByteRoundTrip(b: Byte)
    ensures ParseByte(HexPair(b)) == Some(b)
    ensures Token(HexPair(b))
  {
    DigitRoundTrip(b / 16);
    DigitRoundTrip(b % 16);
  }

  lemma {:induction false} HexLength(data: seq<Byte>)
    ensures |HexText(data)| == 2 * |data|
  {
    if data == [] {
    } else {
      HexLength(data[..|data| - 1]);
    }
  }

  /** The text of at least one byte is a word. */
  lemma {:induction false} HexIsWord(data: seq<Byte>)
    requires data != []
    ensures Token(HexText(data))
  {
    var n := |data| - 1;
    if n == 0 {
    } else {
      HexIsWord(data[..n]);
    }
    ByteRoundTrip(data[n]);
    TokenAppend(HexText(data[..n]), HexPair(data[n]));
  }

  lemma TokenAppend(s: string, t: string)
    requires (s == "" || Token(s)) && Token(t)
    ensures Token(s + t)
  {}

  lemma Even(n: nat)
    ensures 2 * n % 2 == 0
  {}

  /** Hexadecimal text reads back as the bytes it was written from. */
  lemma {:induction false} HexRoundTrip(data: seq<Byte>)
    ensures ParseHex(HexText(data)) == Some(data)
  {
    if data == [] {
    } else {
      var n := |data| - 1;
      assert data == data[..n] + [data[n]];
      HexRoundTrip(data[..n]);
      HexLength(data[..n]);
      Even(n);
      ByteRoundTrip(data[n]);
      ParseHexSnoc(HexText(data[..n]), HexPair(data[n]));
    }
  }

  // ---------- which characters ----------

  /** The 25 code points that separate words. */
  lemma Separators(c: char)
    ensures IsSpace(c) <==> c as int in {
        0x9, 0xA, 0xB, 0xC, 0xD, 0x20, 0x85, 0xA0, 0x1680,
        0x2000, 0x2001, 0x2002, 0x2003, 0x2004, 0x2005, 0x2006, 0x2007, 0x2008, 0x2009, 0x200A,
        0x2028, 0x2029, 0x202F, 0x205F, 0x3000}
  {}

  /** Digits are written in lower case. */
  lemma LowerCaseDigits(n: int)
    requires 0 <= n < 16
    ensures HexDigit(n) as int == if n < 10 then '0' as int + n else 'a' as int + n - 10
  {}

  /** Digits are read in either case, and nothing else is a digit. */
  lemma DigitExact(c: char, n: int)
    ensures DigitValue(c) == Some(n) <==>
      || (0 <= n < 10 && c as int == '0' as int + n)
      || (10 <= n < 16 && (c as int == 'a' as int + n - 10 || c as int == 'A' as int + n - 10))
  {}

  /** Two digits of either case a byte are read as these bytes. */
  lemma {:induction false} ReadsEitherCase(s: string, data: seq<Byte>)
    requires |s| == 2 * |data|
    requires forall i :: 0 <= i < |data| ==>
      DigitValue(s[2 * i]) == Some(data[i] / 16) && DigitValue(s[2 * i + 1]) == Some(data[i] % 16)
    ensures ParseHex(s) == Some(data)
  {
    if data == [] {
    } else {
      var n := |data| - 1;
      var head, last := s[..2 * n], s[2 * n..];
      ReadsEitherCase(head, data[..n]);
      Even(n);
      assert s == head + last;
      assert last[0] == s[2 * n] && last[1] == s[2 * n + 1];
      assert DigitValue(last[0]) == Some(data[n] / 16) && last[0] != '+';
      BytePair(last, data[n]);
      ParseHexSnoc(head, last);
      assert data == data[..n] + [data[n]];
    }
  }

  lemma BytePair(s: string, b: Byte)
    requires |s| == 2 && DigitValue(s[0]) == Some(b / 16) && DigitValue(s[1]) == Some(b % 16)
    ensures ParseByte(s) == Some(b)
  {}

  /** A single last digit, and a digit after a plus sign, are read as bytes of their own. */
  lemma ShortChunks(c: char)
    ensures ParseHex([c]) == if DigitValue(c).Some? then Some([DigitValue(c).value as Byte]) else None
    ensures ParseHex(['+', c]) == if DigitValue(c).Some? then Some([DigitValue(c).value as Byte]) else None
  {
    ParseHexSnoc("", [c]);
    ParseHexSnoc("", ['+', c]);
    assert "" + [c] == [c] && "" + ['+', c] == ['+', c];
    assert ParseByte([c]) == DigitValue(c) && ParseByte(['+', c]) == DigitValue(c);
    assert forall b: Byte :: [] + [b] == [b];
  }

  /** Text with a character that is neither a digit nor a plus sign is refused. */
  lemma {:induction false} RefusesOthers(s: string, k: nat)
    requires k < |s| && s[k] != '+' && DigitValue(s[k]) == None
    ensures ParseHex(s) == None
    decreases |s|
  {
    var n := LastChunk(|s|);
    if k >= n {
      assert s[n..][k - n] == s[k];
    } else {
      RefusesOthers(s[..n], k);
    }
  }
}
