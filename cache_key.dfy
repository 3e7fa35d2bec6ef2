/**
 * The storage key of a lookup result: `CACHE_PREFIX + JSON.stringify({start_date, end_date,
 * page, page_size})`, with the four fields always written in that order.  The encoder follows
 * JSON.stringify; the decoder beside it exists to prove that distinct queries never share a key.
 */
module CacheKey {
  import opened Api

  const CachePrefix: string := "nikeeta_cache_"

  /** The page size the lookup view always requests. */
  const PageSize: int := 50

  /** `value || null` for the text of a date input: the empty string becomes null. */
  function OrNull(s: string): (r: Option<string>)
    ensures r.None? <==> s == ""
    ensures r.Some? ==> r.value == s
  {
    if s == "" then None else Some(s)
  }

  /** The query the lookup view sends for its current date inputs and page. */
  function QueryFor(startDate: string, endDate: string, page: int): (q: LookupQuery)
    ensures q.page == page && q.pageSize == PageSize
    ensures q.startDate == (if startDate == "" then None else Some(startDate))
    ensures q.endDate == (if endDate == "" then None else Some(endDate))
  {
    LookupQuery(OrNull(startDate), OrNull(endDate), page, PageSize)
  }

  // ---------------------------------------------------------------- encoding

  function HexDigit(d: nat): char
    requires d < 16
  {
    if d < 10 then ('0' as int + d) as char else ('a' as int + d - 10) as char
  }

  predicate IsHex(c: char) { '0' <= c <= '9' || 'a' <= c <= 'f' || 'A' <= c <= 'F' }

  function HexValue(c: char): (v: nat)
    requires IsHex(c)
    ensures v < 16
  {
    if '0' <= c <= '9' then c as int - '0' as int
    else if 'a' <= c <= 'f' then c as int - 'a' as int + 10
    else c as int - 'A' as int + 10
  }

  /** How JSON.stringify writes one character inside a string literal. */
  function EscapeChar(c: char): string {
    if c == '"' then ['\\', '"']
    else if c == '\\' then ['\\', '\\']
    else if c as int == 8 then ['\\', 'b']
    else if c == '\t' then ['\\', 't']
    else if c == '\n' then ['\\', 'n']
    else if c as int == 12 then ['\\', 'f']
    else if c == '\r' then ['\\', 'r']
    else if c as int < 0x20 then ['\\', 'u', '0', '0', HexDigit(c as int / 16), HexDigit(c as int % 16)]
    else [c]
  }

  function Escape(s: string): string {
    if |s| == 0 then "" else EscapeChar(s[0]) + Escape(s[1..])
  }

  /** A string field that may be null. */
  function Nullable(v: Option<string>): string {
    match v
    case None => "null"
    case Some(s) => "\"" + Escape(s) + "\""
  }

  function IntText(n: int): string {
    if n < 0 then "-" + Decimal(-n) else Decimal(n)
  }

  /** `JSON.stringify({start_date, end_date, page, page_size})`. */
  function ParamString(q: LookupQuery): string {
    "{\"start_date\":" + (Nullable(q.startDate) + (",\"end_date\":" + (Nullable(q.endDate)
      + (",\"page\":" + (IntText(q.page) + (",\"page_size\":" + (IntText(q.pageSize) + "}")))))))
  }

  function Key(q: LookupQuery): (k: string)
    ensures CachePrefix <= k && k[|CachePrefix|..] == ParamString(q)
  {
    CachePrefix + ParamString(q)
  }

  // ---------------------------------------------------------------- decoding

  function Expect(lit: string, s: string): Option<string> {
    if lit <= s then Some(s[|lit|..]) else None
  }

  /** The code unit four hex digits spell. */
  function CodeUnit(d1: nat, d2: nat, d3: nat, d4: nat): (n: nat)
    requires d1 < 16 && d2 < 16 && d3 < 16 && d4 < 16
    ensures n < 0x10000
  {
    4096 * d1 + 256 * d2 + 16 * d3 + d4
  }

  /** The character an escape sequence stands for; `s` starts just after the backslash. */
  function Unescape(s: string): (r: Option<(char, string)>)
    ensures r.Some? ==> |r.value.1| < |s|
  {
    if |s| == 0 then None
    else if s[0] == '"' || s[0] == '\\' || s[0] == '/' then Some((s[0], s[1..]))
    else if s[0] == 'b' then Some((8 as char, s[1..]))
    else if s[0] == 't' then Some(('\t', s[1..]))
    else if s[0] == 'n' then Some(('\n', s[1..]))
    else if s[0] == 'f' then Some((12 as char, s[1..]))
    else if s[0] == 'r' then Some(('\r', s[1..]))
    else if s[0] == 'u' && |s| >= 5 && IsHex(s[1]) && IsHex(s[2]) && IsHex(s[3]) && IsHex(s[4]) then
      var code := CodeUnit(HexValue(s[1]), HexValue(s[2]), HexValue(s[3]), HexValue(s[4]));
      if code < 0xD800 || 0xE000 <= code then Some((code as char, s[5..])) else None
    else None
  }

  /** Reads the body of a string literal up to its closing quote; gives the text and what follows. */
  function ReadString(s: string): Option<(string, string)>
    decreases |s|
  {
    if |s| == 0 then None
    else if s[0] == '"' then Some(("", s[1..]))
    else if s[0] == '\\' then
      match Unescape(s[1..])
      case None => None
      case Some((c, rest)) =>
        match ReadString(rest)
        case None => None
        case Some((t, after)) => Some(([c] + t, after))
    else
      match ReadString(s[1..])
      case None => None
      case Some((t, after)) => Some(([s[0]] + t, after))
  }

  function ReadNullable(s: string): Option<(Option<string>, string)> {
    if "null" <= s then Some((None, s[4..]))
    else if |s| > 0 && s[0] == '"' then
      match ReadString(s[1..])
      case None => None
      case Some((t, rest)) => Some((Some(t), rest))
    else None
  }

  /** The length of the run of digits that starts `s`. */
  function DigitRun(s: string): (k: nat)
    ensures k <= |s|
    ensures forall i :: 0 <= i < k ==> IsDigit(s[i])
  {
    if |s| == 0 || !IsDigit(s[0]) then 0 else 1 + DigitRun(s[1..])
  }

  function ReadNat(s: string): Option<(nat, string)> {
    var k := DigitRun(s);
    if k == 0 then None else Some((DigitsValue(s[..k]), s[k..]))
  }

  function ReadInt(s: string): Option<(int, string)> {
    if |s| > 0 && s[0] == '-' then
      match ReadNat(s[1..])
      case None => None
      case Some((n, rest)) => Some((-(n as int), rest))
    else ReadNat(s)
  }

  /** Parses the text ParamString writes. */
  function DecodeParams(s: string): Option<LookupQuery> {
    var s1 :- Expect("{\"start_date\":", s);
    var p2 :- ReadNullable(s1);
    var s3 :- Expect(",\"end_date\":", p2.1);
    var p4 :- ReadNullable(s3);
    var s5 :- Expect(",\"page\":", p4.1);
    var p6 :- ReadInt(s5);
    var s7 :- Expect(",\"page_size\":", p6.1);
    var p8 :- ReadInt(s7);
    if p8.1 == "}" then Some(LookupQuery(p2.0, p4.0, p6.0, p8.0)) else None
  }

  // ---------------------------------------------------------------- round trip

  lemma ExpectLiteral(lit: string, rest: string)
    ensures Expect(lit, lit + rest) == Some(rest)
  {
    assert (lit + rest)[..|lit|] == lit;
    assert (lit + rest)[|lit|..] == rest;
  }

  /** Reading one written character: the reader yields that character and goes on after it. */
  lemma ReadEscapedChar(c: char, tail: string)
    ensures ReadString(EscapeChar(c) + tail) ==
      match ReadString(tail)
      case None => None
      case Some((t, after)) => Some(([c] + t, after))
  {
    var s := EscapeChar(c) + tail;
    if c == '"' || c == '\\' || c as int == 8 || c == '\t' || c == '\n' || c as int == 12 || c == '\r' {
      assert s[1..] == [EscapeChar(c)[1]] + tail;
      assert Unescape(s[1..]) == Some((c, tail));
    } else if c as int < 0x20 {
      var h1, h2 := HexDigit(c as int / 16), HexDigit(c as int % 16);
      assert s[1..] == ['u', '0', '0', h1, h2] + tail;
      assert HexValue(h1) == c as int / 16 && HexValue(h2) == c as int % 16;
      assert s[1..][5..] == tail;
      assert Unescape(s[1..]) == Some((c, tail));
    } else {
      assert s[0] == c && s[1..] == tail;
    }
  }

  lemma {:induction false} ReadEscaped(s: string, rest: string)
    ensures ReadString(Escape(s) + "\"" + rest) == Some((s, rest))
  {
    if |s| == 0 {
      assert Escape(s) + "\"" + rest == "\"" + rest;
    } else {
      var tail := Escape(s[1..]) + "\"" + rest;
      assert Escape(s) + "\"" + rest == EscapeChar(s[0]) + tail;
      ReadEscaped(s[1..], rest);
      ReadEscapedChar(s[0], tail);
      assert [s[0]] + s[1..] == s;
    }
  }

  lemma ReadNullableRoundTrip(v: Option<string>, rest: string)
    ensures ReadNullable(Nullable(v) + rest) == Some((v, rest))
  {
    match v
    case None =>
      ExpectLiteral("null", rest);
    case Some(s) =>
      var text := Nullable(v) + rest;
      assert text[0] == '"';
      assert text[1..] == Escape(s) + "\"" + rest;
      ReadEscaped(s, rest);
  }

  lemma {:induction false} DigitRunOver(d: string, rest: string)
    requires forall i :: 0 <= i < |d| ==> IsDigit(d[i])
    requires |rest| == 0 || !IsDigit(rest[0])
    ensures DigitRun(d + rest) == |d|
  {
    if |d| == 0 {
      assert d + rest == rest;
    } else {
      assert (d + rest)[1..] == d[1..] + rest;
      DigitRunOver(d[1..], rest);
    }
  }

  lemma ReadNatRoundTrip(n: nat, rest: string)
    requires |rest| == 0 || !IsDigit(rest[0])
    ensures ReadNat(Decimal(n) + rest) == Some((n, rest))
  {
    var d := Decimal(n);
    DigitRunOver(d, rest);
    assert (d + rest)[..|d|] == d;
    assert (d + rest)[|d|..] == rest;
    DecimalRoundTrip(n);
  }

  lemma ReadIntRoundTrip(n: int, rest: string)
    requires |rest| == 0 || !IsDigit(rest[0])
    ensures ReadInt(IntText(n) + rest) == Some((n, rest))
  {
    if n < 0 {
      ReadNegativeRoundTrip(-n, rest);
    } else {
      ReadNatRoundTrip(n, rest);
      assert IsDigit(Decimal(n)[0]);
    }
  }

  lemma ReadNegativeRoundTrip(m: nat, rest: string)
    requires m > 0 && (|rest| == 0 || !IsDigit(rest[0]))
    ensures ReadInt("-" + Decimal(m) + rest) == Some((0 - m, rest))
  {
    var u := Decimal(m) + rest;
    assert ("-" + Decimal(m) + rest)[1..] == u;
    ReadNatRoundTrip(m, rest);
  }

  /** Decoding the parameter text gives back the query it was written from. */
  lemma DecodeEncode(q: LookupQuery)
    ensures DecodeParams(ParamString(q)) == Some(q)
  {
    var t8 := "}";
    var t7 := IntText(q.pageSize) + t8;
    var t6 := ",\"page_size\":" + t7;
    var t5 := IntText(q.page) + t6;
    var t4 := ",\"page\":" + t5;
    var t3 := Nullable(q.endDate) + t4;
    var t2 := ",\"end_date\":" + t3;
    var t1 := Nullable(q.startDate) + t2;
    assert ParamString(q) == "{\"start_date\":" + t1;
    ExpectLiteral("{\"start_date\":", t1);
    ReadNullableRoundTrip(q.startDate, t2);
    ExpectLiteral(",\"end_date\":", t3);
    ReadNullableRoundTrip(q.endDate, t4);
    ExpectLiteral(",\"page\":", t5);
    ReadIntRoundTrip(q.page, t6);
    ExpectLiteral(",\"page_size\":", t7);
    ReadIntRoundTrip(q.pageSize, t8);
  }

  /** Two queries share a storage key exactly when all four fields agree. */
  lemma KeyInjective(q1: LookupQuery, q2: LookupQuery)
    ensures Key(q1) == Key(q2) <==> q1 == q2
  {
    if Key(q1) == Key(q2) {
      assert ParamString(q1) == Key(q1)[|CachePrefix|..];
      assert ParamString(q2) == Key(q2)[|CachePrefix|..];
      DecodeEncode(q1);
      DecodeEncode(q2);
    }
  }

  /** The next page's key is never the current page's key, so a prefetch and the visible load use different slots. */
  lemma NextPageKeyDiffers(startDate: string, endDate: string, page: int)
    ensures Key(QueryFor(startDate, endDate, page)) != Key(QueryFor(startDate, endDate, page + 1))
  {
    KeyInjective(QueryFor(startDate, endDate, page), QueryFor(startDate, endDate, page + 1));
  }

  /** An empty date input and an absent date give the same key. */
  lemma EmptyDateIsNull(endDate: string, page: int)
    ensures Key(QueryFor("", endDate, page)) == Key(LookupQuery(None, OrNull(endDate), page, PageSize))
  {
  }
}
