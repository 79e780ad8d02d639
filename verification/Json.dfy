/** JSON text as json.dumps writes it and json.loads reads it: strings, integers, lists and objects (RFC 8259). */
module Json {
  import opened Types
  import Decimal

  datatype Json = Num(n: int) | Str(s: string) | List(items: seq<Json>) | Obj(fields: seq<Field>)
  datatype Field = Field(name: string, value: Json)

  // ---- Writing ----

  function HexDigit(d: int): char
    requires 0 <= d < 16
  {
    if d < 10 then (48 + d) as char else (87 + d) as char
  }

  function Hex4(n: int): string
    requires 0 <= n < 0x1_0000
  {
    [HexDigit(n / 4096), HexDigit(n / 256 % 16), HexDigit(n / 16 % 16), HexDigit(n % 16)]
  }

  /** Everything outside printable ASCII is escaped, beyond the basic plane as a surrogate pair. */
  function EscapedChar(c: char): string {
    var u := c as int;
    if c == '\"' then "\\\""
    else if c == '\\' then "\\\\"
    else if u == 0x08 then "\\b"
    else if u == 0x0C then "\\f"
    else if u == 0x0A then "\\n"
    else if u == 0x0D then "\\r"
    else if u == 0x09 then "\\t"
    else if 0x20 <= u < 0x7F then [c]
    else if u < 0x1_0000 then "\\u" + Hex4(u)
    else "\\u" + Hex4(0xD800 + (u - 0x1_0000) / 0x400) + ("\\u" + Hex4(0xDC00 + (u - 0x1_0000) % 0x400))
  }

  function Escaped(s: string): string {
    if s == [] then "" else EscapedChar(s[0]) + Escaped(s[1..])
  }

  function Quoted(s: string): string {
    "\"" + Escaped(s) + "\""
  }

  function Text(j: Json): string {
    match j
    case Num(n) => Decimal.Text(n)
    case Str(s) => Quoted(s)
    case List(items) => "[" + ItemsText(items) + "]"
    case Obj(fields) => "{" + FieldsText(fields) + "}"
  }

  function ItemsText(items: seq<Json>): string {
    if items == [] then ""
    else if |items| == 1 then Text(items[0])
    else Text(items[0]) + ", " + ItemsText(items[1..])
  }

  function FieldText(f: Field): string {
    Quoted(f.name) + ": " + Text(f.value)
  }

  function FieldsText(fields: seq<Field>): string {
    if fields == [] then ""
    else if |fields| == 1 then FieldText(fields[0])
    else FieldText(fields[0]) + ", " + FieldsText(fields[1..])
  }

  // ---- Reading: each function returns what it read and the text after it ----

  predicate IsBlank(c: char) {
    c == ' ' || c == '\t' || c == '\n' || c == '\r'
  }

  function Skip(s: string): (r: string)
    ensures |r| <= |s|
  {
    if s != [] && IsBlank(s[0]) then Skip(s[1..]) else s
  }

  function HexValue(c: char): (r: Option<int>)
    ensures r.Some? ==> 0 <= r.value < 16
  {
    if '0' <= c <= '9' then Some(c as int - 48)
    else if 'a' <= c <= 'f' then Some(c as int - 87)
    else if 'A' <= c <= 'F' then Some(c as int - 55)
    else None
  }

  function Combined(a: int, b: int, c: int, d: int): (n: int)
    requires 0 <= a < 16 && 0 <= b < 16 && 0 <= c < 16 && 0 <= d < 16
    ensures 0 <= n < 0x1_0000
  {
    4096 * a + 256 * b + 16 * c + d
  }

  /** Four hexadecimal digits. */
  function Unit(s: string): (r: Option<(int, string)>)
    ensures r.Some? ==> |r.value.1| < |s| && 0 <= r.value.0 < 0x1_0000
  {
    if |s| < 4 then None
    else
      match (HexValue(s[0]), HexValue(s[1]), HexValue(s[2]), HexValue(s[3]))
      case (Some(a), Some(b), Some(c), Some(d)) => Some((Combined(a, b, c, d), s[4..]))
      case _ => None
  }

  /** The second half of a surrogate pair. */
  function LowSurrogate(high: int, s: string): (r: Option<(char, string)>)
    requires 0xD800 <= high < 0xDC00
    ensures r.Some? ==> |r.value.1| < |s|
  {
    if |s| < 2 || s[0] != '\\' || s[1] != 'u' then None
    else
      match Unit(s[2..])
      case None => None
      case Some((low, rest)) =>
        if 0xDC00 <= low < 0xE000
        then Some(((0x1_0000 + (high - 0xD800) * 0x400 + (low - 0xDC00)) as char, rest))
        else None
  }

  /** The character that an escape stands for; the backslash is already read. */
  function Escape(s: string): (r: Option<(char, string)>)
    ensures r.Some? ==> |r.value.1| < |s|
  {
    if s == [] then None
    else if s[0] == '\"' || s[0] == '\\' || s[0] == '/' then Some((s[0], s[1..]))
    else if s[0] == 'b' then Some((0x08 as char, s[1..]))
    else if s[0] == 'f' then Some((0x0C as char, s[1..]))
    else if s[0] == 'n' then Some((0x0A as char, s[1..]))
    else if s[0] == 'r' then Some((0x0D as char, s[1..]))
    else if s[0] == 't' then Some((0x09 as char, s[1..]))
    else if s[0] != 'u' then None
    else
      match Unit(s[1..])
      case None => None
      case Some((u, rest)) =>
        if 0xD800 <= u < 0xDC00 then LowSurrogate(u, rest)
        else if 0xDC00 <= u < 0xE000 then None
        else Some((u as char, rest))
  }

  /** The characters up to the closing quote; the opening one is already read. */
  function Body(s: string): (r: Option<(string, string)>)
    ensures r.Some? ==> |r.value.1| < |s|
    decreases |s|
  {
    if s == [] || (s[0] as int) < 0x20 then None
    else if s[0] == '\"' then Some(("", s[1..]))
    else if s[0] == '\\' then
      match Escape(s[1..])
      case None => None
      case Some((c, rest)) => Before(c, Body(rest))
    else Before(s[0], Body(s[1..]))
  }

  function Before(c: char, r: Option<(string, string)>): Option<(string, string)> {
    match r
    case None => None
    case Some((text, rest)) => Some(([c] + text, rest))
  }

  /** The length of the longest run of digits at the front. */
  function Run(s: string): (n: nat)
    ensures n <= |s|
  {
    if s != [] && Decimal.IsDigit(s[0]) then 1 + Run(s[1..]) else 0
  }

  /** An integer; a fraction or an exponent makes it a float, which is not read. */
  function Number(s: string): (r: Option<(Json, string)>)
    ensures r.Some? ==> |r.value.1| < |s|
  {
    var sign := if s != [] && s[0] == '-' then 1 else 0;
    var n := sign + Run(s[sign..]);
    if n == sign || (n > sign + 1 && s[sign] == '0') || (n < |s| && s[n] in ".eE") then None
    else
      match Decimal.Read(s[..n])
      case None => None
      case Some(v) => Some((Num(v), s[n..]))
  }

  function Value(s: string): (r: Option<(Json, string)>)
    ensures r.Some? ==> |r.value.1| < |s|
    decreases |s|, 0
  {
    if s == [] then None
    else if s[0] == '\"' then
      match Body(s[1..])
      case None => None
      case Some((text, rest)) => Some((Str(text), rest))
    else if s[0] == '[' then
      var inner := Skip(s[1..]);
      if inner != [] && inner[0] == ']' then Some((List([]), inner[1..]))
      else
        match Items(inner)
        case None => None
        case Some((items, rest)) => Some((List(items), rest))
    else if s[0] == '{' then
      var inner := Skip(s[1..]);
      if inner != [] && inner[0] == '}' then Some((Obj([]), inner[1..]))
      else
        match Fields(inner)
        case None => None
        case Some((fields, rest)) => Some((Obj(fields), rest))
    else Number(s)
  }

  /** One or more values and the closing bracket. */
  function Items(s: string): (r: Option<(seq<Json>, string)>)
    ensures r.Some? ==> |r.value.1| < |s|
    decreases |s|, 1
  {
    match Value(s)
    case None => None
    case Some((first, rest)) =>
      var after := Skip(rest);
      if after == [] then None
      else if after[0] == ']' then Some(([first], after[1..]))
      else if after[0] != ',' then None
      else
        match Items(Skip(after[1..]))
        case None => None
        case Some((others, rest')) => Some(([first] + others, rest'))
  }

  /** A name, a colon and a value. */
  function Member(s: string): (r: Option<(Field, string)>)
    ensures r.Some? ==> |r.value.1| < |s|
    decreases |s|, 1
  {
    if s == [] || s[0] != '\"' then None
    else
      match Body(s[1..])
      case None => None
      case Some((name, rest)) =>
        var colon := Skip(rest);
        if colon == [] || colon[0] != ':' then None
        else
          match Value(Skip(colon[1..]))
          case None => None
          case Some((value, rest')) => Some((Field(name, value), rest'))
  }

  /** One or more members and the closing brace. */
  function Fields(s: string): (r: Option<(seq<Field>, string)>)
    ensures r.Some? ==> |r.value.1| < |s|
    decreases |s|, 2
  {
    match Member(s)
    case None => None
    case Some((first, rest)) =>
      var after := Skip(rest);
      if after == [] then None
      else if after[0] == '}' then Some(([first], after[1..]))
      else if after[0] != ',' then None
      else
        match Fields(Skip(after[1..]))
        case None => None
        case Some((others, rest')) => Some(([first] + others, rest'))
  }

  /** json.loads: one value, and nothing but blanks around it. */
  function Loads(s: string): Option<Json> {
    match Value(Skip(s))
    case None => None
    case Some((j, rest)) => if Skip(rest) == [] then Some(j) else None
  }

  // ---- What was written is read back ----

  /** A text that cannot continue a number. */
  predicate Delimits(s: string) {
    s == [] || (!Decimal.IsDigit(s[0]) && s[0] !in ".eE")
  }

  lemma HexReadsBack(d: int)
    requires 0 <= d < 16
    ensures HexValue(HexDigit(d)) == Some(d)
  {
  }

  lemma FourDigits(n: int)
    requires 0 <= n < 0x1_0000
    ensures n / 4096 < 16 && Combined(n / 4096, n / 256 % 16, n / 16 % 16, n % 16) == n
  {
    assert n / 16 / 16 == n / 256 && n / 256 / 16 == n / 4096;
  }

  lemma UnitReadsBack(n: int, rest: string)
    requires 0 <= n < 0x1_0000
    ensures Unit(Hex4(n) + rest) == Some((n, rest))
  {
    var digits := Hex4(n);
    var s := digits + rest;
    assert s[0] == digits[0] && s[1] == digits[1] && s[2] == digits[2] && s[3] == digits[3];
    assert s[4..] == rest;
    FourDigits(n);
    HexReadsBack(n / 4096);
    HexReadsBack(n / 256 % 16);
    HexReadsBack(n / 16 % 16);
    HexReadsBack(n % 16);
  }

  lemma PlainUnitReadsBack(c: char, rest: string)
    requires c as int < 0x1_0000
    ensures Escape("u" + Hex4(c as int) + rest) == Some((c, rest))
  {
    var u := c as int;
    var s := "u" + Hex4(u) + rest;
    assert s[1..] == Hex4(u) + rest;
    UnitReadsBack(u, rest);
  }

  lemma HighReadsBack(high: int, tail: string)
    requires 0xD800 <= high < 0xDC00
    ensures Escape("u" + Hex4(high) + tail) == LowSurrogate(high, tail)
  {
    var s := "u" + Hex4(high) + tail;
    assert s[1..] == Hex4(high) + tail;
    UnitReadsBack(high, tail);
  }

  lemma LowReadsBack(high: int, low: int, rest: string)
    requires 0xD800 <= high < 0xDC00 && 0xDC00 <= low < 0xE000
    ensures LowSurrogate(high, "\\u" + Hex4(low) + rest)
         == Some(((0x1_0000 + (high - 0xD800) * 0x400 + (low - 0xDC00)) as char, rest))
  {
    var s := "\\u" + Hex4(low) + rest;
    assert s[2..] == Hex4(low) + rest;
    UnitReadsBack(low, rest);
  }

  lemma PairReadsBack(c: char, rest: string)
    requires c as int >= 0x1_0000
    ensures var v := c as int - 0x1_0000;
            Escape("u" + Hex4(0xD800 + v / 0x400) + ("\\u" + Hex4(0xDC00 + v % 0x400) + rest)) == Some((c, rest))
  {
    var v := c as int - 0x1_0000;
    var high, low := 0xD800 + v / 0x400, 0xDC00 + v % 0x400;
    HighReadsBack(high, "\\u" + Hex4(low) + rest);
    LowReadsBack(high, low, rest);
  }

  lemma EscapeInBody(escape: string, c: char, rest: string)
    requires Escape(escape) == Some((c, rest))
    ensures Body("\\" + escape) == Before(c, Body(rest))
  {
    assert ("\\" + escape)[1..] == escape;
  }

  lemma ShortEscapeReadsBack(c: char, rest: string)
    requires |EscapedChar(c)| == 2
    ensures Body(EscapedChar(c) + rest) == Before(c, Body(rest))
  {
    var escape := [EscapedChar(c)[1]] + rest;
    assert EscapedChar(c) + rest == "\\" + escape;
    assert escape[1..] == rest;
    EscapeInBody(escape, c, rest);
  }

  lemma RegroupShort(digits: string, rest: string)
    ensures "\\u" + digits + rest == "\\" + ("u" + digits + rest)
  {
    assert "\\u" == "\\" + "u";
  }

  lemma RegroupPair(high: string, low: string, rest: string)
    ensures "\\u" + high + ("\\u" + low) + rest == "\\" + ("u" + high + ("\\u" + low + rest))
  {
    assert "\\u" == "\\" + "u";
    Regroup("\\" + "u", high, "\\u" + low, rest, "");
  }

  lemma Regroup(a: string, b: string, c: string, d: string, e: string)
    ensures a + b + c + d + e == a + (b + (c + d + e))
  {
  }

  lemma PlainEscapeReadsBack(c: char, rest: string)
    requires c as int < 0x1_0000
    ensures Body("\\u" + Hex4(c as int) + rest) == Before(c, Body(rest))
  {
    var digits := Hex4(c as int);
    PlainUnitReadsBack(c, rest);
    EscapeInBody("u" + digits + rest, c, rest);
    RegroupShort(digits, rest);
  }

  lemma PairEscapeReadsBack(c: char, rest: string)
    requires c as int >= 0x1_0000
    ensures var v := c as int - 0x1_0000;
            Body("\\u" + Hex4(0xD800 + v / 0x400) + ("\\u" + Hex4(0xDC00 + v % 0x400)) + rest) == Before(c, Body(rest))
  {
    var v := c as int - 0x1_0000;
    var high, low := Hex4(0xD800 + v / 0x400), Hex4(0xDC00 + v % 0x400);
    PairReadsBack(c, rest);
    EscapeInBody("u" + high + ("\\u" + low + rest), c, rest);
    RegroupPair(high, low, rest);
  }

  /** Whatever the character, its escape stands for it. */
  lemma EscapedCharReadsBack(c: char, rest: string)
    ensures Body(EscapedChar(c) + rest) == Before(c, Body(rest))
  {
    if |EscapedChar(c)| == 2 {
      ShortEscapeReadsBack(c, rest);
    } else if |EscapedChar(c)| == 1 {
      assert ([c] + rest)[1..] == rest;
    } else if c as int < 0x1_0000 {
      PlainEscapeReadsBack(c, rest);
    } else {
      PairEscapeReadsBack(c, rest);
    }
  }

  lemma {:induction false} EscapedReadsBack(s: string, rest: string)
    ensures Body(Escaped(s) + "\"" + rest) == Some((s, rest))
  {
    if s == [] {
      assert (Escaped(s) + "\"" + rest)[1..] == rest;
    } else {
      var tail := Escaped(s[1..]) + "\"" + rest;
      assert Escaped(s) + "\"" + rest == EscapedChar(s[0]) + tail;
      EscapedCharReadsBack(s[0], tail);
      EscapedReadsBack(s[1..], rest);
      assert [s[0]] + s[1..] == s;
    }
  }

  lemma {:induction false} RunOfDigits(digits: string, rest: string)
    requires forall c :: c in digits ==> Decimal.IsDigit(c)
    requires Delimits(rest)
    ensures Run(digits + rest) == |digits|
  {
    if digits == [] {
      assert digits + rest == rest;
    } else {
      assert (digits + rest)[1..] == digits[1..] + rest;
      RunOfDigits(digits[1..], rest);
    }
  }

  lemma {:induction false} NoLeadingZero(n: nat)
    ensures Decimal.Digits(n)[0] == '0' ==> n == 0 && |Decimal.Digits(n)| == 1
  {
    if n >= 10 {
      NoLeadingZero(n / 10);
      assert Decimal.Digits(n)[0] == Decimal.Digits(n / 10)[0];
    }
  }

  lemma NumberParts(sign: string, digits: string, n: int, rest: string)
    requires sign == "" || sign == "-"
    requires digits != [] && (forall c :: c in digits ==> Decimal.IsDigit(c)) && (digits[0] == '0' ==> |digits| == 1)
    requires Decimal.Read(sign + digits) == Some(n) && Delimits(rest)
    ensures Number(sign + digits + rest) == Some((Num(n), rest))
  {
    var s, text := sign + digits + rest, sign + digits;
    assert digits[0] in digits;
    assert s[|sign|] == digits[0];
    assert s[|sign|..] == digits + rest;
    RunOfDigits(digits, rest);
    assert s[..|text|] == text && s[|text|..] == rest;
  }

  lemma NumberReadsBack(n: int, rest: string)
    requires Delimits(rest)
    ensures Number(Decimal.Text(n) + rest) == Some((Num(n), rest))
  {
    var size := if n < 0 then -n else n;
    var sign, digits := if n < 0 then "-" else "", Decimal.Digits(size);
    NoLeadingZero(size);
    Decimal.ReadsBack(n);
    assert Decimal.Text(n) == sign + digits;
    NumberParts(sign, digits, n, rest);
  }

  lemma SkipStops(s: string)
    requires s == [] || !IsBlank(s[0])
    ensures Skip(s) == s
  {
  }

  /** The first character of a value is neither blank nor a closing bracket or brace. */
  lemma FirstOfValue(j: Json)
    ensures var s := Text(j);
            s != [] && !IsBlank(s[0]) && s[0] != ']' && s[0] != '}'
  {
    if j.Num? && j.n >= 0 {
      assert Decimal.Digits(j.n)[0] in Decimal.Digits(j.n);
    }
  }

  lemma AfterComma(rest: string)
    requires rest == [] || !IsBlank(rest[0])
    ensures var s := ", " + rest;
            s != [] && s[0] == ',' && Skip(s) == s && Skip(s[1..]) == rest && Delimits(s)
  {
    var s := ", " + rest;
    assert s[1..] == " " + rest && s[1..][1..] == rest;
    SkipStops(rest);
  }

  lemma AfterColon(rest: string)
    requires rest == [] || !IsBlank(rest[0])
    ensures var s := ": " + rest;
            s != [] && s[0] == ':' && Skip(s) == s && Skip(s[1..]) == rest
  {
    var s := ": " + rest;
    assert s[1..] == " " + rest && s[1..][1..] == rest;
    SkipStops(rest);
  }

  lemma LastItem(s: string, j: Json, rest: string)
    requires Value(s) == Some((j, "]" + rest))
    ensures Items(s) == Some(([j], rest))
  {
    assert ("]" + rest)[1..] == rest;
  }

  lemma MoreItems(s: string, j: Json, tail: string, items: seq<Json>, rest: string)
    requires tail != [] && !IsBlank(tail[0])
    requires Value(s) == Some((j, ", " + tail)) && Items(tail) == Some((items, rest))
    ensures Items(s) == Some(([j] + items, rest))
  {
    AfterComma(tail);
  }

  lemma LastField(s: string, f: Field, rest: string)
    requires Member(s) == Some((f, "}" + rest))
    ensures Fields(s) == Some(([f], rest))
  {
    assert ("}" + rest)[1..] == rest;
  }

  lemma MoreFields(s: string, f: Field, tail: string, fields: seq<Field>, rest: string)
    requires tail != [] && !IsBlank(tail[0])
    requires Member(s) == Some((f, ", " + tail)) && Fields(tail) == Some((fields, rest))
    ensures Fields(s) == Some(([f] + fields, rest))
  {
    AfterComma(tail);
  }

  lemma MemberParts(name: string, text: string, value: Json, rest: string)
    requires text != [] && !IsBlank(text[0]) && Value(text) == Some((value, rest))
    ensures Member(Quoted(name) + ": " + text) == Some((Field(name, value), rest))
  {
    var s := Quoted(name) + ": " + text;
    assert s[1..] == Escaped(name) + "\"" + (": " + text);
    EscapedReadsBack(name, ": " + text);
    AfterColon(text);
  }

  lemma StrReadsBack(text: string, rest: string)
    ensures Value(Quoted(text) + rest) == Some((Str(text), rest))
  {
    assert (Quoted(text) + rest)[1..] == Escaped(text) + "\"" + rest;
    EscapedReadsBack(text, rest);
  }

  lemma ListAround(inner: string, items: seq<Json>, rest: string)
    requires inner != [] && !IsBlank(inner[0])
    requires if inner[0] == ']' then items == [] && inner[1..] == rest else Items(inner) == Some((items, rest))
    ensures Value("[" + inner) == Some((List(items), rest))
  {
    assert ("[" + inner)[1..] == inner;
  }

  lemma ObjAround(inner: string, fields: seq<Field>, rest: string)
    requires inner != [] && !IsBlank(inner[0])
    requires if inner[0] == '}' then fields == [] && inner[1..] == rest else Fields(inner) == Some((fields, rest))
    ensures Value("{" + inner) == Some((Obj(fields), rest))
  {
    assert ("{" + inner)[1..] == inner;
  }

  lemma NumReadsBack(n: int, rest: string)
    requires Delimits(rest)
    ensures Value(Decimal.Text(n) + rest) == Some((Num(n), rest))
  {
    var text := Decimal.Text(n);
    NumberReadsBack(n, rest);
    if n >= 0 {
      assert text[0] in Decimal.Digits(n);
    }
    assert (text + rest)[0] == text[0];
  }

  lemma ListText(items: seq<Json>, rest: string)
    ensures Text(List(items)) + rest == "[" + (ItemsText(items) + "]" + rest)
  {
  }

  lemma ObjText(fields: seq<Field>, rest: string)
    ensures Text(Obj(fields)) + rest == "{" + (FieldsText(fields) + "}" + rest)
  {
  }

  lemma {:induction false} ValueReadsBack(j: Json, rest: string)
    requires Delimits(rest)
    ensures Value(Text(j) + rest) == Some((j, rest))
    decreases j, 0
  {
    match j
    case Num(n) => NumReadsBack(n, rest);
    case Str(text) => StrReadsBack(text, rest);
    case List(items) =>
      var inner := ItemsText(items) + "]" + rest;
      ListText(items, rest);
      if items == [] {
        assert inner == "]" + rest && inner[1..] == rest;
      } else {
        FirstOfItems(items);
        ItemsReadBack(items, rest);
      }
      ListAround(inner, items, rest);
    case Obj(fields) =>
      var inner := FieldsText(fields) + "}" + rest;
      ObjText(fields, rest);
      if fields == [] {
        assert inner == "}" + rest && inner[1..] == rest;
      } else {
        FirstOfFields(fields);
        FieldsReadBack(fields, rest);
      }
      ObjAround(inner, fields, rest);
  }

  lemma OneFieldText(fields: seq<Field>, rest: string)
    requires |fields| == 1
    ensures FieldsText(fields) + "}" + rest == FieldText(fields[0]) + ("}" + rest)
  {
  }

  lemma MoreItemsText(items: seq<Json>, rest: string)
    requires |items| > 1
    ensures ItemsText(items) + "]" + rest == Text(items[0]) + (", " + (ItemsText(items[1..]) + "]" + rest))
  {
    Regroup(Text(items[0]), ", ", ItemsText(items[1..]), "]", rest);
  }

  lemma MoreFieldsText(fields: seq<Field>, rest: string)
    requires |fields| > 1
    ensures FieldsText(fields) + "}" + rest == FieldText(fields[0]) + (", " + (FieldsText(fields[1..]) + "}" + rest))
  {
    Regroup(FieldText(fields[0]), ", ", FieldsText(fields[1..]), "}", rest);
  }

  lemma FirstOfItems(items: seq<Json>)
    requires items != []
    ensures var s := ItemsText(items);
            s != [] && !IsBlank(s[0]) && s[0] != ']'
  {
    FirstOfValue(items[0]);
  }

  lemma FirstOfFields(fields: seq<Field>)
    requires fields != []
    ensures FieldsText(fields) != [] && FieldsText(fields)[0] == '\"'
  {
  }

  lemma {:induction false} ItemsReadBack(items: seq<Json>, rest: string)
    requires items != []
    ensures Items(ItemsText(items) + "]" + rest) == Some((items, rest))
    decreases items, 1
  {
    var s, first := ItemsText(items) + "]" + rest, Text(items[0]);
    if |items| == 1 {
      assert s == first + ("]" + rest);
      ValueReadsBack(items[0], "]" + rest);
      LastItem(s, items[0], rest);
      assert [items[0]] == items;
    } else {
      var tail := ItemsText(items[1..]) + "]" + rest;
      MoreItemsText(items, rest);
      ValueReadsBack(items[0], ", " + tail);
      FirstOfItems(items[1..]);
      ItemsReadBack(items[1..], rest);
      MoreItems(s, items[0], tail, items[1..], rest);
      assert [items[0]] + items[1..] == items;
    }
  }

  lemma {:induction false} MemberReadsBack(f: Field, rest: string)
    requires Delimits(rest)
    ensures Member(FieldText(f) + rest) == Some((f, rest))
    decreases f, 1
  {
    var text := Text(f.value) + rest;
    FirstOfValue(f.value);
    ValueReadsBack(f.value, rest);
    MemberParts(f.name, text, f.value, rest);
    assert FieldText(f) + rest == Quoted(f.name) + ": " + text;
  }

  lemma {:induction false} FieldsReadBack(fields: seq<Field>, rest: string)
    requires fields != []
    ensures Fields(FieldsText(fields) + "}" + rest) == Some((fields, rest))
    decreases fields, 2
  {
    var s := FieldsText(fields) + "}" + rest;
    if |fields| == 1 {
      OneFieldText(fields, rest);
      MemberReadsBack(fields[0], "}" + rest);
      LastField(s, fields[0], rest);
      assert [fields[0]] == fields;
    } else {
      var tail := FieldsText(fields[1..]) + "}" + rest;
      MoreFieldsText(fields, rest);
      MemberReadsBack(fields[0], ", " + tail);
      FirstOfFields(fields[1..]);
      FieldsReadBack(fields[1..], rest);
      MoreFields(s, fields[0], tail, fields[1..], rest);
      assert [fields[0]] + fields[1..] == fields;
    }
  }

  /** json.loads(json.dumps(j)) == j, for every value and whatever characters its strings hold. */
  lemma LoadsUndoesDumps(j: Json)
    ensures Loads(Text(j)) == Some(j)
  {
    FirstOfValue(j);
    assert Text(j) + [] == Text(j);
    ValueReadsBack(j, []);
  }
}
