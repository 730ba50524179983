/**
 A reader for JSON text, after RFC 8259: the independent meaning of what the encoder
 writes. Every well-formed tree reads back as itself.
 */
module JsonReader {
  import opened Options
  import opened JsonText

  // ----- strings -----

  predicate IsHexDigit(c: char) { '0' <= c <= '9' || 'a' <= c <= 'f' || 'A' <= c <= 'F' }

  function HexValue(c: char): (d: nat)
    requires IsHexDigit(c)
    ensures d < 16
  {
    if c <= '9' then c as int - '0' as int
    else if c <= 'F' then c as int - 'A' as int + 10
    else c as int - 'a' as int + 10
  }

  /** The code unit of a `\\u` escape at the start of `t`. */
  function UnicodeEscape(t: string): Option<nat>
  {
    if |t| >= 6 && t[0] == '\\' && t[1] == 'u' && forall i :: 2 <= i < 6 ==> IsHexDigit(t[i]) then
      Some(4096 * HexValue(t[2]) + 256 * HexValue(t[3]) + 16 * HexValue(t[4]) + HexValue(t[5]))
    else None
  }

  /** The short escapes of section 7 of RFC 8259. */
  function ShortEscape(c: char): Option<char>
  {
    match c
    case '\"' => Some('\"')
    case '\\' => Some('\\')
    case '/' => Some('/')
    case 'b' => Some(8 as char)
    case 'f' => Some(12 as char)
    case 'n' => Some('\n')
    case 'r' => Some('\r')
    case 't' => Some('\t')
    case _ => None
  }

  /** The first character of the content of a JSON string, and how much text it takes. */
  function DecodeChar(t: string): (r: Option<(char, nat)>)
    requires t != []
    ensures r.Some? ==> 0 < r.value.1 <= |t|
  {
    if t[0] == '\"' || t[0] < ' ' then None
    else if t[0] != '\\' then Some((t[0], 1))
    else if |t| >= 2 && ShortEscape(t[1]).Some? then Some((ShortEscape(t[1]).value, 2))
    else
      var unit := UnicodeEscape(t);
      if unit.None? then None
      else if unit.value < 0xD800 || 0xE000 <= unit.value < 0x1_0000 then Some((unit.value as char, 6))
      else
        var low := UnicodeEscape(t[6..]);
        if unit.value < 0xDC00 && low.Some? && 0xDC00 <= low.value < 0xE000 then
          Some(((0x1_0000 + (unit.value - 0xD800) * 1024 + (low.value - 0xDC00)) as char, 12))
        else None
  }

  /** The content of a string up to its closing quote, and the text behind it. */
  function ReadString(t: string): (r: Option<(string, string)>)
    ensures r.Some? ==> |r.value.1| < |t|
  {
    if t == [] then None
    else if t[0] == '\"' then Some(([], t[1..]))
    else if DecodeChar(t).None? then None
    else
      var (c, taken) := DecodeChar(t).value;
      match ReadString(t[taken..])
      case Some((s, rest)) => Some(([c] + s, rest))
      case None => None
  }

  lemma HexDigitRoundTrip(d: nat)
    requires d < 16
    ensures IsHexDigit(HexDigit(d)) && HexValue(HexDigit(d)) == d
  {
  }

  lemma HexRoundTrip(n: nat, rest: string)
    requires n < 0x1_0000
    ensures UnicodeEscape("\\u" + Hex4(n) + rest) == Some(n)
  {
    var q, h, t := n / 16, Hex4(n), "\\u" + Hex4(n) + rest;
    HexDigitRoundTrip(q / 16 / 16);
    HexDigitRoundTrip(q / 16 % 16);
    HexDigitRoundTrip(q % 16);
    HexDigitRoundTrip(n % 16);
    assert t[2] == h[0] && t[3] == h[1] && t[4] == h[2] && t[5] == h[3];
  }

  /** A surrogate pair reads as one character outside the basic plane. */
  lemma PairRoundTrip(high: nat, low: nat, rest: string)
    requires 0xD800 <= high < 0xDC00 <= low < 0xE000
    ensures DecodeChar("\\u" + Hex4(high) + ("\\u" + Hex4(low) + rest))
      == Some(((0x1_0000 + (high - 0xD800) * 1024 + (low - 0xDC00)) as char, 12))
  {
    var second := "\\u" + Hex4(low) + rest;
    var t := "\\u" + Hex4(high) + second;
    HexRoundTrip(high, second);
    HexRoundTrip(low, rest);
    assert t[6..] == second;
    assert t[0] == '\\' && t[1] == 'u';
  }

  lemma Associates(a: string, b: string, c: string)
    ensures a + b + c == a + (b + c)
  {
  }

  lemma AstralRoundTrip(v: nat, rest: string)
    requires v < 0x10_0000
    ensures DecodeChar(SurrogatePair(v) + rest) == Some(((0x1_0000 + v) as char, 12))
  {
    var high, low := 0xD800 + v / 1024, 0xDC00 + v % 1024;
    PairRoundTrip(high, low, rest);
    Associates("\\u" + Hex4(high), "\\u" + Hex4(low), rest);
  }

  lemma BasicRoundTrip(c: char, rest: string)
    requires c as int < 0x1_0000
    ensures DecodeChar(EncodeChar(c) + rest) == Some((c, |EncodeChar(c)|))
  {
    if EncodeChar(c) == "\\u" + Hex4(c as int) {
      HexRoundTrip(c as int, rest);
    }
  }

  lemma CharRoundTrip(c: char, rest: string)
    ensures DecodeChar(EncodeChar(c) + rest) == Some((c, |EncodeChar(c)|))
  {
    if c as int < 0x1_0000 {
      BasicRoundTrip(c, rest);
    } else {
      AstralRoundTrip(c as int - 0x1_0000, rest);
    }
  }

  lemma CharIsNoQuote(c: char)
    ensures EncodeChar(c)[0] != '\"'
  {
  }

  lemma ReadsChar(t: string, c: char, more: string, s: string, rest: string)
    requires t != [] && t[0] != '\"'
    requires DecodeChar(t).Some? && DecodeChar(t).value.0 == c && t[DecodeChar(t).value.1..] == more
    requires ReadString(more) == Some((s, rest))
    ensures ReadString(t) == Some(([c] + s, rest))
  {
  }

  lemma ReadsWrittenChar(c: char, more: string, s: string, rest: string)
    requires ReadString(more) == Some((s, rest))
    ensures ReadString(EncodeChar(c) + more) == Some(([c] + s, rest))
  {
    var first := EncodeChar(c);
    var t := first + more;
    CharRoundTrip(c, more);
    CharIsNoQuote(c);
    assert t[0] == first[0] && t[|first|..] == more;
    ReadsChar(t, c, more, s, rest);
  }

  /** A written string, also one with controls or astral characters, reads back as itself. */
  lemma {:induction false} StringRoundTrip(s: string, close: string)
    requires close != [] && close[0] == '\"'
    ensures ReadString(EncodeChars(s) + close) == Some((s, close[1..]))
  {
    if s == [] {
      assert EncodeChars(s) + close == close;
    } else {
      StringRoundTrip(s[1..], close);
      ReadsWrittenChar(s[0], EncodeChars(s[1..]) + close, s[1..], close[1..]);
      Associates(EncodeChar(s[0]), EncodeChars(s[1..]), close);
      assert [s[0]] + s[1..] == s;
    }
  }

  // ----- values -----

  predicate IsBlank(c: char) { c == ' ' || c == '\t' || c == '\n' || c == '\r' }

  function Skip(t: string): (r: string)
    ensures |r| <= |t|
  {
    if t != [] && IsBlank(t[0]) then Skip(t[1..]) else t
  }

  /** Characters that end a literal or a number. */
  predicate IsDelimiter(c: char) { IsBlank(c) || c in ",:[]{}\"" }

  /** How many characters the token at the start of `t` has. */
  function TokenLength(t: string): (n: nat)
    ensures n <= |t|
  {
    if t == [] || IsDelimiter(t[0]) then 0 else 1 + TokenLength(t[1..])
  }

  function ReadToken(token: string): Option<Json>
  {
    if token == "null" then Some(Null)
    else if token == "true" then Some(Bool(true))
    else if token == "false" then Some(Bool(false))
    else if IsNumber(token) then Some(Number(token))
    else None
  }

  /** The value at the start of `t`, and the text behind it. */
  function ReadValue(t: string): (r: Option<(Json, string)>)
    ensures r.Some? ==> |r.value.1| < |t|
    decreases |t|, 0
  {
    if t == [] then None
    else if t[0] == '\"' then
      match ReadString(t[1..])
      case Some((s, rest)) => Some((Str(s), rest))
      case None => None
    else if t[0] == '[' then
      if Skip(t[1..]) != [] && Skip(t[1..])[0] == ']' then Some((Arr([]), Skip(t[1..])[1..]))
      else
        match ReadItems(Skip(t[1..]))
        case Some((items, rest)) => Some((Arr(items), rest))
        case None => None
    else if t[0] == '{' then
      if Skip(t[1..]) != [] && Skip(t[1..])[0] == '}' then Some((Obj([]), Skip(t[1..])[1..]))
      else
        match ReadMembers(Skip(t[1..]))
        case Some((fields, rest)) => Some((Obj(fields), rest))
        case None => None
    else
      var n := TokenLength(t);
      if n == 0 then None
      else
        match ReadToken(t[..n])
        case Some(j) => Some((j, t[n..]))
        case None => None
  }

  /** The rest of a list, from its next item to its closing bracket. */
  function ReadItems(t: string): (r: Option<(seq<Json>, string)>)
    ensures r.Some? ==> |r.value.1| < |t|
    decreases |t|, 1
  {
    match ReadValue(t)
    case None => None
    case Some((j, after)) =>
      var u := Skip(after);
      if u != [] && u[0] == ']' then Some(([j], u[1..]))
      else if u != [] && u[0] == ',' then
        match ReadItems(Skip(u[1..]))
        case Some((items, rest)) => Some(([j] + items, rest))
        case None => None
      else None
  }

  /** A key in quotes, a colon, and the text of its value. */
  function ReadKey(t: string): (r: Option<(string, string)>)
    ensures r.Some? ==> |r.value.1| < |t|
  {
    if t == [] || t[0] != '\"' then None
    else
      match ReadString(t[1..])
      case None => None
      case Some((key, after)) =>
        var u := Skip(after);
        if u != [] && u[0] == ':' then Some((key, Skip(u[1..]))) else None
  }

  /** The rest of an object, from its next key to its closing brace. */
  function ReadMembers(t: string): (r: Option<(seq<Field>, string)>)
    ensures r.Some? ==> |r.value.1| < |t|
    decreases |t|, 1
  {
    match ReadKey(t)
    case None => None
    case Some((key, text)) =>
      match ReadValue(text)
      case None => None
      case Some((j, after)) =>
        var u := Skip(after);
        if u != [] && u[0] == '}' then Some(([Field(key, j)], u[1..]))
        else if u != [] && u[0] == ',' then
          match ReadMembers(Skip(u[1..]))
          case Some((fields, rest)) => Some(([Field(key, j)] + fields, rest))
          case None => None
        else None
  }

  /** One value, and nothing else but blanks. */
  function Decode(text: string): Option<Json>
  {
    match ReadValue(Skip(text))
    case Some((j, rest)) => if Skip(rest) == [] then Some(j) else None
    case None => None
  }

  // ----- one step of the reader -----

  lemma ReadsString(t: string, s: string, rest: string)
    requires t != [] && t[0] == '\"' && ReadString(t[1..]) == Some((s, rest))
    ensures ReadValue(t) == Some((Str(s), rest))
  {
  }

  lemma ReadsToken(t: string, j: Json)
    requires t != [] && !IsDelimiter(t[0]) && ReadToken(t[..TokenLength(t)]) == Some(j)
    ensures ReadValue(t) == Some((j, t[TokenLength(t)..]))
  {
  }

  lemma ReadsEmptyList(t: string)
    requires |t| >= 2 && t[0] == '[' && t[1] == ']'
    ensures ReadValue(t) == Some((Arr([]), t[2..]))
  {
    assert Skip(t[1..]) == t[1..];
  }

  lemma ReadsList(t: string, items: seq<Json>, rest: string)
    requires |t| >= 2 && t[0] == '[' && t[1] != ']' && !IsBlank(t[1])
    requires ReadItems(t[1..]) == Some((items, rest))
    ensures ReadValue(t) == Some((Arr(items), rest))
  {
    assert Skip(t[1..]) == t[1..];
  }

  lemma ReadsEmptyObject(t: string)
    requires |t| >= 2 && t[0] == '{' && t[1] == '}'
    ensures ReadValue(t) == Some((Obj([]), t[2..]))
  {
    assert Skip(t[1..]) == t[1..];
  }

  lemma ReadsObject(t: string, fields: seq<Field>, rest: string)
    requires |t| >= 2 && t[0] == '{' && t[1] != '}' && !IsBlank(t[1])
    requires ReadMembers(t[1..]) == Some((fields, rest))
    ensures ReadValue(t) == Some((Obj(fields), rest))
  {
    assert Skip(t[1..]) == t[1..];
  }

  lemma ReadsLastItem(t: string, j: Json, after: string)
    requires ReadValue(t) == Some((j, after)) && after != [] && after[0] == ']'
    ensures ReadItems(t) == Some(([j], after[1..]))
  {
  }

  lemma ReadsNextItem(t: string, j: Json, after: string, items: seq<Json>, rest: string)
    requires ReadValue(t) == Some((j, after)) && SeparatorAt(after)
    requires ReadItems(after[2..]) == Some((items, rest))
    ensures ReadItems(t) == Some(([j] + items, rest))
  {
    SkipSeparator(after);
  }

  lemma ReadsLastMember(t: string, key: string, text: string, j: Json, after: string)
    requires ReadKey(t) == Some((key, text)) && ReadValue(text) == Some((j, after))
    requires after != [] && after[0] == '}'
    ensures ReadMembers(t) == Some(([Field(key, j)], after[1..]))
  {
  }

  lemma ReadsNextMember(
    t: string, key: string, text: string, j: Json, after: string, fields: seq<Field>, rest: string)
    requires ReadKey(t) == Some((key, text)) && ReadValue(text) == Some((j, after)) && SeparatorAt(after)
    requires ReadMembers(after[2..]) == Some((fields, rest))
    ensures ReadMembers(t) == Some(([Field(key, j)] + fields, rest))
  {
    SkipSeparator(after);
  }

  lemma ReadsKey(t: string, key: string, after: string)
    requires t != [] && t[0] == '\"' && ReadString(t[1..]) == Some((key, after))
    requires |after| >= 3 && after[0] == ':' && after[1] == ' ' && !IsBlank(after[2])
    ensures ReadKey(t) == Some((key, after[2..]))
  {
    SkipOne(after[1..]);
    assert after[1..][1..] == after[2..];
  }

  /** A comma, a blank, and the next item. */
  predicate SeparatorAt(t: string) { |t| >= 3 && t[0] == ',' && t[1] == ' ' && !IsBlank(t[2]) }

  lemma SkipOne(t: string)
    requires |t| >= 2 && t[0] == ' ' && !IsBlank(t[1])
    ensures Skip(t) == t[1..]
  {
    assert t[1..][0] == t[1];
  }

  lemma SkipSeparator(t: string)
    requires SeparatorAt(t)
    ensures Skip(t) == t && Skip(t[1..]) == t[2..]
  {
    SkipOne(t[1..]);
    assert t[1..][1..] == t[2..];
  }

  // ----- the texts of lists and objects -----

  function ItemTexts(items: seq<Json>): seq<string>
  {
    seq(|items|, i requires 0 <= i < |items| => Encode(items[i]))
  }

  function MemberText(f: Field): string { Quoted(f.key) + ": " + Encode(f.value) }

  function MemberTexts(fields: seq<Field>): seq<string>
  {
    seq(|fields|, i requires 0 <= i < |fields| => MemberText(fields[i]))
  }

  lemma ListText(items: seq<Json>)
    ensures Encode(Arr(items)) == "[" + CommaJoin(ItemTexts(items)) + "]"
  {
  }

  lemma ObjectText(fields: seq<Field>)
    ensures Encode(Obj(fields)) == "{" + CommaJoin(MemberTexts(fields)) + "}"
  {
    assert MemberTexts(fields)
      == seq(|fields|, i requires 0 <= i < |fields| => Quoted(fields[i].key) + ": " + Encode(fields[i].value));
  }

  lemma JoinLast(parts: seq<string>, k: nat)
    requires k == |parts| - 1
    ensures CommaJoin(parts[k..]) == parts[k]
  {
  }

  lemma JoinNext(parts: seq<string>, k: nat, tail: string, close: string)
    requires k < |parts| - 1 && parts[k + 1] != [] && tail == CommaJoin(parts[k + 1..]) + close
    ensures CommaJoin(parts[k..]) + close == parts[k] + (", " + tail)
    ensures tail != [] && tail[0] == parts[k + 1][0]
  {
    var rest := CommaJoin(parts[k + 1..]);
    assert parts[k..][1..] == parts[k + 1..];
    assert CommaJoin(parts[k..]) == parts[k] + ", " + rest;
    Associates(parts[k], ", ", rest);
    Associates(parts[k], ", " + rest, close);
    Associates(", ", rest, close);
    JoinStarts(parts[k + 1..]);
  }

  lemma JoinStarts(parts: seq<string>)
    requires parts != []
    ensures parts[0] != [] ==> CommaJoin(parts) != [] && CommaJoin(parts)[0] == parts[0][0]
  {
  }

  // ----- every well-formed tree reads back as itself -----

  /** What may follow a value: nothing, or something that ends a token. */
  predicate Ends(rest: string) { rest == [] || rest[0] == ',' || rest[0] == ']' || rest[0] == '}' }

  lemma {:induction false} TokenEnds(token: string, rest: string)
    requires Ends(rest) && forall i :: 0 <= i < |token| ==> !IsDelimiter(token[i])
    ensures TokenLength(token + rest) == |token|
  {
    if token == [] {
      assert token + rest == rest;
    } else {
      TokenEnds(token[1..], rest);
      assert (token + rest)[1..] == token[1..] + rest;
    }
  }

  /** Literals and numbers are tokens, and mean what they were written for. */
  lemma EncodeToken(j: Json, token: string)
    requires WellFormed(j) && (j.Null? || j.Bool? || j.Number?) && token == Encode(j)
    ensures token != [] && (forall i :: 0 <= i < |token| ==> !IsDelimiter(token[i]))
    ensures ReadToken(token) == Some(j)
  {
    if j.Number? {
      NumberIsToken(j.text);
      forall i | 0 <= i < |token|
        ensures !IsDelimiter(token[i])
      {
        NumberCharIsNoDelimiter(token[i]);
      }
    }
  }

  lemma NumberCharIsNoDelimiter(c: char)
    requires IsNumberChar(c)
    ensures !IsDelimiter(c)
  {
  }

  lemma TokenRoundTrip(j: Json, rest: string)
    requires WellFormed(j) && (j.Null? || j.Bool? || j.Number?) && Ends(rest)
    ensures ReadValue(Encode(j) + rest) == Some((j, rest))
  {
    var token := Encode(j);
    EncodeToken(j, token);
    TokenEnds(token, rest);
    assert (token + rest)[..|token|] == token && (token + rest)[|token|..] == rest;
    ReadsToken(token + rest, j);
  }

  /** A written value starts with neither a blank nor a closing bracket. */
  lemma EncodeStarts(j: Json)
    requires WellFormed(j)
    ensures Encode(j) != [] && !IsBlank(Encode(j)[0]) && Encode(j)[0] != ']' && Encode(j)[0] != '}'
  {
    match j
    case Arr(items) => ListText(items);
    case Obj(fields) => ObjectText(fields);
    case Str(s) =>
    case _ => EncodeToken(j, Encode(j));
  }

  /** `text` reads as `j`, whatever ends it. */
  ghost predicate ReadsAs(text: string, j: Json)
  {
    && text != [] && !IsBlank(text[0]) && text[0] != ']' && text[0] != '}'
    && forall rest {:trigger ReadValue(text + rest)} :: Ends(rest) ==> ReadValue(text + rest) == Some((j, rest))
  }

  /** An item, a separator, and the items behind it. */
  lemma ItemStep(j: Json, text: string, tail: string, items: seq<Json>, rest: string)
    requires ReadsAs(text, j) && tail != [] && !IsBlank(tail[0])
    requires ReadItems(tail) == Some((items, rest))
    ensures ReadItems(text + (", " + tail)) == Some(([j] + items, rest))
  {
    var after := ", " + tail;
    assert after[2..] == tail && after[2] == tail[0];
    ReadsNextItem(text + after, j, after, items, rest);
  }

  lemma OneMoreItem(j: Json, text: string, all: string, tail: string, items: seq<Json>, rest: string)
    requires ReadsAs(text, j) && tail != [] && !IsBlank(tail[0]) && all == text + (", " + tail)
    requires ReadItems(tail) == Some((items, rest))
    ensures ReadItems(all) == Some(([j] + items, rest))
  {
    ItemStep(j, text, tail, items, rest);
  }

  lemma {:induction false} ItemsRoundTrip(items: seq<Json>, texts: seq<string>, k: nat, close: string, all: string)
    requires k < |items| == |texts| && (forall i :: 0 <= i < |items| ==> ReadsAs(texts[i], items[i]))
    requires close != [] && close[0] == ']' && all == CommaJoin(texts[k..]) + close
    ensures ReadItems(all) == Some((items[k..], close[1..]))
    decreases |items| - k
  {
    assert ReadsAs(texts[k], items[k]);
    if k == |items| - 1 {
      JoinLast(texts, k);
      ReadsLastItem(texts[k] + close, items[k], close);
      assert items[k..] == [items[k]];
    } else {
      var tail := CommaJoin(texts[k + 1..]) + close;
      assert ReadsAs(texts[k + 1], items[k + 1]);
      ItemsRoundTrip(items, texts, k + 1, close, tail);
      JoinNext(texts, k, tail, close);
      OneMoreItem(items[k], texts[k], all, tail, items[k + 1..], close[1..]);
      assert items[k..] == [items[k]] + items[k + 1..];
    }
  }

  lemma KeyRoundTrip(f: Field, after: string)
    requires ReadsAs(Encode(f.value), f.value)
    ensures ReadKey(MemberText(f) + after) == Some((f.key, Encode(f.value) + after))
  {
    var value := Encode(f.value);
    var close := "\"" + (": " + (value + after));
    var t := "\"" + (EncodeChars(f.key) + close);
    StringRoundTrip(f.key, close);
    assert t[1..] == EncodeChars(f.key) + close;
    var colon := close[1..];
    assert colon == ": " + (value + after);
    assert colon[2..] == value + after && colon[2] == value[0];
    ReadsKey(t, f.key, colon);
    MemberTextParts(f, after);
  }

  lemma MemberTextParts(f: Field, after: string)
    ensures MemberText(f) + after
      == "\"" + (EncodeChars(f.key) + ("\"" + (": " + (Encode(f.value) + after))))
  {
    var key, value := EncodeChars(f.key), Encode(f.value);
    Associates(Quoted(f.key), ": ", value);
    Associates(Quoted(f.key), ": " + value, after);
    Associates(": ", value, after);
    Associates("\"" + key, "\"", ": " + (value + after));
    Associates("\"", key, "\"" + (": " + (value + after)));
  }

  /** `text` reads as the key of `f` followed by `value`, which reads as the value of `f`. */
  ghost predicate MemberReads(text: string, value: string, f: Field)
  {
    && text != [] && !IsBlank(text[0]) && text[0] != '}' && ReadsAs(value, f.value)
    && forall rest {:trigger ReadKey(text + rest)} :: Ends(rest) ==> ReadKey(text + rest) == Some((f.key, value + rest))
  }

  lemma MemberRoundTrip(f: Field)
    requires ReadsAs(Encode(f.value), f.value)
    ensures MemberReads(MemberText(f), Encode(f.value), f)
  {
    MemberStarts(f);
    forall rest | Ends(rest)
      ensures ReadKey(MemberText(f) + rest) == Some((f.key, Encode(f.value) + rest))
    {
      KeyRoundTrip(f, rest);
    }
  }

  lemma MemberStep(f: Field, text: string, value: string, tail: string, fields: seq<Field>, rest: string)
    requires MemberReads(text, value, f) && tail != [] && !IsBlank(tail[0])
    requires ReadMembers(tail) == Some((fields, rest))
    ensures ReadMembers(text + (", " + tail)) == Some(([f] + fields, rest))
  {
    var after := ", " + tail;
    assert after[2..] == tail && after[2] == tail[0];
    ReadsNextMember(text + after, f.key, value + after, f.value, after, fields, rest);
  }

  lemma LastMember(f: Field, text: string, value: string, close: string)
    requires MemberReads(text, value, f) && close != [] && close[0] == '}'
    ensures ReadMembers(text + close) == Some(([f], close[1..]))
  {
    ReadsLastMember(text + close, f.key, value + close, f.value, close);
  }

  ghost predicate MembersRead(fields: seq<Field>, texts: seq<string>, values: seq<string>)
  {
    && |fields| == |texts| == |values|
    && forall i :: 0 <= i < |fields| ==> MemberReads(texts[i], values[i], fields[i])
  }

  lemma LastOfMembers(
    fields: seq<Field>, texts: seq<string>, values: seq<string>, k: nat, close: string, all: string)
    requires MembersRead(fields, texts, values) && k == |fields| - 1
    requires close != [] && close[0] == '}' && all == CommaJoin(texts[k..]) + close
    ensures ReadMembers(all) == Some((fields[k..], close[1..]))
  {
    JoinLast(texts, k);
    LastMember(fields[k], texts[k], values[k], close);
    assert fields[k..] == [fields[k]];
  }

  lemma NextOfMembers(
    fields: seq<Field>, texts: seq<string>, values: seq<string>, k: nat, close: string, tail: string, all: string)
    requires MembersRead(fields, texts, values) && k < |fields| - 1
    requires tail == CommaJoin(texts[k + 1..]) + close && all == CommaJoin(texts[k..]) + close
    requires close != [] && ReadMembers(tail) == Some((fields[k + 1..], close[1..]))
    ensures ReadMembers(all) == Some((fields[k..], close[1..]))
  {
    assert MemberReads(texts[k + 1], values[k + 1], fields[k + 1]);
    JoinNext(texts, k, tail, close);
    MemberStep(fields[k], texts[k], values[k], tail, fields[k + 1..], close[1..]);
    assert fields[k..] == [fields[k]] + fields[k + 1..];
  }

  lemma {:induction false} MembersRoundTrip(
    fields: seq<Field>, texts: seq<string>, values: seq<string>, k: nat, close: string, all: string)
    requires MembersRead(fields, texts, values) && k < |fields|
    requires close != [] && close[0] == '}' && all == CommaJoin(texts[k..]) + close
    ensures ReadMembers(all) == Some((fields[k..], close[1..]))
    decreases |fields| - k
  {
    if k == |fields| - 1 {
      LastOfMembers(fields, texts, values, k, close, all);
    } else {
      var tail := CommaJoin(texts[k + 1..]) + close;
      MembersRoundTrip(fields, texts, values, k + 1, close, tail);
      NextOfMembers(fields, texts, values, k, close, tail, all);
    }
  }

  lemma MemberStarts(f: Field)
    ensures MemberText(f) != [] && MemberText(f)[0] == '\"'
  {
  }

  /** A written value reads back as itself, whatever ends it. */
  lemma {:induction false} ValueRoundTrip(j: Json)
    requires WellFormed(j)
    ensures ReadsAs(Encode(j), j)
    decreases j
  {
    EncodeStarts(j);
    if j.Arr? {
      forall i | 0 <= i < |j.items| { ValueRoundTrip(j.items[i]); }
    } else if j.Obj? {
      forall i | 0 <= i < |j.fields| { ValueRoundTrip(j.fields[i].value); }
    }
    forall rest | Ends(rest)
      ensures ReadValue(Encode(j) + rest) == Some((j, rest))
    {
      match j
      case Str(s) => StringValueRoundTrip(s, rest);
      case Arr(items) => ListRoundTrip(items, rest);
      case Obj(fields) => ObjectRoundTrip(fields, rest);
      case _ => TokenRoundTrip(j, rest);
    }
  }

  lemma StringValueRoundTrip(s: string, rest: string)
    ensures ReadValue(Encode(Str(s)) + rest) == Some((Str(s), rest))
  {
    var close := "\"" + rest;
    var body := EncodeChars(s) + close;
    var t := "\"" + body;
    StringRoundTrip(s, close);
    assert t[1..] == body && close[1..] == rest;
    ReadsString(t, s, rest);
    Associates("\"" + EncodeChars(s), "\"", rest);
    Associates("\"", EncodeChars(s), close);
  }

  lemma Bracketed(open: string, inner: string, close: string, rest: string)
    requires |open| == 1 && |close| == 1
    ensures var t := open + inner + close + rest;
      && t[1..] == inner + (close + rest) && t[0] == open[0]
      && (close + rest)[1..] == rest && (close + rest)[0] == close[0]
      && (if inner == [] then t[1] == close[0] && t[2..] == rest else t[1] == inner[0])
  {
  }

  lemma ListRoundTrip(items: seq<Json>, rest: string)
    requires forall i :: 0 <= i < |items| ==> ReadsAs(Encode(items[i]), items[i])
    ensures ReadValue(Encode(Arr(items)) + rest) == Some((Arr(items), rest))
  {
    var texts := ItemTexts(items);
    var inner := CommaJoin(texts);
    var t := "[" + inner + "]" + rest;
    ListText(items);
    Bracketed("[", inner, "]", rest);
    if items == [] {
      ReadsEmptyList(t);
    } else {
      JoinStarts(texts);
      assert texts[0..] == texts && items[0..] == items;
      ItemsRoundTrip(items, texts, 0, "]" + rest, inner + ("]" + rest));
      ReadsList(t, items, rest);
    }
  }

  lemma ObjectRoundTrip(fields: seq<Field>, rest: string)
    requires forall i :: 0 <= i < |fields| ==> ReadsAs(Encode(fields[i].value), fields[i].value)
    ensures ReadValue(Encode(Obj(fields)) + rest) == Some((Obj(fields), rest))
  {
    var texts := MemberTexts(fields);
    var inner := CommaJoin(texts);
    var t := "{" + inner + "}" + rest;
    ObjectText(fields);
    Bracketed("{", inner, "}", rest);
    if fields == [] {
      ReadsEmptyObject(t);
    } else {
      var values := seq(|fields|, i requires 0 <= i < |fields| => Encode(fields[i].value));
      forall i | 0 <= i < |fields|
        ensures MemberReads(texts[i], values[i], fields[i])
      {
        MemberRoundTrip(fields[i]);
      }
      JoinStarts(texts);
      assert texts[0..] == texts && fields[0..] == fields;
      MembersRoundTrip(fields, texts, values, 0, "}" + rest, inner + ("}" + rest));
      ReadsObject(t, fields, rest);
    }
  }

  /** The encoder's text of a well-formed tree means that tree. */
  lemma TreeRoundTrip(j: Json)
    requires WellFormed(j)
    ensures Decode(Encode(j)) == Some(j)
  {
    ValueRoundTrip(j);
    assert Encode(j) + [] == Encode(j);
    assert Ends([]);
  }
}
