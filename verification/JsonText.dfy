/** JSON trees and their text as `json.dumps(..., ensure_ascii=True)` writes it. */
module JsonText {
  import opened Decimals

  datatype Field = Field(key: string, value: Json)

  /** A number is kept as the text it is written with. */
  datatype Json =
    | Null
    | Bool(b: bool)
    | Number(text: string)
    | Str(s: string)
    | Arr(items: seq<Json>)
    | Obj(fields: seq<Field>)

  ghost predicate DistinctKeys(fields: seq<Field>)
  {
    forall i, j :: 0 <= i < j < |fields| ==> fields[i].key != fields[j].key
  }

  predicate IsAscii(s: string) { forall i :: 0 <= i < |s| ==> s[i] as int < 128 }

  // ----- numbers -----

  /** The characters of number tokens, among them those of `NaN` and `Infinity`, which the encoder also writes. */
  predicate IsNumberChar(c: char) { IsDigit(c) || c in "+-.eENaInfity" }

  /** All that is asked of the text of a number; section 6 of RFC 8259 asks for more. */
  predicate IsNumber(s: string) { s != [] && forall i :: 0 <= i < |s| ==> IsNumberChar(s[i]) }

  /** What section 6 of RFC 8259 writes numbers with, in any order, and the three further tokens. */
  lemma NumbersQualify(s: string)
    requires s in ["NaN", "Infinity", "-Infinity"]
      || (s != [] && forall i :: 0 <= i < |s| ==> '0' <= s[i] <= '9' || s[i] in ['-', '+', '.', 'e', 'E'])
    ensures IsNumber(s)
  {
    assert forall c :: c in ['-', '+', '.', 'e', 'E'] ==> c in "+-.eENaInfity";
    assert forall c :: c in ['N', 'a', 'I', 'n', 'f', 'i', 't', 'y'] ==> c in "+-.eENaInfity";
  }

  /** A number is ASCII text, and not one of the literals. */
  lemma NumberIsToken(s: string)
    requires IsNumber(s)
    ensures IsAscii(s) && s != "null" && s != "true" && s != "false"
  {
    assert !IsNumberChar("null"[1]) && !IsNumberChar("true"[1]) && !IsNumberChar("false"[2]);
  }

  /** A tree of dicts and lists: keys of one dict are distinct, numbers are number tokens. */
  ghost predicate WellFormed(j: Json)
  {
    match j
    case Number(text) => IsNumber(text)
    case Arr(items) => forall i :: 0 <= i < |items| ==> WellFormed(items[i])
    case Obj(fields) => DistinctKeys(fields) && forall i :: 0 <= i < |fields| ==> WellFormed(fields[i].value)
    case _ => true
  }

  function HexDigit(d: nat): (c: char)
    requires d < 16
    ensures c as int < 128
  {
    if d < 10 then ('0' as int + d) as char else ('a' as int + d - 10) as char
  }

  function Hex4(n: nat): (s: string)
    requires n < 0x1_0000
    ensures |s| == 4 && IsAscii(s)
  {
    var q := n / 16;
    [HexDigit(q / 16 / 16), HexDigit(q / 16 % 16), HexDigit(q % 16), HexDigit(n % 16)]
  }

  function SurrogatePair(v: nat): (s: string)
    requires v < 0x10_0000
    ensures |s| == 12 && IsAscii(s)
  {
    ("\\u" + Hex4(0xD800 + v / 1024)) + ("\\u" + Hex4(0xDC00 + v % 1024))
  }

  /**
   Section 7 of RFC 8259: quotes, backslashes and controls are escaped; with ensure_ascii
   so is everything above '~', outside the basic plane as a surrogate pair.
   */
  function EncodeChar(c: char): (s: string)
    ensures |s| >= 1 && IsAscii(s)
  {
    var n := c as int;
    if c == '\"' then "\\\""
    else if c == '\\' then "\\\\"
    else if n == 8 then "\\b"
    else if n == 12 then "\\f"
    else if c == '\n' then "\\n"
    else if c == '\r' then "\\r"
    else if c == '\t' then "\\t"
    else if ' ' <= c <= '~' then [c]
    else if n < 0x1_0000 then "\\u" + Hex4(n)
    else SurrogatePair(n - 0x1_0000)
  }

  function EncodeChars(s: string): (t: string)
    ensures |t| >= |s| && IsAscii(t)
  {
    if s == [] then [] else EncodeChar(s[0]) + EncodeChars(s[1..])
  }

  function Quoted(s: string): (t: string)
    ensures |t| >= |s| + 2 && IsAscii(t)
  {
    "\"" + EncodeChars(s) + "\""
  }

  /** Short escapes where section 7 of RFC 8259 has them, and four digits otherwise. */
  lemma EscapeLengths(c: char)
    ensures |EncodeChar(c)| ==
      if c in ['\"', '\\', 8 as char, 12 as char, '\n', '\r', '\t'] then 2
      else if ' ' <= c <= '~' then 1
      else if c as int < 0x1_0000 then 6
      else 12
  {
  }

  /** `", ".join(parts)` */
  function CommaJoin(parts: seq<string>): string
  {
    if parts == [] then []
    else if |parts| == 1 then parts[0]
    else parts[0] + ", " + CommaJoin(parts[1..])
  }

  function Encode(j: Json): string
  {
    match j
    case Null => "null"
    case Bool(b) => if b then "true" else "false"
    case Number(text) => text
    case Str(s) => Quoted(s)
    case Arr(items) => "[" + CommaJoin(seq(|items|, i requires 0 <= i < |items| => Encode(items[i]))) + "]"
    case Obj(fields) =>
      "{" + CommaJoin(seq(|fields|, i requires 0 <= i < |fields| =>
        Quoted(fields[i].key) + ": " + Encode(fields[i].value))) + "}"
  }

  lemma {:induction false} JoinIsAscii(parts: seq<string>)
    requires forall i :: 0 <= i < |parts| ==> IsAscii(parts[i])
    ensures IsAscii(CommaJoin(parts))
  {
    if |parts| <= 1 {
    } else {
      JoinIsAscii(parts[1..]);
    }
  }

  /** The text is ASCII, so its UTF-8 encoding has as many bytes as the text has characters. */
  lemma {:induction false} EncodeIsAscii(j: Json)
    requires WellFormed(j)
    ensures IsAscii(Encode(j)) && forall i :: 0 <= i < |Encode(j)| ==> Encode(j)[i] as int <= 127
  {
    match j
    case Arr(items) =>
      var parts := seq(|items|, i requires 0 <= i < |items| => Encode(items[i]));
      forall i | 0 <= i < |items| ensures IsAscii(parts[i]) { EncodeIsAscii(items[i]); }
      JoinIsAscii(parts);
    case Obj(fields) =>
      var parts := seq(|fields|, i requires 0 <= i < |fields| => Quoted(fields[i].key) + ": " + Encode(fields[i].value));
      forall i | 0 <= i < |fields| ensures IsAscii(parts[i]) { EncodeIsAscii(fields[i].value); }
      JoinIsAscii(parts);
    case Number(text) => NumberIsToken(text);
    case _ =>
  }

  lemma {:induction false} JoinAtLeast(parts: seq<string>, i: nat)
    requires i < |parts|
    ensures |CommaJoin(parts)| >= |parts[i]|
  {
    if |parts| == 1 || i == 0 {
    } else {
      JoinAtLeast(parts[1..], i - 1);
    }
  }

  /** An element or member value is no longer than the whole. */
  lemma ItemAtMost(items: seq<Json>, i: nat)
    requires i < |items|
    ensures |Encode(Arr(items))| >= |Encode(items[i])|
  {
    var parts := seq(|items|, k requires 0 <= k < |items| => Encode(items[k]));
    JoinAtLeast(parts, i);
  }

  lemma ValueAtMost(fields: seq<Field>, i: nat)
    requires i < |fields|
    ensures |Encode(Obj(fields))| >= |Encode(fields[i].value)|
  {
    var parts := seq(|fields|, k requires 0 <= k < |fields| => Quoted(fields[k].key) + ": " + Encode(fields[k].value));
    JoinAtLeast(parts, i);
  }
}
