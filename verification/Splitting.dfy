/** `text.split(sep)` and `sep.join(parts)` for a one-character separator, and `text.strip()`. */
module Splitting {

  /** `str.isspace` of one character. */
  predicate IsSpace(c: char)
  {
    var n := c as int;
    || 0x09 <= n <= 0x0D || 0x1C <= n <= 0x20 || n == 0x85 || n == 0xA0 || n == 0x1680
    || 0x2000 <= n <= 0x200A || n == 0x2028 || n == 0x2029 || n == 0x202F || n == 0x205F || n == 0x3000
  }

  function Strip(s: string): string
  {
    if s != [] && IsSpace(s[0]) then Strip(s[1..])
    else if s != [] && IsSpace(s[|s| - 1]) then Strip(s[..|s| - 1])
    else s
  }

  /** The characters that count as space, spelled out. */
  lemma SpaceCharacters(c: char)
    ensures IsSpace(c) <==> c as int in {
      9, 10, 11, 12, 13, 28, 29, 30, 31, 32, 133, 160, 5760, 8192, 8193, 8194, 8195, 8196, 8197, 8198,
      8199, 8200, 8201, 8202, 8232, 8233, 8239, 8287, 12288}
  {
  }

  /** Stripping removes nothing but spaces, and all of them, at both ends. */
  lemma {:induction false} StripTakesTheEnds(s: string) returns (left: string, right: string)
    ensures s == left + Strip(s) + right
    ensures (forall i :: 0 <= i < |left| ==> IsSpace(left[i])) && (forall i :: 0 <= i < |right| ==> IsSpace(right[i]))
    ensures Strip(s) != [] ==> !IsSpace(Strip(s)[0]) && !IsSpace(Strip(s)[|Strip(s)| - 1])
  {
    if s != [] && IsSpace(s[0]) {
      left, right := StripTakesTheEnds(s[1..]);
      left := [s[0]] + left;
    } else if s != [] && IsSpace(s[|s| - 1]) {
      left, right := StripTakesTheEnds(s[..|s| - 1]);
      right := right + [s[|s| - 1]];
    } else {
      left, right := [], [];
    }
  }

  /** Always at least one part; adjacent separators give empty parts. */
  function Split(s: string, sep: char): (parts: seq<string>)
    ensures |parts| >= 1
    ensures forall i :: 0 <= i < |parts| ==> sep !in parts[i]
  {
    if s == [] then [[]]
    else
      var rest := Split(s[1..], sep);
      if s[0] == sep then [[]] + rest
      else [[s[0]] + rest[0]] + rest[1..]
  }

  function Join(parts: seq<string>, sep: char): string
  {
    if parts == [] then []
    else if |parts| == 1 then parts[0]
    else parts[0] + [sep] + Join(parts[1..], sep)
  }

  /** Splitting a joined list gives the list back, when no part holds the separator. */
  lemma {:induction false} SplitJoin(parts: seq<string>, sep: char)
    requires parts != []
    requires forall i :: 0 <= i < |parts| ==> sep !in parts[i]
    ensures Split(Join(parts, sep), sep) == parts
    decreases |parts|, 1
  {
    if |parts| == 1 {
      SplitPlain(parts[0], sep);
      assert parts == [parts[0]];
    } else {
      SplitJoin(parts[1..], sep);
      SplitPrefix(parts[0], Join(parts[1..], sep), sep);
      assert parts[0] + [sep] + Join(parts[1..], sep) == parts[0] + ([sep] + Join(parts[1..], sep));
      assert parts == [parts[0]] + parts[1..];
    }
  }

  lemma {:induction false} SplitPlain(s: string, sep: char)
    requires sep !in s
    ensures Split(s, sep) == [s]
  {
    if s == [] {
    } else {
      SplitPlain(s[1..], sep);
      assert s == [s[0]] + s[1..];
    }
  }

  lemma {:induction false} SplitPrefix(s: string, t: string, sep: char)
    requires sep !in s
    ensures Split(s + ([sep] + t), sep) == [s] + Split(t, sep)
  {
    var u := s + ([sep] + t);
    if s == [] {
      assert u[1..] == t;
    } else {
      assert u[1..] == s[1..] + ([sep] + t);
      SplitPrefix(s[1..], t, sep);
      assert s == [s[0]] + s[1..];
    }
  }

  /** Joining what was split gives the text back. */
  lemma {:induction false} JoinSplit(s: string, sep: char)
    ensures Join(Split(s, sep), sep) == s
  {
    if s == [] {
    } else {
      JoinSplit(s[1..], sep);
      var rest := Split(s[1..], sep);
      assert s == [s[0]] + s[1..];
      if s[0] == sep {
        assert ([[]] + rest)[1..] == rest;
      } else {
        var parts := [[s[0]] + rest[0]] + rest[1..];
        assert parts[1..] == rest[1..];
      }
    }
  }
}
