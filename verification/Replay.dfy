/**
 The replay sanitiser: redaction, truncation of long strings, and the compact record that
 stands for a payload still too large. The two recursive passes fill fresh dicts and lists
 in loops; `Redact` and `Truncate` are what they compute.
 */
module Replay {
  import opened Options
  import opened JsonText
  import opened StableSort

  /** The regular expressions, taken as a predicate on keys and a function on strings. */
  datatype Patterns = Patterns(isSecret: string -> bool, redactString: string -> string)

  const REDACTED: string := "[REDACTED]"
  const SUFFIX: string := "... [truncated]"
  const MAX_CHARS: int := 1024

  // ----- dicts -----

  /** `d[key] = value`: an existing key keeps its place, a new one comes last. */
  function DictSet(fields: seq<Field>, key: string, value: Json): seq<Field>
  {
    if fields == [] then [Field(key, value)]
    else if fields[0].key == key then [Field(key, value)] + fields[1..]
    else [fields[0]] + DictSet(fields[1..], key, value)
  }

  /** Filling a dict in the order of another dict's keys only ever appends. */
  lemma NextKeyIsNew(fields: seq<Field>, output: seq<Field>, i: nat, value: Json)
    requires DistinctKeys(fields) && i < |fields| && |output| == i
    requires forall k :: 0 <= k < i ==> output[k].key == fields[k].key
    ensures DictSet(output, fields[i].key, value) == output + [Field(fields[i].key, value)]
  {
    DictSetNew(output, fields[i].key, value);
  }

  lemma {:induction false} DictSetNew(fields: seq<Field>, key: string, value: Json)
    requires forall i :: 0 <= i < |fields| ==> fields[i].key != key
    ensures DictSet(fields, key, value) == fields + [Field(key, value)]
  {
    if fields == [] {
    } else {
      DictSetNew(fields[1..], key, value);
      assert fields == [fields[0]] + fields[1..];
    }
  }

  /** `output[key] = value` for the next key of the dict being copied. */
  method SetNext(fields: seq<Field>, output: seq<Field>, i: nat, value: Json) returns (r: seq<Field>)
    requires DistinctKeys(fields) && i < |fields| && |output| == i
    requires forall k :: 0 <= k < i ==> output[k].key == fields[k].key
    ensures r == output + [Field(fields[i].key, value)]
  {
    NextKeyIsNew(fields, output, i, value);
    r := DictSet(output, fields[i].key, value);
  }

  // ----- redaction -----

  function Redact(p: Patterns, j: Json): Json
    decreases j
  {
    match j
    case Obj(fields) =>
      Obj(seq(|fields|, i requires 0 <= i < |fields| =>
        Field(fields[i].key, if p.isSecret(fields[i].key) then Str(REDACTED) else Redact(p, fields[i].value))))
    case Arr(items) => Arr(seq(|items|, i requires 0 <= i < |items| => Redact(p, items[i])))
    case Str(s) => Str(p.redactString(s))
    case _ => j
  }

  method RedactValue(p: Patterns, value: Json) returns (redacted: Json)
    requires WellFormed(value)
    ensures redacted == Redact(p, value)
    decreases value
  {
    match value
    case Obj(fields) =>
      var output: seq<Field> := [];
      for i := 0 to |fields|
        invariant |output| == i
        invariant forall k :: 0 <= k < i ==> output[k] == Redact(p, value).fields[k]
      {
        var item: Json;
        if p.isSecret(fields[i].key) {
          item := Str(REDACTED);
        } else {
          item := RedactValue(p, fields[i].value);
        }
        output := SetNext(fields, output, i, item);
      }
      assert output == Redact(p, value).fields;
      return Obj(output);
    case Arr(items) =>
      var output: seq<Json> := [];
      for i := 0 to |items|
        invariant |output| == i
        invariant forall k :: 0 <= k < i ==> output[k] == Redact(p, value).items[k]
      {
        var item := RedactValue(p, items[i]);
        output := output + [item];
      }
      assert output == Redact(p, value).items;
      return Arr(output);
    case Str(s) => return Str(p.redactString(s));
    case _ => return value;
  }

  // ----- truncation -----

  /** `value[:n]`: a negative bound counts from the end. */
  function Prefix(s: string, n: int): (t: string)
    ensures t <= s
    ensures 0 <= n ==> |t| <= n
  {
    if 0 <= n <= |s| then s[..n]
    else if n > |s| then s
    else if |s| + n >= 0 then s[..|s| + n]
    else []
  }

  function Clip(s: string, maxChars: int): string
  {
    if |s| > maxChars then Prefix(s, maxChars) + SUFFIX else s
  }

  function Truncate(j: Json, maxChars: int): Json
    decreases j
  {
    match j
    case Obj(fields) =>
      Obj(seq(|fields|, i requires 0 <= i < |fields| => Field(fields[i].key, Truncate(fields[i].value, maxChars))))
    case Arr(items) => Arr(seq(|items|, i requires 0 <= i < |items| => Truncate(items[i], maxChars)))
    case Str(s) => Str(Clip(s, maxChars))
    case _ => j
  }

  /** `s` is a string leaf of the tree. */
  ghost predicate HasLeaf(j: Json, s: string)
  {
    match j
    case Obj(fields) => exists i :: 0 <= i < |fields| && HasLeaf(fields[i].value, s)
    case Arr(items) => exists i :: 0 <= i < |items| && HasLeaf(items[i], s)
    case Str(t) => t == s
    case _ => false
  }

  ghost predicate HasLong(j: Json, maxChars: int)
  {
    exists s :: HasLeaf(j, s) && |s| > maxChars
  }

  method TruncateLargeStrings(value: Json, maxChars: int) returns (output: Json, changed: bool)
    requires WellFormed(value)
    ensures output == Truncate(value, maxChars)
    ensures changed <==> HasLong(value, maxChars)
    decreases value
  {
    match value
    case Obj(fields) =>
      var dict: seq<Field>;
      dict, changed := TruncateDict(fields, maxChars);
      LongField(fields, maxChars);
      TruncatedFields(fields, dict, maxChars);
      return Obj(dict), changed;
    case Arr(items) =>
      var list: seq<Json>;
      list, changed := TruncateList(items, maxChars);
      LongItem(items, maxChars);
      assert list == Truncate(value, maxChars).items;
      return Arr(list), changed;
    case Str(s) =>
      LongString(s, maxChars);
      if |s| > maxChars {
        return Str(Prefix(s, maxChars) + SUFFIX), true;
      }
      return value, false;
    case _ => return value, false;
  }

  /** The dict branch: a fresh dict is filled key by key. */
  method TruncateDict(fields: seq<Field>, maxChars: int) returns (output: seq<Field>, changed: bool)
    requires WellFormed(Obj(fields))
    ensures |output| == |fields|
    ensures forall k :: 0 <= k < |fields| ==> output[k] == Field(fields[k].key, Truncate(fields[k].value, maxChars))
    ensures changed <==> LongFieldBefore(fields, |fields|, maxChars)
    decreases fields
  {
    changed, output := false, [];
    assert DistinctKeys(fields);
    for i := 0 to |fields|
      invariant |output| == i
      invariant forall k :: 0 <= k < i ==> output[k].key == fields[k].key
      invariant forall k :: 0 <= k < i ==> output[k].value == Truncate(fields[k].value, maxChars)
      invariant changed <==> LongFieldBefore(fields, i, maxChars)
    {
      var item, itemChanged := TruncateLargeStrings(fields[i].value, maxChars);
      output := SetNext(fields, output, i, item);
      changed := changed || itemChanged;
    }
  }

  /** The list branch. */
  method TruncateList(items: seq<Json>, maxChars: int) returns (output: seq<Json>, changed: bool)
    requires WellFormed(Arr(items))
    ensures |output| == |items|
    ensures forall k :: 0 <= k < |items| ==> output[k] == Truncate(items[k], maxChars)
    ensures changed <==> LongItemBefore(items, |items|, maxChars)
    decreases items
  {
    changed, output := false, [];
    for i := 0 to |items|
      invariant |output| == i
      invariant forall k :: 0 <= k < i ==> output[k] == Truncate(items[k], maxChars)
      invariant changed <==> LongItemBefore(items, i, maxChars)
    {
      var item, itemChanged := TruncateLargeStrings(items[i], maxChars);
      output := output + [item];
      changed := changed || itemChanged;
    }
  }

  ghost predicate LongFieldBefore(fields: seq<Field>, n: nat, maxChars: int)
    requires n <= |fields|
  {
    exists k :: 0 <= k < n && HasLong(fields[k].value, maxChars)
  }

  lemma TruncatedFields(fields: seq<Field>, output: seq<Field>, maxChars: int)
    requires |output| == |fields|
    requires forall k :: 0 <= k < |fields| ==> output[k] == Field(fields[k].key, Truncate(fields[k].value, maxChars))
    ensures output == Truncate(Obj(fields), maxChars).fields
  {
  }

  ghost predicate LongItemBefore(items: seq<Json>, n: nat, maxChars: int)
    requires n <= |items|
  {
    exists k :: 0 <= k < n && HasLong(items[k], maxChars)
  }

  lemma LongField(fields: seq<Field>, maxChars: int)
    ensures HasLong(Obj(fields), maxChars) <==> exists i :: 0 <= i < |fields| && HasLong(fields[i].value, maxChars)
  {
    if HasLong(Obj(fields), maxChars) {
      var s :| HasLeaf(Obj(fields), s) && |s| > maxChars;
      var i :| 0 <= i < |fields| && HasLeaf(fields[i].value, s);
      assert HasLong(fields[i].value, maxChars);
    }
    if i :| 0 <= i < |fields| && HasLong(fields[i].value, maxChars) {
      var s :| HasLeaf(fields[i].value, s) && |s| > maxChars;
      assert HasLeaf(Obj(fields), s);
    }
  }

  lemma LongItem(items: seq<Json>, maxChars: int)
    ensures HasLong(Arr(items), maxChars) <==> exists i :: 0 <= i < |items| && HasLong(items[i], maxChars)
  {
    if HasLong(Arr(items), maxChars) {
      var s :| HasLeaf(Arr(items), s) && |s| > maxChars;
      var i :| 0 <= i < |items| && HasLeaf(items[i], s);
      assert HasLong(items[i], maxChars);
    }
    if i :| 0 <= i < |items| && HasLong(items[i], maxChars) {
      var s :| HasLeaf(items[i], s) && |s| > maxChars;
      assert HasLeaf(Arr(items), s);
    }
  }

  lemma LongString(s: string, maxChars: int)
    ensures HasLong(Str(s), maxChars) <==> |s| > maxChars
  {
    assert HasLeaf(Str(s), s);
  }

  // ----- properties of truncation -----

  /** Same keys, same list lengths, same non-string leaves; strings anywhere strings were. */
  ghost predicate SameShape(a: Json, b: Json)
  {
    match a
    case Obj(fields) =>
      b.Obj? && |b.fields| == |fields|
      && forall i :: 0 <= i < |fields| ==> b.fields[i].key == fields[i].key && SameShape(fields[i].value, b.fields[i].value)
    case Arr(items) =>
      b.Arr? && |b.items| == |items| && forall i :: 0 <= i < |items| ==> SameShape(items[i], b.items[i])
    case Str(_) => b.Str?
    case _ => b == a
  }

  lemma {:induction false} TruncateKeepsShape(j: Json, maxChars: int)
    ensures SameShape(j, Truncate(j, maxChars))
  {
    match j
    case Obj(fields) => forall i | 0 <= i < |fields| { TruncateKeepsShape(fields[i].value, maxChars); }
    case Arr(items) => forall i | 0 <= i < |items| { TruncateKeepsShape(items[i], maxChars); }
    case _ =>
  }

  /** No string of the result is longer than the limit and the suffix together. */
  lemma {:induction false} TruncateBounds(j: Json, maxChars: nat, s: string)
    requires HasLeaf(Truncate(j, maxChars), s)
    ensures |s| <= maxChars + 15
  {
    match j
    case Obj(fields) =>
      var i :| 0 <= i < |fields| && HasLeaf(Truncate(j, maxChars).fields[i].value, s);
      TruncateBounds(fields[i].value, maxChars, s);
    case Arr(items) =>
      var i :| 0 <= i < |items| && HasLeaf(Truncate(j, maxChars).items[i], s);
      TruncateBounds(items[i], maxChars, s);
    case _ =>
  }

  /** Without a long string the tree is returned as it is. */
  lemma {:induction false} TruncateUnchanged(j: Json, maxChars: int)
    requires !HasLong(j, maxChars)
    ensures Truncate(j, maxChars) == j
  {
    match j
    case Obj(fields) =>
      LongField(fields, maxChars);
      forall i | 0 <= i < |fields|
        ensures Truncate(j, maxChars).fields[i] == fields[i]
      {
        TruncateUnchanged(fields[i].value, maxChars);
      }
      assert Truncate(j, maxChars).fields == fields;
    case Arr(items) =>
      LongItem(items, maxChars);
      forall i | 0 <= i < |items|
        ensures Truncate(j, maxChars).items[i] == items[i]
      {
        TruncateUnchanged(items[i], maxChars);
      }
      assert Truncate(j, maxChars).items == items;
    case Str(s) => LongString(s, maxChars);
    case _ =>
  }

  lemma ClipTwice(s: string, maxChars: nat)
    ensures Clip(Clip(s, maxChars), maxChars) == Clip(s, maxChars)
    ensures |Clip(s, maxChars)| > maxChars <==> |s| > maxChars
  {
    if |s| > maxChars {
      assert Clip(s, maxChars)[..maxChars] == s[..maxChars];
    }
  }

  /** Truncating twice gives the same tree. */
  lemma {:induction false} TruncateTwice(j: Json, maxChars: nat)
    ensures Truncate(Truncate(j, maxChars), maxChars) == Truncate(j, maxChars)
  {
    var once := Truncate(j, maxChars);
    match j
    case Obj(fields) =>
      forall i | 0 <= i < |fields|
        ensures Truncate(once, maxChars).fields[i] == once.fields[i]
      {
        TruncateTwice(fields[i].value, maxChars);
      }
      assert Truncate(once, maxChars).fields == once.fields;
    case Arr(items) =>
      forall i | 0 <= i < |items|
        ensures Truncate(once, maxChars).items[i] == once.items[i]
      {
        TruncateTwice(items[i], maxChars);
      }
      assert Truncate(once, maxChars).items == once.items;
    case Str(s) => ClipTwice(s, maxChars);
    case _ =>
  }

  /** The flag is raised again on a tree that was already cut. */
  lemma {:induction false} FlagIsRaisedAgain(j: Json, maxChars: nat)
    ensures HasLong(Truncate(j, maxChars), maxChars) <==> HasLong(j, maxChars)
  {
    var once := Truncate(j, maxChars);
    match j
    case Obj(fields) =>
      forall i | 0 <= i < |fields|
        ensures HasLong(once.fields[i].value, maxChars) <==> HasLong(fields[i].value, maxChars)
      {
        FlagIsRaisedAgain(fields[i].value, maxChars);
      }
      LongField(fields, maxChars);
      LongField(once.fields, maxChars);
    case Arr(items) =>
      forall i | 0 <= i < |items|
        ensures HasLong(once.items[i], maxChars) <==> HasLong(items[i], maxChars)
      {
        FlagIsRaisedAgain(items[i], maxChars);
      }
      LongItem(items, maxChars);
      LongItem(once.items, maxChars);
    case Str(s) =>
      ClipTwice(s, maxChars);
      LongString(s, maxChars);
      LongString(Clip(s, maxChars), maxChars);
    case _ =>
  }

  /** A clipped string makes the text at least as long as the suffix. */
  lemma {:induction false} LongIsLarge(j: Json, maxChars: int)
    requires HasLong(j, maxChars)
    ensures |Encode(Truncate(j, maxChars))| >= 15
  {
    match j
    case Obj(fields) =>
      LongField(fields, maxChars);
      var i :| 0 <= i < |fields| && HasLong(fields[i].value, maxChars);
      LongIsLarge(fields[i].value, maxChars);
      ValueAtMost(Truncate(j, maxChars).fields, i);
    case Arr(items) =>
      LongItem(items, maxChars);
      var i :| 0 <= i < |items| && HasLong(items[i], maxChars);
      LongIsLarge(items[i], maxChars);
      ItemAtMost(Truncate(j, maxChars).items, i);
    case Str(s) => LongString(s, maxChars);
    case _ =>
  }

  // ----- well-formedness is kept -----

  lemma {:induction false} RedactWellFormed(p: Patterns, j: Json)
    requires WellFormed(j)
    ensures WellFormed(Redact(p, j))
  {
    match j
    case Obj(fields) => forall i | 0 <= i < |fields| { RedactWellFormed(p, fields[i].value); }
    case Arr(items) => forall i | 0 <= i < |items| { RedactWellFormed(p, items[i]); }
    case _ =>
  }

  lemma {:induction false} TruncateWellFormed(j: Json, maxChars: int)
    requires WellFormed(j)
    ensures WellFormed(Truncate(j, maxChars))
  {
    match j
    case Obj(fields) => forall i | 0 <= i < |fields| { TruncateWellFormed(fields[i].value, maxChars); }
    case Arr(items) => forall i | 0 <= i < |items| { TruncateWellFormed(items[i], maxChars); }
    case _ =>
  }

  // ----- the compact record -----

  /** Code point order, as Python compares strings. */
  predicate StringLeq(a: string, b: string)
  {
    a == [] || (b != [] && (a[0] < b[0] || (a[0] == b[0] && StringLeq(a[1..], b[1..]))))
  }

  function KeyOrder(): (string, string) -> bool { (a: string, b: string) => StringLeq(a, b) }

  lemma {:induction false} StringLeqTotal(a: string, b: string)
    ensures StringLeq(a, b) || StringLeq(b, a)
    ensures StringLeq(a, b) && StringLeq(b, a) ==> a == b
  {
    if a == [] || b == [] {
    } else {
      StringLeqTotal(a[1..], b[1..]);
      assert a == [a[0]] + a[1..] && b == [b[0]] + b[1..];
    }
  }

  lemma {:induction false} StringLeqTransitive(a: string, b: string, c: string)
    requires StringLeq(a, b) && StringLeq(b, c)
    ensures StringLeq(a, c)
  {
    if a != [] && b != [] && c != [] && a[0] == b[0] && b[0] == c[0] {
      StringLeqTransitive(a[1..], b[1..], c[1..]);
    }
  }

  /** One string comes before another when it is a prefix, or smaller where they first differ. */
  lemma {:induction false} StringLeqIsCodePointOrder(a: string, b: string)
    ensures StringLeq(a, b) <==>
      a <= b || exists i :: 0 <= i < |a| && i < |b| && a[..i] == b[..i] && a[i] < b[i]
  {
    if a == [] || b == [] {
    } else {
      var x, y := a[1..], b[1..];
      StringLeqIsCodePointOrder(x, y);
      if a[0] == b[0] {
        if i :| 0 <= i < |x| && i < |y| && x[..i] == y[..i] && x[i] < y[i] {
          assert a[..i + 1] == [a[0]] + x[..i] && b[..i + 1] == [b[0]] + y[..i];
          assert a[i + 1] < b[i + 1];
        }
        if i :| 0 <= i < |a| && i < |b| && a[..i] == b[..i] && a[i] < b[i] {
          assert x[..i - 1] == a[..i][1..] && y[..i - 1] == b[..i][1..];
          assert x[i - 1] < y[i - 1];
        }
      } else {
        assert a[..0] == b[..0];
        assert forall i :: 0 < i <= |a| && i <= |b| && a[..i] == b[..i] ==> a[..i][0] == b[..i][0];
      }
    }
  }

  lemma KeyOrderIsTotal()
    ensures TotalPreorder(KeyOrder())
  {
    forall a: string, b: string ensures KeyOrder()(a, b) || KeyOrder()(b, a) { StringLeqTotal(a, b); }
    forall a: string, b: string, c: string | KeyOrder()(a, b) && KeyOrder()(b, c)
      ensures KeyOrder()(a, c)
    {
      StringLeqTransitive(a, b, c);
    }
  }

  function Keys(fields: seq<Field>): seq<string>
  {
    Map((f: Field) => f.key, fields)
  }

  function Compact(fields: seq<Field>, eventType: string): Json
  {
    Obj([Field("_truncated", Bool(true)),
         Field("event_type", Str(eventType)),
         Field("keys", Arr(Map((k: string) => Str(k), Sort(KeyOrder(), Keys(fields)))))])
  }

  /** The listed keys are the payload's own top-level keys in increasing order. */
  lemma CompactListsSortedKeys(fields: seq<Field>, eventType: string)
    ensures Compact(fields, eventType) == Obj([
      Field("_truncated", Bool(true)), Field("event_type", Str(eventType)),
      Field("keys", Compact(fields, eventType).fields[2].value)])
    ensures var listed := Sort(KeyOrder(), Keys(fields));
      && SortedBy(KeyOrder(), listed)
      && multiset(listed) == multiset(Keys(fields))
      && Compact(fields, eventType).fields[2].value.items == Map((k: string) => Str(k), listed)
  {
    KeyOrderIsTotal();
    SortSorts(KeyOrder(), Keys(fields));
    SortPermutes(KeyOrder(), Keys(fields));
  }

  // ----- the sanitiser -----

  datatype SanitizeError = AttributeError

  /** Redacted, and put in a dict when the payload is not one. */
  function Wrapped(p: Patterns, payload: Json): Json
  {
    var redacted := Redact(p, payload);
    if redacted.Obj? then redacted else Obj([Field("value", redacted)])
  }

  function CharLimit(maxBytes: int): int { if maxBytes < MAX_CHARS then maxBytes else MAX_CHARS }

  /** The texts and bounds the sanitiser works with. */
  lemma SanitizerConstants(p: Patterns, payload: Json, s: string, maxBytes: int)
    ensures CharLimit(maxBytes) == (if maxBytes <= 1024 then maxBytes else 1024)
    ensures 0 <= maxBytes && |s| > maxBytes ==> Clip(s, maxBytes) == s[..maxBytes] + "... [truncated]"
    ensures |s| <= maxBytes ==> Clip(s, maxBytes) == s
    ensures -|s| <= maxBytes < 0 ==> Clip(s, maxBytes) == s[..|s| + maxBytes] + "... [truncated]"
    ensures maxBytes < 0 && maxBytes < -|s| ==> Clip(s, maxBytes) == "... [truncated]"
    ensures payload.Obj? ==> Wrapped(p, payload) == Redact(p, payload)
    ensures !payload.Obj? ==> Wrapped(p, payload) == Obj([Field("value", Redact(p, payload))])
    ensures payload.Obj? ==> forall i :: 0 <= i < |payload.fields| && p.isSecret(payload.fields[i].key) ==>
      Redact(p, payload).fields[i] == Field(payload.fields[i].key, Str("[REDACTED]"))
  {
  }

  method SanitizePayload(p: Patterns, payload: Json, maxBytes: int, eventType: string)
    returns (r: Result<(Json, bool), SanitizeError>)
    requires WellFormed(payload)
    ensures var wrapped := Wrapped(p, payload);
      var cut := Truncate(wrapped, CharLimit(maxBytes));
      if |Encode(cut)| <= maxBytes then
        r.Ok? && r.value.0 == cut && (r.value.1 <==> HasLong(wrapped, CharLimit(maxBytes)))
      else if payload.Obj? then r == Ok((Compact(payload.fields, eventType), true))
      else r == Err(AttributeError)
  {
    var sanitized := RedactValue(p, payload);
    RedactWellFormed(p, payload);
    if !sanitized.Obj? {
      sanitized := Obj([Field("value", sanitized)]);
    }
    var cut, stringTruncated := TruncateLargeStrings(sanitized, CharLimit(maxBytes));
    var encoded := Encode(cut);
    if |encoded| <= maxBytes {
      return Ok((cut, stringTruncated));
    }
    if !payload.Obj? {
      return Err(AttributeError);
    }
    return Ok((Compact(payload.fields, eventType), true));
  }

  /**
   What a sanitised tree may look like, said without the two passes: same keys in the same
   order, every secret key hidden at every depth, strings redacted and kept within the
   limit, everything else untouched.
   */
  ghost predicate Sanitised(p: Patterns, maxChars: int, source: Json, out: Json)
    decreases source
  {
    match source
    case Obj(fields) =>
      out.Obj? && |out.fields| == |fields|
      && forall i :: 0 <= i < |fields| ==>
           && out.fields[i].key == fields[i].key
           && (if p.isSecret(fields[i].key) then out.fields[i].value == Str(REDACTED)
               else Sanitised(p, maxChars, fields[i].value, out.fields[i].value))
    case Arr(items) =>
      out.Arr? && |out.items| == |items|
      && forall i :: 0 <= i < |items| ==> Sanitised(p, maxChars, items[i], out.items[i])
    case Str(s) =>
      out.Str?
      && (|p.redactString(s)| <= maxChars ==> out.s == p.redactString(s))
      && (|p.redactString(s)| > maxChars ==> out.s == Prefix(p.redactString(s), maxChars) + SUFFIX)
    case _ => out == source
  }

  lemma {:induction false} PassesSanitise(p: Patterns, maxChars: int, j: Json)
    requires maxChars >= |REDACTED|
    ensures Sanitised(p, maxChars, j, Truncate(Redact(p, j), maxChars))
    decreases j
  {
    match j
    case Obj(fields) => forall i | 0 <= i < |fields| { PassesSanitise(p, maxChars, fields[i].value); }
    case Arr(items) => forall i | 0 <= i < |items| { PassesSanitise(p, maxChars, items[i]); }
    case _ =>
  }

  /** Redaction alone also hides every secret key, when no string is over the limit. */
  lemma {:induction false} RedactionSanitises(p: Patterns, maxChars: int, j: Json)
    requires !HasLong(Redact(p, j), maxChars)
    ensures Sanitised(p, maxChars, j, Redact(p, j))
    decreases j
  {
    var redacted := Redact(p, j);
    match j
    case Obj(fields) =>
      LongField(redacted.fields, maxChars);
      forall i | 0 <= i < |fields| && !p.isSecret(fields[i].key)
        ensures Sanitised(p, maxChars, fields[i].value, redacted.fields[i].value)
      {
        assert redacted.fields[i].value == Redact(p, fields[i].value);
        RedactionSanitises(p, maxChars, fields[i].value);
      }
    case Arr(items) =>
      LongItem(redacted.items, maxChars);
      forall i | 0 <= i < |items|
        ensures Sanitised(p, maxChars, items[i], redacted.items[i])
      {
        assert redacted.items[i] == Redact(p, items[i]);
        RedactionSanitises(p, maxChars, items[i]);
      }
    case Str(s) => LongString(p.redactString(s), maxChars);
    case _ =>
  }

  /** The part of a sanitised result that stands for the payload itself. */
  function Core(payload: Json, result: Json): Json
  {
    if payload.Obj? || !result.Obj? || result.fields == [] then result else result.fields[0].value
  }

  /**
   For every payload and every size limit, also limits smaller than the redaction marker:
   a result that is not the compact record fits the limit and hides every secret key at
   every depth, and with a false flag it is the redacted payload untouched.
   */
  lemma SanitisedResults(p: Patterns, payload: Json, maxBytes: int)
    requires |Encode(Truncate(Wrapped(p, payload), CharLimit(maxBytes)))| <= maxBytes
    ensures var cut := Truncate(Wrapped(p, payload), CharLimit(maxBytes));
      && Sanitised(p, CharLimit(maxBytes), payload, Core(payload, cut))
      && (!payload.Obj? ==> cut == Obj([Field("value", Core(payload, cut))]))
      && (!HasLong(Wrapped(p, payload), CharLimit(maxBytes)) ==> cut == Wrapped(p, payload))
  {
    var limit := CharLimit(maxBytes);
    var wrapped := Wrapped(p, payload);
    if !HasLong(wrapped, limit) {
      TruncateUnchanged(wrapped, limit);
    }
    CoreIsSanitised(p, payload, maxBytes);
    CoreOfWrapped(p, payload, limit);
  }

  lemma CoreOfWrapped(p: Patterns, payload: Json, limit: int)
    ensures var cut := Truncate(Wrapped(p, payload), limit);
      && Core(payload, cut) == Truncate(Redact(p, payload), limit)
      && (!payload.Obj? ==> cut == Obj([Field("value", Core(payload, cut))]))
  {
  }

  lemma CoreIsSanitised(p: Patterns, payload: Json, maxBytes: int)
    requires |Encode(Truncate(Wrapped(p, payload), CharLimit(maxBytes)))| <= maxBytes
    ensures Sanitised(p, CharLimit(maxBytes), payload, Truncate(Redact(p, payload), CharLimit(maxBytes)))
  {
    var limit := CharLimit(maxBytes);
    LongCore(p, payload, limit);
    if HasLong(Redact(p, payload), limit) {
      LongIsLarge(Wrapped(p, payload), limit);
      PassesSanitise(p, limit, payload);
    } else {
      TruncateUnchanged(Redact(p, payload), limit);
      RedactionSanitises(p, limit, payload);
    }
  }

  lemma LongCore(p: Patterns, payload: Json, maxChars: int)
    ensures HasLong(Wrapped(p, payload), maxChars) <==> HasLong(Redact(p, payload), maxChars)
  {
    if !payload.Obj? {
      var fields := [Field("value", Redact(p, payload))];
      LongField(fields, maxChars);
      assert fields[0].value == Redact(p, payload);
    }
  }

  // ----- how large the compact record is -----

  function TotalLength(parts: seq<string>): nat
  {
    if parts == [] then 0 else |parts[0]| + TotalLength(parts[1..])
  }

  /** The bytes that the quoted, escaped keys take. */
  function KeyBytes(keys: seq<string>): nat
  {
    if keys == [] then 0 else |Quoted(keys[0])| + KeyBytes(keys[1..])
  }

  /** Two bytes between any two entries. */
  function Separators(count: nat): nat { if count == 0 then 0 else 2 * (count - 1) }

  /** The encoded length of the compact record, from the event type and the payload's own keys. */
  function CompactLength(fields: seq<Field>, eventType: string): nat
  {
    48 + |Quoted(eventType)| + KeyBytes(Keys(fields)) + Separators(|fields|)
  }

  lemma {:induction false} JoinLength(parts: seq<string>)
    ensures |CommaJoin(parts)| == TotalLength(parts) + Separators(|parts|)
  {
    if |parts| <= 1 {
    } else {
      JoinLength(parts[1..]);
    }
  }

  lemma {:induction false} QuotedLength(parts: seq<string>, keys: seq<string>)
    requires |parts| == |keys| && forall i :: 0 <= i < |keys| ==> parts[i] == Quoted(keys[i])
    ensures TotalLength(parts) == KeyBytes(keys)
  {
    if keys == [] {
    } else {
      QuotedLength(parts[1..], keys[1..]);
    }
  }

  lemma {:induction false} InsertKeyBytes(key: string, keys: seq<string>)
    ensures KeyBytes(Insert(KeyOrder(), key, keys)) == |Quoted(key)| + KeyBytes(keys)
  {
    if keys == [] || KeyOrder()(key, keys[0]) {
      assert Insert(KeyOrder(), key, keys)[1..] == keys;
    } else {
      InsertKeyBytes(key, keys[1..]);
      assert Insert(KeyOrder(), key, keys)[1..] == Insert(KeyOrder(), key, keys[1..]);
    }
  }

  /** Sorting the keys does not change what they take. */
  lemma {:induction false} SortKeyBytes(keys: seq<string>)
    ensures KeyBytes(Sort(KeyOrder(), keys)) == KeyBytes(keys) && |Sort(KeyOrder(), keys)| == |keys|
  {
    if keys == [] {
    } else {
      SortKeyBytes(keys[1..]);
      InsertKeyBytes(keys[0], Sort(KeyOrder(), keys[1..]));
      SortPermutes(KeyOrder(), keys);
    }
  }

  lemma KeyListLength(keys: seq<string>)
    ensures |Encode(Arr(Map((k: string) => Str(k), keys)))| == 2 + KeyBytes(keys) + Separators(|keys|)
  {
    var items := Map((k: string) => Str(k), keys);
    var parts := seq(|items|, i requires 0 <= i < |items| => Encode(items[i]));
    JoinLength(parts);
    QuotedLength(parts, keys);
  }

  lemma ThreeMembers(record: seq<Field>)
    requires |record| == 3
    ensures |Encode(Obj(record))| == 12
      + |Quoted(record[0].key)| + |Encode(record[0].value)|
      + |Quoted(record[1].key)| + |Encode(record[1].value)|
      + |Quoted(record[2].key)| + |Encode(record[2].value)|
  {
    var parts := seq(|record|, i requires 0 <= i < |record| => Quoted(record[i].key) + ": " + Encode(record[i].value));
    assert CommaJoin(parts) == parts[0] + ", " + CommaJoin(parts[1..]);
    assert CommaJoin(parts[1..]) == parts[1] + ", " + CommaJoin(parts[1..][1..]);
    assert parts[1..][1..] == [parts[2]];
  }

  /** Text that needs no escapes. */
  predicate Plain(s: string)
  {
    forall i :: 0 <= i < |s| ==> ' ' <= s[i] <= '~' && s[i] != '\"' && s[i] != '\\'
  }

  lemma {:induction false} PlainLength(s: string)
    requires Plain(s)
    ensures |Quoted(s)| == |s| + 2
  {
    if s == [] {
    } else {
      PlainLength(s[1..]);
    }
  }

  lemma PlainRecordLength(record: seq<Field>)
    requires |record| == 3 && Plain(record[0].key) && Plain(record[1].key) && Plain(record[2].key)
    ensures |Encode(Obj(record))| == 18
      + |record[0].key| + |Encode(record[0].value)|
      + |record[1].key| + |Encode(record[1].value)|
      + |record[2].key| + |Encode(record[2].value)|
  {
    ThreeMembers(record);
    PlainLength(record[0].key);
    PlainLength(record[1].key);
    PlainLength(record[2].key);
  }

  lemma CompactLengthIsExact(fields: seq<Field>, eventType: string)
    ensures |Encode(Compact(fields, eventType))| == CompactLength(fields, eventType)
  {
    PlainRecordLength(Compact(fields, eventType).fields);
    SortKeyBytes(Keys(fields));
    KeyListLength(Sort(KeyOrder(), Keys(fields)));
  }

  /**
   What the sanitiser returns for a dict keeps to its limit exactly when the cut tree does,
   or the compact record is small enough.
   */
  lemma LimitHoldsExactlyWhen(p: Patterns, fields: seq<Field>, maxBytes: int, eventType: string)
    ensures var cut := Truncate(Redact(p, Obj(fields)), CharLimit(maxBytes));
      var result := if |Encode(cut)| <= maxBytes then cut else Compact(fields, eventType);
      |Encode(result)| <= maxBytes <==> |Encode(cut)| <= maxBytes || CompactLength(fields, eventType) <= maxBytes
  {
    CompactLengthIsExact(fields, eventType);
  }

  lemma {:induction false} KeyBytesAtLeast(keys: seq<string>, i: nat)
    requires i < |keys|
    ensures KeyBytes(keys) >= |keys[i]|
  {
    if i == 0 {
    } else {
      KeyBytesAtLeast(keys[1..], i - 1);
    }
  }

  /** No limit is safe: for each there is a payload whose compact record exceeds it. */
  lemma EveryLimitIsExceeded(p: Patterns, maxBytes: int, eventType: string) returns (payload: Json)
    ensures WellFormed(payload) && payload.Obj?
    ensures |Encode(Truncate(Wrapped(p, payload), CharLimit(maxBytes)))| > maxBytes
    ensures |Encode(Compact(payload.fields, eventType))| > maxBytes
  {
    var key := seq(if maxBytes < 0 then 1 else maxBytes + 1, _ => 'a');
    payload := Obj([Field(key, Null)]);
    LongKeyIsKept(p, key, CharLimit(maxBytes));
    LongKeyIsListed(key, eventType);
  }

  lemma LongKeyIsKept(p: Patterns, key: string, maxChars: int)
    ensures |Encode(Truncate(Wrapped(p, Obj([Field(key, Null)])), maxChars))| >= |key|
  {
    var cut := Truncate(Wrapped(p, Obj([Field(key, Null)])), maxChars);
    assert cut.fields[0].key == key;
    KeyAtMost(cut.fields, 0);
  }

  lemma LongKeyIsListed(key: string, eventType: string)
    ensures |Encode(Compact([Field(key, Null)], eventType))| >= |key|
  {
    CompactLengthIsExact([Field(key, Null)], eventType);
    KeyBytesAtLeast(Keys([Field(key, Null)]), 0);
  }

  lemma KeyAtMost(fields: seq<Field>, i: nat)
    requires i < |fields|
    ensures |Encode(Obj(fields))| >= |fields[i].key|
  {
    var parts := seq(|fields|, k requires 0 <= k < |fields| => Quoted(fields[k].key) + ": " + Encode(fields[k].value));
    JoinAtLeast(parts, i);
  }
}
