/**
 `PurePosixPath`: a string taken apart into a root and components and put together again.

 Pathname resolution follows section 4.13 of IEEE Std 1003.1-2017, where exactly two
 leading slashes are a root of their own.
 */
module PosixPaths {
  import opened Splitting

  datatype Path = Path(root: string, components: seq<string>)

  function RootOf(value: string): (root: string)
    ensures root <= value
    ensures root == "" || root == "/" || root == "//"
  {
    if value == [] || value[0] != '/' then ""
    else if |value| >= 2 && value[1] == '/' && (|value| == 2 || value[2] != '/') then
      assert value[..2] == "//";
      "//"
    else "/"
  }

  predicate Significant(part: string) { part != "" && part != "." }

  /** Empty and `.` parts are dropped. */
  function Keep(parts: seq<string>): seq<string>
  {
    if parts == [] then []
    else if Significant(parts[0]) then [parts[0]] + Keep(parts[1..])
    else Keep(parts[1..])
  }

  function Parse(value: string): Path
  {
    var root := RootOf(value);
    Path(root, Keep(Split(value[|root|..], '/')))
  }

  predicate IsAbsolute(path: Path) { path.root != "" }

  /** `path.parts`: the root, if any, is the first part. */
  function Parts(path: Path): seq<string>
  {
    if path.root != "" then [path.root] + path.components else path.components
  }

  /** `str(path)` */
  function Format(path: Path): string
  {
    if path.root == "" && path.components == [] then "."
    else path.root + Join(path.components, '/')
  }

  // ----- printing and parsing -----

  ghost predicate Clean(components: seq<string>)
  {
    forall i :: 0 <= i < |components| ==> Significant(components[i]) && '/' !in components[i]
  }

  lemma {:induction false} KeepIsClean(parts: seq<string>)
    requires forall i :: 0 <= i < |parts| ==> '/' !in parts[i]
    ensures Clean(Keep(parts))
  {
    if parts == [] {
    } else {
      KeepIsClean(parts[1..]);
    }
  }

  lemma {:induction false} KeepOfClean(components: seq<string>)
    requires Clean(components)
    ensures Keep(components) == components
  {
    if components == [] {
    } else {
      KeepOfClean(components[1..]);
    }
  }

  lemma JoinStartsInComponent(components: seq<string>)
    requires Clean(components) && components != []
    ensures Join(components, '/') != [] && Join(components, '/')[0] != '/'
  {
    assert components[0][0] in components[0];
  }

  lemma ParsedIsClean(value: string)
    ensures Clean(Parse(value).components)
  {
    KeepIsClean(Split(value[|RootOf(value)|..], '/'));
  }

  lemma ComponentsRoundTrip(components: seq<string>)
    requires Clean(components)
    ensures Keep(Split(Join(components, '/'), '/')) == components
  {
    if components == [] {
      assert Split("", '/') == [""];
      assert Split("", '/')[1..] == [];
    } else {
      SplitJoin(components, '/');
      KeepOfClean(components);
    }
  }

  lemma RootRoundTrip(root: string, rest: string)
    requires root == "/" || root == "//"
    requires rest == [] || rest[0] != '/'
    ensures RootOf(root + rest) == root
    ensures (root + rest)[|root|..] == rest
  {
  }

  /** Printing a parsed path and parsing it again gives the same path. */
  lemma FormatParses(value: string)
    ensures Parse(Format(Parse(value))) == Parse(value)
    ensures Parse(value) == Path("", []) ==> Format(Parse(value)) == "."
  {
    var path := Parse(value);
    var rest := Join(path.components, '/');
    ParsedIsClean(value);
    ComponentsRoundTrip(path.components);
    if path.components != [] {
      JoinStartsInComponent(path.components);
    }
    if path.root == "" {
      if path.components == [] {
        DotParses();
      } else {
        assert path.root + rest == rest;
        assert rest[0..] == rest;
      }
    } else {
      RootRoundTrip(path.root, rest);
    }
  }

  lemma DotParses()
    ensures Parse(".") == Path("", [])
  {
    SplitPlain(".", '/');
    assert "."[0..] == ".";
    assert ["."][1..] == [];
  }

  // ----- walking -----

  /** The directory reached from the root by a list of path parts, `..` going up. */
  function Walk(parts: seq<string>): seq<string>
  {
    if parts == [] then []
    else
      var before := Walk(parts[..|parts| - 1]);
      var part := parts[|parts| - 1];
      if part == "" || part == "." then before
      else if part == ".." then (if before == [] then [] else before[..|before| - 1])
      else before + [part]
  }

  /** Going up undoes going down; from the root it leads nowhere. */
  lemma UpUndoesDown(parts: seq<string>, name: string)
    requires name != "" && name != "." && name != ".."
    ensures Walk(parts + [name]) == Walk(parts) + [name]
    ensures Walk(parts + [name] + [".."]) == Walk(parts)
    ensures Walk([".."]) == []
  {
    var down := parts + [name];
    assert down[..|parts|] == parts;
    assert (down + [".."])[..|down|] == down;
    assert [".."][..0] == [];
  }

  lemma {:induction false} KeepConcat(a: seq<string>, b: seq<string>)
    ensures Keep(a + b) == Keep(a) + Keep(b)
  {
    if a == [] {
      assert a + b == b;
    } else {
      KeepConcat(a[1..], b);
      assert a + b == [a[0]] + (a[1..] + b);
    }
  }

  /** Without `..` a walk just collects the significant parts. */
  lemma {:induction false} WalkWithoutParents(parts: seq<string>)
    requires ".." !in Keep(parts)
    ensures Walk(parts) == Keep(parts)
    decreases |parts|
  {
    if parts == [] {
    } else {
      var init, last := parts[..|parts| - 1], parts[|parts| - 1];
      assert parts == init + [last];
      KeepConcat(init, [last]);
      assert Keep([last]) == if Significant(last) then [last] else [];
      forall x | x in Keep(init) ensures x != ".." { assert x in Keep(parts); }
      WalkWithoutParents(init);
      assert Significant(last) ==> last in Keep(parts);
    }
  }

  lemma {:induction false} KeepPrefix(parts: seq<string>, k: nat)
    requires k <= |parts|
    ensures Keep(parts[..k]) <= Keep(parts)
  {
    if k == 0 {
    } else {
      KeepPrefix(parts[1..], k - 1);
      assert parts[..k][1..] == parts[1..][..k - 1];
    }
  }

  /** Without `..` a walk only ever goes down. */
  lemma WalkOnlyDescends(parts: seq<string>, k: nat)
    requires ".." !in Keep(parts) && k <= |parts|
    ensures Walk(parts[..k]) <= Walk(parts)
  {
    KeepPrefix(parts, k);
    WalkWithoutParents(parts[..k]);
    WalkWithoutParents(parts);
  }

  /** The whole string's parts and the parsed components walk to the same place. */
  lemma {:induction false} KeepOfSplit(value: string)
    ensures Keep(Split(value, '/')) == Parse(value).components
  {
    var root := RootOf(value);
    if root == "/" {
      assert value == ['/'] + value[1..];
      LeadingSlash(value[1..]);
    } else if root == "//" {
      assert value == ['/'] + (['/'] + value[2..]);
      LeadingSlash(['/'] + value[2..]);
      LeadingSlash(value[2..]);
    } else {
      assert value[0..] == value;
    }
  }

  lemma LeadingSlash(rest: string)
    ensures Keep(Split(['/'] + rest, '/')) == Keep(Split(rest, '/'))
  {
    assert (['/'] + rest)[1..] == rest;
    assert ([[]] + Split(rest, '/'))[1..] == Split(rest, '/');
  }
}
