/**
  `write_modules_to_directory`: the names of the loaded modules (the keys of
  `sys.modules`) are gathered into an ordered set and written to a new file
  `modules-<uuid>` in the given directory, one name per line, each followed by
  `\n`.  Filesystem and Python calls are steps whose outcome an oracle decides.
*/
module ModulesFile {
  import opened Wrappers
  import opened TextLines

  /** A key of the `sys.modules` dict: a `str`, or any other object. */
  datatype PyKey = Str(value: string) | NonStr

  /** The fallible steps of writing the file, in the order they are attempted. */
  datatype IoStep =
    | CreateDirAll          // fs::create_dir_all(path)
    | ImportSysModule             // py.import("sys")
    | GetSysModules         // sys.get(py, "modules")
    | CastToDict            // modules.cast_as::<PyDict>
    | CreateFile            // fs::File::create
    | WriteLine(index: nat) // the write of the index-th name

  /** The file left behind: its name inside the directory and what was written to it. */
  datatype WrittenFile = WrittenFile(name: string, content: string)

  // ---------------------------------------------------------------------------
  // The order of `BTreeSet<String>`: lexicographic by character

  predicate Below(a: string, b: string)
    ensures a < b ==> Below(a, b)
    ensures Below(a, b) && a != [] ==> b != [] && a[0] <= b[0]
  {
    if a == [] then b != []
    else if b == [] then false
    else if a[0] != b[0] then a[0] < b[0]
    else Below(a[1..], b[1..])
  }

  lemma {:induction false} BelowIrreflexive(a: string)
    ensures !Below(a, a)
  {
    if a != [] {
      BelowIrreflexive(a[1..]);
    }
  }

  lemma {:induction false} BelowTransitive(a: string, b: string, c: string)
    requires Below(a, b) && Below(b, c)
    ensures Below(a, c)
  {
    if a != [] && b != [] && c != [] && a[0] == b[0] && b[0] == c[0] {
      BelowTransitive(a[1..], b[1..], c[1..]);
    }
  }

  lemma {:induction false} BelowTotal(a: string, b: string)
    requires a != b
    ensures Below(a, b) || Below(b, a)
  {
    if a != [] && b != [] && a[0] == b[0] {
      assert a == [a[0]] + a[1..] && b == [b[0]] + b[1..];
      BelowTotal(a[1..], b[1..]);
    }
  }

  lemma {:induction false} BelowAsymmetric(a: string, b: string)
    requires Below(a, b)
    ensures !Below(b, a)
  {
    if a != [] && b != [] && a[0] == b[0] {
      BelowAsymmetric(a[1..], b[1..]);
    }
  }

  predicate StrictlySorted(s: seq<string>)
  {
    forall i, j :: 0 <= i < j < |s| ==> Below(s[i], s[j])
  }

  // ---------------------------------------------------------------------------
  // The ordered set of names

  /** `BTreeSet::insert` on the set kept as a strictly increasing sequence. */
  function Insert(names: seq<string>, x: string): (r: seq<string>)
    requires StrictlySorted(names)
    ensures StrictlySorted(r)
    ensures forall y :: y in r <==> y in names || y == x
  {
    if names == [] then [x]
    else if x == names[0] then names
    else if Below(x, names[0]) then
      assert forall j :: 0 < j < |names| ==> Below(x, names[j]) by {
        forall j | 0 < j < |names| ensures Below(x, names[j]) {
          BelowTransitive(x, names[0], names[j]);
        }
      }
      [x] + names
    else
      BelowTotal(x, names[0]);
      var tail := Insert(names[1..], x);
      assert forall y :: y in tail ==> Below(names[0], y);
      [names[0]] + tail
  }

  predicate AllStr(keys: seq<PyKey>)
  {
    forall i :: 0 <= i < |keys| ==> keys[i].Str?
  }

  /** The set built from the keys, in iteration order. */
  function NameSet(keys: seq<PyKey>): (r: seq<string>)
    requires AllStr(keys)
    ensures StrictlySorted(r)
    ensures forall y :: y in r <==> Str(y) in keys
  {
    if keys == [] then []
    else
      var prefix := keys[..|keys| - 1];
      assert forall y :: Str(y) in keys <==> Str(y) in prefix || keys[|keys| - 1] == Str(y);
      Insert(NameSet(prefix), keys[|keys| - 1].value)
  }

  /** One more `str` key inserts its name into the set. */
  lemma NameSetSnoc(keys: seq<PyKey>, key: PyKey)
    requires AllStr(keys) && key.Str?
    ensures AllStr(keys + [key])
    ensures NameSet(keys + [key]) == Insert(NameSet(keys), key.value)
  {
    assert (keys + [key])[..|keys|] == keys;
  }

  /** In a strictly increasing sequence the first element is below every other one. */
  lemma FirstIsLeast(a: seq<string>, y: string)
    requires StrictlySorted(a) && y in a && y != a[0]
    ensures Below(a[0], y)
  {
  }

  /** A strictly increasing sequence is fixed by its elements: the set's order is the only one. */
  lemma {:induction false} SortedUnique(a: seq<string>, b: seq<string>)
    requires StrictlySorted(a) && StrictlySorted(b)
    requires forall y :: y in a <==> y in b
    ensures a == b
    decreases |a|
  {
    assert a != [] ==> a[0] in a;
    assert b != [] ==> b[0] in b;
    if a != [] && b != [] {
      assert a[0] in b && b[0] in a;
      if a[0] != b[0] {
        FirstIsLeast(b, a[0]);
        FirstIsLeast(a, b[0]);
        BelowAsymmetric(a[0], b[0]);
        assert false;
      }
      forall y | y in a[1..] ensures y in b[1..] {
        var j :| 1 <= j < |a| && a[j] == y;
        BelowIrreflexive(y);
        assert a[j] in a;
        var k :| 0 <= k < |b| && b[k] == y;
        assert b[1..][k - 1] == y;
      }
      forall y | y in b[1..] ensures y in a[1..] {
        var j :| 1 <= j < |b| && b[j] == y;
        BelowIrreflexive(y);
        assert b[j] in b;
        var k :| 0 <= k < |a| && a[k] == y;
        assert a[1..][k - 1] == y;
      }
      SortedUnique(a[1..], b[1..]);
      assert a == [a[0]] + a[1..] && b == [b[0]] + b[1..];
    }
  }

  /** The file's content for the given names: each name followed by `\n`. */
  function Listing(names: seq<string>): (r: string)
    ensures r == "" <==> names == []
    ensures r != "" ==> r[|r| - 1] == '\n'
  {
    if names == [] then "" else Listing(names[..|names| - 1]) + names[|names| - 1] + "\n"
  }

  lemma {:induction false} ListingFront(name: string, rest: seq<string>)
    ensures Listing([name] + rest) == name + "\n" + Listing(rest)
    decreases |rest|
  {
    if rest != [] {
      var init := rest[..|rest| - 1];
      assert ([name] + rest)[..|rest|] == [name] + init;
      ListingFront(name, init);
    }
  }

  /**
    Reading the file back line by line gives exactly the names written, provided
    no name holds a `\n` or ends with `\r`.
  */
  lemma {:induction false} ListingReadsBack(names: seq<string>)
    requires forall k :: 0 <= k < |names| ==> '\n' !in names[k]
    requires forall k :: 0 <= k < |names| ==> StripCarriageReturn(names[k]) == names[k]
    ensures Lines(Listing(names)) == names
    decreases |names|
  {
    if names != [] {
      ListingFront(names[0], names[1..]);
      assert [names[0]] + names[1..] == names;
      LinesOfTerminated(names[0], Listing(names[1..]));
      ListingReadsBack(names[1..]);
    }
  }

  /**
    Whatever order `sys.modules` iterates in, the file lists the distinct
    names in increasing order.
  */
  lemma ListingIndependentOfOrder(keys: seq<PyKey>, keys': seq<PyKey>)
    requires AllStr(keys) && AllStr(keys')
    requires forall k :: k in keys <==> k in keys'
    ensures Listing(NameSet(keys)) == Listing(NameSet(keys'))
  {
    SortedUnique(NameSet(keys), NameSet(keys'));
  }

  // ---------------------------------------------------------------------------
  // The function itself

  /** The loop over `modules.items(py)`: insert each name, failing on a key that is no `str`. */
  method CollectNames(keys: seq<PyKey>) returns (r: Result<seq<string>, string>)
    ensures r.Success? <==> AllStr(keys)
    ensures r.Success? ==> r.value == NameSet(keys)
    ensures r.Failure? ==> r.error == "module name is not a str"
  {
    var names: seq<string> := [];
    for i := 0 to |keys|
      invariant AllStr(keys[..i])
      invariant names == NameSet(keys[..i])
    {
      if !keys[i].Str? {
        return Failure("module name is not a str");
      }
      NameSetSnoc(keys[..i], keys[i]);
      assert keys[..i + 1] == keys[..i] + [keys[i]];
      names := Insert(names, keys[i].value);
    }
    assert keys[..|keys|] == keys;
    return Success(names);
  }

  const FilePrefix: string := "modules-"

  /** How many names were written when the loop stopped: all of them, or up to the first failing write. */
  function WrittenCount(n: nat, io: IoStep -> bool, i: nat): (w: nat)
    requires i <= n
    ensures i <= w <= n
    ensures forall j :: i <= j < w ==> io(WriteLine(j))
    ensures w < n ==> !io(WriteLine(w))
    decreases n - i
  {
    if i == n || !io(WriteLine(i)) then i else WrittenCount(n, io, i + 1)
  }

  /** The steps before the file is created all succeed and every key is a `str`. */
  predicate Collected(keys: seq<PyKey>, io: IoStep -> bool)
  {
    io(CreateDirAll) && io(ImportSysModule) && io(GetSysModules) && io(CastToDict) && AllStr(keys)
  }

  /** The `for name in names` loop: one `name\n` line per name until a write fails. */
  method WriteNames(names: seq<string>, io: IoStep -> bool) returns (r: Result<(), string>, content: string)
    ensures content == Listing(names[..WrittenCount(|names|, io, 0)])
    ensures r.Success? <==> WrittenCount(|names|, io, 0) == |names|
    ensures r.Failure? ==> r.error == "could not write"
  {
    content := "";
    ghost var w := WrittenCount(|names|, io, 0);
    for i := 0 to |names|
      invariant forall j :: 0 <= j < i ==> io(WriteLine(j))
      invariant i <= w
      invariant content == Listing(names[..i])
    {
      if !io(WriteLine(i)) {
        return Failure("could not write"), content;
      }
      assert names[..i + 1][..i] == names[..i];
      content := content + names[i] + "\n";
    }
    assert names[..|names|] == names;
    return Success(()), content;
  }

  /**
    Write the module list: create the directory, look up `sys.modules`,
    collect the names, create the file, write one line per name.  The first
    failing step decides the error; a failing write leaves the lines before it.
  */
  method WriteModulesToDirectory(keys: seq<PyKey>, uuid: string, io: IoStep -> bool)
    returns (r: Result<(), string>, file: Option<WrittenFile>)
    ensures !io(CreateDirAll) ==> r == Failure("could not create directory for modules")
    ensures io(CreateDirAll) && !io(ImportSysModule) ==> r == Failure("could not obtain sys module")
    ensures io(CreateDirAll) && io(ImportSysModule) && !io(GetSysModules) ==>
              r == Failure("could not obtain sys.modules")
    ensures io(CreateDirAll) && io(ImportSysModule) && io(GetSysModules) && !io(CastToDict) ==>
              r == Failure("sys.modules is not a dict")
    ensures io(CreateDirAll) && io(ImportSysModule) && io(GetSysModules) && io(CastToDict) && !AllStr(keys) ==>
              r == Failure("module name is not a str")
    ensures Collected(keys, io) && !io(CreateFile) ==> r == Failure("could not open file for writing")
    ensures file.Some? <==> Collected(keys, io) && io(CreateFile)
    ensures file.Some? ==> file.value.name == FilePrefix + uuid
    ensures file.Some? ==>
              file.value.content == Listing(NameSet(keys)[..WrittenCount(|NameSet(keys)|, io, 0)])
    ensures file.Some? ==> (r.Success? <==> WrittenCount(|NameSet(keys)|, io, 0) == |NameSet(keys)|)
    ensures file.Some? && r.Failure? ==> r.error == "could not write"
  {
    if !io(CreateDirAll) {
      return Failure("could not create directory for modules"), None;
    }
    var name := FilePrefix + uuid;
    if !io(ImportSysModule) {
      return Failure("could not obtain sys module"), None;
    }
    if !io(GetSysModules) {
      return Failure("could not obtain sys.modules"), None;
    }
    if !io(CastToDict) {
      return Failure("sys.modules is not a dict"), None;
    }
    var collected := CollectNames(keys);
    if collected.Failure? {
      return Failure(collected.error), None;
    }
    if !io(CreateFile) {
      return Failure("could not open file for writing"), None;
    }
    var content;
    r, content := WriteNames(collected.value, io);
    file := Some(WrittenFile(name, content));
  }

  /** `{"b", "a", "a", "c"}` in that order becomes "a\nb\nc\n". */
  lemma ListingExample()
    ensures Listing(NameSet([Str("b"), Str("a"), Str("a"), Str("c")])) == "a\nb\nc\n"
  {
    ExampleNames();
    assert ["a"][..0] == [];
    assert Listing(["a"]) == "a\n";
    assert ["a", "b"][..1] == ["a"];
    assert Listing(["a", "b"]) == "a\n" + "b" + "\n";
    assert ["a", "b", "c"][..2] == ["a", "b"];
  }

  lemma ExampleNames()
    ensures NameSet([Str("b"), Str("a"), Str("a"), Str("c")]) == ["a", "b", "c"]
  {
    var keys := [Str("b"), Str("a"), Str("a"), Str("c")];
    var names := ["a", "b", "c"];
    assert StrictlySorted(names) by {
      assert Below("a", "b") && Below("b", "c") && Below("a", "c");
    }
    assert forall y :: y in names <==> Str(y) in keys;
    SortedUnique(NameSet(keys), names);
  }
}
