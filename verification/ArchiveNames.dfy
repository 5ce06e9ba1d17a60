/** The names of archive entries and uploads: how they are split, resolved and refused. */
module ArchiveNames {
  /** The segments of a path. */
  type Path = seq<string>

  /** `name.split('/')`: always at least one segment. */
  function Split(name: string): (segments: seq<string>)
    ensures segments != []
  {
    if name == "" then [""]
    else
      var rest := Split(name[1..]);
      if name[0] == '/' then [""] + rest else [[name[0]] + rest[0]] + rest[1..]
  }

  function Join(segments: seq<string>): string
    requires segments != []
  {
    if |segments| == 1 then segments[0] else segments[0] + "/" + Join(segments[1..])
  }

  /** Splitting is what undoes joining: the segments hold no slash and put together give the name. */
  lemma {:induction false} SplitJoin(name: string)
    ensures Join(Split(name)) == name
    ensures forall s :: s in Split(name) ==> '/' !in s
  {
    if name != "" {
      var rest := Split(name[1..]);
      SplitJoin(name[1..]);
      assert name == [name[0]] + name[1..];
      if name[0] == '/' {
        assert ([""] + rest)[1..] == rest;
        assert "" + "/" + Join(rest) == ['/'] + Join(rest);
      } else {
        assert rest[0] in rest;
        assert ([[name[0]] + rest[0]] + rest[1..])[1..] == rest[1..];
      }
    }
  }

  predicate IsLetter(c: char) {
    'a' <= c <= 'z' || 'A' <= c <= 'Z'
  }

  predicate Unsafe(name: string) {
    || '\0' in name
    || (name != "" && name[0] == '/')
    || (|name| >= 2 && IsLetter(name[0]) && name[1] == ':')
    || '\\' in name
    || ".." in Split(name)
  }

  predicate IsDirectory(name: string) {
    name != "" && name[|name| - 1] == '/'
  }

  /** How a path is resolved: empty and "." segments are dropped, ".." removes one. */
  function Resolve(base: Path, segments: seq<string>): Path
    decreases |segments|
  {
    if segments == [] then base
    else if segments[0] == "" || segments[0] == "." then Resolve(base, segments[1..])
    else if segments[0] == ".." then Resolve(if base == [] then [] else base[..|base| - 1], segments[1..])
    else Resolve(base + [segments[0]], segments[1..])
  }

  /** The final containment check. */
  predicate StrictlyUnder(dest: Path, target: Path) {
    dest < target
  }

  function Kept(segments: seq<string>): Path {
    if segments == [] then []
    else if segments[0] == "" || segments[0] == "." then Kept(segments[1..])
    else [segments[0]] + Kept(segments[1..])
  }

  lemma {:induction false} ResolveWithoutParents(base: Path, segments: seq<string>)
    requires ".." !in segments
    ensures Resolve(base, segments) == base + Kept(segments)
    decreases |segments|
  {
    if segments != [] {
      if segments[0] == "" || segments[0] == "." {
        ResolveWithoutParents(base, segments[1..]);
      } else {
        ResolveWithoutParents(base + [segments[0]], segments[1..]);
      }
    }
  }

  lemma {:induction false} KeptSegments(segments: seq<string>)
    ensures forall s :: s in Kept(segments) <==> s in segments && s != "" && s != "."
  {
    if segments != [] {
      KeptSegments(segments[1..]);
      assert segments == [segments[0]] + segments[1..];
    }
  }

  predicate SafeClientName(name: string) {
    && name != "" && name != "."
    && '\0' !in name && '/' !in name && '\\' !in name
    && forall i :: 0 <= i < |name| - 1 ==> !(name[i] == '.' && name[i + 1] == '.')
  }

  // ---- What the definitions above amount to ----------------------------------------

  lemma {:induction false} SplitPlain(name: string)
    requires '/' !in name
    ensures Split(name) == [name]
  {
    if name != "" {
      SplitPlain(name[1..]);
      assert [name[0]] + name[1..] == name;
    }
  }

  lemma {:induction false} SplitSlash(first: string, rest: string)
    requires '/' !in first
    ensures Split(first + "/" + rest) == [first] + Split(rest)
  {
    var name := first + "/" + rest;
    if first == "" {
      assert name[1..] == rest;
    } else {
      SplitSlash(first[1..], rest);
      assert name[1..] == first[1..] + "/" + rest;
      assert [name[0]] + first[1..] == first;
    }
  }

  /** ".." between slashes, or between a slash and an end of the name. */
  ghost predicate HasParentAt(name: string, i: nat) {
    && i + 2 <= |name| && name[i] == '.' && name[i + 1] == '.'
    && (i == 0 || name[i - 1] == '/') && (i + 2 == |name| || name[i + 2] == '/')
  }

  ghost predicate HasParent(name: string) {
    exists i: nat :: HasParentAt(name, i)
  }

  lemma PlainParent(name: string)
    requires '/' !in name
    ensures HasParent(name) <==> name == ".."
  {
    if HasParent(name) {
      var i: nat :| HasParentAt(name, i);
      assert i == 0 && |name| == 2;
      assert name == [name[0], name[1]];
    }
    if name == ".." {
      assert HasParentAt(name, 0);
    }
  }

  lemma ParentInFirstOrRest(first: string, rest: string)
    requires '/' !in first
    ensures HasParent(first + "/" + rest) <==> first == ".." || HasParent(rest)
  {
    var name := first + "/" + rest;
    var n := |first| + 1;
    assert forall k :: n <= k < |name| ==> name[k] == rest[k - n];
    if HasParent(name) {
      var i: nat :| HasParentAt(name, i);
      if i < n {
        assert i + 2 <= |first| && i == 0 && |first| == 2;
        assert first == [first[0], first[1]];
      } else {
        assert HasParentAt(rest, i - n);
      }
    }
    if first == ".." {
      assert HasParentAt(name, 0);
    }
    if HasParent(rest) {
      var i: nat :| HasParentAt(rest, i);
      assert HasParentAt(name, i + n);
    }
  }

  lemma {:induction false} JoinHasParentIff(segments: seq<string>)
    requires segments != [] && forall s :: s in segments ==> '/' !in s
    ensures HasParent(Join(segments)) <==> ".." in segments
  {
    if |segments| == 1 {
      PlainParent(segments[0]);
    } else {
      ParentInFirstOrRest(segments[0], Join(segments[1..]));
      JoinHasParentIff(segments[1..]);
      assert segments == [segments[0]] + segments[1..];
    }
  }

  /** Said without splitting the name: it is absolute, names a drive or a parent, or has a backslash or NUL. */
  ghost predicate Escapes(name: string) {
    || (exists i :: 0 <= i < |name| && (name[i] == '\0' || name[i] == '\\'))
    || (|name| > 0 && name[0] == '/')
    || (|name| > 1 && name[1] == ':' && ('a' <= name[0] <= 'z' || 'A' <= name[0] <= 'Z'))
    || HasParent(name)
  }

  lemma UnsafeIff(name: string)
    ensures Unsafe(name) <==> Escapes(name)
  {
    SplitJoin(name);
    JoinHasParentIff(Split(name));
  }

  /** A name of a single path segment that is neither "." nor contains two dots in a row. */
  ghost predicate ProperFileName(name: string) {
    && |name| > 0 && name != "."
    && (forall i :: 0 <= i < |name| ==> name[i] !in {'\0', '/', '\\'})
    && (forall i :: 0 < i < |name| && name[i] == '.' ==> name[i - 1] != '.')
  }

  lemma ClientNameIff(name: string)
    ensures SafeClientName(name) <==> ProperFileName(name)
  {
    if ProperFileName(name) {
      forall i | 0 <= i < |name| - 1
        ensures !(name[i] == '.' && name[i + 1] == '.')
      {
        assert name[i + 1] == '.' ==> name[i + 1 - 1] != '.';
      }
    }
  }

  /** A name whose segments are neither empty nor "." is where it says. */
  lemma {:induction false} KeptAll(segments: seq<string>)
    requires "" !in segments && "." !in segments
    ensures Kept(segments) == segments
  {
    if segments != [] {
      KeptAll(segments[1..]);
      assert segments == [segments[0]] + segments[1..];
    }
  }

  lemma NameIsItsPath(name: string)
    requires "" !in Split(name) && "." !in Split(name)
    ensures Kept(Split(name)) != [] && Join(Kept(Split(name))) == name
  {
    KeptAll(Split(name));
    SplitJoin(name);
  }
}
