/** Moving the file a grader left beside results.json to where it can be downloaded from. */
module PayloadMove {
  import opened Basics

  type Name = string
  type Bytes = seq<int>

  datatype Node = File(bytes: Bytes) | Directory

  const RESULTS_JSON_NAME := "results.json"
  const MAX_PAYLOAD_FILENAME_LENGTH := 255
  const MAX_PAYLOAD_PATH_LENGTH := 500

  datatype Extracted = Extracted(name: Name, size: nat)

  datatype Rename = Renamed | CrossDevice | RenameFailed

  /**
   * What the file system does. `listing` is the order in which the output directory is read, if it
   * can be; a failed copy leaves `partial` behind, if anything. Removing a file always works.
   */
  datatype Disk = Disk(
    listing: Option<seq<Name>>,
    unreadable: set<Name>,
    mkdir: bool,
    rename: Rename,
    copy: bool,
    partial: Option<Bytes>,
    unlink: bool)

  predicate Candidate(output: map<Name, Node>, unreadable: set<Name>, n: Name) {
    n in output && output[n].File? && n != RESULTS_JSON_NAME && n !in unreadable
  }

  /** The first of the largest candidates, in the order of the listing. */
  function Choice(output: map<Name, Node>, unreadable: set<Name>, listing: seq<Name>): (r: Option<Name>)
    ensures r.Some? ==> Candidate(output, unreadable, r.value)
  {
    if listing == [] then None
    else
      var best, last := Choice(output, unreadable, listing[..|listing| - 1]), listing[|listing| - 1];
      if Candidate(output, unreadable, last) && (best.None? || |output[last].bytes| > |output[best.value].bytes|)
      then Some(last)
      else best
  }

  lemma {:induction false} ChoiceIsLargest(output: map<Name, Node>, unreadable: set<Name>, listing: seq<Name>)
    ensures var r := Choice(output, unreadable, listing);
            && (r.Some? ==> r.value in listing)
            && forall n :: n in listing && Candidate(output, unreadable, n) ==>
                 r.Some? && |output[n].bytes| <= |output[r.value].bytes|
  {
    if listing != [] {
      var front := listing[..|listing| - 1];
      ChoiceIsLargest(output, unreadable, front);
      assert listing == front + [listing[|listing| - 1]];
    }
  }

  /** Of several largest candidates the one listed first is chosen. */
  lemma {:induction false} ChoiceIsFirst(output: map<Name, Node>, unreadable: set<Name>, listing: seq<Name>)
    returns (at: nat)
    requires Choice(output, unreadable, listing).Some?
    ensures at < |listing| && listing[at] == Choice(output, unreadable, listing).value
    ensures forall k :: 0 <= k < at && Candidate(output, unreadable, listing[k]) ==>
              |output[listing[k]].bytes| < |output[listing[at]].bytes|
  {
    var n := |listing| - 1;
    var front := listing[..n];
    var before := Choice(output, unreadable, front);
    if Choice(output, unreadable, listing) == before {
      at := ChoiceIsFirst(output, unreadable, front);
    } else {
      at := n;
      ChoiceIsLargest(output, unreadable, front);
      assert forall k :: 0 <= k < n ==> listing[k] in front;
    }
  }

  /** The chosen file may be stored: within the size limit, and its name and path fit their columns. */
  predicate Storable(n: Name, size: nat, maxBytes: real, dirLength: nat) {
    size as real <= maxBytes && |n| <= MAX_PAYLOAD_FILENAME_LENGTH && dirLength + 1 + |n| <= MAX_PAYLOAD_PATH_LENGTH
  }

  predicate Moves(disk: Disk) {
    disk.mkdir && (disk.rename.Renamed? || (disk.rename.CrossDevice? && disk.copy && disk.unlink))
  }

  /**
   * On success the chosen file is at its destination with its bytes and no longer in the output
   * directory; otherwise the output directory is untouched. `dirLength` is the length of the
   * path of the payload directory.
   */
  method ExtractPayloadFile(output: map<Name, Node>, store: map<Name, Node>, disk: Disk, maxBytes: real, dirLength: nat)
    returns (r: Option<Extracted>, output': map<Name, Node>, store': map<Name, Node>)
    requires disk.listing.Some? ==> forall n :: n in disk.listing.value <==> n in output
    ensures r.Some? <==>
              && disk.listing.Some?
              && var choice := Choice(output, disk.unreadable, disk.listing.value);
                 && choice.Some? && |output[choice.value].bytes| as real <= maxBytes
                 && |choice.value| <= 255 && dirLength + 1 + |choice.value| <= 500
                 && disk.mkdir && (disk.rename.Renamed? || (disk.rename.CrossDevice? && disk.copy && disk.unlink))
    ensures disk.listing.Some? ==>
              (Choice(output, disk.unreadable, disk.listing.value).Some? <==>
                 exists n :: n in output && output[n].File? && n != "results.json" && n !in disk.unreadable)
    ensures r.Some? ==>
              && r.value.name in output && output[r.value.name].File? && r.value.name != "results.json"
              && r.value.name !in disk.unreadable
              && forall n :: n in output && output[n].File? && n != "results.json" && n !in disk.unreadable ==>
                   |output[n].bytes| <= r.value.size
    ensures r.Some? ==>
              && Some(r.value.name) == Choice(output, disk.unreadable, disk.listing.value)
              && Candidate(output, disk.unreadable, r.value.name)
              && (forall n :: Candidate(output, disk.unreadable, n) ==> |output[n].bytes| <= r.value.size)
              && r.value.size == |output[r.value.name].bytes| && r.value.size as real <= maxBytes
              && output' == output - {r.value.name}
              && store' == store[r.value.name := output[r.value.name]]
    ensures r.None? ==> output' == output
    ensures r.None? ==> forall n :: n in store' ==> n in store && store'[n] == store[n]
    ensures r.None? && !disk.rename.CrossDevice? ==> store' == store
  {
    r, output', store' := None, output, store;
    if disk.listing.None? {
      return;
    }
    var listing := disk.listing.value;
    var chosen: Option<Name> := None;
    for i := 0 to |listing|
      invariant chosen == Choice(output, disk.unreadable, listing[..i])
    {
      assert listing[..i + 1][..i] == listing[..i];
      var n := listing[i];
      if Candidate(output, disk.unreadable, n) {
        if chosen.None? || |output[n].bytes| > |output[chosen.value].bytes| {
          chosen := Some(n);
        }
      }
    }
    assert listing[..|listing|] == listing;
    ChoiceIsLargest(output, disk.unreadable, listing);
    if chosen.None? {
      return;
    }
    ChoiceIsLargest(output, disk.unreadable, listing);
    var name, bytes := chosen.value, output[chosen.value].bytes;
    if |bytes| as real > maxBytes {
      return;
    }
    if |name| > MAX_PAYLOAD_FILENAME_LENGTH {
      return;
    }
    if dirLength + 1 + |name| > MAX_PAYLOAD_PATH_LENGTH {
      return;
    }
    if !disk.mkdir {
      return;
    }
    match disk.rename {
      case Renamed =>
        store' := store[name := File(bytes)];
        output' := output - {name};
      case CrossDevice =>
        if disk.copy {
          store' := store[name := File(bytes)];
        } else if disk.partial.Some? {
          store' := store[name := File(disk.partial.value)];
        }
        if !disk.copy || !disk.unlink {
          store' := store' - {name};
          return;
        }
        output' := output - {name};
      case RenameFailed =>
        return;
    }
    r := Some(Extracted(name, |bytes|));
  }

  function Files(dir: map<Name, Node>): set<Name> {
    set n | n in dir && dir[n].File?
  }

  /** The download finds the payload only if it is the one file of the directory. */
  method GetPayloadFile(store: map<Name, Node>) returns (r: Option<Name>)
    ensures r.Some? <==> |Files(store)| == 1
    ensures r.Some? ==> Files(store) == {r.value}
  {
    var files := set n | n in store && store[n].File?;
    if |files| != 1 {
      return None;
    }
    var n :| n in files;
    assert |files - {n}| == 0;
    return Some(n);
  }

  /**
   * A payload just stored is the one that is found exactly when the directory held no file of
   * another name: what an earlier, abandoned run of the same job has left there hides both.
   */
  lemma StoredPayloadIsFoundIff(store: map<Name, Node>, name: Name, bytes: Bytes)
    ensures |Files(store[name := File(bytes)])| == 1 <==> Files(store) <= {name}
  {
    var after := store[name := File(bytes)];
    assert Files(after) == Files(store) + {name};
    if Files(store) <= {name} {
      assert Files(after) == {name};
    } else {
      var other :| other in Files(store) && other != name;
      TwoOrMore(Files(after), name, other);
    }
  }

  /** Two runs of a job that leave payloads of different names: both are stored, and none is found. */
  method TwoPayloadsHideEachOther() returns (first: Option<Extracted>, second: Option<Extracted>, found: Option<Name>)
    ensures first == Some(Extracted("a.txt", 1)) && second == Some(Extracted("b.txt", 1)) && found == None
  {
    var one, other := map["a.txt" := File([1])], map["b.txt" := File([2])];
    var rest, store;
    first, rest, store := ExtractPayloadFile(one, map[], Works("a.txt"), 10.0, 20);
    second, rest, store := ExtractPayloadFile(other, store, Works("b.txt"), 10.0, 20);
    TwoOrMore(Files(store), "a.txt", "b.txt");
    found := GetPayloadFile(store);
  }

  /** A file system on which everything works, with one file in the output directory. */
  function Works(n: Name): Disk {
    Disk(Some([n]), {}, true, Renamed, true, None, true)
  }

  lemma TwoOrMore(s: set<Name>, a: Name, b: Name)
    requires a in s && b in s && a != b
    ensures |s| >= 2
  {
    assert b in s - {a};
    assert s == (s - {a}) + {a};
  }
}
