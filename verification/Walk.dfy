/**
 The recursive listing of the drop folder (`_walk_files` of infra/sftp.py) over finite directory
 trees: it yields the path of every file exactly once and nothing else.
 */
module Walk {
  import opened Prelude
  import opened Paths

  // ---------------------------------------------------------------------------
  // Trees
  // ---------------------------------------------------------------------------

  datatype Tree = File(id: nat) | Directory(entries: seq<Entry>)

  /** What `listdir_attr` returns of one child. */
  datatype Entry = Entry(name: string, tree: Tree)

  /** A name as file systems allow it: not empty and without a slash. */
  predicate IsName(name: string) {
    name != "" && '/' !in name
  }

  /** In every directory the names are names and differ. */
  predicate WellNamed(entries: seq<Entry>) {
    && (forall i :: 0 <= i < |entries| ==> IsName(entries[i].name))
    && (forall i, j :: 0 <= i < j < |entries| ==> entries[i].name != entries[j].name)
    && (forall i :: 0 <= i < |entries| ==> entries[i].tree.Directory? ==> WellNamed(entries[i].tree.entries))
  }

  /** What lies at an address below a directory, if anything. */
  function Find(entries: seq<Entry>, address: seq<string>): Option<Tree> {
    if entries == [] || address == [] then None
    else if entries[0].name != address[0] then Find(entries[1..], address)
    else if |address| == 1 then Some(entries[0].tree)
    else if entries[0].tree.Directory? then Find(entries[0].tree.entries, address[1..])
    else None
  }

  /** `_walk_files`: files of the first entry, then those of the others. */
  function WalkFiles(directory: string, entries: seq<Entry>): seq<string>
    decreases entries
  {
    if entries == [] then []
    else
      var path := Join(directory, entries[0].name);
      (match entries[0].tree
       case Directory(children) => WalkFiles(path, children)
       case File(_) => [path])
      + WalkFiles(directory, entries[1..])
  }

  /** Opening a path: its first component is the directory, the others lead down the tree. */
  function Open(directory: string, entries: seq<Entry>, path: string): Option<Tree> {
    var parts := Split(path);
    if parts[0] == directory then Find(entries, parts[1..]) else None
  }

  // ---------------------------------------------------------------------------
  // Addresses
  // ---------------------------------------------------------------------------

  function Under(name: string, addresses: seq<seq<string>>): (r: seq<seq<string>>)
    ensures |r| == |addresses|
    ensures forall i :: 0 <= i < |r| ==> r[i] == [name] + addresses[i]
  {
    seq(|addresses|, i requires 0 <= i < |addresses| => [name] + addresses[i])
  }

  /** The addresses of all files, in the order of the walk. */
  function Addresses(entries: seq<Entry>): seq<seq<string>> {
    if entries == [] then [] else FirstAddresses(entries[0]) + Addresses(entries[1..])
  }

  function FirstAddresses(entry: Entry): seq<seq<string>> {
    match entry.tree
    case Directory(children) => Under(entry.name, Addresses(children))
    case File(_) => [[entry.name]]
  }

  /** The path that joining an address to a directory, name by name, makes. */
  function PathOf(directory: string, address: seq<string>): string
    decreases address
  {
    if address == [] then directory else PathOf(Join(directory, address[0]), address[1..])
  }

  /** Names with slashes between them. */
  function Glue(parts: seq<string>): string
    requires parts != []
  {
    if |parts| == 1 then parts[0] else parts[0] + ("/" + Glue(parts[1..]))
  }

  predicate IsAddress(address: seq<string>) {
    address != [] && forall i :: 0 <= i < |address| ==> IsName(address[i])
  }

  // ---------------------------------------------------------------------------
  // The walk follows the addresses
  // ---------------------------------------------------------------------------

  lemma PathUnder(directory: string, name: string, address: seq<string>)
    ensures PathOf(directory, [name] + address) == PathOf(Join(directory, name), address)
    ensures PathOf(directory, [name]) == Join(directory, name)
  {
    hide Join;
    assert ([name] + address)[1..] == address;
  }

  lemma {:induction false} WalkFollows(directory: string, entries: seq<Entry>)
    ensures |WalkFiles(directory, entries)| == |Addresses(entries)|
    ensures forall i :: 0 <= i < |Addresses(entries)| ==>
              WalkFiles(directory, entries)[i] == PathOf(directory, Addresses(entries)[i])
    decreases entries
  {
    hide Join;
    hide PathOf;
    if entries != [] {
      WalkFollows(directory, entries[1..]);
      var path := Join(directory, entries[0].name);
      match entries[0].tree
      case Directory(children) =>
        WalkFollows(path, children);
        forall i | 0 <= i < |Addresses(children)|
          ensures PathOf(directory, Under(entries[0].name, Addresses(children))[i]) == WalkFiles(path, children)[i]
        {
          PathUnder(directory, entries[0].name, Addresses(children)[i]);
        }
      case File(_) =>
        PathUnder(directory, entries[0].name, []);
    }
  }

  lemma {:induction false} AddressesAreNames(entries: seq<Entry>, i: nat)
    requires WellNamed(entries) && i < |Addresses(entries)|
    ensures IsAddress(Addresses(entries)[i])
  {
    var n := |FirstAddresses(entries[0])|;
    if i >= n {
      AddressesAreNames(entries[1..], i - n);
    } else if entries[0].tree.Directory? {
      AddressesAreNames(entries[0].tree.entries, i);
    }
  }

  /** Below the first entry the addresses start with its name, below the others with other names. */
  lemma {:induction false} LaterNames(entries: seq<Entry>, name: string, i: nat)
    requires WellNamed(entries) && i < |Addresses(entries)|
    requires forall k :: 0 <= k < |entries| ==> entries[k].name != name
    ensures Addresses(entries)[i] != [] && Addresses(entries)[i][0] != name
  {
    var n := |FirstAddresses(entries[0])|;
    if i >= n {
      LaterNames(entries[1..], name, i - n);
    }
  }

  /** Every address leads to a file. */
  lemma {:induction false} AddressesFindFiles(entries: seq<Entry>, i: nat)
    requires WellNamed(entries) && i < |Addresses(entries)|
    ensures Find(entries, Addresses(entries)[i]).Some? && Find(entries, Addresses(entries)[i]).value.File?
  {
    var n := |FirstAddresses(entries[0])|;
    if i >= n {
      AddressesFindFiles(entries[1..], i - n);
      LaterNames(entries[1..], entries[0].name, i - n);
    } else if entries[0].tree.Directory? {
      AddressesFindFiles(entries[0].tree.entries, i);
      AddressesAreNames(entries[0].tree.entries, i);
      var rest := Addresses(entries[0].tree.entries)[i];
      assert ([entries[0].name] + rest)[1..] == rest;
    }
  }

  /** Every file has its address in the list. */
  lemma {:induction false} FilesHaveAddresses(entries: seq<Entry>, address: seq<string>) returns (i: nat)
    requires Find(entries, address).Some? && Find(entries, address).value.File?
    ensures i < |Addresses(entries)| && Addresses(entries)[i] == address
  {
    if entries[0].name != address[0] {
      var k := FilesHaveAddresses(entries[1..], address);
      i := |FirstAddresses(entries[0])| + k;
    } else if |address| == 1 {
      i := 0;
      assert address == [entries[0].name];
    } else {
      i := FilesHaveAddresses(entries[0].tree.entries, address[1..]);
      assert address == [address[0]] + address[1..];
    }
  }

  /** No address is listed twice. */
  lemma {:induction false} AddressesDiffer(entries: seq<Entry>, i: nat, j: nat)
    requires WellNamed(entries) && i < j < |Addresses(entries)|
    ensures Addresses(entries)[i] != Addresses(entries)[j]
  {
    var n := |FirstAddresses(entries[0])|;
    if i >= n {
      AddressesDiffer(entries[1..], i - n, j - n);
    } else if j >= n {
      LaterNames(entries[1..], entries[0].name, j - n);
      assert Addresses(entries)[i][0] == entries[0].name;
    } else {
      AddressesDiffer(entries[0].tree.entries, i, j);
      var a, b := Addresses(entries[0].tree.entries)[i], Addresses(entries[0].tree.entries)[j];
      assert ([entries[0].name] + a)[1..] == a && ([entries[0].name] + b)[1..] == b;
    }
  }

  // ---------------------------------------------------------------------------
  // Paths and addresses
  // ---------------------------------------------------------------------------

  lemma GlueMore(first: string, parts: seq<string>)
    requires parts != []
    ensures Glue([first] + parts) == first + ("/" + Glue(parts))
  {
    assert ([first] + parts)[1..] == parts;
  }

  lemma Regroup(a: string, b: string, c: string, d: string)
    ensures ((a + (b + c)) + d) == a + (b + (c + d))
  {
  }

  /** Gluing a name to the first part is gluing it in front of it. */
  lemma GlueJoined(first: string, parts: seq<string>)
    requires parts != []
    ensures Glue([first + ("/" + parts[0])] + parts[1..]) == first + ("/" + Glue(parts))
  {
    var head := first + ("/" + parts[0]);
    if |parts| == 1 {
      assert [head] + parts[1..] == [head];
    } else {
      GlueMore(head, parts[1..]);
      GlueMore(parts[0], parts[1..]);
      assert parts == [parts[0]] + parts[1..];
      hide Glue;
      Regroup(first, "/", parts[0], "/" + Glue(parts[1..]));
    }
  }

  lemma {:induction false} PathIsGlued(directory: string, address: seq<string>)
    requires directory != "" && directory[|directory| - 1] != '/'
    requires forall i :: 0 <= i < |address| ==> IsName(address[i])
    ensures PathOf(directory, address) == Glue([directory] + address)
    decreases |address|
  {
    if address != [] {
      var path := Join(directory, address[0]);
      assert path == directory + ("/" + address[0]);
      assert address[0][|address[0]| - 1] in address[0];
      PathIsGlued(path, address[1..]);
      GlueJoined(directory, address);
      GlueMore(directory, address);
      hide Glue;
      hide Join;
    }
  }

  lemma {:induction false} SplitGlue(parts: seq<string>)
    requires parts != [] && forall i :: 0 <= i < |parts| ==> '/' !in parts[i]
    ensures Split(Glue(parts)) == parts
  {
    if |parts| == 1 {
      SplitWhole(parts[0]);
    } else {
      SplitGlue(parts[1..]);
      SplitFirst(parts[0], Glue(parts[1..]));
      assert parts == [parts[0]] + parts[1..];
    }
  }

  lemma {:induction false} GlueSplit(s: string)
    ensures Glue(Split(s)) == s
  {
    if s != [] {
      GlueSplit(s[1..]);
      var rest := Split(s[1..]);
      if s[0] == '/' {
        assert ([""] + rest)[1..] == rest;
        assert s == "/" + s[1..];
      } else {
        var parts := [[s[0]] + rest[0]] + rest[1..];
        assert parts[1..] == rest[1..];
        assert s == [s[0]] + s[1..];
        if |rest| > 1 {
          assert Glue(parts) == ([s[0]] + rest[0]) + ("/" + Glue(rest[1..]));
          assert Glue(rest) == rest[0] + ("/" + Glue(rest[1..]));
        }
      }
    }
  }

  lemma {:induction false} FindsNames(entries: seq<Entry>, address: seq<string>)
    requires WellNamed(entries) && Find(entries, address).Some?
    ensures IsAddress(address)
  {
    if entries[0].name != address[0] {
      FindsNames(entries[1..], address);
    } else if |address| > 1 {
      FindsNames(entries[0].tree.entries, address[1..]);
    }
  }

  // ---------------------------------------------------------------------------
  // The walk
  // ---------------------------------------------------------------------------

  /** Each yielded path leads back to a file, and no path is yielded twice. */
  lemma {:induction false} YieldsFilesOnce(directory: string, entries: seq<Entry>, i: nat, j: nat)
    requires IsName(directory) && WellNamed(entries)
    requires i < |WalkFiles(directory, entries)| && j < |WalkFiles(directory, entries)|
    ensures var found := Open(directory, entries, WalkFiles(directory, entries)[i]); found.Some? && found.value.File?
    ensures WalkFiles(directory, entries)[i] == WalkFiles(directory, entries)[j] ==> i == j
  {
    WalkFollows(directory, entries);
    SplitOfWalk(directory, entries, i);
    SplitOfWalk(directory, entries, j);
    AddressesFindFiles(entries, i);
    if i < j { AddressesDiffer(entries, i, j); }
    if j < i { AddressesDiffer(entries, j, i); }
  }

  lemma SplitOfWalk(directory: string, entries: seq<Entry>, i: nat)
    requires IsName(directory) && WellNamed(entries) && i < |Addresses(entries)|
    ensures i < |WalkFiles(directory, entries)|
    ensures Split(WalkFiles(directory, entries)[i]) == [directory] + Addresses(entries)[i]
  {
    WalkFollows(directory, entries);
    AddressesAreNames(entries, i);
    var parts := [directory] + Addresses(entries)[i];
    assert directory[|directory| - 1] in directory;
    PathIsGlued(directory, Addresses(entries)[i]);
    SplitGlue(parts);
  }

  /** Every path under which a file can be opened is yielded. */
  lemma {:induction false} YieldsEveryFile(directory: string, entries: seq<Entry>, path: string) returns (i: nat)
    requires IsName(directory) && WellNamed(entries)
    requires Open(directory, entries, path).Some? && Open(directory, entries, path).value.File?
    ensures i < |WalkFiles(directory, entries)| && WalkFiles(directory, entries)[i] == path
  {
    var address := Split(path)[1..];
    FindsNames(entries, address);
    i := FilesHaveAddresses(entries, address);
    WalkFollows(directory, entries);
    assert Split(path) == [directory] + address;
    assert directory[|directory| - 1] in directory;
    PathIsGlued(directory, address);
    GlueSplit(path);
  }

  /** A path is yielded exactly when it is the path of a file. */
  lemma {:induction false} WalkIsExact(directory: string, entries: seq<Entry>, path: string)
    requires IsName(directory) && WellNamed(entries)
    ensures path in WalkFiles(directory, entries)
            <==> Open(directory, entries, path).Some? && Open(directory, entries, path).value.File?
  {
    if path in WalkFiles(directory, entries) {
      var i :| 0 <= i < |WalkFiles(directory, entries)| && WalkFiles(directory, entries)[i] == path;
      YieldsFilesOnce(directory, entries, i, i);
    } else if Open(directory, entries, path).Some? && Open(directory, entries, path).value.File? {
      var _ := YieldsEveryFile(directory, entries, path);
    }
  }
}
