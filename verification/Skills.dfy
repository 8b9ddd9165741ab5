/** Files bundled with a skill (`src/skills.rs`): the directory walk with its work stack, and the path
    predicate it must agree with. */
module Skills {
  import opened Text

  /** A file name; `Opaque` is one that is not valid UTF-8. */
  datatype Name = Utf8(text: string) | Opaque(id: nat)

  /** `Special` is anything that is neither a regular file nor a directory, as a symbolic link. */
  datatype Node = Regular(bytes: nat) | Directory(entries: seq<Entry>) | Special

  datatype Entry = Entry(name: Name, node: Node)

  datatype SkillFile = SkillFile(path: string, bytes: nat)

  const MAX_SKILL_FILES: nat := 200
  const SKILL_MD: string := "SKILL.md"

  predicate IsExcludedDirName(name: string) {
    name in [".git", ".gradle", "node_modules", "target", "build", "dist"]
  }

  predicate IsHidden(name: string) {
    |name| > 0 && name[0] == '.'
  }

  /** `replace('\\', "/")` on one name. */
  function Clean(name: string): (r: string)
    ensures |r| == |name|
    ensures '\\' !in name ==> r == name
  {
    if |name| == 0 then [] else [if name[0] == '\\' then '/' else name[0]] + Clean(name[1..])
  }

  /** Backslashes become slashes, and nothing else changes. */
  lemma {:induction false} CleanAt(name: string, i: nat)
    requires i < |name|
    ensures Clean(name)[i] == if name[i] == '\\' then '/' else name[i]
  {
    if i > 0 { CleanAt(name[1..], i - 1); }
  }

  // ---------------------------------------------------------------- the path predicate

  /** Component of a requested path; `Jump` is the root, a prefix or a parent step. */
  datatype Component = Normal(name: Name) | Jump

  /** No hidden or unreadable name, and no excluded directory on the way down. */
  predicate IsServed(path: seq<Component>) {
    |path| == 0 ||
    (path[0].Normal? && path[0].name.Utf8? && !IsHidden(path[0].name.text) &&
     (|path| > 1 ==> !IsExcludedDirName(path[0].name.text)) && IsServed(path[1..]))
  }

  /** The same, place by place. */
  ghost predicate MayServe(path: seq<Component>) {
    forall i :: 0 <= i < |path| ==>
      path[i].Normal? && path[i].name.Utf8? &&
      !(path[i].name.text != "" && path[i].name.text[0] == '.') &&
      (i + 1 < |path| ==>
        path[i].name.text !in {".git", ".gradle", "node_modules", "target", "build", "dist"})
  }

  lemma {:induction false} ServedIff(path: seq<Component>)
    ensures IsServed(path) <==> MayServe(path)
  {
    if |path| > 0 {
      ServedIff(path[1..]);
      forall i | 0 < i < |path| ensures path[1..][i - 1] == path[i] {
      }
    }
  }

  method IsServedRelativePath(path: seq<Component>) returns (served: bool)
    ensures served <==> IsServed(path)
    ensures served <==> MayServe(path)
  {
    hide IsExcludedDirName, IsHidden, MayServe;
    ServedIff(path);
    for i := 0 to |path|
      invariant IsServed(path) <==> IsServed(path[i..])
    {
      var component := path[i];
      assert path[i..][1..] == path[i + 1..];
      if component.Jump? { return false; }
      if component.name.Opaque? { return false; }
      if IsHidden(component.name.text) { return false; }
      if i + 1 < |path| && IsExcludedDirName(component.name.text) { return false; }
    }
    return true;
  }

  function Components(names: seq<string>): seq<Component> {
    if |names| == 0 then [] else [Normal(Utf8(names[0]))] + Components(names[1..])
  }

  // ---------------------------------------------------------------- the files of a tree

  /** What the path leads to below a directory: the size of a regular file. */
  function FileAt(entries: seq<Entry>, names: seq<string>): Option<nat>
    decreases |names|
  {
    if |names| == 0 then None
    else
      match Lookup(entries, names[0])
      case Some(Regular(bytes)) => if |names| == 1 then Some(bytes) else None
      case Some(Directory(children)) => FileAt(children, names[1..])
      case _ => None
  }

  function Lookup(entries: seq<Entry>, name: string): Option<Node> {
    if |entries| == 0 then None
    else if entries[0].name == Utf8(name) then Some(entries[0].node)
    else Lookup(entries[1..], name)
  }

  /** Names of one directory differ, are not empty and hold no slash. */
  predicate IsTree(entries: seq<Entry>)
    decreases entries
  {
    |entries| == 0 ||
    (IsTreeEntry(entries[0]) && (forall j :: 0 < j < |entries| ==> entries[j].name != entries[0].name) &&
      IsTree(entries[1..]))
  }

  predicate IsTreeEntry(entry: Entry)
    decreases entry
  {
    IsFileName(entry.name) && (entry.node.Directory? ==> IsTree(entry.node.entries))
  }

  predicate IsFileName(name: Name) {
    name.Utf8? ==> name.text != "" && '/' !in name.text
  }

  /** The path as it is listed. */
  function PathText(names: seq<string>): string {
    if |names| == 0 then "" else if |names| == 1 then Clean(names[0]) else Clean(names[0]) + "/" + PathText(names[1..])
  }

  /** Without backslashes the names joined by slashes. */
  lemma {:induction false} PathTextJoins(names: seq<string>)
    requires forall i :: 0 <= i < |names| ==> '\\' !in names[i]
    ensures PathText(names) == Join(names, "/")
  {
    if |names| > 1 { PathTextJoins(names[1..]); }
  }

  /** The file at `names` belongs to the listing. */
  ghost predicate IsListed(root: seq<Entry>, names: seq<string>) {
    FileAt(root, names).Some? && IsServed(Components(names)) && names != ["SKILL.md"]
  }

  // ---------------------------------------------------------------- the listing, directory by directory

  /** Regular and shown, and not the skill's own description. */
  predicate ListsFile(entry: Entry, isRoot: bool) {
    entry.name.Utf8? && !IsHidden(entry.name.text) && entry.node.Regular? && !(isRoot && entry.name.text == SKILL_MD)
  }

  predicate Descends(entry: Entry) {
    entry.name.Utf8? && !IsHidden(entry.name.text) && entry.node.Directory? && !IsExcludedDirName(entry.name.text)
  }

  function Below(prefix: string, entry: Entry): string
    requires entry.name.Utf8?
  {
    prefix + Clean(entry.name.text) + "/"
  }

  function EntryListing(entry: Entry, prefix: string, isRoot: bool): multiset<SkillFile>
    decreases entry
  {
    if ListsFile(entry, isRoot) then multiset{SkillFile(prefix + Clean(entry.name.text), entry.node.bytes)}
    else if Descends(entry) then Listing(entry.node.entries, Below(prefix, entry), false)
    else multiset{}
  }

  function Listing(entries: seq<Entry>, prefix: string, isRoot: bool): multiset<SkillFile>
    decreases entries
  {
    if |entries| == 0 then multiset{}
    else EntryListing(entries[0], prefix, isRoot) + Listing(entries[1..], prefix, isRoot)
  }

  // ---------------------------------------------------------------- sorting

  predicate AtMost(a: string, b: string) {
    |a| == 0 || (|b| > 0 && (a[0] < b[0] || (a[0] == b[0] && AtMost(a[1..], b[1..]))))
  }

  /** `a` is the start of `b`, or smaller where they first differ. */
  ghost predicate Precedes(a: string, b: string) {
    a <= b || exists i :: 0 <= i < |a| && i < |b| && a[..i] == b[..i] && a[i] < b[i]
  }

  lemma {:induction false} AtMostPrecedes(a: string, b: string)
    requires AtMost(a, b)
    ensures Precedes(a, b)
  {
    if |a| > 0 && a[0] == b[0] {
      AtMostPrecedes(a[1..], b[1..]);
      assert a == [a[0]] + a[1..] && b == [b[0]] + b[1..];
      if i :| 0 <= i < |a[1..]| && i < |b[1..]| && a[1..][..i] == b[1..][..i] && a[1..][i] < b[1..][i] {
        assert a[..i + 1] == [a[0]] + a[1..][..i] && b[..i + 1] == [b[0]] + b[1..][..i];
        assert a[i + 1] < b[i + 1];
      }
    } else if |a| > 0 {
      assert a[..0] == b[..0] && a[0] < b[0];
    }
  }

  lemma SortedPrecede(files: seq<SkillFile>)
    requires IsSorted(files)
    ensures forall i, j :: 0 <= i < j < |files| ==> Precedes(files[i].path, files[j].path)
  {
    hide AtMost, Precedes;
    forall i, j | 0 <= i < j < |files| ensures Precedes(files[i].path, files[j].path) {
      AtMostPrecedes(files[i].path, files[j].path);
    }
  }

  lemma {:induction false} AtMostTotal(a: string, b: string)
    ensures AtMost(a, b) || AtMost(b, a)
  {
    if |a| > 0 && |b| > 0 { AtMostTotal(a[1..], b[1..]); }
  }

  lemma {:induction false} AtMostTransitive(a: string, b: string, c: string)
    requires AtMost(a, b) && AtMost(b, c)
    ensures AtMost(a, c)
  {
    if |a| > 0 && |b| > 0 && |c| > 0 && a[0] == b[0] == c[0] { AtMostTransitive(a[1..], b[1..], c[1..]); }
  }

  predicate IsSorted(files: seq<SkillFile>) {
    forall i, j :: 0 <= i < j < |files| ==> AtMost(files[i].path, files[j].path)
  }

  function Insert(file: SkillFile, files: seq<SkillFile>): (r: seq<SkillFile>)
    ensures multiset(r) == multiset(files) + multiset{file}
  {
    if |files| == 0 then [file]
    else if AtMost(file.path, files[0].path) then [file] + files
    else
      assert files == [files[0]] + files[1..];
      [files[0]] + Insert(file, files[1..])
  }

  /** `sort_by` on the path. */
  function SortByPath(files: seq<SkillFile>): (r: seq<SkillFile>)
    ensures multiset(r) == multiset(files)
  {
    if |files| == 0 then [] else
      assert files == [files[0]] + files[1..];
      Insert(files[0], SortByPath(files[1..]))
  }

  lemma {:induction false} InsertKeepsSorted(file: SkillFile, files: seq<SkillFile>)
    requires IsSorted(files)
    ensures IsSorted(Insert(file, files))
  {
    hide AtMost;
    if |files| > 0 {
      if AtMost(file.path, files[0].path) {
        var r := [file] + files;
        forall j | 0 < j < |r| ensures AtMost(file.path, r[j].path) {
          if j > 1 { AtMostTransitive(file.path, files[0].path, r[j].path); }
        }
      } else {
        var tail := Insert(file, files[1..]);
        InsertKeepsSorted(file, files[1..]);
        AtMostTotal(file.path, files[0].path);
        forall j | 0 <= j < |tail| ensures AtMost(files[0].path, tail[j].path) {
          assert tail[j] in multiset(tail);
          if tail[j] != file {
            assert tail[j] in multiset(files[1..]);
            assert tail[j] in files[1..];
          }
        }
      }
    }
  }

  lemma {:induction false} SortIsSorted(files: seq<SkillFile>)
    ensures IsSorted(SortByPath(files))
  {
    hide IsSorted, Insert;
    if |files| > 0 {
      SortIsSorted(files[1..]);
      InsertKeepsSorted(files[0], SortByPath(files[1..]));
    } else {
      assert IsSorted([]) by { NothingSorted(); }
    }
  }

  lemma NothingSorted()
    ensures IsSorted([])
  {
  }

  // ---------------------------------------------------------------- the walk

  /** A directory still to be read. */
  datatype Pending = Pending(prefix: string, entries: seq<Entry>, isRoot: bool)

  function PendingListing(pending: seq<Pending>): multiset<SkillFile> {
    if |pending| == 0 then multiset{}
    else
      var p := pending[|pending| - 1];
      PendingListing(pending[..|pending| - 1]) + Listing(p.entries, p.prefix, p.isRoot)
  }

  function EntryWeight(entry: Entry): nat
    decreases entry
  {
    1 + if entry.node.Directory? then Weight(entry.node.entries) else 0
  }

  function Weight(entries: seq<Entry>): nat
    decreases entries
  {
    if |entries| == 0 then 0 else EntryWeight(entries[0]) + Weight(entries[1..])
  }

  lemma WeightStep(entries: seq<Entry>)
    requires |entries| > 0
    ensures Weight(entries[1..]) < Weight(entries)
    ensures entries[0].node.Directory? ==> Weight(entries[0].node.entries) < Weight(entries)
  {
    EntryIs(entries[0], "", false);
  }

  function PendingWeight(pending: seq<Pending>): nat {
    if |pending| == 0 then 0 else PendingWeight(pending[..|pending| - 1]) + 1 + Weight(pending[|pending| - 1].entries)
  }

  lemma Push(pending: seq<Pending>, p: Pending)
    ensures PendingListing(pending + [p]) == PendingListing(pending) + Listing(p.entries, p.prefix, p.isRoot)
    ensures PendingWeight(pending + [p]) == PendingWeight(pending) + 1 + Weight(p.entries)
  {
    assert (pending + [p])[..|pending|] == pending;
  }

  lemma NextEntry(entries: seq<Entry>, k: nat, prefix: string, isRoot: bool)
    requires k < |entries|
    ensures Listing(entries[k..], prefix, isRoot) ==
      EntryListing(entries[k], prefix, isRoot) + Listing(entries[k + 1..], prefix, isRoot)
    ensures Weight(entries[k..]) == EntryWeight(entries[k]) + Weight(entries[k + 1..])
  {
    assert entries[k..][1..] == entries[k + 1..];
  }

  /** The inner loop: one directory is read, its files are taken and its directories pushed. */
  method ReadDirectory(current: Pending, before: seq<Pending>, listed: seq<SkillFile>)
    returns (pending: seq<Pending>, files: seq<SkillFile>)
    ensures multiset(files) + PendingListing(pending) ==
      multiset(listed) + PendingListing(before) + Listing(current.entries, current.prefix, current.isRoot)
    ensures PendingWeight(pending) <= PendingWeight(before) + Weight(current.entries)
  {
    hide Listing, EntryListing, Weight, EntryWeight, PendingListing, PendingWeight, IsHidden, IsExcludedDirName,
      Below, Clean;
    pending, files := before, listed;
    assert current.entries[0..] == current.entries;
    for k := 0 to |current.entries|
      invariant multiset(files) + PendingListing(pending) +
        Listing(current.entries[k..], current.prefix, current.isRoot) ==
        multiset(listed) + PendingListing(before) + Listing(current.entries, current.prefix, current.isRoot)
      invariant PendingWeight(pending) + Weight(current.entries[k..]) <= PendingWeight(before) + Weight(current.entries)
    {
      var entry := current.entries[k];
      NextEntry(current.entries, k, current.prefix, current.isRoot);
      EntryIs(entry, current.prefix, current.isRoot);
      if entry.name.Opaque? { continue; }
      if IsHidden(entry.name.text) { continue; }
      if entry.node.Directory? {
        if !IsExcludedDirName(entry.name.text) {
          Push(pending, Pending(Below(current.prefix, entry), entry.node.entries, false));
          pending := pending + [Pending(Below(current.prefix, entry), entry.node.entries, false)];
        }
      } else if entry.node.Regular? && !(current.isRoot && entry.name.text == SKILL_MD) {
        files := files + [SkillFile(current.prefix + Clean(entry.name.text), entry.node.bytes)];
      }
    }
    assert current.entries[|current.entries|..] == [];
    Nothing(current.prefix, current.isRoot);
  }

  /** The work-stack walk of `list_skill_files` before it sorts: it ends, and finds exactly the files of
      the recursive listing, each as often as it is there. */
  method Walk(root: seq<Entry>) returns (files: seq<SkillFile>)
    ensures multiset(files) == Listing(root, "", true)
  {
    hide Listing, Weight, PendingListing, PendingWeight;
    files := [];
    var pending := [Pending("", root, true)];
    Push([], Pending("", root, true));
    assert [] + [Pending("", root, true)] == pending;
    Nothing("", true);
    while |pending| > 0
      invariant multiset(files) + PendingListing(pending) == Listing(root, "", true)
      decreases PendingWeight(pending)
    {
      var current := pending[|pending| - 1];
      Push(pending[..|pending| - 1], current);
      assert pending == pending[..|pending| - 1] + [current];
      pending, files := ReadDirectory(current, pending[..|pending| - 1], files);
    }
    Nothing("", true);
  }

  lemma Nothing(prefix: string, isRoot: bool)
    ensures Listing([], prefix, isRoot) == multiset{} && Weight([]) == 0
    ensures PendingListing([]) == multiset{} && PendingWeight([]) == 0
  {
  }

  lemma EntryIs(entry: Entry, prefix: string, isRoot: bool)
    ensures EntryListing(entry, prefix, isRoot) ==
      (if ListsFile(entry, isRoot) then multiset{SkillFile(prefix + Clean(entry.name.text), entry.node.bytes)}
       else if Descends(entry) then Listing(entry.node.entries, Below(prefix, entry), false)
       else multiset{})
    ensures EntryWeight(entry) == 1 + if entry.node.Directory? then Weight(entry.node.entries) else 0
  {
  }

  /** `list_skill_files`: the first 200 files in the order of their paths. */
  method ListSkillFiles(root: seq<Entry>) returns (files: seq<SkillFile>)
    ensures IsSorted(files) && |files| <= 200
    ensures forall i, j :: 0 <= i < j < |files| ==> Precedes(files[i].path, files[j].path)
    ensures exists all ::
      multiset(all) == Listing(root, "", true) && IsSorted(all) && files <= all &&
      (files == all || |files| == 200)
  {
    hide Listing, AtMost, SortByPath, Precedes;
    var found := Walk(root);
    var sorted := SortByPath(found);
    SortIsSorted(found);
    files := if |sorted| > MAX_SKILL_FILES then sorted[..MAX_SKILL_FILES] else sorted;
    assert multiset(sorted) == Listing(root, "", true) && IsSorted(sorted) && files <= sorted;
    SortedPrecede(files);
  }

  // ---------------------------------------------------------------- the walk agrees with the path predicate

  ghost predicate IsListedBelow(entries: seq<Entry>, names: seq<string>, isRoot: bool) {
    FileAt(entries, names).Some? && IsServed(Components(names)) && !(isRoot && names == [SKILL_MD])
  }

  lemma ComponentsCons(name: string, rest: seq<string>)
    ensures Components([name] + rest) == [Normal(Utf8(name))] + Components(rest)
    ensures IsServed(Components([name] + rest)) <==>
      !IsHidden(name) && (|rest| > 0 ==> !IsExcludedDirName(name)) && IsServed(Components(rest))
  {
    hide IsHidden, IsExcludedDirName;
    assert ([name] + rest)[1..] == rest;
    var all := Components([name] + rest);
    assert all[1..] == Components(rest);
    ComponentsLength(rest);
  }

  lemma {:induction false} ComponentsLength(names: seq<string>)
    ensures |Components(names)| == |names|
  {
    if |names| > 0 { ComponentsLength(names[1..]); }
  }

  lemma {:induction false} LookupIn(entries: seq<Entry>, name: string) returns (i: nat)
    requires Lookup(entries, name).Some?
    ensures i < |entries| && entries[i] == Entry(Utf8(name), Lookup(entries, name).value)
  {
    if entries[0].name == Utf8(name) {
      i := 0;
    } else {
      i := LookupIn(entries[1..], name);
      i := i + 1;
    }
  }

  /** In a directory the first entry does not shadow the others. */
  lemma FileAtRest(entries: seq<Entry>, names: seq<string>)
    requires |entries| > 0 && IsTree(entries) && FileAt(entries[1..], names).Some?
    ensures FileAt(entries, names) == FileAt(entries[1..], names) && entries[0].name != Utf8(names[0])
  {
    var i := LookupIn(entries[1..], names[0]);
    assert entries[i + 1].name == Utf8(names[0]);
  }

  lemma FileAtCons(entries: seq<Entry>, name: string, rest: seq<string>)
    requires |entries| > 0 && entries[0].name == Utf8(name) && entries[0].node.Directory? && |rest| > 0
    ensures FileAt(entries, [name] + rest) == FileAt(entries[0].node.entries, rest)
    ensures PathText([name] + rest) == Clean(name) + "/" + PathText(rest)
  {
    hide Clean;
    assert ([name] + rest)[1..] == rest;
  }

  /** Everything in the listing is a regular file that the predicate accepts. */
  lemma {:induction false} ListedIsServed(entries: seq<Entry>, prefix: string, isRoot: bool, f: SkillFile)
    returns (names: seq<string>)
    requires IsTree(entries) && f in Listing(entries, prefix, isRoot)
    ensures IsListedBelow(entries, names, isRoot)
    ensures f == SkillFile(prefix + PathText(names), FileAt(entries, names).value)
    decreases Weight(entries)
  {
    hide IsHidden, IsExcludedDirName, Clean, IsServed, Weight;
    var entry := entries[0];
    WeightStep(entries);
    if f in EntryListing(entry, prefix, isRoot) {
      if ListsFile(entry, isRoot) {
        names := [entry.name.text];
        assert names == names + [];
        ComponentsCons(entry.name.text, []);
        NothingServed();
      } else {
        var rest := ListedIsServed(entry.node.entries, Below(prefix, entry), false, f);
        names := [entry.name.text] + rest;
        ComponentsCons(entry.name.text, rest);
        FileAtCons(entries, entry.name.text, rest);
        assert prefix + Clean(entry.name.text) + "/" + PathText(rest) ==
          prefix + (Clean(entry.name.text) + "/" + PathText(rest));
      }
    } else {
      names := ListedIsServed(entries[1..], prefix, isRoot, f);
      FileAtRest(entries, names);
    }
  }

  lemma NothingServed()
    ensures IsServed(Components([]))
  {
  }

  /** Every regular file that the predicate accepts is in the listing. */
  lemma {:induction false} ServedIsListed(entries: seq<Entry>, prefix: string, isRoot: bool, names: seq<string>)
    requires IsTree(entries) && IsListedBelow(entries, names, isRoot)
    ensures SkillFile(prefix + PathText(names), FileAt(entries, names).value) in Listing(entries, prefix, isRoot)
    decreases Weight(entries)
  {
    hide IsHidden, IsExcludedDirName, Clean, IsServed, Weight;
    var entry, name, rest := entries[0], names[0], names[1..];
    WeightStep(entries);
    assert names == [name] + rest;
    ComponentsCons(name, rest);
    if entry.name != Utf8(name) {
      ServedIsListed(entries[1..], prefix, isRoot, names);
    } else if entry.node.Directory? {
      FileAtCons(entries, name, rest);
      ServedIsListed(entry.node.entries, Below(prefix, entry), false, rest);
      assert prefix + Clean(name) + "/" + PathText(rest) == prefix + (Clean(name) + "/" + PathText(rest));
    } else {
      assert names == [name];
    }
  }

  /** On any finite tree the listing holds exactly the regular files, other than the skill's own
      description at the root, whose path the predicate accepts. */
  lemma ListingIff(root: seq<Entry>, f: SkillFile)
    requires IsTree(root)
    ensures f in Listing(root, "", true) <==>
      exists names :: IsListed(root, names) && f == SkillFile(PathText(names), FileAt(root, names).value)
  {
    hide Listing, IsServed, FileAt, PathText;
    if f in Listing(root, "", true) {
      var names := ListedIsServed(root, "", true, f);
      assert "" + PathText(names) == PathText(names);
      assert IsListed(root, names);
    }
    if names :| IsListed(root, names) && f == SkillFile(PathText(names), FileAt(root, names).value) {
      ServedIsListed(root, "", true, names);
      assert "" + PathText(names) == PathText(names);
    }
  }

  // ---------------------------------------------------------------- no repeats

  predicate NoSlash(names: seq<string>) {
    forall k :: 0 <= k < |names| ==> '/' !in names[k]
  }

  predicate NoBackslash(names: seq<string>) {
    forall k :: 0 <= k < |names| ==> '\\' !in names[k]
  }

  lemma {:induction false} FilesHaveNoSlash(entries: seq<Entry>, names: seq<string>)
    requires IsTree(entries) && FileAt(entries, names).Some?
    ensures NoSlash(names) && |names| > 0
    decreases Weight(entries)
  {
    hide Weight;
    WeightStep(entries);
    if entries[0].name != Utf8(names[0]) {
      FilesHaveNoSlash(entries[1..], names);
    } else if entries[0].node.Directory? {
      FilesHaveNoSlash(entries[0].node.entries, names[1..]);
      forall k | 0 <= k < |names| ensures '/' !in names[k] {
        if k > 0 { assert names[k] == names[1..][k - 1]; }
      }
    }
  }

  lemma SlashInLonger(a: string, b: string, s: string, t: string)
    requires a + s == b + t && |a| < |b| && (s == "" || s[0] == '/')
    ensures '/' in b
  {
    assert b[|a|] == (b + t)[|a|] == (a + s)[|a|] == s[0];
  }

  lemma FirstNameEqual(a: string, b: string, s: string, t: string)
    requires '/' !in a && '/' !in b && a + s == b + t
    requires (s == "" || s[0] == '/') && (t == "" || t[0] == '/')
    ensures a == b && s == t
  {
    if |a| < |b| { SlashInLonger(a, b, s, t); }
    if |b| < |a| { SlashInLonger(b, a, t, s); }
    assert (a + s)[..|a|] == a && (b + t)[..|b|] == b && (a + s)[|a|..] == s && (b + t)[|b|..] == t;
  }

  function Tail(names: seq<string>): string {
    if |names| <= 1 then "" else "/" + PathText(names[1..])
  }

  lemma PathTextIs(names: seq<string>)
    requires |names| > 0 && NoBackslash(names)
    ensures PathText(names) == names[0] + Tail(names)
  {
    assert Clean(names[0]) == names[0];
    if |names| > 1 { assert names[0] + "/" + PathText(names[1..]) == names[0] + ("/" + PathText(names[1..])); }
  }

  lemma {:induction false} PathTextInjective(m: seq<string>, n: seq<string>)
    requires |m| > 0 && |n| > 0 && NoSlash(m) && NoSlash(n) && NoBackslash(m) && NoBackslash(n)
    requires PathText(m) == PathText(n)
    ensures m == n
  {
    hide PathText, Clean;
    PathTextIs(m);
    PathTextIs(n);
    FirstNameEqual(m[0], n[0], Tail(m), Tail(n));
    if |m| > 1 && |n| > 1 {
      assert Tail(m)[1..] == PathText(m[1..]) && Tail(n)[1..] == PathText(n[1..]);
      PathTextInjective(m[1..], n[1..]);
      assert m == [m[0]] + m[1..] && n == [n[0]] + n[1..];
    }
  }

  lemma SingleEntry(entry: Entry, prefix: string, isRoot: bool)
    ensures Listing([entry], prefix, isRoot) == EntryListing(entry, prefix, isRoot)
  {
    assert [entry][1..] == [];
  }

  lemma FileAtFirst(entries: seq<Entry>, names: seq<string>)
    requires |entries| > 0 && FileAt([entries[0]], names).Some?
    ensures FileAt(entries, names) == FileAt([entries[0]], names) && entries[0].name == Utf8(names[0])
  {
    assert [entries[0]][1..] == [];
    var i := LookupIn([entries[0]], names[0]);
  }

  lemma FileAtSkip(entries: seq<Entry>, names: seq<string>)
    requires |entries| > 0 && FileAt(entries, names).Some? && entries[0].name != Utf8(names[0])
    ensures FileAt(entries[1..], names) == FileAt(entries, names)
  {
  }

  /** Listed files that are different have different path texts. */
  ghost predicate Apart(entries: seq<Entry>, isRoot: bool) {
    forall m, n ::
      IsListedBelow(entries, m, isRoot) && IsListedBelow(entries, n, isRoot) && PathText(m) == PathText(n) ==> m == n
  }

  lemma ApartRest(entries: seq<Entry>, isRoot: bool)
    requires |entries| > 0 && IsTree(entries) && Apart(entries, isRoot)
    ensures Apart(entries[1..], isRoot)
  {
    hide IsServed, PathText;
    var rest := entries[1..];
    forall m, n | IsListedBelow(rest, m, isRoot) && IsListedBelow(rest, n, isRoot) && PathText(m) == PathText(n)
      ensures m == n
    {
      FileAtRest(entries, m);
      FileAtRest(entries, n);
      assert IsListedBelow(entries, m, isRoot) && IsListedBelow(entries, n, isRoot);
    }
  }

  lemma BelowIsListed(entries: seq<Entry>, isRoot: bool, names: seq<string>)
    requires |entries| > 0 && Descends(entries[0]) && IsListedBelow(entries[0].node.entries, names, false)
    ensures IsListedBelow(entries, [entries[0].name.text] + names, isRoot)
    ensures PathText([entries[0].name.text] + names) == Clean(entries[0].name.text) + "/" + PathText(names)
  {
    hide IsServed, IsHidden, IsExcludedDirName;
    ComponentsCons(entries[0].name.text, names);
    FileAtCons(entries, entries[0].name.text, names);
  }

  lemma ApartBelow(entries: seq<Entry>, isRoot: bool)
    requires |entries| > 0 && Apart(entries, isRoot) && Descends(entries[0])
    ensures Apart(entries[0].node.entries, false)
  {
    hide IsListedBelow, PathText, IsHidden, IsExcludedDirName, Clean;
    var name, below := entries[0].name.text, entries[0].node.entries;
    forall m, n | IsListedBelow(below, m, false) && IsListedBelow(below, n, false) && PathText(m) == PathText(n)
      ensures m == n
    {
      BelowIsListed(entries, isRoot, m);
      BelowIsListed(entries, isRoot, n);
      assert [name] + m == [name] + n;
      assert m == ([name] + m)[1..] && n == ([name] + n)[1..];
    }
  }

  /** Where listed files are apart, two entries of one directory list different paths. */
  lemma EntriesListApart(entries: seq<Entry>, prefix: string, isRoot: bool, f: SkillFile)
    requires |entries| > 0 && IsTree(entries) && Apart(entries, isRoot)
    ensures !(f in EntryListing(entries[0], prefix, isRoot) && f in Listing(entries[1..], prefix, isRoot))
  {
    hide Listing, EntryListing, PathText, IsServed;
    if f in EntryListing(entries[0], prefix, isRoot) && f in Listing(entries[1..], prefix, isRoot) {
      SingleEntry(entries[0], prefix, isRoot);
      SingleTree(entries[0]);
      var m := ListedIsServed([entries[0]], prefix, isRoot, f);
      var n := ListedIsServed(entries[1..], prefix, isRoot, f);
      assert PathText(m) == f.path[|prefix|..] && PathText(n) == f.path[|prefix|..];
      FileAtFirst(entries, m);
      FileAtRest(entries, n);
      assert false;
    }
  }

  lemma {:induction false} ListedOnce(entries: seq<Entry>, prefix: string, isRoot: bool, f: SkillFile)
    requires IsTree(entries) && Apart(entries, isRoot)
    ensures Listing(entries, prefix, isRoot)[f] <= 1
    decreases Weight(entries)
  {
    hide IsHidden, IsExcludedDirName, Clean, Weight, Apart;
    if |entries| > 0 {
      WeightStep(entries);
      ApartRest(entries, isRoot);
      ListedOnce(entries[1..], prefix, isRoot, f);
      EntriesListApart(entries, prefix, isRoot, f);
      if Descends(entries[0]) {
        ApartBelow(entries, isRoot);
        ListedOnce(entries[0].node.entries, Below(prefix, entries[0]), false, f);
      }
      assert EntryListing(entries[0], prefix, isRoot)[f] <= 1;
    }
  }

  lemma PrefixedEqual(prefix: string, s: string, t: string)
    requires prefix + s == prefix + t
    ensures s == t
  {
    assert (prefix + s)[|prefix|..] == s && (prefix + t)[|prefix|..] == t;
  }

  /** Two listed files with one path text and one size are one element that is listed twice. */
  lemma {:induction false} ListedTwice(
      entries: seq<Entry>, prefix: string, isRoot: bool, m: seq<string>, n: seq<string>)
    requires IsTree(entries) && IsListedBelow(entries, m, isRoot) && IsListedBelow(entries, n, isRoot) && m != n
    requires PathText(m) == PathText(n) && FileAt(entries, m) == FileAt(entries, n)
    ensures Listing(entries, prefix, isRoot)[SkillFile(prefix + PathText(m), FileAt(entries, m).value)] >= 2
    decreases Weight(entries)
  {
    hide IsHidden, IsExcludedDirName, Clean, Weight, IsServed, EntryListing, PathText;
    WeightStep(entries);
    var entry, rest := entries[0], entries[1..];
    var f := SkillFile(prefix + PathText(m), FileAt(entries, m).value);
    if entry.name == Utf8(m[0]) && entry.name == Utf8(n[0]) {
      ListedTwiceBelow(entries, prefix, isRoot, m, n);
      var below := Below(prefix, entry);
      ListedTwice(entry.node.entries, below, false, m[1..], n[1..]);
      EntryIs(entry, prefix, isRoot);
    } else if entry.name != Utf8(m[0]) && entry.name != Utf8(n[0]) {
      FileAtSkip(entries, m);
      FileAtSkip(entries, n);
      ListedTwice(rest, prefix, isRoot, m, n);
    } else {
      var here, there := if entry.name == Utf8(m[0]) then m else n, if entry.name == Utf8(m[0]) then n else m;
      FileAtSkip(entries, there);
      ServedIsListed(rest, prefix, isRoot, there);
      FirstIsListed(entries, prefix, isRoot, here);
    }
  }

  lemma FirstIsListed(entries: seq<Entry>, prefix: string, isRoot: bool, names: seq<string>)
    requires IsTree(entries) && IsListedBelow(entries, names, isRoot) && entries[0].name == Utf8(names[0])
    ensures SkillFile(prefix + PathText(names), FileAt(entries, names).value) in
      EntryListing(entries[0], prefix, isRoot)
  {
    hide IsServed, PathText, Listing, EntryListing;
    SingleTree(entries[0]);
    assert FileAt([entries[0]], names) == FileAt(entries, names);
    ServedIsListed([entries[0]], prefix, isRoot, names);
    SingleEntry(entries[0], prefix, isRoot);
  }

  /** Both files lie in the first directory. */
  lemma ListedTwiceBelow(entries: seq<Entry>, prefix: string, isRoot: bool, m: seq<string>, n: seq<string>)
    requires IsTree(entries) && IsListedBelow(entries, m, isRoot) && IsListedBelow(entries, n, isRoot) && m != n
    requires PathText(m) == PathText(n) && FileAt(entries, m) == FileAt(entries, n)
    requires entries[0].name == Utf8(m[0]) == Utf8(n[0])
    ensures Descends(entries[0]) && m[1..] != n[1..] && PathText(m[1..]) == PathText(n[1..])
    ensures IsListedBelow(entries[0].node.entries, m[1..], false) &&
      IsListedBelow(entries[0].node.entries, n[1..], false)
    ensures FileAt(entries[0].node.entries, m[1..]) == FileAt(entries[0].node.entries, n[1..]) == FileAt(entries, m)
    ensures Below(prefix, entries[0]) + PathText(m[1..]) == prefix + PathText(m)
  {
    hide IsServed, PathText, Descends, Clean;
    assert |entries| > 0;
    if entries[0].node.Directory? {
      TailIsListed(entries, isRoot, m);
      TailIsListed(entries, isRoot, n);
      PrefixedEqual(Clean(m[0]) + "/", PathText(m[1..]), PathText(n[1..]));
      assert prefix + Clean(m[0]) + "/" + PathText(m[1..]) == prefix + (Clean(m[0]) + "/" + PathText(m[1..]));
    } else {
      OnlyOneName(entries, isRoot, m);
      OnlyOneName(entries, isRoot, n);
    }
  }

  lemma OnlyOneName(entries: seq<Entry>, isRoot: bool, names: seq<string>)
    requires IsListedBelow(entries, names, isRoot) && entries[0].name == Utf8(names[0]) && !entries[0].node.Directory?
    ensures names == [names[0]]
  {
    hide IsServed;
  }

  lemma TailIsListed(entries: seq<Entry>, isRoot: bool, names: seq<string>)
    requires IsListedBelow(entries, names, isRoot) && entries[0].name == Utf8(names[0]) && entries[0].node.Directory?
    ensures Descends(entries[0]) && IsListedBelow(entries[0].node.entries, names[1..], false)
    ensures FileAt(entries[0].node.entries, names[1..]) == FileAt(entries, names)
    ensures names == [names[0]] + names[1..] && PathText(names) == Clean(names[0]) + "/" + PathText(names[1..])
  {
    hide IsHidden, IsExcludedDirName, Clean, IsServed;
    assert names == [names[0]] + names[1..];
    assert FileAt(entries[0].node.entries, names[1..]).Some?;
    ComponentsCons(names[0], names[1..]);
    FileAtCons(entries, names[0], names[1..]);
  }

  ghost predicate NoPathTwice(all: seq<SkillFile>) {
    forall i, j :: 0 <= i < j < |all| ==> all[i].path != all[j].path
  }

  /** Different listed files have different path texts. */
  ghost predicate ListedPathsDiffer(root: seq<Entry>) {
    forall m, n :: IsListed(root, m) && IsListed(root, n) && PathText(m) == PathText(n) ==> m == n
  }

  lemma DifferIsApart(root: seq<Entry>)
    ensures ListedPathsDiffer(root) <==> Apart(root, true)
  {
    hide IsServed, FileAt, PathText;
    assert forall m :: IsListed(root, m) <==> IsListedBelow(root, m, true);
  }

  /** The listing names no path twice exactly when no two different listed files share a path text. */
  lemma NoPathTwiceIff(root: seq<Entry>, all: seq<SkillFile>)
    requires IsTree(root) && multiset(all) == Listing(root, "", true)
    ensures NoPathTwice(all) <==> ListedPathsDiffer(root)
  {
    hide Listing, PathText, IsListedBelow, Apart, NoPathTwice;
    DifferIsApart(root);
    if Apart(root, true) {
      ApartNoPathTwice(root, all);
    } else {
      SharedPathTwice(root, all);
    }
  }

  lemma ApartNoPathTwice(root: seq<Entry>, all: seq<SkillFile>)
    requires IsTree(root) && multiset(all) == Listing(root, "", true) && Apart(root, true)
    ensures NoPathTwice(all)
  {
    hide Listing, PathText, IsServed, FileAt;
    forall i, j | 0 <= i < j < |all| ensures all[i].path != all[j].path {
      assert all[i] in multiset(all) && all[j] in multiset(all);
      if all[i].path == all[j].path {
        var m := ListedIsServed(root, "", true, all[i]);
        var n := ListedIsServed(root, "", true, all[j]);
        PrefixedEqual("", PathText(m), PathText(n));
        CountedTwice(all, i, j);
        ListedOnce(root, "", true, all[i]);
      }
    }
  }

  lemma SharedPathTwice(root: seq<Entry>, all: seq<SkillFile>)
    requires IsTree(root) && multiset(all) == Listing(root, "", true) && !Apart(root, true)
    ensures !NoPathTwice(all)
  {
    hide Listing, PathText, IsServed, FileAt;
    var m, n :| IsListedBelow(root, m, true) && IsListedBelow(root, n, true) && PathText(m) == PathText(n) && m != n;
    var f := SkillFile("" + PathText(m), FileAt(root, m).value);
    var g := SkillFile("" + PathText(n), FileAt(root, n).value);
    ServedIsListed(root, "", true, m);
    ServedIsListed(root, "", true, n);
    assert f in multiset(all) && g in multiset(all);
    if f == g {
      ListedTwice(root, "", true, m, n);
      var i, j := TwoIndexes(all, f);
      assert all[i].path == all[j].path;
    } else {
      var i :| 0 <= i < |all| && all[i] == f;
      var j :| 0 <= j < |all| && all[j] == g;
      assert all[i].path == all[j].path && i != j;
    }
  }

  lemma {:induction false} TwoIndexes(all: seq<SkillFile>, f: SkillFile) returns (i: nat, j: nat)
    requires multiset(all)[f] >= 2
    ensures i < j < |all| && all[i] == f && all[j] == f
  {
    assert all == [all[0]] + all[1..];
    if all[0] == f {
      assert f in multiset(all[1..]);
      var k :| 0 <= k < |all[1..]| && all[1..][k] == f;
      i, j := 0, k + 1;
    } else {
      i, j := TwoIndexes(all[1..], f);
      i, j := i + 1, j + 1;
    }
  }

  /** It is enough that no listed file has a backslash on its path. */
  lemma NoBackslashNoPathTwice(root: seq<Entry>, all: seq<SkillFile>)
    requires IsTree(root) && multiset(all) == Listing(root, "", true)
    requires forall m :: IsListed(root, m) ==> NoBackslash(m)
    ensures NoPathTwice(all)
  {
    hide Listing, PathText, IsServed, FileAt, NoPathTwice;
    forall m, n | IsListed(root, m) && IsListed(root, n) && PathText(m) == PathText(n) ensures m == n {
      FilesHaveNoSlash(root, m);
      FilesHaveNoSlash(root, n);
      PathTextInjective(m, n);
    }
    NoPathTwiceIff(root, all);
  }

  lemma CountedTwice(all: seq<SkillFile>, i: nat, j: nat)
    requires i < j < |all| && all[i] == all[j]
    ensures multiset(all)[all[i]] >= 2
  {
    var front, back := all[..j], all[j..];
    assert all == front + back;
    assert all[i] == front[i] && all[j] == back[0];
  }

  lemma FileListing(name: string, bytes: nat, prefix: string, isRoot: bool)
    requires !IsHidden(name) && name != SKILL_MD
    ensures EntryListing(Entry(Utf8(name), Regular(bytes)), prefix, isRoot) ==
      multiset{SkillFile(prefix + Clean(name), bytes)}
  {
  }

  lemma DirectoryListing(name: string, entries: seq<Entry>, prefix: string, isRoot: bool)
    requires !IsHidden(name) && !IsExcludedDirName(name)
    ensures EntryListing(Entry(Utf8(name), Directory(entries)), prefix, isRoot) ==
      Listing(entries, prefix + Clean(name) + "/", false)
  {
  }

  lemma CleanBackslash()
    ensures Clean("a\\b") == "a/b" && Clean("a") == "a" && Clean("b") == "b"
  {
    assert "a\\b"[1..] == "\\b" && "\\b"[1..] == "b" && "b"[1..] == "";
    assert Clean("b") == "b" && Clean("\\b") == "/b";
  }

  lemma SingleTree(entry: Entry)
    requires IsTreeEntry(entry)
    ensures IsTree([entry])
  {
    hide IsTreeEntry;
    assert [entry][1..] == [];
  }

  lemma IsTwoFiles(first: Entry, name: Name, file: Entry)
    requires IsFileName(first.name) && IsFileName(name) && IsFileName(file.name) && first.name != name
    requires first.node.Regular? && file.node.Regular?
    ensures IsTree([first, Entry(name, Directory([file]))])
  {
    var root := [first, Entry(name, Directory([file]))];
    assert root[1..] == [root[1]];
    SingleTree(file);
    SingleTree(root[1]);
  }

  lemma {:induction false} CleanKeepsPlain(name: string)
    requires '/' !in Clean(name)
    ensures Clean(name) == name
  {
    if |name| > 0 {
      assert Clean(name)[0] == if name[0] == '\\' then '/' else name[0];
      assert Clean(name)[1..] == Clean(name[1..]);
      CleanKeepsPlain(name[1..]);
      assert name == [name[0]] + name[1..];
    }
  }

  lemma LongTextHasSlash(names: seq<string>)
    requires |names| > 1
    ensures '/' in PathText(names)
  {
    hide Clean;
    assert PathText(names)[|Clean(names[0])|] == '/';
  }

  lemma OnlySkillMdReadsSo(names: seq<string>)
    requires |names| > 0 && PathText(names) == SKILL_MD
    ensures names == [SKILL_MD]
  {
    hide Clean;
    assert '/' !in SKILL_MD;
    if |names| > 1 { LongTextHasSlash(names); }
    CleanKeepsPlain(names[0]);
  }

  /** What the predicate accepts and the listing leaves out, before it is cut to 200 files, is only the
      skill's own description. */
  lemma ServedButNotListed(root: seq<Entry>, names: seq<string>)
    requires IsTree(root) && FileAt(root, names).Some? && IsServed(Components(names))
    ensures SkillFile(PathText(names), FileAt(root, names).value) in Listing(root, "", true) <==> names != ["SKILL.md"]
  {
    hide Listing, IsServed, PathText;
    var f := SkillFile(PathText(names), FileAt(root, names).value);
    assert "" + PathText(names) == PathText(names);
    if names != [SKILL_MD] {
      ServedIsListed(root, "", true, names);
    } else if f in Listing(root, "", true) {
      var other := ListedIsServed(root, "", true, f);
      assert "" + PathText(other) == PathText(other);
      SkillMdText();
      FilesHaveNoSlash(root, other);
      OnlySkillMdReadsSo(other);
    }
  }

  lemma SkillMdText()
    ensures PathText([SKILL_MD]) == SKILL_MD
  {
    assert '\\' !in SKILL_MD;
  }

  /** With a backslash it can: a file named `a\b` and a file `b` in a directory `a` are both listed as `a/b`. */
  lemma BackslashRepeatsPath() returns (root: seq<Entry>)
    ensures IsTree(root) && Listing(root, "", true)[SkillFile("a/b", 1)] == 2
  {
    hide EntryListing, Clean, IsTree;
    var first, file := Entry(Utf8("a\\b"), Regular(1)), Entry(Utf8("b"), Regular(1));
    var second := Entry(Utf8("a"), Directory([file]));
    root := [first, second];
    IsTwoFiles(first, second.name, file);
    CleanBackslash();
    assert "" + "a/b" == "a/b" && "" + "a" + "/" == "a/" && "a/" + "b" == "a/b" && root[1..] == [second];
    FileListing("a\\b", 1, "", true);
    FileListing("b", 1, "a/", false);
    SingleEntry(file, "a/", false);
    DirectoryListing("a", [file], "", true);
    SingleEntry(second, "", true);
  }
}
