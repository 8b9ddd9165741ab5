/** Agent memory on disk (`src/memory.rs`): what a file system keeps over a crash, the operations of
    one publication, and the loader with its per-agent cache. */
module Memory {
  import opened Text

  datatype MemoryFile = Episodic | Semantic | Prospective

  const ALL: seq<MemoryFile> := [Episodic, Semantic, Prospective]

  /** One value per memory file; a bundle is one string per file. */
  datatype Files<T> = Files(episodic: T, semantic: T, prospective: T) {
    function Get(file: MemoryFile): T {
      match file
      case Episodic => episodic
      case Semantic => semantic
      case Prospective => prospective
    }

    function Set(file: MemoryFile, value: T): (r: Files<T>)
      ensures forall g :: r.Get(g) == if g == file then value else Get(g)
    {
      match file
      case Episodic => this.(episodic := value)
      case Semantic => this.(semantic := value)
      case Prospective => this.(prospective := value)
    }
  }

  type MemoryBundle = Files<string>

  lemma SameFiles<T>(a: Files<T>, b: Files<T>)
    requires forall f: MemoryFile :: a.Get(f) == b.Get(f)
    ensures a == b
  {
    assert a.Get(Episodic) == b.Get(Episodic) && a.Get(Semantic) == b.Get(Semantic) &&
      a.Get(Prospective) == b.Get(Prospective);
  }

  /** Place of a file in the fixed order. */
  function Place(file: MemoryFile): nat {
    match file
    case Episodic => 0
    case Semantic => 1
    case Prospective => 2
  }

  /** The file handled after `file`. */
  function Following(file: MemoryFile): Option<MemoryFile> {
    match file
    case Episodic => Some(Semantic)
    case Semantic => Some(Prospective)
    case Prospective => None
  }

  // ---------------------------------------------------------------- the memory directory

  /** Content of a file, and whether it was fsynced. */
  datatype Inode = Inode(content: string, synced: bool)

  /** A temp file is named after the file it replaces and the run. */
  datatype TempName = TempName(file: MemoryFile, run: string)

  /** `current` are the canonical names as live processes see them, `durable` those that a crash is sure
      to keep; `linked` says the directory's own entry survives a crash. */
  datatype Disk = Disk(
    present: bool, linked: bool, durable: Files<Option<Inode>>, current: Files<Option<Inode>>,
    temps: map<TempName, Inode>)

  /** There are no files without a directory. */
  ghost predicate WellFormed(d: Disk) {
    !d.present ==> !d.linked && forall f: MemoryFile :: d.durable.Get(f).None? && d.current.Get(f).None?
  }

  function CreateDir(d: Disk): Disk {
    if d.present then d else d.(present := true, linked := false)
  }

  /** fsync of the directory: its renames are durable from here on. */
  function SyncDirectory(d: Disk): Disk { d.(durable := d.current) }

  function SyncCreatedAncestors(d: Disk): Disk { SyncDirectory(d).(linked := true) }

  /** Stale temp files go away as far as they can be removed. */
  function CleanupStaleTempFiles(d: Disk, kept: set<TempName>): Disk {
    d.(temps := map n | n in d.temps && n in kept :: d.temps[n])
  }

  function WriteTemp(d: Disk, name: TempName, content: string): Disk {
    d.(temps := d.temps[name := Inode(content, false)])
  }

  function SyncTemp(d: Disk, name: TempName): Disk
    requires name in d.temps
  {
    d.(temps := d.temps[name := d.temps[name].(synced := true)])
  }

  function Rename(d: Disk, name: TempName): Disk
    requires name in d.temps
  {
    d.(current := d.current.Set(name.file, Some(d.temps[name])), temps := d.temps - {name})
  }

  /** What a power loss leaves (a killed process leaves the disk as it is): unsynced content may be torn,
      every rename since the last directory fsync may or may not have happened, temp files may or may not be
      there. */
  datatype Damage = Damage(
    dirLost: bool, renameSurvives: MemoryFile -> bool, torn: Inode -> string, tempsLeft: set<TempName>)

  function Settle(inode: Inode, damage: Damage): Inode {
    if inode.synced then inode else Inode(damage.torn(inode), true)
  }

  function SettleEntry(d: Disk, damage: Damage, f: MemoryFile): Option<Inode> {
    match if damage.renameSurvives(f) then d.current.Get(f) else d.durable.Get(f)
    case None => None
    case Some(inode) => Some(Settle(inode, damage))
  }

  const EMPTY_DISK: Disk := Disk(false, false, Files(None, None, None), Files(None, None, None), map[])

  function LosePower(d: Disk, damage: Damage): Disk {
    if d.present && !d.linked && damage.dirLost then EMPTY_DISK
    else
      var left :=
        Files(SettleEntry(d, damage, Episodic), SettleEntry(d, damage, Semantic), SettleEntry(d, damage, Prospective));
      Disk(d.present, d.present, left, left,
           map n | n in d.temps && n in damage.tempsLeft :: Settle(d.temps[n], damage))
  }

  /** Why a temp file is synced before it takes its name: without that a power loss may leave anything in the
      file, ... */
  lemma UnsyncedRenameTears(d: Disk, name: TempName, content: string, other: string)
    requires d.present && d.linked
    ensures var damage := Damage(false, (_: MemoryFile) => true, (_: Inode) => other, {});
      LosePower(Rename(WriteTemp(d, name, content), name), damage).current.Get(name.file) == Some(Inode(other, true))
  {
  }

  /** ... and with it nothing but the new content or what the durable name had. */
  lemma SyncedRenameHolds(d: Disk, name: TempName, content: string, damage: Damage)
    requires d.present && d.linked
    ensures var left := LosePower(Rename(SyncTemp(WriteTemp(d, name, content), name), name), damage);
      left.current.Get(name.file) ==
        if damage.renameSurvives(name.file) then Some(Inode(content, true))
        else LosePower(d, damage).durable.Get(name.file)
  {
  }

  lemma PowerLossEntry(d: Disk, damage: Damage, f: MemoryFile)
    requires !(d.present && !d.linked && damage.dirLost)
    ensures LosePower(d, damage).current.Get(f) == SettleEntry(d, damage, f)
    ensures LosePower(d, damage).durable.Get(f) == SettleEntry(d, damage, f)
  {
  }

  // ---------------------------------------------------------------- reading

  /** A text of white space only counts as empty. */
  function Normal(content: string): (r: string)
    ensures r == content || (r == "" && IsBlank(content))
    ensures IsBlank(r) ==> r == ""
  {
    if IsBlank(content) then "" else content
  }

  function NormalBundle(b: MemoryBundle): MemoryBundle {
    Files(Normal(b.episodic), Normal(b.semantic), Normal(b.prospective))
  }

  /** `read_file_or_empty`. */
  function ReadFileOrEmpty(entry: Option<Inode>): string {
    if entry.None? then "" else Normal(entry.value.content)
  }

  function ReadBundle(d: Disk): (b: MemoryBundle)
    ensures forall f: MemoryFile :: b.Get(f) == ReadFileOrEmpty(d.current.Get(f))
  {
    Files(ReadFileOrEmpty(d.current.episodic), ReadFileOrEmpty(d.current.semantic),
      ReadFileOrEmpty(d.current.prospective))
  }

  // ---------------------------------------------------------------- publishing

  /** Everything visible is durable and whole: a power loss changes none of it. */
  ghost predicate Quiet(d: Disk) {
    d.durable == d.current && (d.present <==> d.linked) &&
    (forall f: MemoryFile :: d.current.Get(f).Some? ==> d.present && d.current.Get(f).value.synced)
  }

  /** After a power loss everything that is left is durable and whole again, whatever it is. */
  lemma PowerLossLeavesQuiet(d: Disk, damage: Damage)
    requires WellFormed(d)
    ensures Quiet(LosePower(d, damage))
  {
    if !(d.present && !d.linked && damage.dirLost) {
      forall f: MemoryFile | LosePower(d, damage).current.Get(f).Some?
        ensures d.present && LosePower(d, damage).current.Get(f).value.synced
      {
        PowerLossEntry(d, damage, f);
      }
    }
  }

  /** Nothing is damaged, all renames survive. */
  const NO_DAMAGE: Damage := Damage(false, (_: MemoryFile) => true, (i: Inode) => i.content, {})

  /** `Quiet` is exactly what survives every power loss. */
  lemma QuietIff(d: Disk)
    requires WellFormed(d)
    ensures Quiet(d) <==>
      forall damage: Damage :: LosePower(d, damage).current == d.current && LosePower(d, damage).present == d.present
  {
    hide LosePower;
    if Quiet(d) {
      forall damage: Damage
        ensures LosePower(d, damage).current == d.current && LosePower(d, damage).present == d.present
      {
        QuietSurvives(d, damage);
      }
    } else {
      var damage := DamageThatShows(d);
    }
  }

  lemma QuietSurvives(d: Disk, damage: Damage)
    requires Quiet(d)
    ensures LosePower(d, damage).current == d.current && LosePower(d, damage).present == d.present
  {
    forall f: MemoryFile ensures LosePower(d, damage).current.Get(f) == d.current.Get(f) {
      PowerLossEntry(d, damage, f);
    }
    SameFiles(LosePower(d, damage).current, d.current);
  }

  lemma DamageThatShows(d: Disk) returns (damage: Damage)
    requires WellFormed(d) && !Quiet(d)
    ensures LosePower(d, damage).current != d.current || LosePower(d, damage).present != d.present
  {
    if d.present && !d.linked {
      damage := NO_DAMAGE.(dirLost := true);
    } else if d.durable != d.current {
      damage := NO_DAMAGE.(renameSurvives := (_: MemoryFile) => false);
      var f := DifferentFile(d.durable, d.current);
      PowerLossEntry(d, damage, f);
      if d.durable.Get(f).Some? && !d.durable.Get(f).value.synced {
        damage := damage.(torn := (i: Inode) => d.durable.Get(f).value.content + "x");
        PowerLossEntry(d, damage, f);
        if LosePower(d, damage).current.Get(f) == d.current.Get(f) {
          damage := damage.(torn := (i: Inode) => d.durable.Get(f).value.content);
          PowerLossEntry(d, damage, f);
        }
      }
    } else {
      damage := NO_DAMAGE;
      var f: MemoryFile :| d.current.Get(f).Some? && !(d.present && d.current.Get(f).value.synced);
      PowerLossEntry(d, damage, f);
    }
  }

  lemma DifferentFile<T>(a: Files<T>, b: Files<T>) returns (f: MemoryFile)
    requires a != b
    ensures a.Get(f) != b.Get(f)
  {
    f := if a.episodic != b.episodic then Episodic else if a.semantic != b.semantic then Semantic else Prospective;
  }

  function Written(bundle: MemoryBundle): Files<Option<Inode>> {
    Files(Some(Inode(bundle.episodic, true)), Some(Inode(bundle.semantic, true)), Some(Inode(bundle.prospective, true)))
  }

  predicate TempReady(d: Disk, run: string, bundle: MemoryBundle, f: MemoryFile) {
    TempName(f, run) in d.temps && d.temps[TempName(f, run)] == Inode(bundle.Get(f), true)
  }

  /** Temp files of other runs are as in `swept`. */
  ghost predicate OthersKept(d: Disk, swept: Disk, run: string) {
    forall n: TempName :: n.run != run ==>
      (n in d.temps <==> n in swept.temps) && (n in d.temps ==> d.temps[n] == swept.temps[n])
  }

  /** All three files hold `bundle`, and their renames are durable; the directory's own entry is durable
      unless the directory was found without a durable entry. */
  predicate IsReplaced(before: Disk, after: Disk, bundle: MemoryBundle) {
    after.present && after.current == Written(bundle) && after.durable == after.current &&
    (after.linked <==> !before.present || before.linked)
  }

  /** A finished publication survives every crash exactly when the directory was not there before, or its
      entry was durable already. */
  lemma ReplacedIsQuietIff(before: Disk, after: Disk, bundle: MemoryBundle)
    requires IsReplaced(before, after, bundle)
    ensures Quiet(after) <==> !before.present || before.linked
  {
    forall f: MemoryFile ensures after.current.Get(f).Some? && after.current.Get(f).value.synced {
      assert after.current.Get(f) == Written(bundle).Get(f);
    }
  }

  /** The run leaves no temp file of its own. */
  ghost predicate OnlyStaleTemps(d: Disk, before: Disk, run: string, kept: set<TempName>) {
    forall n: TempName :: n in d.temps ==>
      n.run != run && n in kept && n in before.temps && d.temps[n] == before.temps[n]
  }

  lemma OnlyStaleLeft(d: Disk, swept: Disk, before: Disk, run: string, kept: set<TempName>)
    requires swept.temps == CleanupStaleTempFiles(before, kept).temps && OthersKept(d, swept, run)
    requires forall i :: 0 <= i < 3 ==> TempName(ALL[i], run) !in d.temps
    ensures OnlyStaleTemps(d, before, run, kept)
  {
    forall n: TempName | n in d.temps
      ensures n.run != run && n in kept && n in before.temps && d.temps[n] == before.temps[n]
    {
      assert n == TempName(n.file, n.run) && ALL[Place(n.file)] == n.file;
      assert TempName(ALL[Place(n.file)], run) !in d.temps;
    }
  }

  /** Three temp files, each written and synced, then three renames, then one directory fsync. */
  method WriteBundleAtomically(before: Disk, run: string, bundle: MemoryBundle, kept: set<TempName>) returns (d: Disk)
    ensures IsReplaced(before, d, bundle)
    ensures OnlyStaleTemps(d, before, run, kept)
  {
    d := CreateDir(before);
    if !before.present { d := SyncCreatedAncestors(d); }
    d := CleanupStaleTempFiles(d, kept);
    ghost var swept := d;
    assert ALL[0] == Episodic && ALL[1] == Semantic && ALL[2] == Prospective;
    for k := 0 to 3
      invariant d == swept.(temps := d.temps)
      invariant forall i :: 0 <= i < k ==> TempReady(d, run, bundle, ALL[i])
      invariant OthersKept(d, swept, run)
    {
      d := WriteTemp(d, TempName(ALL[k], run), bundle.Get(ALL[k]));
      d := SyncTemp(d, TempName(ALL[k], run));
    }
    ghost var ready := d;
    for k := 0 to 3
      invariant d == ready.(temps := d.temps, current := d.current)
      invariant forall i :: 0 <= i < k ==> d.current.Get(ALL[i]) == Some(Inode(bundle.Get(ALL[i]), true))
      invariant forall i :: 0 <= i < k ==> TempName(ALL[i], run) !in d.temps
      invariant forall i :: k <= i < 3 ==> TempReady(d, run, bundle, ALL[i])
      invariant OthersKept(d, swept, run)
    {
      d := Rename(d, TempName(ALL[k], run));
    }
    OnlyStaleLeft(d, swept, before, run, kept);
    d := SyncDirectory(d);
    AllWritten(d.current, bundle);
  }

  lemma AllWritten(files: Files<Option<Inode>>, bundle: MemoryBundle)
    requires forall i :: 0 <= i < 3 ==> files.Get(ALL[i]) == Some(Inode(bundle.Get(ALL[i]), true))
    ensures files == Written(bundle)
  {
    assert files.Get(ALL[0]).Some? && files.Get(ALL[1]).Some? && files.Get(ALL[2]).Some?;
  }

  // ---------------------------------------------------------------- the loader

  datatype MemoryError =
    | UnsafeAgentId(agent: string)
    | Conflict(agent: string, file: MemoryFile)
    | RecoveryValidation(agent: string, run: string, file: MemoryFile)

  predicate SafeAgentId(id: string) {
    var id := Trim(id);
    id != "" && !Contains(id, "..") && '/' !in id && '\\' !in id && ':' !in id
  }

  /** Not blank, no two dots in a row and none of the three characters, wherever they stand. */
  lemma SafeAgentIdIff(id: string)
    ensures SafeAgentId(id) <==>
      !IsBlank(id) && (forall i :: 0 <= i < |id| - 1 ==> !(id[i] == '.' && id[i + 1] == '.')) &&
      forall c :: c in id ==> c != '/' && c != '\\' && c != ':'
  {
    hide Trim, Contains;
    var trimmed := Trim(id);
    var a, b := TrimSplits(id);
    DotsIn(trimmed);
    BlankHas(a);
    BlankHas(b);
    forall i | 0 <= i < |id| - 1 && id[i] == '.' && id[i + 1] == '.'
      ensures |a| <= i && i + 1 < |a| + |trimmed| && trimmed[i - |a|] == '.' && trimmed[i - |a| + 1] == '.'
    {
      assert id[i] !in a && id[i] !in b && id[i + 1] !in b;
    }
    forall i | 0 <= i < |trimmed| ensures trimmed[i] == id[|a| + i] {
    }
  }

  lemma DotsIn(s: string)
    ensures Contains(s, "..") <==> exists i :: 0 <= i < |s| - 1 && s[i] == '.' && s[i + 1] == '.'
  {
    if i :| 0 <= i <= |s| && OccursAt(s, "..", i) {
      assert s[i] == s[i..i + 2][0] && s[i + 1] == s[i..i + 2][1];
    }
    if i :| 0 <= i < |s| - 1 && s[i] == '.' && s[i + 1] == '.' {
      assert OccursAt(s, "..", i);
    }
  }

  lemma BlankHas(s: string)
    requires IsBlank(s)
    ensures forall c :: c in s ==> c != '.' && c != '/' && c != '\\' && c != ':'
  {
  }

  predicate IsEither(current: MemoryBundle, before: MemoryBundle, after: MemoryBundle, f: MemoryFile) {
    current.Get(f) == before.Get(f) || current.Get(f) == after.Get(f)
  }

  predicate Classifiable(current: MemoryBundle, before: MemoryBundle, after: MemoryBundle) {
    forall f: MemoryFile :: IsEither(current, before, after, f)
  }

  lemma AllFiles(a: MemoryBundle, b: MemoryBundle)
    requires forall i :: 0 <= i < 3 ==> a.Get(ALL[i]) == b.Get(ALL[i])
    ensures a == b
  {
    assert a.Get(ALL[0]) == b.Get(ALL[0]) && a.Get(ALL[1]) == b.Get(ALL[1]) && a.Get(ALL[2]) == b.Get(ALL[2]);
  }

  lemma AllClassified(current: MemoryBundle, before: MemoryBundle, after: MemoryBundle)
    requires forall i :: 0 <= i < 3 ==> IsEither(current, before, after, ALL[i])
    ensures Classifiable(current, before, after)
  {
    assert IsEither(current, before, after, ALL[0]) && IsEither(current, before, after, ALL[1]) &&
      IsEither(current, before, after, ALL[2]);
  }

  /** The first file, in the fixed order, on which two bundles differ. */
  method FirstDifference(a: MemoryBundle, b: MemoryBundle) returns (f: Option<MemoryFile>)
    ensures f.None? <==> a == b
    ensures f.Some? ==>
      a.Get(f.value) != b.Get(f.value) && forall g: MemoryFile :: Place(g) < Place(f.value) ==> a.Get(g) == b.Get(g)
  {
    for k := 0 to 3
      invariant forall i :: 0 <= i < k ==> a.Get(ALL[i]) == b.Get(ALL[i])
    {
      if a.Get(ALL[k]) != b.Get(ALL[k]) {
        assert forall g: MemoryFile :: Place(g) < k ==> ALL[Place(g)] == g;
        return Some(ALL[k]);
      }
    }
    AllFiles(a, b);
    return None;
  }

  /** The first file that reads neither as before nor as after. */
  method FirstUnclassified(current: MemoryBundle, before: MemoryBundle, after: MemoryBundle)
    returns (f: Option<MemoryFile>)
    ensures f.None? <==> Classifiable(current, before, after)
    ensures f.Some? ==>
      !IsEither(current, before, after, f.value) &&
      forall g: MemoryFile :: Place(g) < Place(f.value) ==> IsEither(current, before, after, g)
  {
    for k := 0 to 3
      invariant forall i :: 0 <= i < k ==> IsEither(current, before, after, ALL[i])
    {
      if current.Get(ALL[k]) != before.Get(ALL[k]) && current.Get(ALL[k]) != after.Get(ALL[k]) {
        assert forall g: MemoryFile :: Place(g) < k ==> ALL[Place(g)] == g;
        assert !IsEither(current, before, after, ALL[k]);
        return Some(ALL[k]);
      }
    }
    AllClassified(current, before, after);
    return None;
  }

  class MemoryLoader {
    var disks: map<string, Disk>
    var caches: map<string, MemoryBundle>

    /** The disks are whatever earlier processes left; `kept` of every call are the stale temp files that
        could not be removed. */
    constructor (disks: map<string, Disk>)
      ensures this.disks == disks && caches == map[]
    {
      this.disks, caches := disks, map[];
    }

    function DiskOf(agent: string): Disk
      reads this
    {
      if agent in disks then disks[agent] else EMPTY_DISK
    }

    /** The bundle the next load returns. */
    function Served(agent: string): MemoryBundle
      reads this
    {
      if agent in caches then caches[agent] else ReadBundle(DiskOf(agent))
    }

    method LoadBundle(agent: string) returns (r: Result<MemoryBundle, MemoryError>)
      modifies this`caches
      ensures r == if SafeAgentId(agent) then Ok(old(Served(agent))) else Err(UnsafeAgentId(agent))
      ensures caches == if r.Ok? then old(caches)[agent := r.value] else old(caches)
    {
      hide SafeAgentId, ReadBundle;
      if !SafeAgentId(agent) { return Err(UnsafeAgentId(agent)); }
      if agent in caches {
        assert caches == caches[agent := caches[agent]];
        return Ok(caches[agent]);
      }
      var bundle := ReadBundle(DiskOf(agent));
      caches := caches[agent := bundle];
      return Ok(bundle);
    }

    /** Succeeds exactly when every file still reads as in `base`. A conflict names the first file that
        does not, leaves every file alone and realigns the cache with them. */
    method PublishBundle(agent: string, run: string, base: MemoryBundle, candidate: MemoryBundle, kept: set<TempName>)
      returns (r: Result<(), MemoryError>)
      modifies this
      ensures !SafeAgentId(agent) ==> r == Err(UnsafeAgentId(agent)) && unchanged(this)
      ensures SafeAgentId(agent) ==> (r.Ok? <==> old(ReadBundle(DiskOf(agent))) == base)
      ensures r.Ok? ==>
        agent in disks && disks == old(disks)[agent := disks[agent]] &&
        IsReplaced(old(DiskOf(agent)), disks[agent], candidate) &&
        caches == old(caches)[agent := candidate]
      ensures SafeAgentId(agent) && r.Err? ==>
        disks == old(disks) && caches == old(caches)[agent := ReadBundle(old(DiskOf(agent)))] &&
        r.error.Conflict? && r.error.agent == agent &&
        ReadBundle(DiskOf(agent)).Get(r.error.file) != base.Get(r.error.file)
    {
      hide ReadBundle, Written, IsReplaced, SafeAgentId;
      if !SafeAgentId(agent) { return Err(UnsafeAgentId(agent)); }
      var current := ReadBundle(DiskOf(agent));
      var drifted := FirstDifference(current, base);
      if drifted.Some? {
        caches := caches[agent := current];
        return Err(Conflict(agent, drifted.value));
      }
      var d := WriteBundleAtomically(DiskOf(agent), run, candidate, kept);
      disks := disks[agent := d];
      caches := caches[agent := candidate];
      return Ok(());
    }

    /** Accepts exactly the disks on which every file reads as before or as after the publication. */
    method RecoverPublication(
        agent: string, run: string, before: MemoryBundle, after: MemoryBundle, kept: set<TempName>)
      returns (r: Result<(), MemoryError>)
      modifies this
      ensures !SafeAgentId(agent) ==> r == Err(UnsafeAgentId(agent))
      ensures SafeAgentId(agent) ==> (r.Ok? <==> Classifiable(old(ReadBundle(DiskOf(agent))), before, after))
      ensures r.Ok? ==>
        agent in disks && disks == old(disks)[agent := disks[agent]] &&
        IsReplaced(old(DiskOf(agent)), disks[agent], after) &&
        caches == old(caches)[agent := after]
      ensures r.Err? ==> unchanged(this)
      ensures SafeAgentId(agent) && r.Err? ==>
        r.error.RecoveryValidation? && r.error.agent == agent && r.error.run == run &&
        !IsEither(ReadBundle(DiskOf(agent)), before, after, r.error.file)
    {
      hide ReadBundle, Written, IsReplaced, SafeAgentId, Classifiable, IsEither;
      if !SafeAgentId(agent) { return Err(UnsafeAgentId(agent)); }
      var current := ReadBundle(DiskOf(agent));
      var unknown := FirstUnclassified(current, before, after);
      if unknown.Some? { return Err(RecoveryValidation(agent, run, unknown.value)); }
      var d := WriteBundleAtomically(DiskOf(agent), run, after, kept);
      disks := disks[agent := d];
      caches := caches[agent := after];
      return Ok(());
    }

    /** A conflict does not last: the next load gives a base with which the publication succeeds, as long
        as nobody edits the files again. */
    method PublishOnFreshBase(
        agent: string, run: string, base: MemoryBundle, candidate: MemoryBundle, kept: set<TempName>)
      returns (first: Result<(), MemoryError>, second: Result<(), MemoryError>)
      requires SafeAgentId(agent)
      modifies this
      ensures first.Ok? || second.Ok?
      ensures agent in disks && IsReplaced(old(DiskOf(agent)), disks[agent], candidate) && Served(agent) == candidate
    {
      hide ReadBundle, Written, SafeAgentId;
      first := PublishBundle(agent, run, base, candidate, kept);
      second := first;
      if first.Err? {
        var reloaded := LoadBundle(agent);
        second := PublishBundle(agent, run, reloaded.value, candidate, kept);
      }
    }
  }
}
