/** One publication of agent memory in small steps. Before and after every one of them, also inside the
    recovery that follows, the process may be killed or the power may fail (`src/memory.rs`). */
module MemoryCrash {
  import opened Text
  import opened Memory

  /** The publication of `after` over `before` by the run `run`. */
  datatype Plan = Plan(run: string, before: MemoryBundle, after: MemoryBundle)

  /** What comes next. `Down`: no process works on the files. */
  datatype Stage =
    | Down
    | Creating
    | Linking
    | Sweeping
    | Writing(file: MemoryFile)
    | Syncing(file: MemoryFile)
    | Renaming(file: MemoryFile)
    | SyncingDir
    | Done
    | Failed

  /** `crashed`: the publication is not the first attempt any more but a recovery. */
  datatype State = State(disk: Disk, stage: Stage, crashed: bool)

  /** A killed process leaves the disk as it is; a power loss damages it. */
  datatype Action = Step(kept: set<TempName>) | Kill | PowerLoss(damage: Damage)

  function Start(raw: Disk): State { State(raw, Down, false) }

  /** The check a publication, or a recovery after a crash, makes before it writes anything. */
  predicate MayWrite(p: Plan, s: State) {
    if s.crashed then Classifiable(ReadBundle(s.disk), p.before, p.after) else ReadBundle(s.disk) == p.before
  }

  function Next(p: Plan, s: State, a: Action): State {
    if a.PowerLoss? then State(LosePower(s.disk, a.damage), Down, true)
    else if a.Kill? then State(s.disk, Down, true)
    else
      match s.stage
      case Down => s.(stage := if MayWrite(p, s) then Creating else Failed)
      case Creating => s.(disk := CreateDir(s.disk), stage := if s.disk.present then Sweeping else Linking)
      case Linking => s.(disk := SyncCreatedAncestors(s.disk), stage := Sweeping)
      case Sweeping => s.(disk := CleanupStaleTempFiles(s.disk, a.kept), stage := Writing(Episodic))
      case Writing(f) => s.(disk := WriteTemp(s.disk, TempName(f, p.run), p.after.Get(f)), stage := Syncing(f))
      case Syncing(f) =>
        if TempName(f, p.run) !in s.disk.temps then s
        else
          s.(disk := SyncTemp(s.disk, TempName(f, p.run)),
             stage := if Following(f).Some? then Writing(Following(f).value) else Renaming(Episodic))
      case Renaming(f) =>
        if TempName(f, p.run) !in s.disk.temps then s
        else
          s.(disk := Rename(s.disk, TempName(f, p.run)),
             stage := if Following(f).Some? then Renaming(Following(f).value) else SyncingDir)
      case SyncingDir => s.(disk := SyncDirectory(s.disk), stage := Done)
      case Done => s
      case Failed => s
  }

  function Run(p: Plan, s: State, script: seq<Action>): State
    decreases |script|
  {
    if |script| == 0 then s else Run(p, Next(p, s, script[0]), script[1..])
  }

  predicate IsOld(p: Plan, f: MemoryFile, content: string) {
    content == p.before.Get(f) || content == p.after.Get(f)
  }

  /** An entry that no power loss can tear, and that reads as the old or the new content of its file. */
  predicate Holds(p: Plan, f: MemoryFile, entry: Option<Inode>) {
    (entry.Some? ==> entry.value.synced) && IsOld(p, f, ReadFileOrEmpty(entry))
  }

  /** Every file of `after` reads back as itself or as it was before: nothing in it is blank but not
      empty, unless that file was empty before. */
  predicate Recoverable(p: Plan) {
    forall f: MemoryFile :: Holds(p, f, Some(Inode(p.after.Get(f), true)))
  }

  /** A start from which a power loss leaves only old or new contents: every file is fsynced under the name
      that is seen and the one that is durable, and it may go missing only where missing is as good. */
  predicate Survives(p: Plan, raw: Disk) {
    (forall f: MemoryFile :: Holds(p, f, raw.current.Get(f)) && Holds(p, f, raw.durable.Get(f))) &&
    (raw.present && !raw.linked ==> forall f: MemoryFile :: Holds(p, f, None))
  }

  /** Any disk on which the publication finds its base. */
  ghost predicate StartOk(p: Plan, raw: Disk) {
    WellFormed(raw) && ReadBundle(raw) == p.before
  }

  /** When everything in the directory is durable and whole, only the directory's own entry matters. */
  lemma SettledSurvivesIff(p: Plan, raw: Disk)
    requires StartOk(p, raw) && raw.durable == raw.current
    requires forall f: MemoryFile :: raw.current.Get(f).Some? ==> raw.current.Get(f).value.synced
    ensures Survives(p, raw) <==>
      !raw.present || raw.linked || forall f: MemoryFile :: p.before.Get(f) == "" || p.after.Get(f) == ""
  {
    hide Normal;
    forall f: MemoryFile ensures Holds(p, f, raw.current.Get(f)) {
      assert p.before.Get(f) == ReadFileOrEmpty(raw.current.Get(f));
    }
    assert forall f: MemoryFile :: Holds(p, f, None) <==> p.before.Get(f) == "" || p.after.Get(f) == "";
  }

  // ---------------------------------------------------------------- what holds whatever happens

  predicate Fresh(p: Plan, d: Disk, f: MemoryFile) {
    d.current.Get(f) == Some(Inode(p.after.Get(f), true))
  }

  ghost predicate StageOk(p: Plan, raw: Disk, s: State) {
    var d := s.disk;
    match s.stage
    case Down => !s.crashed ==> d == raw
    case Creating => true
    case Linking => d.present
    case Sweeping => d.present
    case Writing(f) => d.present && forall g: MemoryFile :: Place(g) < Place(f) ==> TempReady(d, p.run, p.after, g)
    case Syncing(f) =>
      d.present && (forall g: MemoryFile :: Place(g) < Place(f) ==> TempReady(d, p.run, p.after, g)) &&
      TempName(f, p.run) in d.temps && d.temps[TempName(f, p.run)].content == p.after.Get(f)
    case Renaming(f) =>
      d.present && (forall g: MemoryFile :: Place(g) < Place(f) ==> Fresh(p, d, g)) &&
      forall g: MemoryFile :: Place(f) <= Place(g) ==> TempReady(d, p.run, p.after, g)
    case SyncingDir => d.present && forall g: MemoryFile :: Fresh(p, d, g)
    case Done => d.present && d.durable == d.current && forall g: MemoryFile :: Fresh(p, d, g)
    case Failed => true
  }

  /** The stage tells what has been done, and a directory whose entry is durable stays so. */
  ghost predicate Inv(p: Plan, raw: Disk, s: State) {
    StartOk(p, raw) && WellFormed(s.disk) && StageOk(p, raw, s) && (raw.linked ==> s.disk.linked)
  }

  lemma StartInv(p: Plan, raw: Disk)
    requires StartOk(p, raw)
    ensures Inv(p, raw, Start(raw))
  {
  }

  /** Every step, kill and power loss keeps this, whatever the bundles and the first disk. */
  lemma NextKeepsInv(p: Plan, raw: Disk, s: State, a: Action)
    requires Inv(p, raw, s)
    ensures Inv(p, raw, Next(p, s, a))
  {
    hide ReadBundle, MayWrite, TempReady;
    if a.PowerLoss? {
      PowerLossKeepsInv(p, raw, s, a.damage);
      PowerLossIs(p, s, a.damage);
    } else if a.Kill? {
      KillIs(p, s);
    } else if s.stage.Renaming? {
      RenameKeepsInv(p, raw, s, a.kept);
    } else if s.stage.Syncing? {
      SyncKeepsInv(p, raw, s, a.kept);
    } else if s.stage.Writing? {
      WriteKeepsInv(p, raw, s, a.kept);
    } else if s.stage.SyncingDir? {
      forall f: MemoryFile ensures Fresh(p, SyncDirectory(s.disk), f) { assert Fresh(p, s.disk, f); }
    }
  }

  lemma PowerLossKeepsInv(p: Plan, raw: Disk, s: State, damage: Damage)
    requires Inv(p, raw, s)
    ensures Inv(p, raw, State(LosePower(s.disk, damage), Down, true))
  {
    hide LosePower, ReadBundle;
    PowerLossShape(s.disk, damage);
    if !s.disk.present {
      forall f: MemoryFile
        ensures LosePower(s.disk, damage).current.Get(f).None? && LosePower(s.disk, damage).durable.Get(f).None?
      {
        PowerLossEntry(s.disk, damage, f);
      }
    }
  }

  lemma PowerLossShape(d: Disk, damage: Damage)
    ensures if d.present && !d.linked && damage.dirLost then LosePower(d, damage) == EMPTY_DISK
      else LosePower(d, damage).present == d.present && LosePower(d, damage).linked == d.present
  {
  }

  lemma PowerLossIs(p: Plan, s: State, damage: Damage)
    ensures Next(p, s, PowerLoss(damage)) == State(LosePower(s.disk, damage), Down, true)
  {
  }

  lemma KillIs(p: Plan, s: State)
    ensures Next(p, s, Kill) == State(s.disk, Down, true)
  {
  }

  lemma WriteKeepsInv(p: Plan, raw: Disk, s: State, kept: set<TempName>)
    requires Inv(p, raw, s) && s.stage.Writing?
    ensures Inv(p, raw, Next(p, s, Step(kept)))
  {
    hide ReadBundle;
    var s', f := Next(p, s, Step(kept)), s.stage.file;
    forall g: MemoryFile | Place(g) < Place(f) ensures TempReady(s'.disk, p.run, p.after, g) {
      assert TempReady(s.disk, p.run, p.after, g) && TempName(g, p.run) != TempName(f, p.run);
    }
  }

  lemma SyncKeepsInv(p: Plan, raw: Disk, s: State, kept: set<TempName>)
    requires Inv(p, raw, s) && s.stage.Syncing?
    ensures Inv(p, raw, Next(p, s, Step(kept)))
  {
    hide ReadBundle;
    var s', f := Next(p, s, Step(kept)), s.stage.file;
    forall g: MemoryFile | Place(g) <= Place(f) ensures TempReady(s'.disk, p.run, p.after, g) {
      if g != f { assert TempReady(s.disk, p.run, p.after, g) && TempName(g, p.run) != TempName(f, p.run); }
    }
  }

  lemma RenameKeepsInv(p: Plan, raw: Disk, s: State, kept: set<TempName>)
    requires Inv(p, raw, s) && s.stage.Renaming?
    ensures Inv(p, raw, Next(p, s, Step(kept)))
  {
    hide ReadBundle;
    var s', f := Next(p, s, Step(kept)), s.stage.file;
    assert TempReady(s.disk, p.run, p.after, f);
    forall g: MemoryFile
      ensures s'.disk.current.Get(g) == if g == f then Some(Inode(p.after.Get(f), true)) else s.disk.current.Get(g)
    {
    }
    forall g: MemoryFile | Place(g) <= Place(f) ensures Fresh(p, s'.disk, g) {
      if g != f { assert Fresh(p, s.disk, g); }
    }
    forall g: MemoryFile | Place(g) > Place(f) ensures TempReady(s'.disk, p.run, p.after, g) {
      assert TempReady(s.disk, p.run, p.after, g) && TempName(g, p.run) != TempName(f, p.run);
    }
  }

  lemma {:induction false} RunKeepsInv(p: Plan, raw: Disk, s: State, script: seq<Action>)
    requires Inv(p, raw, s)
    ensures Inv(p, raw, Run(p, s, script))
    decreases |script|
  {
    hide Inv, Next;
    if |script| > 0 {
      NextKeepsInv(p, raw, s, script[0]);
      RunKeepsInv(p, raw, Next(p, s, script[0]), script[1..]);
    }
  }

  lemma DoneIsWritten(p: Plan, raw: Disk, s: State)
    requires Inv(p, raw, s) && s.stage.Done?
    ensures s.disk.present && s.disk.current == s.disk.durable == Written(p.after)
    ensures Quiet(s.disk) <==> s.disk.linked
    ensures raw.linked ==> s.disk.linked
  {
    hide ReadBundle;
    forall f: MemoryFile ensures s.disk.current.Get(f) == Written(p.after).Get(f) {
      assert Fresh(p, s.disk, f);
    }
    SameFiles(s.disk.current, Written(p.after));
  }

  // ---------------------------------------------------------------- what the files hold

  /** A canonical name holds what it held at first or the whole new content, or it went with its directory. */
  predicate EntryOk(p: Plan, raw: Disk, f: MemoryFile, entry: Option<Inode>) {
    entry == raw.current.Get(f) || entry == raw.durable.Get(f) || entry == Some(Inode(p.after.Get(f), true)) ||
    (entry.None? && raw.present && !raw.linked)
  }

  ghost predicate FilesOk(p: Plan, raw: Disk, d: Disk) {
    forall f: MemoryFile :: EntryOk(p, raw, f, d.durable.Get(f)) && EntryOk(p, raw, f, d.current.Get(f))
  }

  lemma EntryHolds(p: Plan, raw: Disk, f: MemoryFile, entry: Option<Inode>)
    requires Recoverable(p) && Survives(p, raw) && EntryOk(p, raw, f, entry)
    ensures Holds(p, f, entry)
  {
    hide Holds;
    assert Holds(p, f, raw.current.Get(f)) && Holds(p, f, raw.durable.Get(f));
    assert Holds(p, f, Some(Inode(p.after.Get(f), true)));
  }

  /** What recovery reads is always one of the two contents. */
  lemma ReadIsClassifiable(p: Plan, raw: Disk, d: Disk)
    requires Recoverable(p) && Survives(p, raw) && FilesOk(p, raw, d)
    ensures Classifiable(ReadBundle(d), p.before, p.after)
  {
    hide Normal, Recoverable, Survives;
    forall f: MemoryFile ensures IsEither(ReadBundle(d), p.before, p.after, f) {
      EntryHolds(p, raw, f, d.current.Get(f));
    }
  }

  /** A power loss in any state, with any renames surviving and any unsynced content torn. */
  lemma PowerLossKeepsFiles(p: Plan, raw: Disk, s: State, damage: Damage)
    requires Recoverable(p) && Survives(p, raw) && Inv(p, raw, s) && FilesOk(p, raw, s.disk)
    ensures FilesOk(p, raw, LosePower(s.disk, damage))
  {
    hide LosePower, Recoverable, Survives, ReadBundle;
    var d, d' := s.disk, LosePower(s.disk, damage);
    PowerLossShape(d, damage);
    forall f: MemoryFile ensures EntryOk(p, raw, f, d'.current.Get(f)) && EntryOk(p, raw, f, d'.durable.Get(f)) {
      if !(d.present && !d.linked && damage.dirLost) {
        PowerLossEntry(d, damage, f);
        EntryHolds(p, raw, f, d.durable.Get(f));
        EntryHolds(p, raw, f, d.current.Get(f));
      }
    }
  }

  /** One step of the publication or of the recovery. */
  lemma StepKeepsFiles(p: Plan, raw: Disk, s: State, kept: set<TempName>)
    requires Inv(p, raw, s) && FilesOk(p, raw, s.disk)
    ensures FilesOk(p, raw, Next(p, s, Step(kept)).disk)
  {
    hide ReadBundle, MayWrite;
    var d' := Next(p, s, Step(kept)).disk;
    if s.stage.Renaming? { assert TempReady(s.disk, p.run, p.after, s.stage.file); }
    forall f: MemoryFile ensures EntryOk(p, raw, f, d'.current.Get(f)) && EntryOk(p, raw, f, d'.durable.Get(f)) {
      assert EntryOk(p, raw, f, s.disk.current.Get(f)) && EntryOk(p, raw, f, s.disk.durable.Get(f));
    }
  }

  /** The check before the first write passes when what is read is old or new. */
  lemma CheckPasses(p: Plan, raw: Disk, s: State)
    requires Recoverable(p) && Survives(p, raw) && Inv(p, raw, s) && FilesOk(p, raw, s.disk) && s.stage.Down?
    ensures MayWrite(p, s)
  {
    hide Classifiable, ReadBundle, Recoverable, Survives;
    if s.crashed { ReadIsClassifiable(p, raw, s.disk); }
  }

  /** With a bundle that reads back and a start that survives, the recovery has its way. */
  lemma {:induction false} RunKeepsFiles(p: Plan, raw: Disk, s: State, script: seq<Action>)
    requires Recoverable(p) && Survives(p, raw) && Inv(p, raw, s) && FilesOk(p, raw, s.disk) && !s.stage.Failed?
    ensures FilesOk(p, raw, Run(p, s, script).disk) && !Run(p, s, script).stage.Failed?
    decreases |script|
  {
    hide Inv, FilesOk, Recoverable, Survives, MayWrite;
    if |script| > 0 {
      var a := script[0];
      NextKeepsInv(p, raw, s, a);
      if a.PowerLoss? {
        PowerLossKeepsFiles(p, raw, s, a.damage);
      } else if a.Step? {
        StepKeepsFiles(p, raw, s, a.kept);
        if s.stage.Down? { CheckPasses(p, raw, s); }
      }
      RunKeepsFiles(p, raw, Next(p, s, a), script[1..]);
    }
  }

  lemma StartFiles(p: Plan, raw: Disk)
    ensures FilesOk(p, raw, raw)
  {
  }

  /** No canonical file is torn: each is absent or whole, and survives a crash as it is. */
  ghost predicate NeverTorn(p: Plan, raw: Disk, d: Disk) {
    forall f: MemoryFile ::
      EntryOk(p, raw, f, d.current.Get(f)) && EntryOk(p, raw, f, d.durable.Get(f)) &&
      Holds(p, f, d.current.Get(f)) && Holds(p, f, d.durable.Get(f))
  }

  /** Crash safety: whatever is killed or loses power when, the recovery never gives up, no canonical file
      is ever torn, and whoever gets to the end leaves exactly the new bundle with durable renames. It is
      safe from a later power loss exactly when the directory's own entry is durable, and that is so
      whenever it was durable before. */
  lemma CrashSafety(p: Plan, raw: Disk, script: seq<Action>)
    requires StartOk(p, raw) && Recoverable(p) && Survives(p, raw)
    ensures var s := Run(p, Start(raw), script);
      !s.stage.Failed? && NeverTorn(p, raw, s.disk) &&
      (s.stage.Done? ==>
        s.disk.current == s.disk.durable == Written(p.after) && (Quiet(s.disk) <==> s.disk.linked) &&
        (raw.linked ==> s.disk.linked))
  {
    hide Run, Recoverable, Survives, ReadBundle, Inv, Holds, EntryOk, Quiet, StartOk;
    StartInv(p, raw);
    StartFiles(p, raw);
    RunKeepsInv(p, raw, Start(raw), script);
    RunKeepsFiles(p, raw, Start(raw), script);
    var s := Run(p, Start(raw), script);
    forall f: MemoryFile ensures Holds(p, f, s.disk.current.Get(f)) && Holds(p, f, s.disk.durable.Get(f)) {
      EntryHolds(p, raw, f, s.disk.current.Get(f));
      EntryHolds(p, raw, f, s.disk.durable.Get(f));
    }
    if s.stage.Done? { DoneIsWritten(p, raw, s); }
  }

  // ---------------------------------------------------------------- getting to the end

  /** Steps to the end when nothing crashes any more. */
  function StepsLeft(stage: Stage): nat {
    match stage
    case Down => 14
    case Creating => 13
    case Linking => 12
    case Sweeping => 11
    case Writing(f) => 10 - 2 * Place(f)
    case Syncing(f) => 9 - 2 * Place(f)
    case Renaming(f) => 4 - Place(f)
    case SyncingDir => 1
    case Done => 0
    case Failed => 0
  }

  /** A process is at work, or the next one will pass its check. */
  predicate CanFinish(p: Plan, s: State) {
    !s.stage.Failed? && (s.stage.Down? ==> MayWrite(p, s))
  }

  lemma StepsDecrease(p: Plan, raw: Disk, s: State, kept: set<TempName>)
    requires Inv(p, raw, s) && CanFinish(p, s) && !s.stage.Done?
    ensures StepsLeft(Next(p, s, Step(kept)).stage) < StepsLeft(s.stage) && CanFinish(p, Next(p, s, Step(kept)))
  {
    hide ReadBundle, Classifiable, MayWrite;
    if s.stage.Renaming? { assert TempReady(s.disk, p.run, p.after, s.stage.file); }
  }

  predicate OnlySteps(script: seq<Action>) {
    forall k :: 0 <= k < |script| ==> script[k].Step?
  }

  lemma DoneStays(p: Plan, s: State, kept: set<TempName>)
    requires s.stage.Done?
    ensures Next(p, s, Step(kept)) == s
  {
  }

  /** Undisturbed steps reach the end and stay there, whatever stale files they cannot remove. */
  lemma {:induction false} StepsFinish(p: Plan, raw: Disk, s: State, script: seq<Action>)
    requires Inv(p, raw, s) && CanFinish(p, s) && OnlySteps(script) && StepsLeft(s.stage) <= |script|
    ensures Run(p, s, script).stage.Done? && Inv(p, raw, Run(p, s, script))
    decreases |script|
  {
    hide Inv, Next, CanFinish;
    if |script| > 0 {
      var action := script[0];
      NextKeepsInv(p, raw, s, action);
      if s.stage.Done? { DoneStays(p, s, action.kept); } else { StepsDecrease(p, raw, s, action.kept); }
      StepsFinish(p, raw, Next(p, s, action), script[1..]);
    } else {
      StagesEnd(p, s);
    }
  }

  lemma StagesEnd(p: Plan, s: State)
    requires CanFinish(p, s) && StepsLeft(s.stage) == 0
    ensures s.stage.Done?
  {
    hide MayWrite;
  }

  lemma Finishes(p: Plan, raw: Disk, s: State) returns (script: seq<Action>)
    requires Inv(p, raw, s) && CanFinish(p, s)
    ensures OnlySteps(script) && Run(p, s, script).stage.Done? && Inv(p, raw, Run(p, s, script))
  {
    hide Inv, Run, CanFinish;
    script := seq(14, _ => Step({}));
    StepsFinish(p, raw, s, script);
  }

  lemma StartCanFinish(p: Plan, raw: Disk)
    requires StartOk(p, raw)
    ensures CanFinish(p, Start(raw))
  {
  }

  /** However often it was interrupted, fourteen undisturbed steps bring all three files to `after`. */
  lemma RecoveryConverges(p: Plan, raw: Disk, script: seq<Action>, rest: seq<Action>)
    requires StartOk(p, raw) && Recoverable(p) && Survives(p, raw) && OnlySteps(rest) && |rest| >= 14
    ensures var end := Run(p, Run(p, Start(raw), script), rest);
      end.stage.Done? && end.disk.current == end.disk.durable == Written(p.after) &&
      (Quiet(end.disk) <==> end.disk.linked) && (raw.linked ==> end.disk.linked)
  {
    hide Inv, Run, Recoverable, Survives, StartOk, FilesOk, MayWrite;
    StartInv(p, raw);
    StartFiles(p, raw);
    RunKeepsInv(p, raw, Start(raw), script);
    RunKeepsFiles(p, raw, Start(raw), script);
    var s := Run(p, Start(raw), script);
    if s.stage.Down? { CheckPasses(p, raw, s); }
    StepsFinish(p, raw, s, rest);
    DoneIsWritten(p, raw, Run(p, s, rest));
  }

  // ---------------------------------------------------------------- undisturbed publications and refusals

  /** What an undisturbed first attempt has done besides the files: the directory is linked when it was or when
      it is new, and of the temp files only stale ones and its own are there. */
  ghost predicate Alone(p: Plan, raw: Disk, s: State) {
    var d := s.disk;
    !s.crashed &&
    match s.stage
    case Down => d == raw
    case Creating => d == raw
    case Linking => !raw.present && d.temps == raw.temps
    case Sweeping => LinkedAsFound(raw, d) && d.temps == raw.temps
    case Writing(_) => LinkedAsFound(raw, d) && OthersStale(p, raw, d)
    case Syncing(_) => LinkedAsFound(raw, d) && OthersStale(p, raw, d)
    case Renaming(f) =>
      LinkedAsFound(raw, d) && OthersStale(p, raw, d) &&
      forall g: MemoryFile :: Place(g) < Place(f) ==> TempName(g, p.run) !in d.temps
    case SyncingDir => LinkedAsFound(raw, d) && OthersStale(p, raw, d) && NoOwnTemps(p, d)
    case Done => LinkedAsFound(raw, d) && OthersStale(p, raw, d) && NoOwnTemps(p, d)
    case Failed => false
  }

  predicate LinkedAsFound(raw: Disk, d: Disk) { d.linked <==> !raw.present || raw.linked }

  ghost predicate OthersStale(p: Plan, raw: Disk, d: Disk) {
    forall n: TempName :: n in d.temps && n.run != p.run ==> n in raw.temps && d.temps[n] == raw.temps[n]
  }

  predicate NoOwnTemps(p: Plan, d: Disk) {
    forall g: MemoryFile :: TempName(g, p.run) !in d.temps
  }

  lemma StepKeepsAlone(p: Plan, raw: Disk, s: State, kept: set<TempName>)
    requires Inv(p, raw, s) && Alone(p, raw, s) && CanFinish(p, s)
    ensures Alone(p, raw, Next(p, s, Step(kept)))
  {
    hide ReadBundle, MayWrite;
    if s.stage.Renaming? {
      assert TempReady(s.disk, p.run, p.after, s.stage.file);
      RenameKeepsAlone(p, raw, s, kept);
    }
  }

  lemma RenameKeepsAlone(p: Plan, raw: Disk, s: State, kept: set<TempName>)
    requires s.stage.Renaming? && Alone(p, raw, s) && TempReady(s.disk, p.run, p.after, s.stage.file)
    ensures Alone(p, raw, Next(p, s, Step(kept)))
  {
    hide ReadBundle, MayWrite;
    var d, f := Next(p, s, Step(kept)).disk, s.stage.file;
    forall g: MemoryFile | Place(g) <= Place(f) ensures TempName(g, p.run) !in d.temps {
      if g != f { assert TempName(g, p.run) !in s.disk.temps; }
    }
  }

  lemma {:induction false} RunKeepsAlone(p: Plan, raw: Disk, s: State, script: seq<Action>)
    requires Inv(p, raw, s) && Alone(p, raw, s) && CanFinish(p, s) && OnlySteps(script)
    ensures Alone(p, raw, Run(p, s, script))
    decreases |script|
  {
    hide Inv, Next, CanFinish, Alone;
    if |script| > 0 {
      var action := script[0];
      NextKeepsInv(p, raw, s, action);
      StepKeepsAlone(p, raw, s, action.kept);
      if s.stage.Done? { DoneStays(p, s, action.kept); } else { StepsDecrease(p, raw, s, action.kept); }
      RunKeepsAlone(p, raw, Next(p, s, action), script[1..]);
    }
  }

  /** A first attempt that is left alone ends as the whole of it was written in one go: the bundle under durable
      renames, the directory linked as it was found or as a new one, and no temp file of the run. */
  lemma UndisturbedPublication(p: Plan, raw: Disk, script: seq<Action>)
    requires StartOk(p, raw) && OnlySteps(script) && |script| >= 14
    ensures var end := Run(p, Start(raw), script);
      end.stage.Done? && IsReplaced(raw, end.disk, p.after) &&
      forall n: TempName :: n in end.disk.temps ==>
        n.run != p.run && n in raw.temps && end.disk.temps[n] == raw.temps[n]
  {
    hide Run, Inv, CanFinish, StartOk;
    StartInv(p, raw);
    StartCanFinish(p, raw);
    StepsFinish(p, raw, Start(raw), script);
    RunKeepsAlone(p, raw, Start(raw), script);
    var end := Run(p, Start(raw), script);
    DoneIsWritten(p, raw, end);
    forall n: TempName | n in end.disk.temps ensures n.run != p.run {
      assert n == TempName(n.file, n.run);
    }
  }

  lemma FailedStays(p: Plan, s: State, kept: set<TempName>)
    requires s.stage.Failed?
    ensures Next(p, s, Step(kept)) == s
  {
  }

  lemma {:induction false} StaysFailed(p: Plan, s: State, script: seq<Action>)
    requires s.stage.Failed? && OnlySteps(script)
    ensures Run(p, s, script) == s
    decreases |script|
  {
    hide Next;
    if |script| > 0 {
      FailedStays(p, s, script[0].kept);
      StaysFailed(p, s, script[1..]);
    }
  }

  /** A first attempt on files that are not its base, and a recovery that finds a file neither old nor new,
      changes nothing and does not go on. */
  lemma RefusalChangesNothing(p: Plan, s: State, script: seq<Action>)
    requires s.stage.Down? && OnlySteps(script) && |script| > 0
    requires exists f: MemoryFile ::
      var read := ReadBundle(s.disk).Get(f);
      read != p.before.Get(f) && (s.crashed ==> read != p.after.Get(f))
    ensures Run(p, s, script) == State(s.disk, Failed, s.crashed)
  {
    hide Run, ReadBundle, Next;
    var f: MemoryFile :|
      var read := ReadBundle(s.disk).Get(f);
      read != p.before.Get(f) && (s.crashed ==> read != p.after.Get(f));
    RefusesAtOnce(p, s, script[0].kept, f);
    FirstStep(p, s, script);
    StaysFailed(p, Next(p, s, script[0]), script[1..]);
  }

  lemma RefusesAtOnce(p: Plan, s: State, kept: set<TempName>, f: MemoryFile)
    requires s.stage.Down?
    requires var read := ReadBundle(s.disk).Get(f);
      read != p.before.Get(f) && (s.crashed ==> read != p.after.Get(f))
    ensures Next(p, s, Step(kept)) == State(s.disk, Failed, s.crashed)
  {
    hide ReadBundle;
    assert s.crashed ==> !IsEither(ReadBundle(s.disk), p.before, p.after, f);
    assert !MayWrite(p, s);
  }

  lemma FirstStep(p: Plan, s: State, script: seq<Action>)
    requires |script| > 0
    ensures Run(p, s, script) == Run(p, Next(p, s, script[0]), script[1..])
  {
    hide Next;
  }

  lemma {:induction false} RunConcat(p: Plan, s: State, a: seq<Action>, b: seq<Action>)
    ensures Run(p, s, a + b) == Run(p, Run(p, s, a), b)
    decreases |a|
  {
    hide Next;
    if |a| == 0 {
      assert a + b == b;
    } else {
      assert (a + b)[1..] == a[1..] + b;
      RunConcat(p, Next(p, s, a[0]), a[1..], b);
    }
  }

  // ---------------------------------------------------------------- exactly when the end is durable

  /** A directory without a durable entry that nobody is about to sync. */
  predicate Unlinked(s: State) {
    s.disk.present && !s.disk.linked && !s.stage.Linking?
  }

  lemma {:induction false} StepsKeepUnlinked(p: Plan, s: State, script: seq<Action>)
    requires Unlinked(s) && OnlySteps(script)
    ensures Unlinked(Run(p, s, script))
    decreases |script|
  {
    hide MayWrite;
    if |script| > 0 {
      assert script[0].Step?;
      StepsKeepUnlinked(p, Next(p, s, script[0]), script[1..]);
    }
  }

  /** From an unlinked directory an undisturbed run ends with the bundle, and a power loss takes all of it. */
  lemma UnlinkedEndIsLost(p: Plan, raw: Disk, s: State) returns (script: seq<Action>)
    requires Inv(p, raw, s) && CanFinish(p, s) && Unlinked(s)
    ensures var end := Run(p, s, script);
      end.stage.Done? && end.disk.current == end.disk.durable == Written(p.after) && Unlinked(end) &&
      !Quiet(end.disk) && forall damage: Damage :: damage.dirLost ==> LosePower(end.disk, damage) == EMPTY_DISK
  {
    hide Inv, Run, CanFinish;
    script := Finishes(p, raw, s);
    StepsKeepUnlinked(p, s, script);
    DoneIsWritten(p, raw, Run(p, s, script));
  }

  /** A publication into a new directory, killed right after the directory was made: the recovery finds the
      directory, does not sync its entry, and ends; a power loss then takes the whole bundle. */
  lemma KilledCreationLosesBundle(p: Plan, raw: Disk) returns (script: seq<Action>)
    requires StartOk(p, raw) && !raw.present
    ensures var end := Run(p, Start(raw), script);
      end.stage.Done? && end.disk.current == end.disk.durable == Written(p.after) && Unlinked(end) &&
      !Quiet(end.disk) && forall damage: Damage :: damage.dirLost ==> LosePower(end.disk, damage) == EMPTY_DISK
  {
    hide Inv, StartOk, Run, CanFinish;
    var cut := [Step({}), Step({}), Kill];
    StartInv(p, raw);
    RunKeepsInv(p, raw, Start(raw), cut);
    CutIsUnlinked(p, raw);
    var s := Run(p, Start(raw), cut);
    var rest := UnlinkedEndIsLost(p, raw, s);
    RunConcat(p, Start(raw), cut, rest);
    script := cut + rest;
  }

  lemma CutIsUnlinked(p: Plan, raw: Disk)
    requires StartOk(p, raw) && !raw.present
    ensures var s := Run(p, Start(raw), [Step({}), Step({}), Kill]); Unlinked(s) && CanFinish(p, s)
  {
    hide ReadBundle;
    var booted, made := Next(p, Start(raw), Step({})), State(CreateDir(raw), Linking, false);
    assert booted == State(raw, Creating, false);
    assert Next(p, booted, Step({})) == made;
    var script := [Step({}), Step({}), Kill];
    assert script[1..] == [Step({}), Kill] && script[1..][1..] == [Kill] && [Kill][1..] == [];
    assert Run(p, made, [Kill]) == State(made.disk, Down, true);
    forall f: MemoryFile ensures IsEither(ReadBundle(made.disk), p.before, p.after, f) {
      assert ReadBundle(made.disk).Get(f) == ReadBundle(raw).Get(f);
    }
  }

  /** The end is durable over every sequence of steps, kills and power losses exactly when the directory's
      own entry was durable before the publication. */
  lemma DurableEndIff(p: Plan, raw: Disk)
    requires StartOk(p, raw)
    ensures raw.linked <==>
      forall script :: Run(p, Start(raw), script).stage.Done? ==> Quiet(Run(p, Start(raw), script).disk)
  {
    hide Run, Inv, Quiet, CanFinish, ReadBundle;
    StartInv(p, raw);
    StartCanFinish(p, raw);
    if raw.linked {
      forall script | Run(p, Start(raw), script).stage.Done? ensures Quiet(Run(p, Start(raw), script).disk) {
        RunKeepsInv(p, raw, Start(raw), script);
        DoneIsWritten(p, raw, Run(p, Start(raw), script));
      }
    } else if raw.present {
      var script := UnlinkedEndIsLost(p, raw, Start(raw));
    } else {
      var script := KilledCreationLosesBundle(p, raw);
    }
  }

  /** No process is killed between the creation of the directory and the sync of its entry. */
  predicate SparesLinking(p: Plan, s: State, script: seq<Action>)
    decreases |script|
  {
    |script| == 0 || (!(script[0].Kill? && s.stage.Linking?) && SparesLinking(p, Next(p, s, script[0]), script[1..]))
  }

  lemma {:induction false} SparedStaysLinked(p: Plan, s: State, script: seq<Action>)
    requires SparesLinking(p, s, script) && !Unlinked(s)
    ensures !Unlinked(Run(p, s, script))
    decreases |script|
  {
    hide MayWrite;
    if |script| > 0 {
      if script[0].PowerLoss? { PowerLossShape(s.disk, script[0].damage); }
      SparedStaysLinked(p, Next(p, s, script[0]), script[1..]);
    }
  }

  /** For a directory that was not there before, only a kill in that gap costs the durable end: without one,
      power losses and kills anywhere else leave it durable. */
  lemma SparedEndIsDurable(p: Plan, raw: Disk, script: seq<Action>)
    requires StartOk(p, raw) && (raw.present ==> raw.linked) && SparesLinking(p, Start(raw), script)
    ensures Run(p, Start(raw), script).stage.Done? ==> Quiet(Run(p, Start(raw), script).disk)
  {
    hide Run, Inv, Quiet, ReadBundle;
    StartInv(p, raw);
    RunKeepsInv(p, raw, Start(raw), script);
    SparedStaysLinked(p, Start(raw), script);
    if Run(p, Start(raw), script).stage.Done? { DoneIsWritten(p, raw, Run(p, Start(raw), script)); }
  }

  // ---------------------------------------------------------------- exactly when recovery is safe

  /** A file that is blank but not empty, over a file that was not empty: a crash after the last rename
      is enough for recovery to give up. */
  lemma UnrecoverableFails(p: Plan, raw: Disk) returns (script: seq<Action>)
    requires StartOk(p, raw) && !Recoverable(p)
    ensures Run(p, Start(raw), script).stage.Failed?
  {
    hide Run, Next, Inv, StartOk, CanFinish, Recoverable;
    StartInv(p, raw);
    StartCanFinish(p, raw);
    var publish := Finishes(p, raw, Start(raw));
    var done := Run(p, Start(raw), publish);
    var tail := [PowerLoss(NO_DAMAGE), Step({})];
    RunConcat(p, Start(raw), publish, tail);
    DoneIsWritten(p, raw, done);
    AfterCrashFails(p, done);
    script := publish + tail;
  }

  lemma AfterCrashFails(p: Plan, done: State)
    requires done.disk.current == Written(p.after) && !Recoverable(p)
    ensures Run(p, done, [PowerLoss(NO_DAMAGE), Step({})]).stage.Failed?
  {
    hide LosePower;
    var f: MemoryFile :| !Holds(p, f, Some(Inode(p.after.Get(f), true)));
    PowerLossEntry(done.disk, NO_DAMAGE, f);
    FailsAtOnce(p, done, NO_DAMAGE, f);
  }

  /** A power loss that leaves anything but the old or the new content stops the recovery. */
  lemma FailsAtOnce(p: Plan, s: State, damage: Damage, f: MemoryFile)
    requires !IsOld(p, f, ReadFileOrEmpty(LosePower(s.disk, damage).current.Get(f)))
    ensures Run(p, s, [PowerLoss(damage), Step({})]).stage.Failed?
  {
    hide LosePower, Normal;
    var crashed := State(LosePower(s.disk, damage), Down, true);
    PowerLossIs(p, s, damage);
    assert !IsEither(ReadBundle(crashed.disk), p.before, p.after, f);
    var script := [PowerLoss(damage), Step({})];
    assert script[1..] == [Step({})] && [Step({})][1..] == [];
    assert Next(p, crashed, Step({})).stage.Failed?;
  }

  /** A power loss right after the publication began. */
  lemma EarlyLossFails(p: Plan, raw: Disk, damage: Damage, f: MemoryFile)
    requires StartOk(p, raw) && !IsOld(p, f, ReadFileOrEmpty(LosePower(raw, damage).current.Get(f)))
    ensures Run(p, Start(raw), [Step({}), PowerLoss(damage), Step({})]).stage.Failed?
  {
    hide LosePower, Normal;
    var begun := State(raw, Creating, false);
    FailsAtOnce(p, begun, damage, f);
    var script := [Step({}), PowerLoss(damage), Step({})];
    assert script[1..] == [PowerLoss(damage), Step({})] && Next(p, Start(raw), Step({})) == begun;
  }

  /** A directory without a durable entry, with a file that is empty neither before nor after: a power loss
      takes the directory, the recovery reads an empty file, and gives up. */
  lemma UnlinkedStartFails(p: Plan, raw: Disk, damage: Damage, f: MemoryFile)
    requires StartOk(p, raw) && raw.present && !raw.linked && damage.dirLost
    requires p.before.Get(f) != "" && p.after.Get(f) != ""
    ensures Run(p, Start(raw), [Step({}), PowerLoss(damage), Step({})]).stage.Failed?
  {
    EarlyLossFails(p, raw, damage, f);
  }

  /** Two publications in a row: a kill during the first, into a new directory, leaves the second one with a
      start from which a power loss makes the recovery give up. */
  lemma KilledCreationStopsNextRecovery(p: Plan, raw: Disk, q: Plan, f: MemoryFile)
    returns (first: seq<Action>, second: seq<Action>)
    requires StartOk(p, raw) && !raw.present && q.before == NormalBundle(p.after)
    requires q.before.Get(f) != "" && q.after.Get(f) != ""
    ensures var end := Run(p, Start(raw), first);
      end.stage.Done? && StartOk(q, end.disk) && Run(q, Start(end.disk), second).stage.Failed?
  {
    hide Run, LosePower, Quiet;
    first := KilledCreationLosesBundle(p, raw);
    var end := Run(p, Start(raw), first);
    WrittenReads(end.disk, p.after);
    var damage := NO_DAMAGE.(dirLost := true);
    second := [Step({}), PowerLoss(damage), Step({})];
    UnlinkedStartFails(q, end.disk, damage, f);
  }

  lemma WrittenReads(d: Disk, bundle: MemoryBundle)
    requires d.current == Written(bundle)
    ensures ReadBundle(d) == NormalBundle(bundle)
  {
    hide Normal;
  }

  /** Any start that does not survive has its power loss. */
  lemma UnsettledStartFails(p: Plan, raw: Disk) returns (script: seq<Action>)
    requires StartOk(p, raw) && !Survives(p, raw)
    ensures Run(p, Start(raw), script).stage.Failed?
  {
    hide Run, LosePower, Normal, Holds;
    var damage, f := BadLoss(p, raw);
    EarlyLossFails(p, raw, damage, f);
    script := [Step({}), PowerLoss(damage), Step({})];
  }

  lemma BadLoss(p: Plan, raw: Disk) returns (damage: Damage, f: MemoryFile)
    requires StartOk(p, raw) && !Survives(p, raw)
    ensures !IsOld(p, f, ReadFileOrEmpty(LosePower(raw, damage).current.Get(f)))
  {
    hide LosePower, Normal, ReadBundle;
    if f1: MemoryFile :| !Holds(p, f1, raw.current.Get(f1)) {
      f := f1;
      damage := BadEntry(p, raw, f, true);
    } else if f2: MemoryFile :| !Holds(p, f2, raw.durable.Get(f2)) {
      f := f2;
      damage := BadEntry(p, raw, f, false);
    } else {
      f :| !Holds(p, f, None);
      damage := NO_DAMAGE.(dirLost := true);
      PowerLossShape(raw, damage);
    }
  }

  /** An entry that does not hold, seen or durable, comes to light. */
  lemma BadEntry(p: Plan, raw: Disk, f: MemoryFile, seen: bool) returns (damage: Damage)
    requires !Holds(p, f, if seen then raw.current.Get(f) else raw.durable.Get(f))
    ensures !IsOld(p, f, ReadFileOrEmpty(LosePower(raw, damage).current.Get(f)))
  {
    hide LosePower;
    var other := "x" + p.before.Get(f) + p.after.Get(f);
    damage := Damage(false, (_: MemoryFile) => seen, (i: Inode) => other, {});
    PowerLossEntry(raw, damage, f);
    assert other[0] == 'x' && !IsBlank(other) && |other| > |p.before.Get(f)| && |other| > |p.after.Get(f)|;
  }

  /** Recovery never gives up, over all kills and power losses, exactly for bundles that read back and starts
      that survive. */
  lemma RecoverySafeIff(p: Plan, raw: Disk)
    requires StartOk(p, raw)
    ensures Recoverable(p) && Survives(p, raw) <==> forall script :: !Run(p, Start(raw), script).stage.Failed?
  {
    hide Run, Recoverable, StartOk, Survives;
    if Recoverable(p) && Survives(p, raw) {
      forall script ensures !Run(p, Start(raw), script).stage.Failed? { CrashSafety(p, raw, script); }
    } else if !Recoverable(p) {
      var script := UnrecoverableFails(p, raw);
    } else {
      var script := UnsettledStartFails(p, raw);
    }
  }
}
