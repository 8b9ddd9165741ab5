/** Loads and publications of one agent's memory from any number of threads, and edits from outside
    (`src/memory.rs`): every file read, file replacement and cache access is one step, and only the
    per-agent lock keeps the threads apart. */
module MemoryReaders {
  import opened Text
  import opened Memory

  /** Where a thread stands. A load reads the cache, and on a miss the three files, then warms the cache;
      a publication reads the three files, then replaces them, then refreshes the cache. `soFar` holds
      what was read, and is meaningful only for the files before `file`. */
  datatype Thread =
    | Idle
    | ReadingCache
    | ReadingFile(file: MemoryFile, soFar: MemoryBundle)
    | Warming(bundle: MemoryBundle)
    | Returning(bundle: MemoryBundle)
    | Checking(base: MemoryBundle, candidate: MemoryBundle, file: MemoryFile, soFar: MemoryBundle)
    | Comparing(base: MemoryBundle, candidate: MemoryBundle, current: MemoryBundle)
    | Replacing(base: MemoryBundle, candidate: MemoryBundle, file: MemoryFile)
    | Refreshing(base: MemoryBundle, candidate: MemoryBundle)

  /** What callers were told, in order. */
  datatype Answer =
    | Loaded(bundle: MemoryBundle)
    | Replaced(base: MemoryBundle, candidate: MemoryBundle)
    | Refused(base: MemoryBundle)

  /** `initial` is what the files read as at first; the lock is held by `readers` or by `writer`. */
  datatype Shared = Shared(
    initial: MemoryBundle, files: Files<string>, cache: Option<MemoryBundle>,
    readers: set<nat>, writer: Option<nat>, threads: map<nat, Thread>, log: seq<Answer>)

  /** `Edit` is made by somebody who takes no lock. */
  datatype Action =
    | BeginLoad
    | BeginPublish(base: MemoryBundle, candidate: MemoryBundle)
    | Advance
    | Edit(file: MemoryFile, content: string)

  const NOTHING: MemoryBundle := Files("", "", "")

  function ThreadOf(s: Shared, t: nat): Thread {
    if t in s.threads then s.threads[t] else Idle
  }

  function Goto(s: Shared, t: nat, thread: Thread): Shared { s.(threads := s.threads[t := thread]) }

  function Finish(s: Shared, t: nat, answer: Answer): Shared {
    Goto(s, t, Idle).(
      readers := s.readers - {t}, writer := if s.writer == Some(t) then None else s.writer, log := s.log + [answer])
  }

  /** One step of thread `t`; what is not enabled, as taking a lock that is held, does nothing. */
  function Next(s: Shared, t: nat, action: Action): Shared {
    match (ThreadOf(s, t), action)
    case (_, Edit(file, content)) => s.(files := s.files.Set(file, content))
    case (Idle, BeginLoad) =>
      if s.writer.Some? then s else Goto(s, t, ReadingCache).(readers := s.readers + {t})
    case (Idle, BeginPublish(base, candidate)) =>
      if s.writer.Some? || s.readers != {} then s
      else Goto(s, t, Checking(base, candidate, Episodic, NOTHING)).(writer := Some(t))
    case (ReadingCache, Advance) =>
      Goto(s, t, if s.cache.Some? then Returning(s.cache.value) else ReadingFile(Episodic, NOTHING))
    case (ReadingFile(file, soFar), Advance) =>
      var read := soFar.Set(file, Normal(s.files.Get(file)));
      Goto(s, t, if Following(file).Some? then ReadingFile(Following(file).value, read) else Warming(read))
    case (Warming(bundle), Advance) => Goto(s, t, Returning(bundle)).(cache := Some(bundle))
    case (Returning(bundle), Advance) => Finish(s, t, Loaded(bundle))
    case (Checking(base, candidate, file, soFar), Advance) =>
      var read := soFar.Set(file, Normal(s.files.Get(file)));
      Goto(s, t,
        if Following(file).Some? then Checking(base, candidate, Following(file).value, read)
        else Comparing(base, candidate, read))
    case (Comparing(base, candidate, current), Advance) =>
      if current == base then Goto(s, t, Replacing(base, candidate, Episodic))
      else Finish(s.(cache := Some(current)), t, Refused(base))
    case (Replacing(base, candidate, file), Advance) =>
      var replaced := s.(files := s.files.Set(file, candidate.Get(file)));
      Goto(replaced, t,
        if Following(file).Some? then Replacing(base, candidate, Following(file).value)
        else Refreshing(base, candidate))
    case (Refreshing(base, candidate), Advance) =>
      Finish(s.(cache := Some(candidate)), t, Replaced(base, candidate))
    case _ => s
  }

  function Run(s: Shared, script: seq<(nat, Action)>): Shared
    decreases |script|
  {
    if |script| == 0 then s else Run(Next(s, script[0].0, script[0].1), script[1..])
  }

  predicate NoEdits(script: seq<(nat, Action)>) {
    forall k :: 0 <= k < |script| ==> !script[k].1.Edit?
  }

  /** A cold start: nobody holds the lock, and the cache is empty. */
  function ColdStart(files: Files<string>): Shared {
    Shared(NormalBundle(files), files, None, {}, None, map[], [])
  }

  // ---------------------------------------------------------------- what the answers mean

  /** The bundle of the last completed publication, or the initial one. */
  function Latest(initial: MemoryBundle, log: seq<Answer>): MemoryBundle {
    if |log| == 0 then initial
    else if log[|log| - 1].Replaced? then log[|log| - 1].candidate
    else Latest(initial, log[..|log| - 1])
  }

  /** `b` is `published`, possibly read back from disk, where a blank file counts as empty. */
  predicate Shows(b: MemoryBundle, published: MemoryBundle) {
    b == published || b == NormalBundle(published)
  }

  /** A load returns the published bundle, never a mix; a publication replaces exactly the bundle it was
      based on, and is refused exactly when it was based on another one. */
  predicate AnswerOk(published: MemoryBundle, answer: Answer) {
    match answer
    case Loaded(bundle) => Shows(bundle, published)
    case Replaced(base, _) => base == NormalBundle(published)
    case Refused(base) => base != NormalBundle(published)
  }

  predicate LogOk(initial: MemoryBundle, log: seq<Answer>) {
    forall k :: 0 <= k < |log| ==> AnswerOk(Latest(initial, log[..k]), log[k])
  }

  function Published(s: Shared): MemoryBundle { Latest(s.initial, s.log) }

  // ---------------------------------------------------------------- the invariant

  predicate Reads(thread: Thread) {
    thread.ReadingCache? || thread.ReadingFile? || thread.Warming? || thread.Returning?
  }

  predicate Writes(thread: Thread) {
    thread.Checking? || thread.Comparing? || thread.Replacing? || thread.Refreshing?
  }

  /** Readers and the writer hold the lock exactly while they work, and never at the same time. */
  ghost predicate LockOk(s: Shared) {
    (forall t: nat :: t in s.readers <==> Reads(ThreadOf(s, t))) &&
    (forall t: nat :: s.writer == Some(t) <==> Writes(ThreadOf(s, t))) &&
    (s.writer.Some? ==> s.readers == {})
  }

  predicate ReadSoFar(files: Files<string>, file: MemoryFile, soFar: MemoryBundle) {
    forall g: MemoryFile :: Place(g) < Place(file) ==> soFar.Get(g) == Normal(files.Get(g))
  }

  predicate ThreadOk(s: Shared, thread: Thread) {
    match thread
    case Idle => true
    case ReadingCache => true
    case ReadingFile(file, soFar) => ReadSoFar(s.files, file, soFar)
    case Warming(bundle) => bundle == NormalBundle(s.files)
    case Returning(bundle) => Shows(bundle, Published(s))
    case Checking(_, _, file, soFar) => ReadSoFar(s.files, file, soFar)
    case Comparing(_, _, current) => current == NormalBundle(s.files)
    case Replacing(base, candidate, file) =>
      base == NormalBundle(Published(s)) &&
      forall g: MemoryFile :: Place(g) < Place(file) ==> s.files.Get(g) == candidate.Get(g)
    case Refreshing(base, candidate) => base == NormalBundle(Published(s)) && s.files == candidate
  }

  predicate IsReplacing(s: Shared) {
    s.writer.Some? && (ThreadOf(s, s.writer.value).Replacing? || ThreadOf(s, s.writer.value).Refreshing?)
  }

  /** Outside a replacement the files read as the published bundle, and a warm cache always shows it. */
  predicate ContentOk(s: Shared) {
    (s.cache.Some? ==> Shows(s.cache.value, Published(s))) &&
    (!IsReplacing(s) ==> NormalBundle(s.files) == NormalBundle(Published(s)))
  }

  ghost predicate Inv(s: Shared) {
    LockOk(s) && ContentOk(s) && LogOk(s.initial, s.log) && forall t: nat :: ThreadOk(s, ThreadOf(s, t))
  }

  lemma NormalTwice(b: MemoryBundle)
    ensures NormalBundle(NormalBundle(b)) == NormalBundle(b)
  {
  }

  lemma ColdStartInv(files: Files<string>)
    ensures Inv(ColdStart(files))
  {
    NormalTwice(files);
  }

  lemma LogGrows(initial: MemoryBundle, log: seq<Answer>, answer: Answer)
    requires LogOk(initial, log) && AnswerOk(Latest(initial, log), answer)
    ensures LogOk(initial, log + [answer])
    ensures Latest(initial, log + [answer]) == if answer.Replaced? then answer.candidate else Latest(initial, log)
  {
    hide AnswerOk;
    var all := log + [answer];
    assert all[..|log|] == log;
    forall k | 0 <= k < |all| ensures AnswerOk(Latest(initial, all[..k]), all[k]) {
      if k < |log| { assert all[..k] == log[..k]; }
    }
  }

  lemma ReadStep(files: Files<string>, file: MemoryFile, soFar: MemoryBundle)
    requires ReadSoFar(files, file, soFar)
    ensures var read := soFar.Set(file, Normal(files.Get(file)));
      if Following(file).Some? then ReadSoFar(files, Following(file).value, read) else read == NormalBundle(files)
  {
    hide Normal;
    var read := soFar.Set(file, Normal(files.Get(file)));
    if file.Prospective? {
      forall g: MemoryFile ensures read.Get(g) == NormalBundle(files).Get(g) {
      }
      SameFiles(read, NormalBundle(files));
    }
  }

  /** Locks change hands, nothing else. */
  lemma BeginKeepsInv(s: Shared, t: nat, action: Action)
    requires Inv(s) && !action.Advance? && !action.Edit?
    ensures Inv(Next(s, t, action))
  {
    hide NormalBundle, Shows, LogOk, Latest;
    var s' := Next(s, t, action);
    forall u: nat ensures ThreadOk(s', ThreadOf(s', u)) {
      assert ThreadOk(s, ThreadOf(s, u));
    }
  }

  lemma LoadKeepsInv(s: Shared, t: nat)
    requires Inv(s) && Reads(ThreadOf(s, t)) && !ThreadOf(s, t).Returning?
    ensures Inv(Next(s, t, Advance))
  {
    hide NormalBundle, Shows, LogOk, Latest, ReadSoFar;
    var s', thread := Next(s, t, Advance), ThreadOf(s, t);
    assert ThreadOk(s, thread);
    if thread.ReadingFile? { ReadStep(s.files, thread.file, thread.soFar); }
    if thread.ReadingCache? { NothingRead(s.files); }
    NormalShows(s);
    forall u: nat ensures ThreadOk(s', ThreadOf(s', u)) {
      assert ThreadOk(s, ThreadOf(s, u));
    }
  }

  lemma NothingRead(files: Files<string>)
    ensures ReadSoFar(files, Episodic, NOTHING)
  {
  }

  lemma NormalShows(s: Shared)
    ensures NormalBundle(s.files) == NormalBundle(Published(s)) ==> Shows(NormalBundle(s.files), Published(s))
  {
  }

  lemma ReturnKeepsInv(s: Shared, t: nat)
    requires Inv(s) && ThreadOf(s, t).Returning?
    ensures Inv(Next(s, t, Advance))
  {
    hide NormalBundle, Shows, LogOk, Latest, ReadSoFar;
    var s', thread := Next(s, t, Advance), ThreadOf(s, t);
    assert ThreadOk(s, thread);
    LogGrows(s.initial, s.log, Loaded(thread.bundle));
    forall u: nat ensures ThreadOk(s', ThreadOf(s', u)) {
      assert ThreadOk(s, ThreadOf(s, u));
    }
  }

  /** While one thread writes, every other one is idle. */
  lemma OthersIdle(s: Shared, t: nat, u: nat)
    requires LockOk(s) && Writes(ThreadOf(s, t)) && u != t
    ensures ThreadOf(s, u).Idle?
  {
    assert s.writer == Some(t);
    assert u !in s.readers && s.writer != Some(u);
  }

  lemma CheckKeepsInv(s: Shared, t: nat)
    requires Inv(s) && (ThreadOf(s, t).Checking? || ThreadOf(s, t).Comparing?)
    ensures Inv(Next(s, t, Advance))
  {
    hide NormalBundle, Shows, LogOk, Latest, ReadSoFar;
    var s', thread := Next(s, t, Advance), ThreadOf(s, t);
    assert ThreadOk(s, thread) && s.writer == Some(t);
    if thread.Checking? {
      ReadStep(s.files, thread.file, thread.soFar);
    } else if thread.current != thread.base {
      LogGrows(s.initial, s.log, Refused(thread.base));
    }
    NormalShows(s);
    forall u: nat ensures ThreadOk(s', ThreadOf(s', u)) {
      if u != t { OthersIdle(s, t, u); }
    }
  }

  lemma ReplaceKeepsInv(s: Shared, t: nat)
    requires Inv(s) && (ThreadOf(s, t).Replacing? || ThreadOf(s, t).Refreshing?)
    ensures Inv(Next(s, t, Advance))
  {
    hide NormalBundle, LogOk, Latest, ReadSoFar;
    var s', thread := Next(s, t, Advance), ThreadOf(s, t);
    assert ThreadOk(s, thread) && s.writer == Some(t);
    if thread.Refreshing? {
      LogGrows(s.initial, s.log, Replaced(thread.base, thread.candidate));
    } else if thread.file.Prospective? {
      forall g: MemoryFile ensures s'.files.Get(g) == thread.candidate.Get(g) {
      }
      SameFiles(s'.files, thread.candidate);
    }
    forall u: nat ensures ThreadOk(s', ThreadOf(s', u)) {
      if u != t { OthersIdle(s, t, u); }
    }
  }

  lemma NextKeepsInv(s: Shared, t: nat, action: Action)
    requires Inv(s) && !action.Edit?
    ensures Inv(Next(s, t, action)) && Next(s, t, action).initial == s.initial
  {
    hide Inv, Shows, LogOk, Latest, NormalBundle, Normal;
    var thread := ThreadOf(s, t);
    if !action.Advance? {
      BeginKeepsInv(s, t, action);
    } else if thread.Returning? {
      ReturnKeepsInv(s, t);
    } else if Reads(thread) {
      LoadKeepsInv(s, t);
    } else if thread.Checking? || thread.Comparing? {
      CheckKeepsInv(s, t);
    } else if Writes(thread) {
      ReplaceKeepsInv(s, t);
    }
  }

  lemma {:induction false} RunKeepsInv(s: Shared, script: seq<(nat, Action)>)
    requires Inv(s) && NoEdits(script)
    ensures Inv(Run(s, script)) && Run(s, script).initial == s.initial
    decreases |script|
  {
    hide Inv, Next;
    if |script| > 0 {
      NextKeepsInv(s, script[0].0, script[0].1);
      RunKeepsInv(Next(s, script[0].0, script[0].1), script[1..]);
    }
  }

  /** In every interleaving from a cold cache without outside edits: each load returns the bundle of the last completed
      publication or the initial one, no publication is lost under another, and a publication is refused
      only when its base is not what is published. */
  lemma ReadsAreNeverTorn(files: Files<string>, script: seq<(nat, Action)>, k: nat)
    requires NoEdits(script) && k < |Run(ColdStart(files), script).log|
    ensures var log := Run(ColdStart(files), script).log;
      AnswerOk(Latest(NormalBundle(files), log[..k]), log[k])
  {
    hide Run, AnswerOk, Latest, NormalBundle;
    ColdStartInv(files);
    RunKeepsInv(ColdStart(files), script);
  }

  /** For bundles without blank-only files, which is what loads return, the last publication is returned
      as it was written. */
  lemma LoadsAreExact(files: Files<string>, script: seq<(nat, Action)>, k: nat)
    requires NoEdits(script) && k < |Run(ColdStart(files), script).log| && Run(ColdStart(files), script).log[k].Loaded?
    requires var published := Latest(NormalBundle(files), Run(ColdStart(files), script).log[..k]);
      NormalBundle(published) == published
    ensures var log := Run(ColdStart(files), script).log;
      log[k].bundle == Latest(NormalBundle(files), log[..k])
  {
    hide Run, Latest, NormalBundle;
    ReadsAreNeverTorn(files, script, k);
  }

  // ---------------------------------------------------------------- one thread left alone

  /** Thread `t` goes on for `n` steps while nobody else does anything. */
  function Advanced(s: Shared, t: nat, n: nat): Shared
    decreases n
  {
    if n == 0 then s else Advanced(Next(s, t, Advance), t, n - 1)
  }

  /** The same, as a run. */
  lemma {:induction false} AdvancedRuns(s: Shared, t: nat, n: nat)
    ensures Run(s, seq(n, _ => (t, Advance))) == Advanced(s, t, n)
    decreases n
  {
    hide Next;
    var script := seq(n, _ => (t, Advance));
    if n > 0 {
      assert script[1..] == seq(n - 1, _ => (t, Advance));
      AdvancedRuns(Next(s, t, Advance), t, n - 1);
    }
  }

  lemma AdvancedStep(s: Shared, t: nat, n: nat)
    requires n > 0
    ensures Advanced(s, t, n) == Advanced(Next(s, t, Advance), t, n - 1)
  {
    hide Next;
  }

  lemma {:induction false} IdleStays(s: Shared, t: nat, n: nat)
    requires ThreadOf(s, t).Idle?
    ensures Advanced(s, t, n) == s
    decreases n
  {
    if n > 0 { IdleStays(s, t, n - 1); }
  }

  /** Nothing but the work of thread `t` has changed. */
  ghost predicate OnlyWorked(s: Shared, now: Shared, t: nat) {
    now.initial == s.initial && forall u: nat :: u != t ==> ThreadOf(now, u) == ThreadOf(s, u)
  }

  /** Thread `t` is done with what it began in `s`, and let go of the lock. */
  ghost predicate Over(s: Shared, now: Shared, t: nat) {
    OnlyWorked(s, now, t) && ThreadOf(now, t).Idle? && now.readers == s.readers && now.writer == None
  }

  /** Reading files from `file` on. */
  lemma {:induction false} ReadsOn(s: Shared, t: nat, file: MemoryFile, soFar: MemoryBundle, n: nat)
    requires ThreadOf(s, t) == ReadingFile(file, soFar) && ReadSoFar(s.files, file, soFar) && n >= 3 - Place(file)
    ensures Advanced(s, t, n) ==
      Advanced(Goto(s, t, Warming(NormalBundle(s.files))), t, n - (3 - Place(file)))
    decreases 3 - Place(file)
  {
    hide Normal, NormalBundle, ReadSoFar;
    ReadStep(s.files, file, soFar);
    AdvancedStep(s, t, n);
    var next := Next(s, t, Advance);
    if Following(file).Some? {
      ReadsOn(next, t, Following(file).value, ThreadOf(next, t).soFar, n - 1);
      assert next.threads[t := Warming(NormalBundle(s.files))] == s.threads[t := Warming(NormalBundle(s.files))];
    }
  }

  /** A load that is left alone gives what the cache holds, or else what is on disk, which then is cached. */
  lemma UndisturbedLoad(s: Shared, t: nat, n: nat)
    requires ThreadOf(s, t).Idle? && s.writer.None? && t !in s.readers && n >= 6
    ensures var now := Advanced(Next(s, t, BeginLoad), t, n);
      var loaded := if s.cache.Some? then s.cache.value else NormalBundle(s.files);
      Over(s, now, t) && now.log == s.log + [Loaded(loaded)] && now.cache == Some(loaded) && now.files == s.files
  {
    hide Normal, NormalBundle, Advanced, ReadSoFar;
    var begun := Next(s, t, BeginLoad);
    var looked := Next(begun, t, Advance);
    AdvancedStep(begun, t, n);
    if s.cache.Some? {
      AdvancedStep(looked, t, n - 1);
      IdleStays(Next(looked, t, Advance), t, n - 2);
    } else {
      NothingRead(s.files);
      ReadsOn(looked, t, Episodic, NOTHING, n - 1);
      var warming := Goto(looked, t, Warming(NormalBundle(s.files)));
      AdvancedStep(warming, t, n - 4);
      AdvancedStep(Next(warming, t, Advance), t, n - 5);
      IdleStays(Next(Next(warming, t, Advance), t, Advance), t, n - 6);
    }
  }

  lemma {:induction false} ChecksOn(
      s: Shared, t: nat, base: MemoryBundle, candidate: MemoryBundle, file: MemoryFile, soFar: MemoryBundle, n: nat)
    requires ThreadOf(s, t) == Checking(base, candidate, file, soFar) && ReadSoFar(s.files, file, soFar)
    requires n >= 3 - Place(file)
    ensures Advanced(s, t, n) ==
      Advanced(Goto(s, t, Comparing(base, candidate, NormalBundle(s.files))), t, n - (3 - Place(file)))
    decreases 3 - Place(file)
  {
    hide Normal, NormalBundle, ReadSoFar;
    ReadStep(s.files, file, soFar);
    AdvancedStep(s, t, n);
    var next := Next(s, t, Advance);
    if Following(file).Some? {
      ChecksOn(next, t, base, candidate, Following(file).value, ThreadOf(next, t).soFar, n - 1);
      var read := Comparing(base, candidate, NormalBundle(s.files));
      assert next.threads[t := read] == s.threads[t := read];
    }
  }

  lemma {:induction false} ReplacesOn(
      s: Shared, t: nat, base: MemoryBundle, candidate: MemoryBundle, file: MemoryFile, n: nat)
    requires ThreadOf(s, t) == Replacing(base, candidate, file) && n >= 3 - Place(file)
    requires forall g: MemoryFile :: Place(g) < Place(file) ==> s.files.Get(g) == candidate.Get(g)
    ensures Advanced(s, t, n) ==
      Advanced(Goto(s.(files := candidate), t, Refreshing(base, candidate)), t, n - (3 - Place(file)))
    decreases 3 - Place(file)
  {
    AdvancedStep(s, t, n);
    var next := Next(s, t, Advance);
    if Following(file).Some? {
      ReplacesOn(next, t, base, candidate, Following(file).value, n - 1);
      assert next.threads[t := Refreshing(base, candidate)] == s.threads[t := Refreshing(base, candidate)];
    } else {
      SameFiles(next.files, candidate);
    }
  }

  /** A publication that is left alone replaces the files when they read as its base, and else only aligns the
      cache with them. */
  lemma UndisturbedPublication(s: Shared, t: nat, base: MemoryBundle, candidate: MemoryBundle, n: nat)
    requires ThreadOf(s, t).Idle? && s.writer.None? && s.readers == {} && n >= 8
    ensures var now := Advanced(Next(s, t, BeginPublish(base, candidate)), t, n);
      Over(s, now, t) &&
      if base == NormalBundle(s.files) then
        now.files == candidate && now.cache == Some(candidate) && now.log == s.log + [Replaced(base, candidate)]
      else
        now.files == s.files && now.cache == Some(NormalBundle(s.files)) && now.log == s.log + [Refused(base)]
  {
    hide Normal, NormalBundle, Advanced, ReadSoFar;
    var begun, found := Next(s, t, BeginPublish(base, candidate)), NormalBundle(s.files);
    NothingRead(s.files);
    ChecksOn(begun, t, base, candidate, Episodic, NOTHING, n);
    var compared := Goto(begun, t, Comparing(base, candidate, found));
    AdvancedStep(compared, t, n - 3);
    var decided := Next(compared, t, Advance);
    if base == found {
      ReplacesOn(decided, t, base, candidate, Episodic, n - 4);
      var replaced := Goto(decided.(files := candidate), t, Refreshing(base, candidate));
      AdvancedStep(replaced, t, n - 7);
      IdleStays(Next(replaced, t, Advance), t, n - 8);
    } else {
      IdleStays(decided, t, n - 4);
    }
  }

  // ---------------------------------------------------------------- outside edits

  /** The lock is kept whatever is edited. */
  lemma NextKeepsLock(s: Shared, t: nat, action: Action)
    requires LockOk(s)
    ensures LockOk(Next(s, t, action))
  {
    hide NormalBundle, Normal;
    var s' := Next(s, t, action);
    forall u: nat | u != t ensures ThreadOf(s', u) == ThreadOf(s, u) {
    }
  }

  lemma {:induction false} RunKeepsLock(s: Shared, script: seq<(nat, Action)>)
    requires LockOk(s)
    ensures LockOk(Run(s, script))
    decreases |script|
  {
    hide LockOk, Next;
    if |script| > 0 {
      NextKeepsLock(s, script[0].0, script[0].1);
      RunKeepsLock(Next(s, script[0].0, script[0].1), script[1..]);
    }
  }

  /** Thread `t` holds the lock for a publication that found `files`. */
  ghost predicate Attempt(s: Shared, t: nat, files: Files<string>, base: MemoryBundle) {
    LockOk(s) && s.writer == Some(t) &&
    match ThreadOf(s, t)
    case Checking(b, _, file, soFar) => b == base && s.files == files && ReadSoFar(files, file, soFar)
    case Comparing(b, _, current) => b == base && s.files == files && current == NormalBundle(files)
    case Replacing(_, _, _) => true
    case Refreshing(_, _) => true
    case _ => false
  }

  lemma AttemptStep(s: Shared, t: nat, files: Files<string>, base: MemoryBundle, u: nat, action: Action)
    requires Attempt(s, t, files, base) && !action.Edit?
    ensures s.log <= Next(s, u, action).log
    ensures Next(s, u, action).log == s.log ==> Attempt(Next(s, u, action), t, files, base)
  {
    hide NormalBundle, ReadSoFar, LockOk;
    NextKeepsLock(s, u, action);
    assert Writes(ThreadOf(s, t)) && s.writer == Some(t);
    if u != t {
      OthersIdle(s, t, u);
    } else if ThreadOf(s, t).Checking? {
      ReadStep(files, ThreadOf(s, t).file, ThreadOf(s, t).soFar);
    }
  }

  lemma LogOnlyGrows(s: Shared, t: nat, action: Action)
    ensures s.log <= Next(s, t, action).log
  {
    hide NormalBundle, Normal;
  }

  lemma {:induction false} RunLogGrows(s: Shared, script: seq<(nat, Action)>)
    ensures s.log <= Run(s, script).log
    decreases |script|
  {
    hide Next;
    if |script| > 0 {
      LogOnlyGrows(s, script[0].0, script[0].1);
      RunLogGrows(Next(s, script[0].0, script[0].1), script[1..]);
    }
  }

  lemma {:induction false} AttemptRun(
      s: Shared, t: nat, files: Files<string>, base: MemoryBundle, script: seq<(nat, Action)>)
    requires Attempt(s, t, files, base) && NoEdits(script) && Run(s, script).log == s.log
    ensures Attempt(Run(s, script), t, files, base)
    decreases |script|
  {
    hide Attempt, Next;
    if |script| > 0 {
      var next := Next(s, script[0].0, script[0].1);
      AttemptStep(s, t, files, base, script[0].0, script[0].1);
      RunLogGrows(next, script[1..]);
      AttemptRun(next, t, files, base, script[1..]);
    }
  }

  /** The same state with other first answers. */
  function Shift(s: Shared, initial: MemoryBundle, before: seq<Answer>): Shared {
    s.(initial := initial, log := before + s.log)
  }

  lemma ShiftFinish(s: Shared, initial: MemoryBundle, before: seq<Answer>, t: nat, answer: Answer)
    ensures Finish(Shift(s, initial, before), t, answer) == Shift(Finish(s, t, answer), initial, before)
  {
    assert before + (s.log + [answer]) == before + s.log + [answer];
  }

  lemma ShiftStep(s: Shared, initial: MemoryBundle, before: seq<Answer>, t: nat, action: Action)
    ensures Next(Shift(s, initial, before), t, action) == Shift(Next(s, t, action), initial, before)
  {
    hide NormalBundle, Normal, Finish;
    match ThreadOf(s, t) {
      case Returning(bundle) => ShiftFinish(s, initial, before, t, Loaded(bundle));
      case Comparing(base, _, current) => ShiftFinish(s.(cache := Some(current)), initial, before, t, Refused(base));
      case Refreshing(base, candidate) =>
        ShiftFinish(s.(cache := Some(candidate)), initial, before, t, Replaced(base, candidate));
      case _ =>
    }
  }

  lemma {:induction false} ShiftRun(s: Shared, initial: MemoryBundle, before: seq<Answer>, script: seq<(nat, Action)>)
    ensures Run(Shift(s, initial, before), script) == Shift(Run(s, script), initial, before)
    decreases |script|
  {
    hide Next, Shift;
    if |script| > 0 {
      ShiftStep(s, initial, before, script[0].0, script[0].1);
      ShiftRun(Next(s, script[0].0, script[0].1), initial, before, script[1..]);
    }
  }

  /** Whatever was edited before: a publication that finds files it was not based on is refused, leaves them
      alone and aligns the cache with them, and from there on, as long as nobody edits them again, every
      answer is as if these files had been published. So the next load returns what is on disk, and a
      publication on that base is not refused. */
  lemma RefusalRealigns(
    files: Files<string>, earlier: seq<(nat, Action)>, t: nat, base: MemoryBundle, candidate: MemoryBundle,
    during: seq<(nat, Action)>, later: seq<(nat, Action)>, k: nat)
    requires var s := Run(ColdStart(files), earlier);
      ThreadOf(s, t).Idle? && s.writer.None? && s.readers == {} && NoEdits(during) && NoEdits(later)
    requires var begun := Next(Run(ColdStart(files), earlier), t, BeginPublish(base, candidate));
      var read := Run(begun, during);
      read.log == begun.log && ThreadOf(read, t).Comparing? && base != NormalBundle(begun.files)
    ensures var s := Run(ColdStart(files), earlier);
      var refused := Next(Run(Next(s, t, BeginPublish(base, candidate)), during), t, Advance);
      var log := Run(refused, later).log;
      refused.files == s.files && refused.cache == Some(NormalBundle(s.files)) &&
      refused.log == s.log + [Refused(base)] &&
      refused.log <= log &&
      (|refused.log| <= k < |log| ==>
        AnswerOk(Latest(NormalBundle(s.files), log[|refused.log|..k]), log[k]))
  {
    hide Next, Run, NormalBundle, LockOk, AnswerOk, Latest, Inv;
    var s := Run(ColdStart(files), earlier);
    assert LockOk(ColdStart(files)) by { ColdStartInv(files); InvHasLock(ColdStart(files)); }
    RunKeepsLock(ColdStart(files), earlier);
    var begun := Next(s, t, BeginPublish(base, candidate));
    AttemptBegins(s, t, base, candidate);
    AttemptRun(begun, t, s.files, base, during);
    var read := Run(begun, during);
    var refused := Next(read, t, Advance);
    RefusedState(read, t, s.files, base);
    var anew := refused.(initial := NormalBundle(s.files), log := []);
    assert refused == Shift(anew, refused.initial, refused.log) by { assert refused.log + [] == refused.log; }
    ShiftRun(anew, refused.initial, refused.log, later);
    RunKeepsInv(anew, later);
    var log, newLog := Run(refused, later).log, Run(anew, later).log;
    assert log == refused.log + newLog;
    if |refused.log| <= k < |log| {
      InvHasLog(Run(anew, later));
      assert log[|refused.log|..k] == newLog[..k - |refused.log|] && log[k] == newLog[k - |refused.log|];
    }
  }

  lemma InvHasLock(s: Shared)
    requires Inv(s)
    ensures LockOk(s)
  {
  }

  lemma InvHasLog(s: Shared)
    requires Inv(s)
    ensures LogOk(s.initial, s.log)
  {
  }

  lemma AttemptBegins(s: Shared, t: nat, base: MemoryBundle, candidate: MemoryBundle)
    requires LockOk(s) && ThreadOf(s, t).Idle? && s.writer.None? && s.readers == {}
    ensures var begun := Next(s, t, BeginPublish(base, candidate));
      Attempt(begun, t, s.files, base) && begun.files == s.files && begun.log == s.log
  {
    hide NormalBundle, LockOk;
    NextKeepsLock(s, t, BeginPublish(base, candidate));
    NothingRead(s.files);
  }

  /** The refusal leaves nobody at work, so the run can be read as starting over. */
  lemma RefusedState(read: Shared, t: nat, files: Files<string>, base: MemoryBundle)
    requires Attempt(read, t, files, base) && ThreadOf(read, t).Comparing? && base != NormalBundle(files)
    ensures var refused := Next(read, t, Advance);
      refused.files == files && refused.cache == Some(NormalBundle(files)) &&
      refused.log == read.log + [Refused(base)] &&
      Inv(refused.(initial := NormalBundle(files), log := []))
  {
    hide NormalBundle, Latest;
    var refused := Next(read, t, Advance);
    var anew := refused.(initial := NormalBundle(files), log := []);
    NextKeepsLock(read, t, Advance);
    forall u: nat ensures ThreadOf(anew, u).Idle? {
      if u != t { OthersIdle(read, t, u); }
    }
    assert Published(anew) == NormalBundle(files) by { NothingLogged(anew.initial); }
    NormalTwice(files);
  }

  lemma NothingLogged(initial: MemoryBundle)
    ensures Latest(initial, []) == initial
  {
  }
}
