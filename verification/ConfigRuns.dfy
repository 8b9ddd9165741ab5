/** All interleavings of applies, reloads and outside edits of the configuration
    (`src/config/manager.rs`): two critical sections of one update lock with an unlocked step between. */
module ConfigRuns {
  import opened Text
  import opened ConfigManager

  /** Where a call stands. An apply compares under the update lock, checks and saves without it, and takes
      it again to exchange the snapshot; publishing writes the snapshot first and notifies after that. A
      reload reads, parses and reads again under the file lock. */
  datatype Task =
    | Idle
    | ApplyStarting(candidate: Config, expected: Option<string>)
    | ApplyComparing(candidate: Config, expected: Option<string>)
    | ApplyChecking(candidate: Config, expected: Option<string>, base: Snapshot)
    | ApplySaving(candidate: Config, base: Snapshot)
    | ApplySaved(base: Snapshot, replaced: string, snapshot: Snapshot)
    | ApplyExchanging(base: Snapshot, replaced: string, snapshot: Snapshot)
    | ApplyNotifying(base: Snapshot, replaced: string, snapshot: Snapshot)
    | ReloadStarting
    | ReloadCapturing
    | ReloadOpening(base: Snapshot)
    | ReloadReading(base: Snapshot)
    | ReloadLoading(base: Snapshot, read: string, fingerprint: string)
    | ReloadConfirming(base: Snapshot, seen: Seen, fingerprint: string, candidate: Config)
    | ReloadLoaded(base: Snapshot, seen: Seen, snapshot: Snapshot)
    | ReloadExchanging(base: Snapshot, seen: Seen, snapshot: Snapshot)
    | ReloadNotifying(base: Snapshot, seen: Seen, snapshot: Snapshot)

  /** The sources a reload saw: the one it fingerprinted, and the one it parsed. */
  datatype Seen = Seen(read: string, parsed: Option<string>)

  /** What calls returned. `replaced` is the source an apply wrote over, `saved` the fingerprint of what
      it wrote; `wrote` says that a refused call had written the source all the same. */
  datatype Answer =
    | Applied(base: Snapshot, replaced: string, saved: string, result: Snapshot)
    | Reloaded(base: Snapshot, seen: Seen, result: Snapshot)
    | Refused(error: ConfigError, wrote: bool)

  /** `published` lists every snapshot the manager ever showed, the present one last. */
  datatype Shared = Shared(
    source: string, inner: Snapshot, change: Change, lock: Option<nat>, fileLock: Option<nat>,
    tasks: map<nat, Task>, published: seq<Snapshot>, answers: seq<Answer>)

  /** `written` is what a save of this step would write. */
  datatype Action =
    | BeginApply(candidate: Config, expected: Option<string>)
    | BeginReload
    | Advance(written: string)
    | Edit(content: string)

  function TaskOf(s: Shared, t: nat): Task { if t in s.tasks then s.tasks[t] else Idle }

  function Goto(s: Shared, t: nat, task: Task): Shared { s.(tasks := s.tasks[t := task]) }

  function Answered(s: Shared, t: nat, answer: Answer): Shared { Goto(s, t, Idle).(answers := s.answers + [answer]) }

  function Refuse(s: Shared, t: nat, error: ConfigError): Shared { Answered(s, t, Refused(error, false)) }

  function Unlock(s: Shared): Shared { s.(lock := None) }

  function CloseFile(s: Shared): Shared { s.(fileLock := None) }

  function SetInner(s: Shared, snapshot: Snapshot): Shared {
    s.(inner := snapshot, published := s.published + [snapshot])
  }

  function Notify(s: Shared): Shared { s.(change := ChangeOf(s.inner)) }

  /** Taking the update lock. */
  function Acquire(s: Shared, t: nat, task: Task): Shared {
    if s.lock.Some? then s else Goto(s, t, task).(lock := Some(t))
  }

  function ApplyStep(rules: Rules, s: Shared, t: nat, written: string): Shared {
    match TaskOf(s, t)
    case ApplyStarting(candidate, expected) => Acquire(s, t, ApplyComparing(candidate, expected))
    case ApplyComparing(candidate, expected) =>
      (match BaseFor(rules, s.inner, expected)
       case Err(error) => Unlock(Refuse(s, t, error))
       case Ok(base) => Unlock(Goto(s, t, ApplyChecking(candidate, expected, base))))
    case ApplyChecking(candidate, expected, base) =>
      if s.fileLock.Some? then s
      else
        (match CheckPersisted(rules, s.source, base, expected)
         case Some(error) => Refuse(s, t, error)
         case None =>
           match CheckCandidate(rules, base, candidate)
           case Some(error) => Refuse(s, t, error)
           case None => Goto(s, t, ApplySaving(candidate, base)))
    case ApplySaving(candidate, base) =>
      if s.fileLock.Some? then s else SaveStep(rules, s, t, candidate, base, written)
    case ApplySaved(base, replaced, snapshot) => Acquire(s, t, ApplyExchanging(base, replaced, snapshot))
    case ApplyExchanging(base, replaced, snapshot) =>
      (match ExchangeApplied(s.inner, base, snapshot)
       case Keep(result) => Unlock(Answered(s, t, Applied(base, replaced, snapshot.fingerprint, result)))
       case Lost(error) => Unlock(Answered(s, t, Refused(error, true)))
       case Publish => Goto(SetInner(s, snapshot), t, ApplyNotifying(base, replaced, snapshot)))
    case ApplyNotifying(base, replaced, snapshot) =>
      Unlock(Answered(Notify(s), t, Applied(base, replaced, snapshot.fingerprint, snapshot)))
    case _ => s
  }

  function SaveStep(rules: Rules, s: Shared, t: nat, candidate: Config, base: Snapshot, written: string): Shared {
    var after := if SaveWrites(rules, s.source, base) then s.(source := written) else s;
    match SaveIfUnchanged(rules, s.source, base, written)
    case Err(error) => Answered(after, t, Refused(error, SaveWrites(rules, s.source, base)))
    case Ok(saved) => Goto(after, t, ApplySaved(base, s.source, Snapshot(base.revision + 1, saved, candidate)))
  }

  function ReloadStep(rules: Rules, s: Shared, t: nat): Shared {
    match TaskOf(s, t)
    case ReloadStarting => Acquire(s, t, ReloadCapturing)
    case ReloadCapturing =>
      (match BaseFor(rules, s.inner, None)
       case Err(error) => Unlock(Refuse(s, t, error))
       case Ok(base) => Unlock(Goto(s, t, ReloadOpening(base))))
    case ReloadOpening(base) => if s.fileLock.Some? then s else Goto(s, t, ReloadReading(base)).(fileLock := Some(t))
    case ReloadReading(base) =>
      (match rules.fingerprint(s.source)
       case None => CloseFile(Refuse(s, t, SourceUnreadable))
       case Some(fingerprint) =>
         if fingerprint == base.fingerprint then CloseFile(Answered(s, t, Reloaded(base, Seen(s.source, None), base)))
         else Goto(s, t, ReloadLoading(base, s.source, fingerprint)))
    case ReloadLoading(base, read, fingerprint) =>
      (match rules.parse(s.source)
       case None => CloseFile(Refuse(s, t, InvalidConfig))
       case Some(candidate) =>
         match CheckConfig(rules, base, candidate)
         case Some(error) => CloseFile(Refuse(s, t, error))
         case None => Goto(s, t, ReloadConfirming(base, Seen(read, Some(s.source)), fingerprint, candidate)))
    case ReloadConfirming(base, seen, fingerprint, candidate) =>
      ConfirmStep(rules, s, t, base, seen, fingerprint, candidate)
    case ReloadLoaded(base, seen, snapshot) => Acquire(s, t, ReloadExchanging(base, seen, snapshot))
    case ReloadExchanging(base, seen, snapshot) =>
      (match ExchangeReloaded(s.inner, base)
       case Keep(result) => Unlock(Answered(s, t, Reloaded(base, seen, result)))
       case Lost(error) => Unlock(Refuse(s, t, error))
       case Publish => Goto(SetInner(s, snapshot), t, ReloadNotifying(base, seen, snapshot)))
    case ReloadNotifying(base, seen, snapshot) => Unlock(Answered(Notify(s), t, Reloaded(base, seen, snapshot)))
    case _ => s
  }

  function ConfirmStep(
      rules: Rules, s: Shared, t: nat, base: Snapshot, seen: Seen, fingerprint: string, candidate: Config): Shared
  {
    match rules.fingerprint(s.source)
    case None => CloseFile(Refuse(s, t, SourceUnreadable))
    case Some(stable) =>
      if stable != fingerprint then CloseFile(Refuse(s, t, SourceChangedDuringReload))
      else if base.revision >= MAX_REVISION then CloseFile(Refuse(s, t, RevisionExhausted))
      else CloseFile(Goto(s, t, ReloadLoaded(base, seen, Snapshot(base.revision + 1, stable, candidate))))
  }

  function Next(rules: Rules, s: Shared, t: nat, action: Action): Shared {
    match action
    case Edit(content) => s.(source := content)
    case BeginApply(candidate, expected) =>
      if TaskOf(s, t).Idle? then Goto(s, t, ApplyStarting(candidate, expected)) else s
    case BeginReload => if TaskOf(s, t).Idle? then Goto(s, t, ReloadStarting) else s
    case Advance(written) => if IsApply(TaskOf(s, t)) then ApplyStep(rules, s, t, written) else ReloadStep(rules, s, t)
  }

  function Run(rules: Rules, s: Shared, script: seq<(nat, Action)>): Shared
    decreases |script|
  {
    if |script| == 0 then s else Run(rules, Next(rules, s, script[0].0, script[0].1), script[1..])
  }

  function Start(source: string, first: Snapshot): Shared {
    Shared(source, first, ChangeOf(first), None, None, map[], [first], [])
  }

  predicate IsApply(task: Task) {
    task.ApplyStarting? || task.ApplyComparing? || task.ApplyChecking? || task.ApplySaving? || task.ApplySaved? ||
    task.ApplyExchanging? || task.ApplyNotifying?
  }

  predicate HoldsLock(task: Task) {
    task.ApplyComparing? || task.ApplyExchanging? || task.ApplyNotifying? ||
    task.ReloadCapturing? || task.ReloadExchanging? || task.ReloadNotifying?
  }

  // ---------------------------------------------------------------- what holds over every run

  /** A snapshot that may follow `before`: one revision on, checked, and equal in what needs a restart. */
  predicate Follows(rules: Rules, before: Snapshot, snapshot: Snapshot) {
    snapshot.revision == before.revision + 1 <= MAX_REVISION && snapshot.fingerprint != before.fingerprint &&
    rules.isValid(snapshot.config) && snapshot.config.restart == before.config.restart
  }

  predicate HistoryOk(rules: Rules, published: seq<Snapshot>) {
    |published| > 0 && forall i :: 0 < i < |published| ==> Follows(rules, published[i - 1], published[i])
  }

  /** A snapshot built on `base` and not yet published. */
  predicate BuiltOn(rules: Rules, base: Snapshot, snapshot: Snapshot) {
    snapshot.revision == base.revision + 1 <= MAX_REVISION && rules.isValid(snapshot.config) &&
    snapshot.config.restart == base.config.restart
  }

  /** A snapshot made of what a reload saw. */
  predicate IsFrom(rules: Rules, seen: Seen, snapshot: Snapshot) {
    rules.fingerprint(seen.read) == Some(snapshot.fingerprint) &&
    seen.parsed.Some? && rules.parse(seen.parsed.value) == Some(snapshot.config)
  }

  predicate TaskOk(rules: Rules, published: seq<Snapshot>, task: Task) {
    match task
    case ApplyChecking(_, _, base) => base in published
    case ApplySaving(candidate, base) =>
      base in published && base.revision < MAX_REVISION && rules.isValid(candidate) &&
      candidate.restart == base.config.restart
    case ApplySaved(base, replaced, snapshot) =>
      base in published && BuiltOn(rules, base, snapshot) && rules.fingerprint(replaced) == Some(base.fingerprint)
    case ApplyExchanging(base, replaced, snapshot) =>
      base in published && BuiltOn(rules, base, snapshot) && rules.fingerprint(replaced) == Some(base.fingerprint)
    case ApplyNotifying(base, replaced, snapshot) =>
      base in published && snapshot in published && rules.fingerprint(replaced) == Some(base.fingerprint)
    case ReloadOpening(base) => base in published
    case ReloadReading(base) => base in published
    case ReloadLoading(base, read, fingerprint) =>
      base in published && fingerprint != base.fingerprint && rules.fingerprint(read) == Some(fingerprint)
    case ReloadConfirming(base, seen, fingerprint, candidate) =>
      base in published && fingerprint != base.fingerprint && rules.isValid(candidate) &&
      candidate.restart == base.config.restart && rules.fingerprint(seen.read) == Some(fingerprint) &&
      seen.parsed.Some? && rules.parse(seen.parsed.value) == Some(candidate)
    case ReloadLoaded(base, seen, snapshot) =>
      base in published && BuiltOn(rules, base, snapshot) && snapshot.fingerprint != base.fingerprint &&
      IsFrom(rules, seen, snapshot)
    case ReloadExchanging(base, seen, snapshot) =>
      base in published && BuiltOn(rules, base, snapshot) && snapshot.fingerprint != base.fingerprint &&
      IsFrom(rules, seen, snapshot)
    case ReloadNotifying(base, seen, snapshot) =>
      base in published && snapshot in published && BuiltOn(rules, base, snapshot) &&
      snapshot.fingerprint != base.fingerprint && IsFrom(rules, seen, snapshot)
    case _ => true
  }

  /** A successful apply replaced only a source with the fingerprint it was built from, and its result
      carries the fingerprint of its own save. A refusal that has written is a conflict, or the written
      source could not be read back. A reload answers with its base only when the source it read has the
      base's fingerprint; otherwise with a snapshot one revision on that carries the fingerprint it read and
      the configuration it parsed. */
  predicate AnswerOk(rules: Rules, published: seq<Snapshot>, answer: Answer) {
    match answer
    case Applied(base, replaced, saved, result) =>
      base in published && result in published && rules.fingerprint(replaced) == Some(base.fingerprint) &&
      result.fingerprint == saved
    case Reloaded(base, seen, result) =>
      base in published && result in published &&
      if rules.fingerprint(seen.read) == Some(base.fingerprint) then result == base && seen.parsed.None?
      else
        result.revision == base.revision + 1 && rules.fingerprint(seen.read) == Some(result.fingerprint) &&
        seen.parsed.Some? && rules.parse(seen.parsed.value) == Some(result.config)
    case Refused(error, wrote) => wrote ==> error.ConfigConflict? || error.SourceUnreadable?
  }

  ghost predicate AnswersOk(rules: Rules, published: seq<Snapshot>, answers: seq<Answer>) {
    forall k :: 0 <= k < |answers| ==> AnswerOk(rules, published, answers[k])
  }

  predicate IsNotifying(s: Shared) {
    s.lock.Some? &&
    match TaskOf(s, s.lock.value)
    case ApplyNotifying(_, _, snapshot) => snapshot == s.inner
    case ReloadNotifying(_, _, snapshot) => snapshot == s.inner
    case _ => false
  }

  ghost predicate LockOk(s: Shared) {
    forall t: nat :: s.lock == Some(t) <==> HoldsLock(TaskOf(s, t))
  }

  ghost predicate Inv(rules: Rules, s: Shared) {
    HistoryOk(rules, s.published) && s.published[|s.published| - 1] == s.inner && LockOk(s) &&
    (s.change == ChangeOf(s.inner) || IsNotifying(s)) && AnswersOk(rules, s.published, s.answers) &&
    forall t: nat :: TaskOk(rules, s.published, TaskOf(s, t))
  }

  lemma StartInv(rules: Rules, source: string, first: Snapshot)
    ensures Inv(rules, Start(source, first))
  {
  }

  // ---- revisions identify snapshots

  lemma {:induction false} RevisionAt(rules: Rules, published: seq<Snapshot>, i: nat)
    requires HistoryOk(rules, published) && i < |published|
    ensures published[i].revision == published[0].revision + i
    ensures published[i].config.restart == published[0].config.restart
    ensures i > 0 ==> rules.isValid(published[i].config) && published[i].revision <= MAX_REVISION
  {
    if i > 0 {
      RevisionAt(rules, published, i - 1);
      assert Follows(rules, published[i - 1], published[i]);
    }
  }

  /** A base that is still the latest by revision and fingerprint is the latest snapshot. */
  lemma SameIsLatest(rules: Rules, published: seq<Snapshot>, base: Snapshot)
    requires HistoryOk(rules, published) && base in published && IsSame(published[|published| - 1], base)
    ensures base == published[|published| - 1]
  {
    hide HistoryOk;
    var i :| 0 <= i < |published| && published[i] == base;
    RevisionAt(rules, published, i);
    RevisionAt(rules, published, |published| - 1);
  }

  lemma PublishKeepsHistory(rules: Rules, published: seq<Snapshot>, base: Snapshot, snapshot: Snapshot)
    requires HistoryOk(rules, published) && base in published && IsSame(published[|published| - 1], base)
    requires BuiltOn(rules, base, snapshot) && snapshot.fingerprint != base.fingerprint
    ensures HistoryOk(rules, published + [snapshot])
  {
    SameIsLatest(rules, published, base);
    assert Follows(rules, published[|published| - 1], snapshot);
  }

  // ---- one step

  /** A step that leaves the published snapshots alone and moves only task `t`. */
  lemma TaskMoves(rules: Rules, s: Shared, t: nat, s': Shared)
    requires Inv(rules, s) && s'.inner == s.inner && s'.published == s.published && s'.change == s.change
    requires s'.tasks == s.tasks[t := TaskOf(s', t)] && TaskOk(rules, s.published, TaskOf(s', t))
    requires s'.answers == s.answers ||
      exists answer :: s'.answers == s.answers + [answer] && AnswerOk(rules, s.published, answer)
    requires s'.lock == s.lock && (HoldsLock(TaskOf(s', t)) <==> HoldsLock(TaskOf(s, t))) &&
      !IsNotifyingTask(TaskOf(s, t))
    ensures Inv(rules, s')
  {
    hide HistoryOk, TaskOk, AnswerOk, HoldsLock;
    OthersStay(s, s', t);
    forall u: nat
      ensures TaskOk(rules, s'.published, TaskOf(s', u)) && (s'.lock == Some(u) <==> HoldsLock(TaskOf(s', u)))
    {
      assert TaskOk(rules, s.published, TaskOf(s, u));
    }
  }

  predicate IsNotifyingTask(task: Task) { task.ApplyNotifying? || task.ReloadNotifying? }

  lemma OthersStay(s: Shared, s': Shared, t: nat)
    requires s'.tasks == s.tasks[t := TaskOf(s', t)]
    ensures forall u: nat :: u != t ==> TaskOf(s', u) == TaskOf(s, u)
  {
  }

  /** Taking the update lock, or giving it back without publishing. */
  lemma LockMoves(rules: Rules, s: Shared, t: nat, s': Shared)
    requires Inv(rules, s) && s'.inner == s.inner && s'.published == s.published &&
      s'.change == s.change == ChangeOf(s.inner)
    requires s'.tasks == s.tasks[t := TaskOf(s', t)] && TaskOk(rules, s.published, TaskOf(s', t))
    requires s'.answers == s.answers ||
      exists answer :: s'.answers == s.answers + [answer] && AnswerOk(rules, s.published, answer)
    requires (s.lock == None && s'.lock == Some(t) && HoldsLock(TaskOf(s', t))) ||
      (s.lock == Some(t) && s'.lock == None && !HoldsLock(TaskOf(s', t)))
    ensures Inv(rules, s')
  {
    hide HistoryOk, TaskOk, AnswerOk, HoldsLock;
    OthersStay(s, s', t);
    forall u: nat
      ensures TaskOk(rules, s'.published, TaskOf(s', u)) && (s'.lock == Some(u) <==> HoldsLock(TaskOf(s', u)))
    {
      assert TaskOk(rules, s.published, TaskOf(s, u));
    }
  }

  lemma TaskOkGrows(rules: Rules, published: seq<Snapshot>, snapshot: Snapshot, task: Task)
    requires TaskOk(rules, published, task)
    ensures TaskOk(rules, published + [snapshot], task)
  {
    hide BuiltOn;
  }

  lemma AnswerOkGrows(rules: Rules, published: seq<Snapshot>, snapshot: Snapshot, answer: Answer)
    requires AnswerOk(rules, published, answer)
    ensures AnswerOk(rules, published + [snapshot], answer)
  {
  }

  /** Writing the new snapshot, with the lock held and the notification still to come. */
  lemma SetInnerKeepsInv(rules: Rules, s: Shared, t: nat, base: Snapshot, snapshot: Snapshot, task: Task)
    requires Inv(rules, s) && s.lock == Some(t) && base in s.published && IsSame(s.inner, base)
    requires BuiltOn(rules, base, snapshot) && snapshot.fingerprint != base.fingerprint
    requires IsNotifyingTask(task) && task.snapshot == snapshot && TaskOk(rules, s.published + [snapshot], task)
    ensures Inv(rules, Goto(SetInner(s, snapshot), t, task))
  {
    hide HistoryOk, TaskOk, AnswerOk, BuiltOn;
    var s' := Goto(SetInner(s, snapshot), t, task);
    PublishKeepsHistory(rules, s.published, base, snapshot);
    OthersStay(s, s', t);
    forall u: nat ensures TaskOk(rules, s'.published, TaskOf(s', u)) {
      if u != t { TaskOkGrows(rules, s.published, snapshot, TaskOf(s, u)); }
    }
    forall k | 0 <= k < |s.answers| ensures AnswerOk(rules, s'.published, s.answers[k]) {
      AnswerOkGrows(rules, s.published, snapshot, s.answers[k]);
    }
  }

  /** The notification, and the end of the call. */
  lemma NotifyKeepsInv(rules: Rules, s: Shared, t: nat, answer: Answer)
    requires Inv(rules, s) && s.lock == Some(t) && AnswerOk(rules, s.published, answer)
    ensures Inv(rules, Unlock(Answered(Notify(s), t, answer)))
  {
    hide HistoryOk, TaskOk, AnswerOk, HoldsLock;
    var s' := Unlock(Answered(Notify(s), t, answer));
    OthersStay(s, s', t);
    IdleOk(rules, s.published);
    forall u: nat ensures TaskOk(rules, s'.published, TaskOf(s', u)) && !HoldsLock(TaskOf(s', u)) {
      assert TaskOk(rules, s.published, TaskOf(s, u)) && (s.lock == Some(u) <==> HoldsLock(TaskOf(s, u)));
    }
  }

  lemma IdleOk(rules: Rules, published: seq<Snapshot>)
    ensures TaskOk(rules, published, Idle) && !HoldsLock(Idle)
  {
  }

  /** A task with the lock that is not notifying sees the notification up to date, and so does everyone
      when the lock is free. */
  lemma QuietLock(rules: Rules, s: Shared, t: nat)
    requires Inv(rules, s)
    ensures s.lock.None? ==> s.change == ChangeOf(s.inner)
    ensures HoldsLock(TaskOf(s, t)) ==> s.lock == Some(t)
    ensures HoldsLock(TaskOf(s, t)) && !IsNotifyingTask(TaskOf(s, t)) ==> s.change == ChangeOf(s.inner)
    ensures s.inner in s.published && TaskOk(rules, s.published, TaskOf(s, t))
  {
    hide TaskOk, AnswersOk;
  }

  lemma ApplyStepKeepsInv(rules: Rules, s: Shared, t: nat, written: string)
    requires Inv(rules, s) && IsApply(TaskOf(s, t))
    ensures Inv(rules, ApplyStep(rules, s, t, written))
  {
    hide Inv, CheckPersisted, CheckCandidate, SaveStep, BaseFor, ExchangeApplied, TaskOk, AnswerOk;
    QuietLock(rules, s, t);
    var task := TaskOf(s, t);
    if task.ApplyChecking? {
      ApplyCheckKeepsInv(rules, s, t, written);
    } else if task.ApplyExchanging? {
      ApplyExchangeKeepsInv(rules, s, t, written);
    } else if task.ApplySaving? {
      if s.fileLock.None? { SaveStepKeepsInv(rules, s, t, task.candidate, task.base, written); }
    } else if task.ApplyNotifying? {
      AppliedOk(rules, s.published, task);
      NotifyKeepsInv(rules, s, t, Applied(task.base, task.replaced, task.snapshot.fingerprint, task.snapshot));
    } else {
      ApplyLockKeepsInv(rules, s, t, written);
    }
  }

  lemma AppliedOk(rules: Rules, published: seq<Snapshot>, task: Task)
    requires task.ApplyNotifying? && TaskOk(rules, published, task)
    ensures AnswerOk(rules, published, Applied(task.base, task.replaced, task.snapshot.fingerprint, task.snapshot))
  {
  }

  lemma ApplyLockKeepsInv(rules: Rules, s: Shared, t: nat, written: string)
    requires Inv(rules, s) && (TaskOf(s, t).ApplyStarting? || TaskOf(s, t).ApplyComparing? || TaskOf(s, t).ApplySaved?)
    ensures Inv(rules, ApplyStep(rules, s, t, written))
  {
    hide Inv, BuiltOn;
    QuietLock(rules, s, t);
    if TaskOf(s, t).ApplyComparing? || s.lock.None? { LockMoves(rules, s, t, ApplyStep(rules, s, t, written)); }
  }

  lemma ApplyCheckKeepsInv(rules: Rules, s: Shared, t: nat, written: string)
    requires Inv(rules, s) && TaskOf(s, t).ApplyChecking?
    ensures Inv(rules, ApplyStep(rules, s, t, written))
  {
    hide Inv, CheckPersisted, CheckCandidate;
    QuietLock(rules, s, t);
    var base, candidate := TaskOf(s, t).base, TaskOf(s, t).candidate;
    if s.fileLock.None? {
      if CheckCandidate(rules, base, candidate).None? { CheckedCandidate(rules, base, candidate); }
      TaskMoves(rules, s, t, ApplyStep(rules, s, t, written));
    }
  }

  lemma ApplyExchangeKeepsInv(rules: Rules, s: Shared, t: nat, written: string)
    requires Inv(rules, s) && TaskOf(s, t).ApplyExchanging?
    ensures Inv(rules, ApplyStep(rules, s, t, written))
  {
    hide Inv, BuiltOn;
    QuietLock(rules, s, t);
    var base, replaced, snapshot := TaskOf(s, t).base, TaskOf(s, t).replaced, TaskOf(s, t).snapshot;
    if ExchangeApplied(s.inner, base, snapshot).Publish? {
      assert IsSame(s.inner, base) && s.inner.fingerprint != snapshot.fingerprint;
      SetInnerKeepsInv(rules, s, t, base, snapshot, ApplyNotifying(base, replaced, snapshot));
    } else {
      LockMoves(rules, s, t, ApplyStep(rules, s, t, written));
    }
  }

  lemma CheckedCandidate(rules: Rules, base: Snapshot, candidate: Config)
    requires CheckCandidate(rules, base, candidate).None?
    ensures rules.isValid(candidate) && candidate.restart == base.config.restart && base.revision < MAX_REVISION
  {
    hide ForbiddenField;
    CheckedConfig(rules, base, candidate);
  }

  lemma SaveStepKeepsInv(rules: Rules, s: Shared, t: nat, candidate: Config, base: Snapshot, written: string)
    requires Inv(rules, s) && TaskOf(s, t) == ApplySaving(candidate, base)
    ensures Inv(rules, SaveStep(rules, s, t, candidate, base, written))
  {
    hide Inv;
    QuietLock(rules, s, t);
    TaskMoves(rules, s, t, SaveStep(rules, s, t, candidate, base, written));
  }

  lemma ReloadStepKeepsInv(rules: Rules, s: Shared, t: nat)
    requires Inv(rules, s) && !IsApply(TaskOf(s, t))
    ensures Inv(rules, ReloadStep(rules, s, t))
  {
    hide Inv, CheckConfig, BaseFor, ConfirmStep, ExchangeReloaded, TaskOk, AnswerOk;
    QuietLock(rules, s, t);
    var task := TaskOf(s, t);
    if task.ReloadExchanging? {
      ReloadExchangeKeepsInv(rules, s, t);
    } else if task.ReloadNotifying? {
      ReloadedOk(rules, s.published, task);
      NotifyKeepsInv(rules, s, t, Reloaded(task.base, task.seen, task.snapshot));
    } else if task.ReloadStarting? || task.ReloadCapturing? || task.ReloadLoaded? {
      ReloadLockKeepsInv(rules, s, t);
    } else if task.ReloadLoading? {
      ReloadLoadKeepsInv(rules, s, t);
    } else if task.ReloadConfirming? {
      ConfirmKeepsInv(rules, s, t, task.base, task.seen, task.fingerprint, task.candidate);
    } else if !task.Idle? {
      ReloadReadKeepsInv(rules, s, t);
    }
  }

  lemma ReloadedOk(rules: Rules, published: seq<Snapshot>, task: Task)
    requires task.ReloadNotifying? && TaskOk(rules, published, task)
    ensures AnswerOk(rules, published, Reloaded(task.base, task.seen, task.snapshot))
  {
  }

  lemma ReloadLockKeepsInv(rules: Rules, s: Shared, t: nat)
    requires Inv(rules, s) &&
      (TaskOf(s, t).ReloadStarting? || TaskOf(s, t).ReloadCapturing? || TaskOf(s, t).ReloadLoaded?)
    ensures Inv(rules, ReloadStep(rules, s, t))
  {
    hide Inv, BuiltOn;
    QuietLock(rules, s, t);
    if TaskOf(s, t).ReloadCapturing? || s.lock.None? { LockMoves(rules, s, t, ReloadStep(rules, s, t)); }
  }

  lemma ReloadReadKeepsInv(rules: Rules, s: Shared, t: nat)
    requires Inv(rules, s) && (TaskOf(s, t).ReloadOpening? || TaskOf(s, t).ReloadReading?)
    ensures Inv(rules, ReloadStep(rules, s, t))
  {
    hide Inv;
    QuietLock(rules, s, t);
    if TaskOf(s, t).ReloadReading? || s.fileLock.None? { TaskMoves(rules, s, t, ReloadStep(rules, s, t)); }
  }

  lemma ReloadLoadKeepsInv(rules: Rules, s: Shared, t: nat)
    requires Inv(rules, s) && TaskOf(s, t).ReloadLoading?
    ensures Inv(rules, ReloadStep(rules, s, t))
  {
    hide Inv, CheckConfig;
    QuietLock(rules, s, t);
    var base, candidate := TaskOf(s, t).base, rules.parse(s.source);
    if candidate.Some? && CheckConfig(rules, base, candidate.value).None? {
      CheckedConfig(rules, base, candidate.value);
    }
    TaskMoves(rules, s, t, ReloadStep(rules, s, t));
  }

  lemma ConfirmKeepsInv(
      rules: Rules, s: Shared, t: nat, base: Snapshot, seen: Seen, fingerprint: string, candidate: Config)
    requires Inv(rules, s) && TaskOf(s, t) == ReloadConfirming(base, seen, fingerprint, candidate)
    ensures Inv(rules, ConfirmStep(rules, s, t, base, seen, fingerprint, candidate))
  {
    hide Inv;
    QuietLock(rules, s, t);
    TaskMoves(rules, s, t, ConfirmStep(rules, s, t, base, seen, fingerprint, candidate));
  }

  lemma ReloadExchangeKeepsInv(rules: Rules, s: Shared, t: nat)
    requires Inv(rules, s) && TaskOf(s, t).ReloadExchanging?
    ensures Inv(rules, ReloadStep(rules, s, t))
  {
    hide Inv, BuiltOn;
    QuietLock(rules, s, t);
    var base, seen, snapshot := TaskOf(s, t).base, TaskOf(s, t).seen, TaskOf(s, t).snapshot;
    if ExchangeReloaded(s.inner, base).Publish? {
      SetInnerKeepsInv(rules, s, t, base, snapshot, ReloadNotifying(base, seen, snapshot));
    } else {
      LockMoves(rules, s, t, ReloadStep(rules, s, t));
    }
  }

  lemma NextKeepsInv(rules: Rules, s: Shared, t: nat, action: Action)
    requires Inv(rules, s)
    ensures Inv(rules, Next(rules, s, t, action)) && s.published <= Next(rules, s, t, action).published
  {
    hide Inv, ApplyStep, ReloadStep;
    match action {
      case Edit(content) => EditKeepsInv(rules, s, content);
      case BeginApply(_, _) => if TaskOf(s, t).Idle? { TaskMoves(rules, s, t, Next(rules, s, t, action)); }
      case BeginReload => if TaskOf(s, t).Idle? { TaskMoves(rules, s, t, Next(rules, s, t, action)); }
      case Advance(written) =>
        if IsApply(TaskOf(s, t)) {
          ApplyStepKeepsInv(rules, s, t, written);
          ApplyOnlyAdds(rules, s, t, written);
        } else {
          ReloadStepKeepsInv(rules, s, t);
          ReloadOnlyAdds(rules, s, t);
        }
    }
  }

  lemma EditKeepsInv(rules: Rules, s: Shared, content: string)
    requires Inv(rules, s)
    ensures Inv(rules, s.(source := content))
  {
    hide HistoryOk, TaskOk, AnswersOk, HoldsLock;
    forall t: nat ensures TaskOf(s.(source := content), t) == TaskOf(s, t) {
    }
  }

  lemma ApplyOnlyAdds(rules: Rules, s: Shared, t: nat, written: string)
    ensures s.published <= ApplyStep(rules, s, t, written).published
  {
    hide CheckPersisted, CheckCandidate, ExchangeApplied, BaseFor;
  }

  lemma ReloadOnlyAdds(rules: Rules, s: Shared, t: nat)
    ensures s.published <= ReloadStep(rules, s, t).published
  {
    hide CheckConfig, ExchangeReloaded, BaseFor;
  }

  lemma {:induction false} RunKeepsInv(rules: Rules, s: Shared, script: seq<(nat, Action)>)
    requires Inv(rules, s)
    ensures Inv(rules, Run(rules, s, script)) && s.published <= Run(rules, s, script).published
    decreases |script|
  {
    hide Inv, Next;
    if |script| > 0 {
      NextKeepsInv(rules, s, script[0].0, script[0].1);
      RunKeepsInv(rules, Next(rules, s, script[0].0, script[0].1), script[1..]);
    }
  }

  /** Over every interleaving: each publication raises the revision by exactly one, every later config is
      valid and agrees with the first in everything that needs a restart, revisions stay in range, the
      present snapshot is the last published one, and a free lock means that the last notification
      names it. */
  lemma PublicationsAreOrdered(rules: Rules, source: string, first: Snapshot, script: seq<(nat, Action)>, i: nat)
    requires i < |Run(rules, Start(source, first), script).published|
    ensures var s := Run(rules, Start(source, first), script);
      s.published[0] == first && s.inner == s.published[|s.published| - 1] &&
      s.published[i].revision == first.revision + i && s.published[i].config.restart == first.config.restart &&
      (i > 0 ==>
        rules.isValid(s.published[i].config) && s.published[i].revision <= MAX_REVISION &&
        s.published[i].fingerprint != s.published[i - 1].fingerprint) &&
      (s.lock.None? ==> s.change == ChangeOf(s.inner))
  {
    hide Run;
    StartInv(rules, source, first);
    RunKeepsInv(rules, Start(source, first), script);
    var s := Run(rules, Start(source, first), script);
    RevisionAt(rules, s.published, i);
    QuietLock(rules, s, 0);
    if i > 0 { assert Follows(rules, s.published[i - 1], s.published[i]); }
  }

  /** Over every interleaving: an apply that succeeds has replaced only a source with the fingerprint of
      the published snapshot it was built on, and returns a published snapshot with the fingerprint its
      own save produced; a reload returns its base exactly when it found the base's source, and otherwise what
      it read and parsed, one revision on. */
  lemma AnswersTellWhatHappened(rules: Rules, source: string, first: Snapshot, script: seq<(nat, Action)>, k: nat)
    requires k < |Run(rules, Start(source, first), script).answers|
    ensures var s := Run(rules, Start(source, first), script);
      AnswerOk(rules, s.published, s.answers[k])
  {
    hide Run, AnswerOk;
    StartInv(rules, source, first);
    RunKeepsInv(rules, Start(source, first), script);
  }

  // ---------------------------------------------------------------- one call alone, with edits around it

  /** Only this task moves, and outside edits put the contents of `w` before each look at the source. */
  function ReloadScript(t: nat, w: Meanwhile): seq<(nat, Action)> {
    [(t, BeginReload), (t, Advance("")), (t, Advance("")), (t, Advance("")),
     (t, Edit(w.first)), (t, Advance("")), (t, Edit(w.loaded)), (t, Advance("")), (t, Edit(w.second)), (t, Advance("")),
     (t, Advance("")), (t, Advance("")), (t, Advance(""))]
  }

  function ApplyScript(t: nat, candidate: Config, expected: Option<string>, written: string, w: Meanwhile)
    : seq<(nat, Action)>
  {
    [(t, BeginApply(candidate, expected)), (t, Advance(written)), (t, Advance(written)),
     (t, Edit(w.first)), (t, Advance(written)), (t, Edit(w.second)), (t, Advance(written)),
     (t, Advance(written)), (t, Advance(written)), (t, Advance(written))]
  }

  ghost predicate AllFree(s: Shared, t: nat) {
    TaskOf(s, t).Idle? && s.lock.None? && s.fileLock.None?
  }

  /** What a call that ran alone has done. */
  ghost predicate Finished(s: Shared, end: Shared, t: nat, inner: Snapshot, answer: Answer) {
    AllFree(end, t) && end.inner == inner && end.answers == s.answers + [answer] &&
    (if inner == s.inner then end.published == s.published && end.change == s.change
     else end.published == s.published + [inner] && end.change == ChangeOf(inner)) &&
    forall u: nat :: u != t ==> TaskOf(end, u) == TaskOf(s, u)
  }

  /** The outcome of a reload of `w` over `base`, as the manager's own contract tells it. */
  ghost predicate ReloadOutcome(rules: Rules, base: Snapshot, w: Meanwhile, inner: Snapshot, answer: Answer) {
    if rules.hasPath && rules.fingerprint(w.first) == Some(base.fingerprint) then
      inner == base && answer == Reloaded(base, Seen(w.first, None), base)
    else if rules.hasPath && MayPublishReload(rules, base, w) then
      inner == Snapshot(base.revision + 1, rules.fingerprint(w.first).value, rules.parse(w.loaded).value) &&
      answer == Reloaded(base, Seen(w.first, Some(w.loaded)), inner)
    else inner == base && answer.Refused? && !answer.wrote && ReloadFails(rules, base, base, w, answer.error)
  }

  ghost predicate ApplyOutcome(
    rules: Rules, base: Snapshot, candidate: Config, expected: Option<string>, written: string, w: Meanwhile,
    inner: Snapshot, answer: Answer)
  {
    var saved := rules.fingerprint(written);
    if MaySave(rules, base, candidate, expected, w) && saved.Some? then
      inner == (if saved.value == base.fingerprint then base
                else Snapshot(base.revision + 1, saved.value, candidate)) &&
      answer == Applied(base, w.second, saved.value, inner)
    else
      inner == base && answer.Refused? && (answer.wrote <==> MaySave(rules, base, candidate, expected, w)) &&
      ApplyFails(rules, base, base, candidate, expected, written, w, answer.wrote, answer.error)
  }

  lemma RunOne(rules: Rules, s: Shared, t: nat, action: Action, rest: seq<(nat, Action)>)
    ensures Run(rules, s, [(t, action)] + rest) == Run(rules, Next(rules, s, t, action), rest)
  {
    hide Next;
    var script := [(t, action)] + rest;
    assert script[0] == (t, action) && script[1..] == rest;
  }

  function Go(rules: Rules, s: Shared, t: nat): Shared { Next(rules, s, t, Advance("")) }

  function Put(rules: Rules, s: Shared, t: nat, content: string): Shared { Next(rules, s, t, Edit(content)) }

  /** The call is at `task`; nothing but it and the source has moved since `s`. */
  ghost predicate At(s: Shared, now: Shared, t: nat, task: Task, lock: Option<nat>, fileLock: Option<nat>) {
    now == s.(source := now.source, lock := lock, fileLock := fileLock, tasks := now.tasks) && TaskOf(now, t) == task &&
    forall u: nat :: u != t ==> TaskOf(now, u) == TaskOf(s, u)
  }

  lemma PutKeeps(rules: Rules, s: Shared, now: Shared, t: nat, content: string, inner: Snapshot, answer: Answer)
    ensures Put(rules, now, t, content).source == content
    ensures Finished(s, now, t, inner, answer) ==> Finished(s, Put(rules, now, t, content), t, inner, answer)
    ensures forall task, lock, fileLock ::
      At(s, now, t, task, lock, fileLock) ==> At(s, Put(rules, now, t, content), t, task, lock, fileLock)
  {
    forall u: nat ensures TaskOf(Put(rules, now, t, content), u) == TaskOf(now, u) {
    }
  }

  lemma GoKeepsFinished(rules: Rules, s: Shared, now: Shared, t: nat, inner: Snapshot, answer: Answer)
    requires Finished(s, now, t, inner, answer)
    ensures Finished(s, Go(rules, now, t), t, inner, answer)
  {
  }

  /** Refused or answered without publishing, with the locks given back. */
  lemma Ended(s: Shared, now: Shared, t: nat, task: Task, lock: Option<nat>, fileLock: Option<nat>, answer: Answer)
    requires At(s, now, t, task, lock, fileLock)
    ensures Finished(s, Unlock(CloseFile(Answered(now, t, answer))), t, s.inner, answer)
  {
  }

  // ---- a reload, stage by stage

  lemma ReloadOpens(rules: Rules, s: Shared, t: nat)
    requires AllFree(s, t)
    ensures var captured := Go(rules, Go(rules, Next(rules, s, t, BeginReload), t), t);
      if !rules.hasPath then Finished(s, captured, t, s.inner, Refused(ConfigPathUnavailable, false))
      else At(s, Go(rules, captured, t), t, ReloadReading(s.inner), None, Some(t))
  {
    var begun := Next(rules, s, t, BeginReload);
    assert At(s, begun, t, ReloadStarting, None, None);
    var holding := Go(rules, begun, t);
    assert At(s, holding, t, ReloadCapturing, Some(t), None);
  }

  lemma ReloadReads(rules: Rules, s: Shared, now: Shared, t: nat, base: Snapshot)
    requires At(s, now, t, ReloadReading(base), None, Some(t))
    ensures var next, fingerprint := Go(rules, now, t), rules.fingerprint(now.source);
      if fingerprint.None? then Finished(s, next, t, s.inner, Refused(SourceUnreadable, false))
      else if fingerprint.value == base.fingerprint then
        Finished(s, next, t, s.inner, Reloaded(base, Seen(now.source, None), base))
      else At(s, next, t, ReloadLoading(base, now.source, fingerprint.value), None, Some(t))
  {
  }

  lemma ReloadLoads(rules: Rules, s: Shared, now: Shared, t: nat, base: Snapshot, read: string, fingerprint: string)
    requires At(s, now, t, ReloadLoading(base, read, fingerprint), None, Some(t))
    ensures var next, candidate := Go(rules, now, t), rules.parse(now.source);
      if candidate.None? then Finished(s, next, t, s.inner, Refused(InvalidConfig, false))
      else
        var problem := CheckConfig(rules, base, candidate.value);
        if problem.Some? then Finished(s, next, t, s.inner, Refused(problem.value, false))
        else
          var seen := Seen(read, Some(now.source));
          At(s, next, t, ReloadConfirming(base, seen, fingerprint, candidate.value), None, Some(t))
  {
    hide CheckConfig;
  }

  lemma ReloadConfirms(
      rules: Rules, s: Shared, now: Shared, t: nat, base: Snapshot, seen: Seen, fingerprint: string, candidate: Config)
    requires At(s, now, t, ReloadConfirming(base, seen, fingerprint, candidate), None, Some(t))
    ensures var next, stable := Go(rules, now, t), rules.fingerprint(now.source);
      if stable.None? then Finished(s, next, t, s.inner, Refused(SourceUnreadable, false))
      else if stable.value != fingerprint then Finished(s, next, t, s.inner, Refused(SourceChangedDuringReload, false))
      else if base.revision >= MAX_REVISION then Finished(s, next, t, s.inner, Refused(RevisionExhausted, false))
      else At(s, next, t, ReloadLoaded(base, seen, Snapshot(base.revision + 1, stable.value, candidate)), None, None)
  {
  }

  lemma ReloadPublishes(rules: Rules, s: Shared, now: Shared, t: nat, seen: Seen, snapshot: Snapshot)
    requires At(s, now, t, ReloadLoaded(s.inner, seen, snapshot), None, None) && snapshot != s.inner
    ensures var holding := Go(rules, now, t);
      var end := Go(rules, Go(rules, holding, t), t);
      Finished(s, end, t, snapshot, Reloaded(s.inner, seen, snapshot))
  {
    var holding := Go(rules, now, t);
    assert At(s, holding, t, ReloadExchanging(s.inner, seen, snapshot), Some(t), None);
    var shown := Go(rules, holding, t);
    assert shown == Goto(SetInner(holding, snapshot), t, ReloadNotifying(s.inner, seen, snapshot));
  }

  /** All of it, as nested steps. */
  function ReloadAlone(rules: Rules, s: Shared, t: nat, w: Meanwhile): Shared {
    var a := Go(rules, Go(rules, Go(rules, Next(rules, s, t, BeginReload), t), t), t);
    var b := Go(rules, Put(rules, a, t, w.first), t);
    var c := Go(rules, Put(rules, b, t, w.loaded), t);
    var d := Go(rules, Put(rules, c, t, w.second), t);
    Go(rules, Go(rules, Go(rules, d, t), t), t)
  }

  lemma ReloadAloneIs(rules: Rules, s: Shared, t: nat, w: Meanwhile)
    ensures Run(rules, s, ReloadScript(t, w)) == ReloadAlone(rules, s, t, w)
  {
    hide Next, Run;
    var go: Action := Advance("");
    var end: seq<(nat, Action)> := [(t, go)] + ([(t, go)] + ([(t, go)] + []));
    var d := [(t, Edit(w.second))] + ([(t, go)] + end);
    var c := [(t, Edit(w.loaded))] + ([(t, go)] + d);
    var b := [(t, Edit(w.first))] + ([(t, go)] + c);
    var a := [(t, BeginReload)] + ([(t, go)] + ([(t, go)] + ([(t, go)] + b)));
    assert a == ReloadScript(t, w);
    var s1 := Next(rules, s, t, BeginReload);
    RunOne(rules, s, t, BeginReload, a[1..]);
    RunThree(rules, s1, t, b);
    var s4 := Go(rules, Go(rules, Go(rules, s1, t), t), t);
    RunEdit(rules, s4, t, w.first, c);
    var s6 := Go(rules, Put(rules, s4, t, w.first), t);
    RunEdit(rules, s6, t, w.loaded, d);
    var s8 := Go(rules, Put(rules, s6, t, w.loaded), t);
    RunEdit(rules, s8, t, w.second, end);
    RunThree(rules, Go(rules, Put(rules, s8, t, w.second), t), t, []);
    RunNothing(rules, Go(rules, Go(rules, Go(rules, Go(rules, Put(rules, s8, t, w.second), t), t), t), t));
  }

  lemma RunNothing(rules: Rules, s: Shared)
    ensures Run(rules, s, []) == s
  {
  }

  lemma RunThree(rules: Rules, s: Shared, t: nat, rest: seq<(nat, Action)>)
    ensures var go: Action := Advance("");
      Run(rules, s, [(t, go)] + ([(t, go)] + ([(t, go)] + rest))) ==
        Run(rules, Go(rules, Go(rules, Go(rules, s, t), t), t), rest)
  {
    hide Next, Run;
    var go: Action := Advance("");
    RunOne(rules, s, t, go, [(t, go)] + ([(t, go)] + rest));
    RunOne(rules, Go(rules, s, t), t, go, [(t, go)] + rest);
    RunOne(rules, Go(rules, Go(rules, s, t), t), t, go, rest);
  }

  lemma RunEdit(rules: Rules, s: Shared, t: nat, content: string, rest: seq<(nat, Action)>)
    ensures Run(rules, s, [(t, Edit(content))] + ([(t, Advance(""))] + rest)) ==
      Run(rules, Go(rules, Put(rules, s, t, content), t), rest)
  {
    hide Next, Run;
    RunOne(rules, s, t, Edit(content), [(t, Advance(""))] + rest);
    RunOne(rules, Put(rules, s, t, content), t, Advance(""), rest);
  }

  lemma LastThree(rules: Rules, s: Shared, now: Shared, t: nat, inner: Snapshot, answer: Answer)
    requires Finished(s, now, t, inner, answer)
    ensures Finished(s, Go(rules, Go(rules, Go(rules, now, t), t), t), t, inner, answer)
  {
    hide Next, Finished;
    GoKeepsFinished(rules, s, now, t, inner, answer);
    GoKeepsFinished(rules, s, Go(rules, now, t), t, inner, answer);
    GoKeepsFinished(rules, s, Go(rules, Go(rules, now, t), t), t, inner, answer);
  }

  lemma PutGo(rules: Rules, s: Shared, now: Shared, t: nat, content: string, inner: Snapshot, answer: Answer)
    requires Finished(s, now, t, inner, answer)
    ensures Finished(s, Go(rules, Put(rules, now, t, content), t), t, inner, answer)
  {
    hide Next, Finished, Go, Put;
    PutKeeps(rules, s, now, t, content, inner, answer);
    GoKeepsFinished(rules, s, Put(rules, now, t, content), t, inner, answer);
  }

  /** A reload that runs alone, whatever is edited around it, ends as the manager's contract says: a changed,
      valid and reloadable source that stays the same is published, one revision on. */
  lemma UndisturbedReload(rules: Rules, s: Shared, t: nat, w: Meanwhile) returns (inner: Snapshot, answer: Answer)
    requires AllFree(s, t)
    ensures Finished(s, Run(rules, s, ReloadScript(t, w)), t, inner, answer)
    ensures ReloadOutcome(rules, s.inner, w, inner, answer)
  {
    hide Next, Run, Finished, At, Go, Put;
    ReloadAloneIs(rules, s, t, w);
    var base := s.inner;
    var captured := Go(rules, Go(rules, Next(rules, s, t, BeginReload), t), t);
    var a := Go(rules, captured, t);
    var b := Go(rules, Put(rules, a, t, w.first), t);
    ReloadOpens(rules, s, t);
    if !rules.hasPath {
      inner, answer := base, Refused(ConfigPathUnavailable, false);
      GoKeepsFinished(rules, s, captured, t, inner, answer);
      PutGo(rules, s, a, t, w.first, inner, answer);
      ReloadRest(rules, s, b, t, w, inner, answer);
      return;
    }
    PutKeeps(rules, s, a, t, w.first, base, Refused(InvalidConfig, false));
    ReloadReads(rules, s, Put(rules, a, t, w.first), t, base);
    inner, answer := ReloadRead(rules, s, b, t, w);
  }

  /** So a source that was edited, is valid, differs in nothing that needs a restart and is then left alone takes
      effect with the first reload. */
  lemma ChangedSourceIsPublished(rules: Rules, s: Shared, t: nat, w: Meanwhile)
    requires AllFree(s, t) && rules.hasPath && w.first == w.loaded == w.second == s.source
    requires rules.fingerprint(s.source).Some? && rules.fingerprint(s.source) != Some(s.inner.fingerprint)
    requires rules.parse(s.source).Some?
    requires var config := rules.parse(s.source).value;
      rules.isValid(config) && config.restart == s.inner.config.restart
    requires s.inner.revision < 0xFFFF_FFFF_FFFF_FFFF
    ensures var end := Run(rules, s, ReloadScript(t, w));
      end.inner ==
        Snapshot(s.inner.revision + 1, rules.fingerprint(s.source).value, rules.parse(s.source).value) &&
      end.published == s.published + [end.inner] && end.change == ChangeOf(end.inner)
  {
    hide Next, Run;
    var inner, answer := UndisturbedReload(rules, s, t, w);
  }

  lemma ReloadRest(
      rules: Rules, s: Shared, b: Shared, t: nat, w: Meanwhile, inner: Snapshot, answer: Answer)
    requires Finished(s, b, t, inner, answer)
    ensures var c := Go(rules, Put(rules, b, t, w.loaded), t);
      var d := Go(rules, Put(rules, c, t, w.second), t);
      Finished(s, Go(rules, Go(rules, Go(rules, d, t), t), t), t, inner, answer)
  {
    hide Next, Finished, Go, Put;
    var c := Go(rules, Put(rules, b, t, w.loaded), t);
    var d := Go(rules, Put(rules, c, t, w.second), t);
    PutGo(rules, s, b, t, w.loaded, inner, answer);
    PutGo(rules, s, c, t, w.second, inner, answer);
    LastThree(rules, s, d, t, inner, answer);
  }

  /** From the first look at the source on. */
  lemma ReloadRead(rules: Rules, s: Shared, b: Shared, t: nat, w: Meanwhile) returns (inner: Snapshot, answer: Answer)
    requires rules.hasPath
    requires var fingerprint := rules.fingerprint(w.first);
      if fingerprint.None? then Finished(s, b, t, s.inner, Refused(SourceUnreadable, false))
      else if fingerprint.value == s.inner.fingerprint then
        Finished(s, b, t, s.inner, Reloaded(s.inner, Seen(w.first, None), s.inner))
      else At(s, b, t, ReloadLoading(s.inner, w.first, fingerprint.value), None, Some(t))
    ensures var c := Go(rules, Put(rules, b, t, w.loaded), t);
      var d := Go(rules, Put(rules, c, t, w.second), t);
      Finished(s, Go(rules, Go(rules, Go(rules, d, t), t), t), t, inner, answer)
    ensures ReloadOutcome(rules, s.inner, w, inner, answer)
  {
    hide Next, Finished, At, Go, Put, CheckConfig;
    var base, fingerprint := s.inner, rules.fingerprint(w.first);
    inner := base;
    if fingerprint.None? || fingerprint.value == base.fingerprint {
      answer := if fingerprint.None? then Refused(SourceUnreadable, false)
        else Reloaded(base, Seen(w.first, None), base);
      ReloadRest(rules, s, b, t, w, inner, answer);
      return;
    }
    var c := Go(rules, Put(rules, b, t, w.loaded), t);
    PutKeeps(rules, s, b, t, w.loaded, base, Refused(InvalidConfig, false));
    ReloadLoads(rules, s, Put(rules, b, t, w.loaded), t, base, w.first, fingerprint.value);
    var candidate := rules.parse(w.loaded);
    if candidate.None? || CheckConfig(rules, base, candidate.value).Some? {
      var problem := if candidate.None? then InvalidConfig else CheckConfig(rules, base, candidate.value).value;
      answer := Refused(problem, false);
      PutGo(rules, s, c, t, w.second, inner, answer);
      LastThree(rules, s, Go(rules, Put(rules, c, t, w.second), t), t, inner, answer);
      if candidate.Some? { CheckedProblem(rules, base, candidate.value); }
      return;
    }
    CheckedConfig(rules, base, candidate.value);
    inner, answer := ReloadParsed(rules, s, c, t, w);
  }

  lemma CheckedProblem(rules: Rules, base: Snapshot, candidate: Config)
    requires CheckConfig(rules, base, candidate).Some?
    ensures var problem := CheckConfig(rules, base, candidate).value;
      if !rules.isValid(candidate) then problem == InvalidConfig
      else
        candidate.restart != base.config.restart &&
        ForbiddenField(base.config.restart, candidate.restart).Some? &&
        problem == ReloadForbidden(ForbiddenField(base.config.restart, candidate.restart).value)
  {
    ReloadableIff(base.config.restart, candidate.restart);
  }

  /** From the parsed candidate on. */
  lemma ReloadParsed(rules: Rules, s: Shared, c: Shared, t: nat, w: Meanwhile) returns (inner: Snapshot, answer: Answer)
    requires rules.hasPath && rules.fingerprint(w.first).Some? && rules.parse(w.loaded).Some?
    requires rules.fingerprint(w.first).value != s.inner.fingerprint && rules.isValid(rules.parse(w.loaded).value)
    requires rules.parse(w.loaded).value.restart == s.inner.config.restart
    requires At(s, c, t, ReloadConfirming(s.inner, Seen(w.first, Some(w.loaded)), rules.fingerprint(w.first).value,
      rules.parse(w.loaded).value), None, Some(t))
    ensures var d := Go(rules, Put(rules, c, t, w.second), t);
      Finished(s, Go(rules, Go(rules, Go(rules, d, t), t), t), t, inner, answer)
    ensures ReloadOutcome(rules, s.inner, w, inner, answer)
  {
    hide Next, Finished, At, Go, Put;
    var base, seen, read := s.inner, Seen(w.first, Some(w.loaded)), rules.fingerprint(w.first).value;
    var candidate, stable := rules.parse(w.loaded).value, rules.fingerprint(w.second);
    var d := Go(rules, Put(rules, c, t, w.second), t);
    PutKeeps(rules, s, c, t, w.second, base, Refused(InvalidConfig, false));
    ReloadConfirms(rules, s, Put(rules, c, t, w.second), t, base, seen, read, candidate);
    if stable == Some(read) && base.revision < MAX_REVISION {
      inner := Snapshot(base.revision + 1, read, candidate);
      answer := Reloaded(base, seen, inner);
      ReloadPublishes(rules, s, d, t, seen, inner);
    } else {
      inner := base;
      answer := Refused(
        if stable.None? then SourceUnreadable
        else if stable.value != read then SourceChangedDuringReload
        else RevisionExhausted, false);
      LastThree(rules, s, d, t, inner, answer);
    }
  }

  // ---- an apply, stage by stage

  function GoWith(rules: Rules, s: Shared, t: nat, written: string): Shared { Next(rules, s, t, Advance(written)) }

  lemma ApplyCaptures(rules: Rules, s: Shared, t: nat, candidate: Config, expected: Option<string>, written: string)
    requires AllFree(s, t)
    ensures var begun := Next(rules, s, t, BeginApply(candidate, expected));
      var captured := GoWith(rules, GoWith(rules, begun, t, written), t, written);
      if expected.Some? && expected.value != s.inner.fingerprint then
        Finished(s, captured, t, s.inner, Refused(ConfigConflict(expected.value, s.inner.fingerprint), false))
      else if !rules.hasPath then Finished(s, captured, t, s.inner, Refused(ConfigPathUnavailable, false))
      else At(s, captured, t, ApplyChecking(candidate, expected, s.inner), None, None)
  {
    var begun := Next(rules, s, t, BeginApply(candidate, expected));
    assert At(s, begun, t, ApplyStarting(candidate, expected), None, None);
    var holding := GoWith(rules, begun, t, written);
    assert At(s, holding, t, ApplyComparing(candidate, expected), Some(t), None);
  }

  lemma ApplyChecks(
      rules: Rules, s: Shared, now: Shared, t: nat, candidate: Config, expected: Option<string>, written: string)
    requires At(s, now, t, ApplyChecking(candidate, expected, s.inner), None, None)
    ensures var next, conflict := GoWith(rules, now, t, written), CheckPersisted(rules, now.source, s.inner, expected);
      var problem := if conflict.Some? then conflict else CheckCandidate(rules, s.inner, candidate);
      if problem.Some? then Finished(s, next, t, s.inner, Refused(problem.value, false))
      else At(s, next, t, ApplySaving(candidate, s.inner), None, None)
    ensures GoWith(rules, now, t, written).source == now.source
  {
    hide CheckPersisted, CheckCandidate;
  }

  lemma ApplySaves(rules: Rules, s: Shared, now: Shared, t: nat, candidate: Config, written: string)
    requires At(s, now, t, ApplySaving(candidate, s.inner), None, None)
    ensures var next, save := GoWith(rules, now, t, written), SaveIfUnchanged(rules, now.source, s.inner, written);
      var wrote := SaveWrites(rules, now.source, s.inner);
      next.source == (if wrote then written else now.source) &&
      if save.Err? then Finished(s, next, t, s.inner, Refused(save.error, wrote))
      else
        At(s, next, t,
           ApplySaved(s.inner, now.source, Snapshot(s.inner.revision + 1, save.value, candidate)), None, None)
  {
    hide SaveIfUnchanged, SaveWrites;
  }

  lemma ApplyPublishes(
      rules: Rules, s: Shared, now: Shared, t: nat, replaced: string, snapshot: Snapshot, written: string)
    requires At(s, now, t, ApplySaved(s.inner, replaced, snapshot), None, None)
    requires snapshot.revision == s.inner.revision + 1
    ensures var holding := GoWith(rules, now, t, written);
      var end := GoWith(rules, GoWith(rules, holding, t, written), t, written);
      var inner := if snapshot.fingerprint == s.inner.fingerprint then s.inner else snapshot;
      Finished(s, end, t, inner, Applied(s.inner, replaced, snapshot.fingerprint, inner)) && end.source == now.source
  {
    var holding := GoWith(rules, now, t, written);
    assert At(s, holding, t, ApplyExchanging(s.inner, replaced, snapshot), Some(t), None);
    var shown := GoWith(rules, holding, t, written);
    if snapshot.fingerprint != s.inner.fingerprint {
      assert shown == Goto(SetInner(holding, snapshot), t, ApplyNotifying(s.inner, replaced, snapshot));
    } else {
      assert shown == Unlock(Answered(holding, t, Applied(s.inner, replaced, snapshot.fingerprint, s.inner)));
    }
  }

  lemma GoWithKeepsFinished(
      rules: Rules, s: Shared, now: Shared, t: nat, written: string, inner: Snapshot, answer: Answer)
    requires Finished(s, now, t, inner, answer)
    ensures Finished(s, GoWith(rules, now, t, written), t, inner, answer)
    ensures GoWith(rules, now, t, written).source == now.source
  {
  }

  function ApplyAlone(
      rules: Rules, s: Shared, t: nat, candidate: Config, expected: Option<string>, written: string, w: Meanwhile)
    : Shared
  {
    var begun := Next(rules, s, t, BeginApply(candidate, expected));
    var captured := GoWith(rules, GoWith(rules, begun, t, written), t, written);
    var checked := GoWith(rules, Put(rules, captured, t, w.first), t, written);
    var saved := GoWith(rules, Put(rules, checked, t, w.second), t, written);
    GoWith(rules, GoWith(rules, GoWith(rules, saved, t, written), t, written), t, written)
  }

  lemma ApplyAloneIs(
      rules: Rules, s: Shared, t: nat, candidate: Config, expected: Option<string>, written: string, w: Meanwhile)
    ensures Run(rules, s, ApplyScript(t, candidate, expected, written, w)) ==
      ApplyAlone(rules, s, t, candidate, expected, written, w)
  {
    hide Next, Run;
    var begin, go := BeginApply(candidate, expected), Advance(written);
    var end: seq<(nat, Action)> := [(t, go)] + ([(t, go)] + ([(t, go)] + []));
    var c := [(t, Edit(w.second))] + ([(t, go)] + end);
    var b := [(t, Edit(w.first))] + ([(t, go)] + c);
    var a := [(t, begin)] + ([(t, go)] + ([(t, go)] + b));
    assert a == ApplyScript(t, candidate, expected, written, w);
    var begun := Next(rules, s, t, begin);
    RunOne(rules, s, t, begin, [(t, go)] + ([(t, go)] + b));
    RunOne(rules, begun, t, go, [(t, go)] + b);
    RunOne(rules, GoWith(rules, begun, t, written), t, go, b);
    var captured := GoWith(rules, GoWith(rules, begun, t, written), t, written);
    RunOne(rules, captured, t, Edit(w.first), [(t, go)] + c);
    RunOne(rules, Put(rules, captured, t, w.first), t, go, c);
    var checked := GoWith(rules, Put(rules, captured, t, w.first), t, written);
    RunOne(rules, checked, t, Edit(w.second), [(t, go)] + end);
    RunOne(rules, Put(rules, checked, t, w.second), t, go, end);
    var saved := GoWith(rules, Put(rules, checked, t, w.second), t, written);
    RunOne(rules, saved, t, go, [(t, go)] + ([(t, go)] + []));
    RunOne(rules, GoWith(rules, saved, t, written), t, go, [(t, go)] + []);
    RunOne(rules, GoWith(rules, GoWith(rules, saved, t, written), t, written), t, go, []);
    RunNothing(rules, ApplyAlone(rules, s, t, candidate, expected, written, w));
  }

  lemma LastThreeWith(
      rules: Rules, s: Shared, now: Shared, t: nat, written: string, inner: Snapshot, answer: Answer)
    requires Finished(s, now, t, inner, answer)
    ensures var end := GoWith(rules, GoWith(rules, GoWith(rules, now, t, written), t, written), t, written);
      Finished(s, end, t, inner, answer) && end.source == now.source
  {
    hide GoWith, Finished;
    GoWithKeepsFinished(rules, s, now, t, written, inner, answer);
    var one := GoWith(rules, now, t, written);
    GoWithKeepsFinished(rules, s, one, t, written, inner, answer);
    GoWithKeepsFinished(rules, s, GoWith(rules, one, t, written), t, written, inner, answer);
  }

  /** An apply that runs alone, whatever is edited around it, ends as the manager's contract says: it saves
      exactly when every check holds, and what it saved is published, one revision on. */
  lemma UndisturbedApply(
      rules: Rules, s: Shared, t: nat, candidate: Config, expected: Option<string>, written: string, w: Meanwhile)
    returns (inner: Snapshot, answer: Answer)
    requires AllFree(s, t)
    ensures var end := Run(rules, s, ApplyScript(t, candidate, expected, written, w));
      Finished(s, end, t, inner, answer) &&
      end.source == if MaySave(rules, s.inner, candidate, expected, w) then written else w.second
    ensures ApplyOutcome(rules, s.inner, candidate, expected, written, w, inner, answer)
  {
    hide Next, Run, Finished, At, GoWith, Put, CheckCandidate, CheckPersisted, ForbiddenField;
    ApplyAloneIs(rules, s, t, candidate, expected, written, w);
    var base := s.inner;
    var begun := Next(rules, s, t, BeginApply(candidate, expected));
    var captured := GoWith(rules, GoWith(rules, begun, t, written), t, written);
    var checked := GoWith(rules, Put(rules, captured, t, w.first), t, written);
    inner, answer := base, Refused(ConfigPathUnavailable, false);
    ApplyCaptures(rules, s, t, candidate, expected, written);
    if expected.Some? && expected.value != base.fingerprint {
      answer := Refused(ConfigConflict(expected.value, base.fingerprint), false);
      ApplyRest(rules, s, captured, t, written, w, answer);
    } else if !rules.hasPath {
      ApplyRest(rules, s, captured, t, written, w, answer);
    } else {
      PutKeeps(rules, s, captured, t, w.first, base, answer);
      ApplyChecks(rules, s, Put(rules, captured, t, w.first), t, candidate, expected, written);
      ApplyProblem(rules, base, candidate, expected, written, w);
      var conflict := CheckPersisted(rules, w.first, base, expected);
      var problem := if conflict.Some? then conflict else CheckCandidate(rules, base, candidate);
      if problem.Some? {
        answer := Refused(problem.value, false);
        ApplyRestChecked(rules, s, checked, t, written, w, answer);
      } else {
        inner, answer := ApplyChecked(rules, s, checked, t, candidate, expected, written, w);
      }
    }
  }

  lemma ApplyRest(rules: Rules, s: Shared, captured: Shared, t: nat, written: string, w: Meanwhile, answer: Answer)
    requires Finished(s, captured, t, s.inner, answer)
    ensures var checked := GoWith(rules, Put(rules, captured, t, w.first), t, written);
      var saved := GoWith(rules, Put(rules, checked, t, w.second), t, written);
      var end := GoWith(rules, GoWith(rules, GoWith(rules, saved, t, written), t, written), t, written);
      Finished(s, end, t, s.inner, answer) && end.source == w.second
  {
    hide GoWith, Put, Finished;
    PutKeeps(rules, s, captured, t, w.first, s.inner, answer);
    GoWithKeepsFinished(rules, s, Put(rules, captured, t, w.first), t, written, s.inner, answer);
    ApplyRestChecked(rules, s, GoWith(rules, Put(rules, captured, t, w.first), t, written), t, written, w, answer);
  }

  lemma ApplyRestChecked(
      rules: Rules, s: Shared, checked: Shared, t: nat, written: string, w: Meanwhile, answer: Answer)
    requires Finished(s, checked, t, s.inner, answer)
    ensures var saved := GoWith(rules, Put(rules, checked, t, w.second), t, written);
      var end := GoWith(rules, GoWith(rules, GoWith(rules, saved, t, written), t, written), t, written);
      Finished(s, end, t, s.inner, answer) && end.source == w.second
  {
    hide GoWith, Put, Finished;
    PutKeeps(rules, s, checked, t, w.second, s.inner, answer);
    GoWithKeepsFinished(rules, s, Put(rules, checked, t, w.second), t, written, s.inner, answer);
    LastThreeWith(rules, s, GoWith(rules, Put(rules, checked, t, w.second), t, written), t, written, s.inner, answer);
  }

  /** What the checks before the save report. */
  lemma ApplyProblem(
      rules: Rules, base: Snapshot, candidate: Config, expected: Option<string>, written: string, w: Meanwhile)
    requires rules.hasPath && (expected.Some? ==> expected.value == base.fingerprint)
    ensures var conflict := CheckPersisted(rules, w.first, base, expected);
      var problem := if conflict.Some? then conflict else CheckCandidate(rules, base, candidate);
      if problem.Some? then
        !MaySave(rules, base, candidate, expected, w) &&
        ApplyFails(rules, base, base, candidate, expected, written, w, false, problem.value)
      else
        rules.fingerprint(w.first) == Some(base.fingerprint) && rules.isValid(candidate) &&
        candidate.restart == base.config.restart && base.revision < MAX_REVISION
  {
    hide ForbiddenField;
    ReloadableIff(base.config.restart, candidate.restart);
  }

  /** From the save on. */
  lemma ApplyChecked(
      rules: Rules, s: Shared, checked: Shared, t: nat, candidate: Config, expected: Option<string>, written: string,
      w: Meanwhile)
    returns (inner: Snapshot, answer: Answer)
    requires rules.hasPath && (expected.Some? ==> expected.value == s.inner.fingerprint)
    requires rules.fingerprint(w.first) == Some(s.inner.fingerprint) && rules.isValid(candidate)
    requires candidate.restart == s.inner.config.restart && s.inner.revision < MAX_REVISION
    requires At(s, checked, t, ApplySaving(candidate, s.inner), None, None)
    ensures var saved := GoWith(rules, Put(rules, checked, t, w.second), t, written);
      var end := GoWith(rules, GoWith(rules, GoWith(rules, saved, t, written), t, written), t, written);
      Finished(s, end, t, inner, answer) &&
      end.source == if MaySave(rules, s.inner, candidate, expected, w) then written else w.second
    ensures ApplyOutcome(rules, s.inner, candidate, expected, written, w, inner, answer)
  {
    hide Finished, At, GoWith, Put;
    var base := s.inner;
    var saved := GoWith(rules, Put(rules, checked, t, w.second), t, written);
    PutKeeps(rules, s, checked, t, w.second, base, Refused(ConfigPathUnavailable, false));
    ApplySaves(rules, s, Put(rules, checked, t, w.second), t, candidate, written);
    var save := SaveIfUnchanged(rules, w.second, base, written);
    if save.Err? {
      inner, answer := base, Refused(save.error, SaveWrites(rules, w.second, base));
      LastThreeWith(rules, s, saved, t, written, inner, answer);
    } else {
      var snapshot := Snapshot(base.revision + 1, save.value, candidate);
      inner := if save.value == base.fingerprint then base else snapshot;
      answer := Applied(base, w.second, save.value, inner);
      ApplyPublishes(rules, s, saved, t, w.second, snapshot, written);
    }
  }
}
