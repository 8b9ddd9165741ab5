/** Storing one turn phase with compare-and-swap (`src/agent_loop/session.rs`), first as the code runs
    it, then as a system of turns that share one session. */
module PhaseStore {
  import opened Text
  import opened Conversation
  import opened Session

  /** The session row with its revision. A store is one transaction: it succeeds when the expected
      revision is the current one, or, with none expected, when no snapshot exists yet. */
  class SessionStore {
    var revision: nat
    var snapshot: Option<seq<Message>>

    predicate Accepts(expected: Option<nat>)
      reads this
    {
      if expected.Some? then expected.value == revision else snapshot.None?
    }

    constructor (revision: nat, snapshot: Option<seq<Message>>)
      ensures this.revision == revision && this.snapshot == snapshot
    {
      this.revision, this.snapshot := revision, snapshot;
    }

    method Store(messages: seq<Message>, expected: Option<nat>) returns (r: Option<nat>)
      modifies this
      ensures old(Accepts(expected)) ==>
        r == Some(revision) && revision == old(revision) + 1 && snapshot == Some(messages)
      ensures !old(Accepts(expected)) ==> r.None? && unchanged(this)
    {
      if !Accepts(expected) { return None; }
      revision, snapshot := revision + 1, Some(messages);
      return Some(revision);
    }

    /** Other turns commit these snapshots, in this order. */
    method CommitRivals(rivals: seq<seq<Message>>)
      modifies this
      ensures revision == old(revision) + |rivals|
      ensures snapshot == if rivals == [] then old(snapshot) else Some(rivals[|rivals| - 1])
    {
      for i := 0 to |rivals|
        invariant revision == old(revision) + i
        invariant snapshot == if i == 0 then old(snapshot) else Some(rivals[i - 1])
      {
        revision, snapshot := revision + 1, Some(rivals[i]);
      }
    }

    /** `load_messages_for_turn`: the repaired snapshot, or the recent rows when there is none or it cannot be
        read back; the revision is that of the snapshot either way. */
    method Load(recent: seq<Message>, readable: bool) returns (messages: seq<Message>, loadedRevision: Option<nat>)
      ensures messages == if snapshot.Some? && readable then Repair(snapshot.value) else recent
      ensures loadedRevision == if snapshot.Some? then Some(revision) else None
    {
      if snapshot.None? { return recent, None; }
      if !readable { return recent, Some(revision); }
      messages := RepairOrphanToolOutputs(snapshot.value);
      return messages, Some(revision);
    }
  }

  datatype Persisted = Persisted(revision: nat, messages: seq<Message>)

  /** `persist_phase_messages`: `beforeReload` and `beforeRetry` are what other turns commit between
      the first conflict and the reload, and between the reload and the retry. The second attempt
      fails exactly when a rival committed after the reload, and then nothing of this turn is stored.
      `readable` says whether the reloaded snapshot can be read back. */
  method PersistPhaseMessages(
      store: SessionStore, phase: seq<Message>, messages: seq<Message>, expected: Option<nat>, recent: seq<Message>,
      readable: bool, beforeReload: seq<seq<Message>>, beforeRetry: seq<seq<Message>>)
    returns (r: Option<Persisted>, attempts: nat)
    modifies store
    ensures 1 <= attempts <= 2
    ensures old(store.Accepts(expected)) ==>
      attempts == 1 && r == Some(Persisted(old(store.revision) + 1, messages)) &&
      store.revision == old(store.revision) + 1 && store.snapshot == Some(messages)
    ensures !old(store.Accepts(expected)) ==> attempts == 2
    ensures !old(store.Accepts(expected)) && beforeRetry == [] ==>
      var seen := if beforeReload == [] then old(store.snapshot) else Some(beforeReload[|beforeReload| - 1]);
      var all := (if seen.Some? && readable then Repair(seen.value) else recent) + phase;
      r == Some(Persisted(old(store.revision) + |beforeReload| + 1, all)) &&
      store.revision == old(store.revision) + |beforeReload| + 1 && store.snapshot == Some(all)
    ensures !old(store.Accepts(expected)) && beforeRetry != [] ==>
      r.None? && store.snapshot == Some(beforeRetry[|beforeRetry| - 1]) &&
      store.revision == old(store.revision) + |beforeReload| + |beforeRetry|
  {
    var stored := store.Store(messages, expected);
    if stored.Some? { return Some(Persisted(stored.value, messages)), 1; }
    store.CommitRivals(beforeReload);
    var refreshed, refreshedRevision := store.Load(recent, readable);
    store.CommitRivals(beforeRetry);
    var all := refreshed + phase;
    stored := store.Store(all, refreshedRevision);
    if stored.None? { return None, 2; }
    return Some(Persisted(stored.value, all)), 2;
  }

  /** `commit_staged_user_messages` (`src/agent_loop/turn/persistence.rs`): nothing staged stores nothing;
      one conflict reloads and tries once more with what is staged then; a session without a revision takes
      no follow-up. `None` is a conflict that is reported. */
  method CommitStagedUserMessages(
      store: SessionStore, messages: seq<Message>, expected: Option<nat>, staged: seq<Message>,
      stagedLater: seq<Message>, recent: seq<Message>, readable: bool,
      beforeReload: seq<seq<Message>>, beforeRetry: seq<seq<Message>>)
    returns (r: Option<Persisted>)
    modifies store
    ensures expected.None? ==>
      unchanged(store) && r == if |staged| == 0 then Some(Persisted(0, messages)) else None
    ensures expected.Some? && |staged| == 0 ==> unchanged(store) && r == Some(Persisted(expected.value, messages))
    ensures expected.Some? && |staged| > 0 && old(store.Accepts(expected)) ==>
      r == Some(Persisted(old(store.revision) + 1, messages + staged)) &&
      store.revision == old(store.revision) + 1 && store.snapshot == Some(messages + staged)
    ensures expected.Some? && |staged| > 0 && !old(store.Accepts(expected)) ==>
      var seen := if beforeReload == [] then old(store.snapshot) else Some(beforeReload[|beforeReload| - 1]);
      var reloaded := if seen.Some? && readable then Repair(seen.value) else recent;
      var revision := old(store.revision) + |beforeReload|;
      if seen.None? then r.None? && store.snapshot == seen && store.revision == revision
      else if |stagedLater| == 0 then
        r == Some(Persisted(revision, reloaded)) && store.snapshot == seen && store.revision == revision
      else if beforeRetry == [] then
        r == Some(Persisted(revision + 1, reloaded + stagedLater)) &&
        store.snapshot == Some(reloaded + stagedLater) && store.revision == revision + 1
      else
        r.None? && store.snapshot == Some(beforeRetry[|beforeRetry| - 1]) && store.revision == revision + |beforeRetry|
  {
    hide Repair;
    if expected.None? {
      if |staged| == 0 { return Some(Persisted(0, messages)); }
      return None;
    }
    if |staged| == 0 { return Some(Persisted(expected.value, messages)); }
    var stored := store.Store(messages + staged, expected);
    if stored.Some? { return Some(Persisted(stored.value, messages + staged)); }
    store.CommitRivals(beforeReload);
    var reloaded, revision := store.Load(recent, readable);
    if revision.None? { return None; }
    if |stagedLater| == 0 { return Some(Persisted(revision.value, reloaded)); }
    store.CommitRivals(beforeRetry);
    stored := store.Store(reloaded + stagedLater, revision);
    if stored.None? { return None; }
    return Some(Persisted(stored.value, reloaded + stagedLater));
  }

  // ---------------------------------------------------------------- several turns, one session

  /** A row of the message table, written in the transaction of a store or on its own. */
  datatype Row = Row(sender: Sender, content: string)

  datatype Sender = FromUser | FromAssistant | FromTool | FromSystem

  /** `loaded_from_recent`: a row gives a text message, without calls and without the id of one. */
  function RowMessage(row: Row): Message {
    TextMessage(match row.sender case FromUser => User case FromSystem => System case _ => Assistant, row.content)
  }

  /** Nothing but a role and a text. */
  predicate IsPlainText(m: Message) {
    !m.role.Tool? && m.content.Plain? && m.reasoning.None? && m.toolCalls == [] && m.toolCallId.None?
  }

  /** The text of the row; what a tool or the assistant wrote comes from the assistant. */
  predicate SaysRow(m: Message, row: Row) {
    m.content == Plain(row.content) && (m.role.User? <==> row.sender.FromUser?) &&
    (m.role.System? <==> row.sender.FromSystem?) &&
    (m.role.Assistant? <==> row.sender.FromAssistant? || row.sender.FromTool?)
  }

  /** The last `limit` rows (`max_history_messages`, at least one), as messages. */
  function Recent(rows: seq<Row>, limit: nat): (ms: seq<Message>)
    ensures |ms| == if |rows| <= limit then |rows| else limit
    ensures forall i :: 0 <= i < |ms| ==> IsPlainText(ms[i]) && SaysRow(ms[i], rows[|rows| - |ms| + i])
  {
    var last := if |rows| <= limit then rows else rows[|rows| - limit..];
    seq(|last|, i requires 0 <= i < |last| => RowMessage(last[i]))
  }

  /** What a turn knows: `base` is the message list it builds on, read or written at `revision`. */
  datatype Turn =
    | Ready(base: seq<Message>, revision: Option<nat>)
    | Conflicted(phase: seq<Message>, row: Row)
    | Reloaded(base: seq<Message>, revision: Option<nat>, phase: seq<Message>, row: Row)
    | Failed

  /** `log[i]` is the snapshot committed as revision `i + 1`, `phases[i]` the phase that commit added. */
  datatype Shared = Shared(log: seq<seq<Message>>, phases: seq<seq<Message>>, rows: seq<Row>, turns: map<nat, Turn>)

  /** `readable` says whether the snapshot can be read back. `Note` writes a row without a snapshot. */
  datatype Action =
    | Join(limit: nat, readable: bool)
    | FirstStore(phase: seq<Message>, row: Row)
    | Reload(limit: nat, readable: bool)
    | SecondStore
    | Note(row: Row)

  function LoadFrom(log: seq<seq<Message>>, rows: seq<Row>, limit: nat, readable: bool): seq<Message> {
    if |log| == 0 || !readable then Recent(rows, limit) else Repair(log[|log| - 1])
  }

  function LoadRevision(log: seq<seq<Message>>): Option<nat> {
    if |log| == 0 then None else Some(|log|)
  }

  /** Compare-and-swap against the log: the turn commits its snapshot and its row in one transaction and
      moves on, or becomes `otherwise`. */
  function TryStore(
      s: Shared, t: nat, base: seq<Message>, revision: Option<nat>, phase: seq<Message>, row: Row, otherwise: Turn)
    : Shared
  {
    if revision == LoadRevision(s.log) then
      Shared(s.log + [base + phase], s.phases + [phase], s.rows + [row],
             s.turns[t := Ready(base + phase, Some(|s.log| + 1))])
    else s.(turns := s.turns[t := otherwise])
  }

  /** One step of turn `t`; an action that is not enabled does nothing. */
  function Next(s: Shared, t: nat, action: Action): Shared {
    if action.Note? then s.(rows := s.rows + [action.row])
    else if action.Join? then
      if t in s.turns then s
      else
        var loaded := LoadFrom(s.log, s.rows, action.limit, action.readable);
        s.(turns := s.turns[t := Ready(loaded, LoadRevision(s.log))])
    else if t !in s.turns then s
    else
      match (s.turns[t], action)
      case (Ready(base, revision), FirstStore(phase, row)) =>
        TryStore(s, t, base, revision, phase, row, Conflicted(phase, row))
      case (Conflicted(phase, row), Reload(limit, readable)) =>
        var loaded := LoadFrom(s.log, s.rows, limit, readable);
        s.(turns := s.turns[t := Reloaded(loaded, LoadRevision(s.log), phase, row)])
      case (Reloaded(base, revision, phase, row), SecondStore) =>
        TryStore(s, t, base, revision, phase, row, Failed)
      case _ => s
  }

  function Run(s: Shared, script: seq<(nat, Action)>): Shared
    decreases |script|
  {
    if |script| == 0 then s else Run(Next(s, script[0].0, script[0].1), script[1..])
  }

  // ---- one turn among the others

  predicate NotOf(t: nat, script: seq<(nat, Action)>) {
    forall k :: 0 <= k < |script| ==> script[k].0 != t
  }

  lemma OthersStep(s: Shared, u: nat, action: Action, t: nat)
    ensures s.log <= Next(s, u, action).log
    ensures u != t && t in s.turns ==> t in Next(s, u, action).turns && Next(s, u, action).turns[t] == s.turns[t]
  {
    hide LoadFrom;
  }

  /** Other turns only commit on top, and leave what this one knows alone. */
  lemma {:induction false} OthersRun(s: Shared, t: nat, script: seq<(nat, Action)>)
    requires t in s.turns && NotOf(t, script)
    ensures s.log <= Run(s, script).log && t in Run(s, script).turns && Run(s, script).turns[t] == s.turns[t]
    decreases |script|
  {
    hide Next;
    if |script| > 0 {
      OthersStep(s, script[0].0, script[0].1, t);
      OthersRun(Next(s, script[0].0, script[0].1), t, script[1..]);
    }
  }

  /** What a load hands out, as `SessionStore.Load` does: the repaired latest snapshot, or the recent rows
      when there is none or it cannot be read back. */
  ghost predicate IsLoaded(s: Shared, limit: nat, readable: bool, loaded: seq<Message>, revision: Option<nat>) {
    if |s.log| == 0 then loaded == Recent(s.rows, limit) && revision.None?
    else loaded == (if readable then Repair(s.log[|s.log| - 1]) else Recent(s.rows, limit)) && revision == Some(|s.log|)
  }

  /** `after` is `s` with one more commit, of turn `t`. */
  predicate Commits(s: Shared, t: nat, base: seq<Message>, phase: seq<Message>, row: Row, after: Shared) {
    after.log == s.log + [base + phase] && after.phases == s.phases + [phase] && after.rows == s.rows + [row] &&
    t in after.turns && after.turns[t] == Ready(base + phase, Some(|s.log| + 1))
  }

  /** `after` differs from `s` in what turn `t` knows, and in nothing that was stored. */
  predicate StoresNothing(s: Shared, t: nat, after: Shared) {
    after.log == s.log && after.phases == s.phases && after.rows == s.rows && t in after.turns
  }

  lemma JoinLoads(s: Shared, t: nat, limit: nat, readable: bool)
    requires t !in s.turns
    ensures var joined := Next(s, t, Join(limit, readable));
      StoresNothing(s, t, joined) && joined.turns[t].Ready? &&
      IsLoaded(s, limit, readable, joined.turns[t].base, joined.turns[t].revision)
  {
    hide Repair, Recent;
  }

  lemma FirstStoreOnLatest(s: Shared, t: nat, phase: seq<Message>, row: Row)
    requires t in s.turns && s.turns[t].Ready?
    ensures var revision, tried := s.turns[t].revision, Next(s, t, FirstStore(phase, row));
      if (if |s.log| == 0 then revision.None? else revision == Some(|s.log|)) then
        Commits(s, t, s.turns[t].base, phase, row, tried)
      else StoresNothing(s, t, tried) && tried.turns[t] == Conflicted(phase, row)
  {
  }

  /** A turn whose first store met a conflict, with any steps of other turns before its reload and before its
      second store: that store is made on the reloaded messages exactly when nobody committed in between, and
      else the turn fails and nothing of it is stored, as in `PersistPhaseMessages`. */
  lemma SecondStoreOnReloaded(
      s: Shared, t: nat, phase: seq<Message>, row: Row, limit: nat, readable: bool,
      beforeReload: seq<(nat, Action)>, beforeRetry: seq<(nat, Action)>)
    requires t in s.turns && s.turns[t] == Conflicted(phase, row) && NotOf(t, beforeReload) && NotOf(t, beforeRetry)
    ensures var seen := Run(s, beforeReload);
      var late := Run(Next(seen, t, Reload(limit, readable)), beforeRetry);
      var stored := Next(late, t, SecondStore);
      if late.log == seen.log then
        exists loaded, revision ::
          IsLoaded(seen, limit, readable, loaded, revision) && Commits(late, t, loaded, phase, row, stored)
      else StoresNothing(late, t, stored) && stored.turns[t] == Failed
  {
    hide Repair, Recent, Run, LoadFrom, LoadRevision;
    OthersRun(s, t, beforeReload);
    var seen := Run(s, beforeReload);
    ReloadLoads(seen, t, phase, row, limit, readable);
    var reloaded := Next(seen, t, Reload(limit, readable));
    OthersRun(reloaded, t, beforeRetry);
    SecondStoreDecides(Run(reloaded, beforeRetry), t);
  }

  lemma ReloadLoads(s: Shared, t: nat, phase: seq<Message>, row: Row, limit: nat, readable: bool)
    requires t in s.turns && s.turns[t] == Conflicted(phase, row)
    ensures var reloaded := Next(s, t, Reload(limit, readable));
      StoresNothing(s, t, reloaded) && reloaded.turns[t].Reloaded? &&
      reloaded.turns[t].phase == phase && reloaded.turns[t].row == row &&
      IsLoaded(s, limit, readable, reloaded.turns[t].base, reloaded.turns[t].revision)
  {
    hide Repair, Recent;
  }

  lemma SecondStoreDecides(s: Shared, t: nat)
    requires t in s.turns && s.turns[t].Reloaded?
    ensures var turn, stored := s.turns[t], Next(s, t, SecondStore);
      if (if |s.log| == 0 then turn.revision.None? else turn.revision == Some(|s.log|)) then
        Commits(s, t, turn.base, turn.phase, turn.row, stored)
      else StoresNothing(s, t, stored) && stored.turns[t] == Failed
  {
  }

  // ---- what every run keeps

  /** A base read at a revision holds everything committed at that revision. */
  predicate BaseOk(log: seq<seq<Message>>, base: seq<Message>, revision: Option<nat>) {
    revision.Some? ==> 1 <= revision.value <= |log| && IsSubsequence(log[revision.value - 1], base)
  }

  predicate TurnOk(log: seq<seq<Message>>, turn: Turn) {
    (turn.Ready? || turn.Reloaded?) ==> BaseOk(log, turn.base, turn.revision)
  }

  predicate EndsWithPhase(full: seq<Message>, phase: seq<Message>) {
    |phase| <= |full| && full[|full| - |phase|..] == phase
  }

  predicate Committed(log: seq<seq<Message>>, phases: seq<seq<Message>>) {
    |phases| == |log| &&
    (forall i :: 0 <= i < |log| ==> EndsWithPhase(log[i], phases[i])) &&
    (forall i :: 0 < i < |log| ==> IsSubsequence(log[i - 1], log[i]))
  }

  predicate Inv(s: Shared) {
    Committed(s.log, s.phases) && |s.log| <= |s.rows| && forall t :: t in s.turns ==> TurnOk(s.log, s.turns[t])
  }

  lemma TryStoreKeepsInv(
      s: Shared, t: nat, base: seq<Message>, revision: Option<nat>, phase: seq<Message>, row: Row, otherwise: Turn)
    requires Inv(s) && BaseOk(s.log, base, revision) && !otherwise.Ready? && !otherwise.Reloaded?
    ensures Inv(TryStore(s, t, base, revision, phase, row, otherwise))
  {
    hide IsSubsequence;
    var s' := TryStore(s, t, base, revision, phase, row, otherwise);
    if revision == LoadRevision(s.log) {
      if |s.log| > 0 { SubsequenceAppend(s.log[|s.log| - 1], base, phase); }
      SubsequenceSelf(base + phase);
      forall u | u in s'.turns ensures TurnOk(s'.log, s'.turns[u]) {
        if u != t { assert TurnOk(s.log, s.turns[u]); }
      }
    }
  }

  /** What a load hands out holds the latest commit. */
  predicate LoadKeeps(s: Shared, limit: nat, readable: bool) {
    |s.log| > 0 ==> IsSubsequence(s.log[|s.log| - 1], LoadFrom(s.log, s.rows, limit, readable))
  }

  predicate IsLoad(action: Action) { action.Join? || action.Reload? }

  lemma NextKeepsInv(s: Shared, t: nat, action: Action)
    requires Inv(s) && (IsLoad(action) ==> LoadKeeps(s, action.limit, action.readable))
    ensures Inv(Next(s, t, action)) && s.log <= Next(s, t, action).log
  {
    hide Committed, IsSubsequence, Repair, Recent;
    if t in s.turns {
      assert TurnOk(s.log, s.turns[t]);
      match (s.turns[t], action)
      case (Ready(base, revision), FirstStore(phase, row)) =>
        TryStoreKeepsInv(s, t, base, revision, phase, row, Conflicted(phase, row));
      case (Reloaded(base, revision, phase, row), SecondStore) =>
        TryStoreKeepsInv(s, t, base, revision, phase, row, Failed);
      case _ =>
    }
  }

  /** Every snapshot the run loads can be read back. */
  predicate AllReadable(script: seq<(nat, Action)>) {
    forall k :: 0 <= k < |script| && IsLoad(script[k].1) ==> script[k].1.readable
  }

  /** Repair loses nothing, so a snapshot that can be read back is kept. */
  lemma ReadableKeeps(s: Shared, limit: nat)
    ensures LoadKeeps(s, limit, true)
  {
    hide IsSubsequence, Repair, Recent;
    if |s.log| > 0 { RepairKeepsMessages(s.log[|s.log| - 1]); }
  }

  /** Every load of the run keeps the commit it finds. */
  predicate LoadsKeep(s: Shared, script: seq<(nat, Action)>)
    decreases |script|
  {
    |script| == 0 ||
    ((IsLoad(script[0].1) ==> LoadKeeps(s, script[0].1.limit, script[0].1.readable)) &&
     LoadsKeep(Next(s, script[0].0, script[0].1), script[1..]))
  }

  lemma {:induction false} ReadableLoadsKeep(s: Shared, script: seq<(nat, Action)>)
    requires AllReadable(script)
    ensures LoadsKeep(s, script)
    decreases |script|
  {
    hide Next, LoadKeeps;
    if |script| > 0 {
      if IsLoad(script[0].1) { ReadableKeeps(s, script[0].1.limit); }
      ReadableLoadsKeep(Next(s, script[0].0, script[0].1), script[1..]);
    }
  }

  /** Over every run of any number of turns whose loads keep what they find: the log only grows, every
      commit ends with the phase it was made for, and every commit contains the one before it. */
  lemma {:induction false} RunKeepsInv(s: Shared, script: seq<(nat, Action)>)
    requires Inv(s) && LoadsKeep(s, script)
    ensures Inv(Run(s, script)) && s.log <= Run(s, script).log
    decreases |script|
  {
    hide Inv, Next, LoadKeeps;
    if |script| > 0 {
      NextKeepsInv(s, script[0].0, script[0].1);
      RunKeepsInv(Next(s, script[0].0, script[0].1), script[1..]);
    }
  }

  /** It is enough that the snapshots the run loads can be read back. */
  lemma ReadableRunKeepsInv(s: Shared, script: seq<(nat, Action)>)
    requires Inv(s) && AllReadable(script)
    ensures Inv(Run(s, script)) && s.log <= Run(s, script).log
  {
    hide Inv, Run, LoadsKeep, AllReadable;
    ReadableLoadsKeep(s, script);
    RunKeepsInv(s, script);
  }

  lemma {:induction false} LaterCommitContains(log: seq<seq<Message>>, phases: seq<seq<Message>>, i: nat, j: nat)
    requires Committed(log, phases) && i <= j < |log|
    ensures IsSubsequence(log[i], log[j])
    decreases j - i
  {
    hide IsSubsequence;
    if i == j {
      SubsequenceSelf(log[i]);
    } else {
      LaterCommitContains(log, phases, i, j - 1);
      SubsequenceTransitive(log[i], log[j - 1], log[j]);
    }
  }

  lemma {:induction false} DropKeepsSubsequence(a: seq<Message>, n: nat)
    requires n <= |a|
    ensures IsSubsequence(a[n..], a)
  {
    if n == 0 {
      assert a[0..] == a;
      SubsequenceSelf(a);
    } else {
      DropKeepsSubsequence(a[1..], n - 1);
      assert a[1..][n - 1..] == a[n..];
    }
  }

  /** No phase is lost: what any turn committed stays, in order, in every later snapshot. */
  lemma NoLostPhases(s: Shared, script: seq<(nat, Action)>, i: nat, j: nat)
    requires Inv(s) && LoadsKeep(s, script) && i <= j < |Run(s, script).log|
    ensures var end := Run(s, script);
      |end.phases| == |end.log| && IsSubsequence(end.phases[i], end.log[j])
  {
    hide IsSubsequence, Run, LoadsKeep;
    RunKeepsInv(s, script);
    var end := Run(s, script);
    LaterCommitContains(end.log, end.phases, i, j);
    assert EndsWithPhase(end.log[i], end.phases[i]);
    DropKeepsSubsequence(end.log[i], |end.log[i]| - |end.phases[i]|);
    SubsequenceTransitive(end.phases[i], end.log[i], end.log[j]);
  }

  /** Turns that can read the snapshots they load never lose a phase of one another. */
  lemma ReadableRunsLoseNothing(s: Shared, script: seq<(nat, Action)>, i: nat, j: nat)
    requires Inv(s) && AllReadable(script) && i <= j < |Run(s, script).log|
    ensures var end := Run(s, script);
      |end.phases| == |end.log| && IsSubsequence(end.phases[i], end.log[j])
  {
    hide Inv, IsSubsequence, Run, LoadsKeep, AllReadable;
    ReadableLoadsKeep(s, script);
    NoLostPhases(s, script, i, j);
  }

  // ---------------------------------------------------------------- snapshots that cannot be read back

  lemma {:induction false} SubsequenceShape(a: seq<Message>, b: seq<Message>)
    requires IsSubsequence(a, b)
    ensures |a| <= |b| && forall i :: 0 <= i < |a| ==> a[i] in b
    decreases |b|
  {
    if |a| > 0 {
      if a[0] == b[0] && IsSubsequence(a[1..], b[1..]) {
        SubsequenceShape(a[1..], b[1..]);
        assert forall i :: 0 < i < |a| ==> a[i] == a[1..][i - 1];
      } else {
        SubsequenceShape(a, b[1..]);
      }
    }
  }

  /** A latest commit with a tool call, a tool result, reasoning or an image in it, or longer than the rows
      that are read, is kept by a load exactly when its snapshot can be read back. */
  lemma LoadKeepsIffReadable(s: Shared, limit: nat, readable: bool)
    requires |s.log| > 0
    requires var latest := s.log[|s.log| - 1]; |latest| > limit || exists m :: m in latest && !IsPlainText(m)
    ensures LoadKeeps(s, limit, readable) <==> readable
  {
    hide Repair, IsSubsequence;
    ReadableKeeps(s, limit);
    var latest, recent := s.log[|s.log| - 1], Recent(s.rows, limit);
    if !readable && IsSubsequence(latest, recent) { SubsequenceShape(latest, recent); }
  }

  /** A load keeps the latest commit exactly when no store on top of it can lose anything. */
  lemma LoadKeepsIff(s: Shared, t: nat, limit: nat, readable: bool)
    requires Inv(s) && |s.log| > 0 && t !in s.turns
    ensures LoadKeeps(s, limit, readable) <==>
      forall phase, row :: |phase| > 0 ==> Inv(LoadAndStore(s, t, limit, readable, phase, row))
  {
    hide Inv, IsSubsequence, LoadAndStore, LoadKeeps;
    if LoadKeeps(s, limit, readable) {
      forall phase, row | |phase| > 0 ensures Inv(LoadAndStore(s, t, limit, readable, phase, row)) {
        StoreOnKept(s, t, limit, readable, phase, row);
      }
    } else {
      var phase := StoreOnLost(s, t, limit, readable, Row(FromUser, ""));
    }
  }

  /** A turn joins and stores its first phase. */
  function LoadAndStore(s: Shared, t: nat, limit: nat, readable: bool, phase: seq<Message>, row: Row): Shared {
    Next(Next(s, t, Join(limit, readable)), t, FirstStore(phase, row))
  }

  lemma LoadAndStoreCommits(s: Shared, t: nat, limit: nat, readable: bool, phase: seq<Message>, row: Row)
    requires t !in s.turns
    ensures LoadAndStore(s, t, limit, readable, phase, row).log ==
      s.log + [LoadFrom(s.log, s.rows, limit, readable) + phase]
    ensures LoadAndStore(s, t, limit, readable, phase, row).phases == s.phases + [phase]
    ensures LoadAndStore(s, t, limit, readable, phase, row).rows == s.rows + [row]
  {
    hide LoadFrom;
  }

  lemma StoreOnKept(s: Shared, t: nat, limit: nat, readable: bool, phase: seq<Message>, row: Row)
    requires Inv(s) && t !in s.turns && LoadKeeps(s, limit, readable)
    ensures Inv(LoadAndStore(s, t, limit, readable, phase, row))
  {
    hide Inv, Next, LoadKeeps;
    NextKeepsInv(s, t, Join(limit, readable));
    NextKeepsInv(Next(s, t, Join(limit, readable)), t, FirstStore(phase, row));
  }

  /** What a load dropped does not come back with a phase of another message. */
  lemma StoreOnLost(s: Shared, t: nat, limit: nat, readable: bool, row: Row) returns (phase: seq<Message>)
    requires |s.log| > 0 && t !in s.turns && !LoadKeeps(s, limit, readable)
    ensures |phase| > 0 && !Inv(LoadAndStore(s, t, limit, readable, phase, row))
  {
    hide IsSubsequence, LoadFrom, LoadAndStore, EndsWithPhase, BaseOk;
    var latest, loaded := s.log[|s.log| - 1], LoadFrom(s.log, s.rows, limit, readable);
    NothingIsSubsequence(latest, loaded);
    var last := latest[|latest| - 1];
    var other := TextMessage(if last.role.User? then System else User, "");
    phase := [other];
    LoadAndStoreCommits(s, t, limit, readable, phase, row);
    LastNotTaken(latest, loaded, other);
    var end := LoadAndStore(s, t, limit, readable, phase, row);
    assert end.log[|s.log| - 1] == latest && end.log[|s.log|] == loaded + phase;
  }

  lemma NothingIsSubsequence(a: seq<Message>, b: seq<Message>)
    ensures |a| == 0 ==> IsSubsequence(a, b)
  {
  }

  lemma {:induction false} LastNotTaken(a: seq<Message>, b: seq<Message>, m: Message)
    requires |a| > 0 && a[|a| - 1] != m && !IsSubsequence(a, b)
    ensures !IsSubsequence(a, b + [m])
    decreases |b|
  {
    if |b| == 0 {
      assert b + [m] == [m] && [m][1..] == [];
    } else {
      assert (b + [m])[1..] == b[1..] + [m];
      LastNotTaken(a, b[1..], m);
      if a[0] == b[0] {
        assert |a| > 1 by { NothingIsSubsequence(a[1..], b[1..]); }
        LastNotTaken(a[1..], b[1..], m);
      }
    }
  }

  /** From the first message on: a user message and a tool call are stored, each with its row; the snapshot
      cannot be read back, so the next turn builds on the rows, and its compare-and-swap succeeds. However
      many rows it reads, the stored call is gone. */
  lemma UnreadableSnapshotLosesPhase(call: ToolCall, preview: string, limit: nat) returns (end: Shared)
    ensures var user, asks, next := TextMessage(User, "a"), Message(Assistant, Plain(""), None, [call], None),
        TextMessage(User, "b");
      end == LoadAndStore(
        Next(LoadAndStore(Shared([], [], [], map[]), 0, limit, true, [user], Row(FromUser, "a")),
             0, FirstStore([asks], Row(FromAssistant, preview))),
        1, limit, false, [next], Row(FromUser, "b")) &&
      |end.log| == |end.phases| == 3 && end.phases == [[user], [asks], [next]] &&
      !IsSubsequence(end.phases[1], end.log[2])
  {
    hide Repair, IsSubsequence, Recent, LoadAndStore;
    var user, asks, next := TextMessage(User, "a"), Message(Assistant, Plain(""), None, [call], None),
      TextMessage(User, "b");
    var empty := Shared([], [], [], map[]);
    var first := LoadAndStore(empty, 0, limit, true, [user], Row(FromUser, "a"));
    FirstStored(limit, user, Row(FromUser, "a"));
    var second := Next(first, 0, FirstStore([asks], Row(FromAssistant, preview)));
    assert first.turns[0] == Ready([user], Some(1)) && LoadRevision(first.log) == Some(1);
    assert second.log == [[user]] + [[user] + [asks]] && second.phases == [[user]] + [[asks]];
    assert second.turns == first.turns[0 := Ready([user] + [asks], Some(2))];
    LoadAndStoreCommits(second, 1, limit, false, [next], Row(FromUser, "b"));
    end := LoadAndStore(second, 1, limit, false, [next], Row(FromUser, "b"));
    var loaded := Recent(second.rows, limit);
    assert end.log[2] == loaded + [next] && end.phases[1] == [asks];
    CallNotInRows(asks, second.rows, limit, next);
  }

  lemma FirstStored(limit: nat, user: Message, row: Row)
    ensures LoadAndStore(Shared([], [], [], map[]), 0, limit, true, [user], row) ==
      Shared([[user]], [[user]], [row], map[0 := Ready([user], Some(1))])
  {
    assert [] + [user] == [user] && Recent([], limit) == [];
  }

  lemma CallNotInRows(asks: Message, rows: seq<Row>, limit: nat, next: Message)
    requires |asks.toolCalls| > 0 && next.toolCalls == []
    ensures !IsSubsequence([asks], Recent(rows, limit) + [next])
  {
    hide IsSubsequence;
    var all := Recent(rows, limit) + [next];
    assert forall i :: 0 <= i < |all| ==> all[i].toolCalls == [];
    assert [asks][0] == asks;
    if IsSubsequence([asks], all) { SubsequenceShape([asks], all); }
  }

  // ---------------------------------------------------------------- what a competing writer costs

  predicate AreAnswers(results: seq<Message>) {
    forall k :: 0 <= k < |results| ==> results[k].role.Tool? && results[k].toolCallId.Some?
  }

  lemma {:induction false} AnswersStray(head: Option<Message>, results: seq<Message>)
    requires AreAnswers(results)
    ensures NoStray(head, results) <==>
      (|results| > 0 ==> head.Some?) &&
      forall k :: 0 <= k < |results| ==> HoldsCall(head.value, results[k].toolCallId.value)
  {
    if |results| > 0 {
      var tail := results[1..];
      assert results == [results[0]] + tail;
      AnswersStray(head, tail);
      if head.Some? && forall k :: 0 <= k < |tail| ==> HoldsCall(head.value, tail[k].toolCallId.value) {
        forall k | 0 < k < |results| ensures HoldsCall(head.value, results[k].toolCallId.value) {
          assert tail[k - 1] == results[k];
        }
      }
      if head.Some? && forall k :: 0 <= k < |results| ==> HoldsCall(head.value, results[k].toolCallId.value) {
        forall k | 0 <= k < |tail| ensures HoldsCall(head.value, tail[k].toolCallId.value) {
          assert tail[k] == results[k + 1];
        }
      }
    }
  }

  lemma {:induction false} AnsweredAppendTools(ms: seq<Message>, results: seq<Message>)
    requires Answered(ms) && IsToolRun(results, 0, |results|)
    ensures Answered(ms + results)
  {
    if |ms| == 0 {
      assert ms + results == results;
      ToolRunFacts(results, TextMessage(User, ""));
    } else {
      assert (ms + results)[1..] == ms[1..] + results;
      AnsweredAppendTools(ms[1..], results);
      SeenIdsGrow(ms[1..], results);
    }
  }

  lemma {:induction false} SeenIdsGrow(a: seq<Message>, b: seq<Message>)
    ensures SeenIds(a) <= SeenIds(a + b)
  {
    if |a| > 0 {
      assert (a + b)[1..] == a[1..] + b;
      SeenIdsGrow(a[1..], b);
    }
  }

  /** Appending tool results to a tool-complete list keeps it complete exactly when its last non-tool
      message holds every answered call. After a retry that message may belong to another turn. */
  lemma AppendResultsCompleteIff(ms: seq<Message>, results: seq<Message>)
    requires ToolComplete(ms) && AreAnswers(results)
    ensures ToolComplete(ms + results) <==>
      (|results| > 0 ==> HeadAfter(None, ms).Some?) &&
      forall k :: 0 <= k < |results| ==> HoldsCall(HeadAfter(None, ms).value, results[k].toolCallId.value)
  {
    hide Answered, NoStray, SeenIds;
    ToolCompleteIff(ms);
    ToolCompleteIff(ms + results);
    AnsweredAppendTools(ms, results);
    NoStrayConcat(None, ms, results);
    AnswersStray(HeadAfter(None, ms), results);
  }

  /** The three steps of a store that meets a conflict first. */
  function RetryRun(s: Shared, t: nat, phase: seq<Message>, row: Row): Shared {
    Next(Next(Next(s, t, FirstStore(phase, row)), t, Reload(1, true)), t, SecondStore)
  }

  lemma RetryCommits(s: Shared, t: nat, phase: seq<Message>, row: Row)
    requires t in s.turns && s.turns[t].Ready? && |s.log| > 0 && s.turns[t].revision != Some(|s.log|)
    ensures var all := Repair(s.log[|s.log| - 1]) + phase;
      RetryRun(s, t, phase, row).log == s.log + [all] &&
      RetryRun(s, t, phase, row).turns == s.turns[t := Ready(all, Some(|s.log| + 1))]
  {
    hide Repair;
  }

  /** Results that arrive after another turn's commit keep the session tool-complete exactly when the
      last non-tool message of that commit holds every call they answer. */
  lemma LateResultsCompleteIff(s: Shared, t: nat, results: seq<Message>, row: Row)
    requires t in s.turns && s.turns[t].Ready? && |s.log| > 0 && s.turns[t].revision != Some(|s.log|)
    requires ToolComplete(s.log[|s.log| - 1]) && AreAnswers(results)
    ensures var head := HeadAfter(None, s.log[|s.log| - 1]);
      ToolComplete(RetryRun(s, t, results, row).log[|s.log|]) <==>
        (|results| > 0 ==> head.Some?) &&
        forall k :: 0 <= k < |results| ==> HoldsCall(head.value, results[k].toolCallId.value)
  {
    hide Repair, RetryRun, ToolComplete;
    var latest := s.log[|s.log| - 1];
    RetryCommits(s, t, results, row);
    ToolCompleteIff(latest);
    RepairIdentity(latest);
    AppendResultsCompleteIff(latest, results);
  }

  /** One turn asks for a tool; another turn commits a user message before the result arrives: the
      retried result lands behind that message, and the stored snapshot is not tool-complete. */
  lemma CompetingWriterStrandsResult(call: ToolCall, called: Row, answered: Row) returns (end: Shared)
    ensures var user, asks := TextMessage(User, "a"), Message(Assistant, Plain(""), None, [call], None);
      var alone := Next(Shared([[user]], [[user]], [Row(FromUser, "a")], map[]), 0, Join(50, true));
      var start := Next(alone, 1, Join(50, true));
      var asked := Next(start, 0, FirstStore([asks], called));
      end == RetryRun(RetryRun(asked, 1, [TextMessage(User, "b")], Row(FromUser, "b")),
                      0, [Message(Tool, Plain("ok"), None, [], Some(call.id))], answered)
    ensures |end.log| > 0 && ToolComplete(end.log[0]) && !ToolComplete(end.log[|end.log| - 1])
  {
    hide RetryRun, ToolComplete, Repair, HeadAfter;
    var user, other := TextMessage(User, "a"), TextMessage(User, "b");
    var asks := Message(Assistant, Plain(""), None, [call], None);
    var result := Message(Tool, Plain("ok"), None, [], Some(call.id));
    var alone := Next(Shared([[user]], [[user]], [Row(FromUser, "a")], map[]), 0, Join(50, true));
    var start := Next(alone, 1, Join(50, true));
    RepairSingle(user);
    var asked := Next(start, 0, FirstStore([asks], called));
    assert asked.log == [[user], [user] + [asks]] && asked.turns[0].revision == Some(2) &&
      asked.turns[1].revision == Some(1);
    assert [user] + [asks] == [user, asks];
    RetryCommits(asked, 1, [other], Row(FromUser, "b"));
    RepairUnanswered(user, asks);
    var rival := RetryRun(asked, 1, [other], Row(FromUser, "b"));
    var full := [user, asks, OrphanToolOutput(call.id), other];
    assert [user, asks, OrphanToolOutput(call.id)] + [other] == full;
    FullIsComplete(user, asks, OrphanToolOutput(call.id), other);
    HeadOf(full);
    LateResultsCompleteIff(rival, 0, [result], answered);
    RetryCommits(rival, 0, [result], answered);
    ToolCompleteSingle(user);
    end := RetryRun(rival, 0, [result], answered);
    var results := [result];
    assert !HoldsCall(other, results[0].toolCallId.value);
    assert |end.log| == |rival.log| + 1;
  }

  lemma HeadOf(ms: seq<Message>)
    requires |ms| > 0 && !ms[|ms| - 1].role.Tool?
    ensures HeadAfter(None, ms) == Some(ms[|ms| - 1])
  {
    HeadAfterAt(None, ms);
  }

  lemma RepairSingle(m: Message)
    requires !m.role.Assistant?
    ensures Repair([m]) == [m]
  {
    assert [m][1..] == [];
  }

  lemma RepairUnanswered(user: Message, asks: Message)
    requires user.role.User? && asks.role.Assistant? && |asks.toolCalls| == 1
    ensures Repair([user, asks]) == [user, asks, OrphanToolOutput(asks.toolCalls[0].id)]
  {
    assert [user, asks][1..] == [asks] && [asks][1..] == [] && asks.toolCalls[1..] == [];
    assert MissingOutputs(asks.toolCalls, SeenIds([])) == [OrphanToolOutput(asks.toolCalls[0].id)];
    RepairBlock([asks], 0, 1);
    assert [asks][0..] == [asks] && [asks][1..1] == [];
  }

  lemma FullIsComplete(user: Message, asks: Message, orphan: Message, other: Message)
    requires !user.role.Tool? && !user.role.Assistant? && !other.role.Tool? && !other.role.Assistant?
    requires asks.role.Assistant? && |asks.toolCalls| == 1 && orphan.role.Tool? &&
      orphan.toolCallId == Some(asks.toolCalls[0].id)
    ensures ToolComplete([user, asks, orphan, other])
  {
    var ms := [user, asks, orphan, other];
    assert HoldsCall(asks, asks.toolCalls[0].id) by { assert asks.toolCalls[0] in asks.toolCalls; }
    forall i, id | 0 <= i < |ms| && HoldsCall(ms[i], id) ensures AnsweredAt(ms, i, id) {
      assert ms[2].toolCallId == Some(id) && IsToolRun(ms, i + 1, 3);
    }
    assert AnswersHead(ms, 2) by { assert ms[1] == asks && IsToolRun(ms, 2, 3); }
  }
}
