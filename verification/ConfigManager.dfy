/** Configuration snapshots (`src/config/manager.rs`): the decisions of an apply and of a reload, the
    manager that makes them, and all interleavings of applies, reloads and outside edits. */
module ConfigManager {
  import opened Text

  /** What only a restart can change; bots are compared by id and token, whatever their order. */
  datatype RestartFields = RestartFields(
    logLevel: string, webFetch: string, dbBackup: string, stateRoot: string, needsSecretDb: bool,
    webEnabled: bool, webHost: string, webPort: nat,
    discordEnabled: bool, discordBots: Option<map<string, Option<string>>>,
    telegramEnabled: bool, telegramBots: Option<map<string, Option<string>>>,
    voiceEnabled: bool)

  datatype Config = Config(restart: RestartFields, reloadable: string)

  datatype Snapshot = Snapshot(revision: nat, fingerprint: string, config: Config)

  datatype Change = Change(revision: nat, fingerprint: string)

  datatype ConfigError =
    | ConfigConflict(expected: string, current: string)
    | ConfigPathUnavailable
    | SourceUnreadable
    | InvalidConfig
    | ReloadForbidden(field: string)
    | RevisionExhausted
    | SourceChangedDuringReload

  const MAX_REVISION: nat := 0xFFFF_FFFF_FFFF_FFFF

  /** What the manager relies on: the fingerprint of a source (`None` when it cannot be read or its two
      files do not belong together), its parser, the field checks, and whether there is a config path. */
  datatype Rules = Rules(
    fingerprint: string -> Option<string>, parse: string -> Option<Config>, isValid: Config -> bool, hasPath: bool)

  // ---------------------------------------------------------------- decisions

  /** `ensure_reloadable`: the first restart-only field that differs. */
  function ForbiddenField(current: RestartFields, candidate: RestartFields): Option<string> {
    if current.logLevel != candidate.logLevel then Some("log_level")
    else if current.webFetch != candidate.webFetch then Some("web_fetch")
    else if current.dbBackup != candidate.dbBackup then Some("db.backup")
    else if current.stateRoot != candidate.stateRoot then Some("state_root")
    else if current.needsSecretDb != candidate.needsSecretDb then Some("secret_db")
    else if current.webEnabled != candidate.webEnabled then Some("channels.web.enabled")
    else if current.webHost != candidate.webHost then Some("channels.web.host")
    else if current.webPort != candidate.webPort then Some("channels.web.port")
    else if current.discordEnabled != candidate.discordEnabled then Some("channels.discord.enabled")
    else if current.discordBots != candidate.discordBots then Some("channels.discord.bots")
    else if current.telegramEnabled != candidate.telegramEnabled then Some("channels.telegram.enabled")
    else if current.telegramBots != candidate.telegramBots then Some("channels.telegram.telegram_bots")
    else if current.voiceEnabled != candidate.voiceEnabled then Some("channels.voice.enabled")
    else None
  }

  /** First critical section of an apply: the snapshot it builds on. */
  function BaseFor(rules: Rules, inner: Snapshot, expected: Option<string>): Result<Snapshot, ConfigError> {
    if expected.Some? && expected.value != inner.fingerprint then Err(ConfigConflict(expected.value, inner.fingerprint))
    else if !rules.hasPath then Err(ConfigPathUnavailable)
    else Ok(inner)
  }

  /** The persisted source must still be the one the base was read from. */
  function CheckPersisted(rules: Rules, source: string, base: Snapshot, expected: Option<string>): Option<ConfigError> {
    match rules.fingerprint(source)
    case None => Some(SourceUnreadable)
    case Some(persisted) =>
      if persisted == base.fingerprint then None
      else Some(ConfigConflict(if expected.Some? then expected.value else base.fingerprint, persisted))
  }

  function CheckConfig(rules: Rules, base: Snapshot, candidate: Config): Option<ConfigError> {
    if !rules.isValid(candidate) then Some(InvalidConfig)
    else
      match ForbiddenField(base.config.restart, candidate.restart)
      case Some(field) => Some(ReloadForbidden(field))
      case None => None
  }

  /** What an apply checks before it saves anything. */
  function CheckCandidate(rules: Rules, base: Snapshot, candidate: Config): Option<ConfigError> {
    var problem := CheckConfig(rules, base, candidate);
    if problem.Some? then problem else if base.revision >= MAX_REVISION then Some(RevisionExhausted) else None
  }

  /** `save_config_with_secrets_if_unchanged`, one atomic step that writes `written` or nothing; the
      result is the fingerprint of what it wrote. */
  function SaveIfUnchanged(rules: Rules, source: string, base: Snapshot, written: string): Result<string, ConfigError> {
    match rules.fingerprint(source)
    case None => Err(SourceUnreadable)
    case Some(current) =>
      if current != base.fingerprint then Err(ConfigConflict(base.fingerprint, current))
      else
        match rules.fingerprint(written)
        case None => Err(SourceUnreadable)
        case Some(saved) => Ok(saved)
  }

  /** Whether a save writes: its check passed, whatever the fingerprint of the new content. */
  predicate SaveWrites(rules: Rules, source: string, base: Snapshot) {
    rules.fingerprint(source) == Some(base.fingerprint)
  }

  datatype Exchange = Keep(result: Snapshot) | Publish | Lost(error: ConfigError)

  predicate IsSame(latest: Snapshot, base: Snapshot) {
    latest.revision == base.revision && latest.fingerprint == base.fingerprint
  }

  /** Second critical section of an apply. */
  function ExchangeApplied(latest: Snapshot, base: Snapshot, snapshot: Snapshot): Exchange {
    if latest.fingerprint == snapshot.fingerprint then Keep(latest)
    else if !IsSame(latest, base) then Lost(ConfigConflict(base.fingerprint, latest.fingerprint))
    else if snapshot.fingerprint == base.fingerprint then Keep(base)
    else Publish
  }

  /** Second critical section of a reload. */
  function ExchangeReloaded(latest: Snapshot, base: Snapshot): Exchange {
    if !IsSame(latest, base) then Lost(ConfigConflict(base.fingerprint, latest.fingerprint)) else Publish
  }

  function ChangeOf(snapshot: Snapshot): Change { Change(snapshot.revision, snapshot.fingerprint) }

  lemma ReloadableIff(current: RestartFields, candidate: RestartFields)
    ensures ForbiddenField(current, candidate).None? <==> current == candidate
  {
  }

  /** The restart-only fields in the order in which they are compared, each with whether it differs. */
  function Differences(a: RestartFields, b: RestartFields): seq<(string, bool)> {
    [("log_level", a.logLevel != b.logLevel), ("web_fetch", a.webFetch != b.webFetch),
     ("db.backup", a.dbBackup != b.dbBackup), ("state_root", a.stateRoot != b.stateRoot),
     ("secret_db", a.needsSecretDb != b.needsSecretDb),
     ("channels.web.enabled", a.webEnabled != b.webEnabled), ("channels.web.host", a.webHost != b.webHost),
     ("channels.web.port", a.webPort != b.webPort), ("channels.discord.enabled", a.discordEnabled != b.discordEnabled),
     ("channels.discord.bots", a.discordBots != b.discordBots),
     ("channels.telegram.enabled", a.telegramEnabled != b.telegramEnabled),
     ("channels.telegram.telegram_bots", a.telegramBots != b.telegramBots),
     ("channels.voice.enabled", a.voiceEnabled != b.voiceEnabled)]
  }

  /** The error names the first field that differs. */
  lemma ForbiddenIsFirst(current: RestartFields, candidate: RestartFields, k: nat)
    requires k < 13 && Differences(current, candidate)[k].1
    requires forall j :: 0 <= j < k ==> !Differences(current, candidate)[j].1
    ensures ForbiddenField(current, candidate) == Some(Differences(current, candidate)[k].0)
  {
    var d := Differences(current, candidate);
    if k > 0 { assert !d[0].1; }
    if k > 1 { assert !d[1].1; }
    if k > 2 { assert !d[2].1; }
    if k > 3 { assert !d[3].1; }
    if k > 4 { assert !d[4].1; }
    if k > 5 { assert !d[5].1; }
    if k > 6 { assert !d[6].1; }
    if k > 7 { assert !d[7].1; }
    if k > 8 { assert !d[8].1; }
    if k > 9 { assert !d[9].1; }
    if k > 10 { assert !d[10].1; }
    if k > 11 { assert !d[11].1; }
  }

  lemma CheckedConfig(rules: Rules, base: Snapshot, candidate: Config)
    requires CheckConfig(rules, base, candidate).None?
    ensures rules.isValid(candidate) && candidate.restart == base.config.restart
  {
    ReloadableIff(base.config.restart, candidate.restart);
  }

  // ---------------------------------------------------------------- the manager

  /** What happens outside one call, between its steps: `first` is the source when the call looks at it
      first, `second` when it looks again, `published` what other calls publish before its second section. */
  datatype Meanwhile = Meanwhile(first: string, second: string, loaded: string, published: seq<Snapshot>)

  /** The snapshot the second section finds. */
  function LatestAfter(inner: Snapshot, published: seq<Snapshot>): Snapshot {
    if |published| == 0 then inner else published[|published| - 1]
  }

  /** Every condition under which an apply may save, on the two looks it takes at the source. */
  predicate MaySave(rules: Rules, base: Snapshot, candidate: Config, expected: Option<string>, w: Meanwhile) {
    (expected.Some? ==> expected.value == base.fingerprint) && rules.hasPath &&
    rules.fingerprint(w.first) == rules.fingerprint(w.second) == Some(base.fingerprint) &&
    rules.isValid(candidate) && candidate.restart == base.config.restart && base.revision < MAX_REVISION
  }

  /** Why an apply failed; `wrote` tells whether it had saved by then. */
  predicate ApplyFails(
    rules: Rules, base: Snapshot, latest: Snapshot, candidate: Config, expected: Option<string>, written: string,
    w: Meanwhile, wrote: bool, error: ConfigError)
  {
    var asked := if expected.Some? then expected.value else base.fingerprint;
    var firstOk := asked == base.fingerprint && rules.hasPath && rules.fingerprint(w.first) == Some(base.fingerprint);
    match error
    case ConfigConflict(wanted, current) =>
      if wrote then
        wanted == base.fingerprint && current == latest.fingerprint && !IsSame(latest, base) &&
        rules.fingerprint(written).Some? && rules.fingerprint(written) != Some(current)
      else
        wanted == asked &&
        ((asked != base.fingerprint && current == base.fingerprint) ||
         (asked == base.fingerprint && current != base.fingerprint &&
          (rules.fingerprint(w.first) == Some(current) || rules.fingerprint(w.second) == Some(current))))
    case ConfigPathUnavailable => !rules.hasPath
    case SourceUnreadable =>
      if wrote then rules.fingerprint(written).None?
      else rules.fingerprint(w.first).None? || (firstOk && rules.fingerprint(w.second).None?)
    case InvalidConfig => firstOk && !rules.isValid(candidate)
    case ReloadForbidden(field) =>
      firstOk && rules.isValid(candidate) && candidate.restart != base.config.restart &&
      ForbiddenField(base.config.restart, candidate.restart) == Some(field)
    case RevisionExhausted =>
      firstOk && rules.isValid(candidate) && candidate.restart == base.config.restart && base.revision >= MAX_REVISION
    case SourceChangedDuringReload => false
  }

  /** Every condition under which a reload that finds another source may publish it. */
  predicate MayPublishReload(rules: Rules, base: Snapshot, w: Meanwhile) {
    rules.fingerprint(w.first).Some? && rules.fingerprint(w.first) == rules.fingerprint(w.second) &&
    rules.parse(w.loaded).Some? && rules.isValid(rules.parse(w.loaded).value) &&
    rules.parse(w.loaded).value.restart == base.config.restart && base.revision < MAX_REVISION
  }

  /** Why a reload failed. */
  predicate ReloadFails(rules: Rules, base: Snapshot, latest: Snapshot, w: Meanwhile, error: ConfigError) {
    var first, second, parsed := rules.fingerprint(w.first), rules.fingerprint(w.second), rules.parse(w.loaded);
    var changed := rules.hasPath && first.Some? && first != Some(base.fingerprint);
    match error
    case ConfigConflict(wanted, current) =>
      wanted == base.fingerprint && current == latest.fingerprint && !IsSame(latest, base) && changed &&
      MayPublishReload(rules, base, w)
    case ConfigPathUnavailable => !rules.hasPath
    case SourceUnreadable => rules.hasPath && (first.None? || (changed && second.None?))
    case InvalidConfig => changed && (parsed.None? || !rules.isValid(parsed.value))
    case ReloadForbidden(field) =>
      changed && parsed.Some? && rules.isValid(parsed.value) && parsed.value.restart != base.config.restart &&
      ForbiddenField(base.config.restart, parsed.value.restart) == Some(field)
    case SourceChangedDuringReload => changed && second.Some? && second != first
    case RevisionExhausted => changed && second == first && base.revision >= MAX_REVISION
  }

  class ConfigManager {
    const rules: Rules
    var inner: Snapshot
    var change: Change
    var source: string

    constructor (rules: Rules, config: Config, fingerprint: string, source: string)
      ensures this.rules == rules && this.source == source
      ensures inner == Snapshot(1, fingerprint, config) && change == ChangeOf(inner)
    {
      this.rules, inner, this.source := rules, Snapshot(1, fingerprint, config), source;
      change := Change(1, fingerprint);
    }

    /** `publish`: the snapshot first, then the notification. */
    method PublishSnapshot(snapshot: Snapshot)
      modifies this`inner, this`change
      ensures inner == snapshot && change == ChangeOf(snapshot)
    {
      inner := snapshot;
      change := ChangeOf(snapshot);
    }

    /** Other calls publish, in this order. */
    method PublishedByOthers(snapshots: seq<Snapshot>)
      modifies this`inner, this`change
      ensures inner == if |snapshots| == 0 then old(inner) else snapshots[|snapshots| - 1]
      ensures change == if |snapshots| == 0 then old(change) else ChangeOf(inner)
    {
      for i := 0 to |snapshots|
        invariant inner == if i == 0 then old(inner) else snapshots[i - 1]
        invariant change == if i == 0 then old(change) else ChangeOf(inner)
      {
        PublishSnapshot(snapshots[i]);
      }
    }

    /** `apply_candidate_with_removed_dotenv_keys`. It writes only over a source with the fingerprint it
        was built from, publishes only over the snapshot it was built from, one revision on, and returns a
        snapshot with the fingerprint of its own save. */
    method ApplyCandidate(candidate: Config, expected: Option<string>, written: string, w: Meanwhile)
      returns (r: Result<Snapshot, ConfigError>, wrote: bool)
      modifies this
      ensures old(change == ChangeOf(inner)) ==> change == ChangeOf(inner)
      // it saves exactly when every condition holds, and succeeds exactly when nothing else was published
      // meanwhile or what was published is what it saved
      ensures wrote <==> MaySave(rules, old(inner), candidate, expected, w)
      ensures wrote ==> source == written
      ensures !wrote ==> source == old(source) || source == w.first || source == w.second
      ensures r.Ok? <==>
        wrote && rules.fingerprint(written).Some? &&
        var latest := LatestAfter(old(inner), w.published);
        (IsSame(latest, old(inner)) || rules.fingerprint(written) == Some(latest.fingerprint))
      ensures r.Err? ==>
        ApplyFails(rules, old(inner), LatestAfter(old(inner), w.published), candidate, expected, written, w, wrote,
          r.error)
      ensures r.Ok? ==> wrote && rules.fingerprint(written) == Some(r.value.fingerprint) && r.value == inner
      ensures r.Ok? ==> rules.isValid(candidate) && candidate.restart == old(inner).config.restart
      ensures r.Ok? && |w.published| == 0 ==>
        inner == (if r.value.fingerprint == old(inner.fingerprint) then old(inner)
                  else Snapshot(old(inner).revision + 1, r.value.fingerprint, candidate)) &&
        inner.revision <= Max(old(inner).revision, MAX_REVISION)
      ensures r.Err? ==> inner == old(inner) || inner == LatestAfter(old(inner), w.published)
    {
      wrote := false;
      var first := BaseFor(rules, inner, expected);
      if first.Err? { return Err(first.error), wrote; }
      var base := first.value;
      source := w.first;
      var problem := CheckPersisted(rules, source, base, expected);
      if problem.Some? { return Err(problem.value), wrote; }
      problem := CheckCandidate(rules, base, candidate);
      if problem.Some? { return Err(problem.value), wrote; }
      ReloadableIff(base.config.restart, candidate.restart);
      source := w.second;
      var saved := SaveIfUnchanged(rules, source, base, written);
      if SaveWrites(rules, source, base) { source, wrote := written, true; }
      if saved.Err? { return Err(saved.error), wrote; }
      var snapshot := Snapshot(base.revision + 1, saved.value, candidate);
      PublishedByOthers(w.published);
      match ExchangeApplied(inner, base, snapshot) {
        case Keep(result) => return Ok(result), wrote;
        case Lost(error) => return Err(error), wrote;
        case Publish =>
          PublishSnapshot(snapshot);
          return Ok(snapshot), wrote;
      }
    }

    /** `reload_from_file`: it never writes. A published reload carries the fingerprint the source had
        before and after it was parsed. */
    method ReloadFromFile(w: Meanwhile) returns (r: Result<Snapshot, ConfigError>)
      modifies this
      ensures old(change == ChangeOf(inner)) ==> change == ChangeOf(inner)
      ensures source == old(source) || source == w.first || source == w.loaded || source == w.second
      // it succeeds exactly when the source is the one in use, or a valid one that nothing overtook
      ensures r.Ok? <==>
        rules.hasPath &&
        (rules.fingerprint(w.first) == Some(old(inner.fingerprint)) ||
         (MayPublishReload(rules, old(inner), w) && IsSame(LatestAfter(old(inner), w.published), old(inner))))
      ensures r.Err? ==> ReloadFails(rules, old(inner), LatestAfter(old(inner), w.published), w, r.error)
      ensures r.Err? ==> inner == old(inner) || inner == LatestAfter(old(inner), w.published)
      ensures r.Ok? && rules.fingerprint(w.first) == Some(old(inner.fingerprint)) ==> r.value == old(inner) == inner
      ensures r.Ok? && rules.fingerprint(w.first) != Some(old(inner.fingerprint)) ==>
        r.value == inner && rules.fingerprint(w.first) == rules.fingerprint(w.second) == Some(inner.fingerprint) &&
        rules.parse(w.loaded) == Some(inner.config) && rules.isValid(inner.config) &&
        inner.config.restart == old(inner).config.restart &&
        inner.revision == old(inner).revision + 1 <= MAX_REVISION
    {
      var first := BaseFor(rules, inner, None);
      if first.Err? { return Err(first.error); }
      var base := first.value;
      source := w.first;
      var fingerprint := rules.fingerprint(source);
      if fingerprint.None? { return Err(SourceUnreadable); }
      if fingerprint.value == base.fingerprint { return Ok(base); }
      source := w.loaded;
      var candidate := rules.parse(source);
      if candidate.None? { return Err(InvalidConfig); }
      var problem := CheckConfig(rules, base, candidate.value);
      if problem.Some? { return Err(problem.value); }
      CheckedConfig(rules, base, candidate.value);
      source := w.second;
      var stable := rules.fingerprint(source);
      if stable.None? { return Err(SourceUnreadable); }
      if stable != fingerprint { return Err(SourceChangedDuringReload); }
      if base.revision >= MAX_REVISION { return Err(RevisionExhausted); }
      PublishedByOthers(w.published);
      match ExchangeReloaded(inner, base) {
        case Keep(result) => return Ok(result);
        case Lost(error) => return Err(error);
        case Publish =>
          PublishSnapshot(Snapshot(base.revision + 1, stable.value, candidate.value));
          return Ok(inner);
      }
    }
  }

  /** A save that leaves the base's own fingerprint is settled by the first comparison already, so the
      third branch of the exchange is never taken. */
  lemma ThirdBranchIsDead(latest: Snapshot, base: Snapshot, snapshot: Snapshot)
    ensures ExchangeApplied(latest, base, snapshot) == Keep(base) ==> latest.fingerprint == snapshot.fingerprint
  {
  }

  function Max(a: nat, b: nat): nat { if a < b then b else a }
}
