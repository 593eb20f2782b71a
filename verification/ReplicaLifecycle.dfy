/**
 Builds of the owner rollup over time: launches, deadline failures that keep the replica,
 crashes that lose it, publishes rejected by a newer epoch, and the pruning of the journal
 that all of them must not overtake.
 */
module ReplicaLifecycle {
  import opened Common
  import opened OwnerReplica
  import opened ReplicaProofs

  /** The journal position, and the epoch, that one synchronization aims for. */
  datatype Goal = Goal(position: nat, epoch: nat)

  datatype Stage =
    | Idle
    | Synchronizing(goal: Option<Goal>)
    | Finished(through: nat, epoch: nat)
    | Failed(deadline: bool)
    | Broken

  /**
   The database with its epoch, how many journal rows are gone and how many are acknowledged;
   the worker's replica; and what the main process believes about it.
   */
  datatype Site = Site(
    source: Source, epoch: nat, pruned: nat, ack: nat,
    replica: Option<Replica>, live: bool, stage: Stage)

  datatype Action =
    | Change(write: Write)
    | Reorganise
    | Prune(limit: nat)
    | Launch
    | Open
    | Start(bounds: seq<int>)
    | Page(page: seq<int>)
    | Aim
    | Replay
    | Finish
    | Fail(deadline: bool, kept: bool)
    | Die
    | Collect

  const PRUNE_ROWS: nat := 4096

  function Higher(a: nat, b: nat): nat {
    if a < b then b else a
  }

  /** Delete the oldest journal rows, at most `limit` of them, up to the acknowledged one. */
  function PrunedTo(pruned: nat, ack: nat, limit: nat): nat {
    if ack <= pruned then pruned else Lower(pruned + limit, ack)
  }

  ghost predicate Enabled(s: Site, a: Action) {
    match a
    case Change(w) => WriteOk(s.source.tables, w)
    case Launch => s.stage.Idle?
    case Open => s.stage.Synchronizing? && s.replica.None?
    case Start(bounds) =>
      && s.stage == Synchronizing(None) && s.replica.Some? && s.replica.value.bounds.None?
      && AreBounds(s.source.tables, bounds)
    case Page(page) =>
      && s.stage == Synchronizing(None) && s.replica.Some? && Copying(s.replica.value)
      && s.replica.value.table < |s.source.tables|
      && IsPage(s.source.tables[s.replica.value.table], s.replica.value.cursor,
                s.replica.value.bounds.value[s.replica.value.table], page)
    case Aim =>
      s.stage == Synchronizing(None) && s.replica.Some? && s.replica.value.bounds.Some?
          && s.replica.value.table >= TABLES
    case Replay =>
      && s.stage.Synchronizing? && s.stage.goal.Some? && s.replica.Some?
      && s.replica.value.through < s.stage.goal.value.position
    case Finish =>
      && s.stage.Synchronizing? && s.stage.goal.Some? && s.replica.Some?
      && s.replica.value.through >= s.stage.goal.value.position
    case Fail(deadline, kept) => s.stage.Synchronizing? && (kept ==> deadline)
    case Collect => s.stage.Finished? || s.stage.Failed? || s.stage.Broken?
    case _ => true
  }

  /** The two errors a synchronization can raise about the journal itself. */
  ghost predicate JournalError(s: Site, a: Action)
    requires Enabled(s, a)
  {
    || (a.Aim? && |s.source.log| < s.replica.value.through)
    || (a.Replay? && (|| s.stage.goal.value.position > |s.source.log|
                      || ReplayPage(s.replica.value, s.source.log, s.pruned, s.stage.goal.value.position).None?))
  }

  ghost function Next(s: Site, a: Action): Site
    requires Enabled(s, a) && !JournalError(s, a)
  {
    match a
    case Change(w) => s.(source := AfterWrite(s.source, w))
    case Reorganise => s.(epoch := s.epoch + 1)
    case Prune(limit) => s.(pruned := PrunedTo(s.pruned, s.ack, limit))
    case Launch => s.(ack := if s.live then s.ack else Higher(s.ack, |s.source.log|), stage := Synchronizing(None))
    case Open => s.(replica := Some(NEW_REPLICA))
    case Start(bounds) => s.(replica := Some(Begin(s.replica.value, bounds, |s.source.log|)))
    case Page(page) =>
      s.(replica := Some(CopyPage(s.replica.value, s.source.tables[s.replica.value.table], page)))
    case Aim => s.(stage := Synchronizing(Some(Goal(|s.source.log|, s.epoch))))
    case Replay =>
      s.(replica := ReplayPage(s.replica.value, s.source.log, s.pruned, s.stage.goal.value.position))
    case Finish => s.(stage := Finished(s.replica.value.through, s.stage.goal.value.epoch))
    case Fail(deadline, kept) => s.(replica := if kept then s.replica else None, stage := Failed(deadline))
    case Die => s.(replica := None, stage := if s.stage.Synchronizing? then Broken else s.stage)
    case Collect => Collected(s)
  }

  /** The main process takes the outcome of a build; a publish acknowledges what it has read. */
  function Collected(s: Site): Site {
    match s.stage
    case Finished(through, epoch) =>
      if epoch == s.epoch
      then s.(live := true, stage := Idle, ack := through, pruned := PrunedTo(s.pruned, through, PRUNE_ROWS))
      else s.(live := true, stage := Idle)
    case Failed(deadline) => s.(live := deadline, stage := Idle)
    case _ => s.(live := false, stage := Idle)
  }

  // ---------------------------------------------------------------- the invariant

  /** A replica that has begun is never behind the acknowledged position. */
  ghost predicate ReplicaOk(base: seq<Copy>, s: Site) {
    s.replica.Some? ==>
      var r := s.replica.value;
      if r.bounds.None? then r == NEW_REPLICA
      else
        && Begun(r, s.source) && s.ack <= r.through
        && (if r.table < TABLES then CopyOk(r, s.source) else Fuzzy(base, s.source.log, r, |s.source.log|))
  }

  ghost predicate StageOk(base: seq<Copy>, s: Site) {
    match s.stage
    case Idle => !s.live ==> s.replica.None?
    case Synchronizing(goal) =>
      goal.Some? ==>
        && s.replica.Some? && s.replica.value.bounds.Some? && s.replica.value.table == TABLES
        && Fuzzy(base, s.source.log, s.replica.value, goal.value.position)
    case Finished(through, _) =>
      && s.ack <= through <= |s.source.log|
      && (s.replica.Some? && s.replica.value.bounds.Some? ==> through <= s.replica.value.through)
    case Failed(deadline) => !deadline ==> s.replica.None?
    case Broken => s.replica.None?
  }

  ghost predicate SiteOk(base: seq<Copy>, s: Site) {
    && SourceOk(base, s.source)
    && s.pruned <= s.ack <= |s.source.log|
    && ReplicaOk(base, s)
    && StageOk(base, s)
  }

  /** Neither journal error can occur: nothing above a live replica's position is ever pruned. */
  lemma NoJournalError(base: seq<Copy>, s: Site, a: Action)
    requires SiteOk(base, s) && Enabled(s, a)
    ensures !JournalError(s, a)
  {
  }

  lemma ChangeKeeps(base: seq<Copy>, s: Site, w: Write)
    requires SiteOk(base, s) && WriteOk(s.source.tables, w)
    ensures SiteOk(base, s.(source := AfterWrite(s.source, w)))
  {
    TriggersAreExact(base, s.source, w);
    var entries := Journalled(s.source.tables, w);
    var log' := s.source.log + entries;
    if s.replica.Some? && s.replica.value.bounds.Some? {
      var r := s.replica.value;
      if r.table < TABLES {
        WriteKeepsCopy(r, s.source, w);
      } else {
        FuzzyGrows(base, s.source.log, entries, r, |s.source.log|);
        FuzzyLater(base, log', r, |s.source.log|, |log'|);
        if s.stage.Synchronizing? && s.stage.goal.Some? {
          FuzzyGrows(base, s.source.log, entries, r, s.stage.goal.value.position);
        }
      }
    }
  }

  lemma WorkerKeeps(base: seq<Copy>, s: Site, a: Action)
    requires SiteOk(base, s) && Enabled(s, a) && !JournalError(s, a)
    requires a.Start? || a.Page? || a.Aim? || a.Replay?
    ensures SiteOk(base, Next(s, a))
  {
    hide SourceOk, CopyOk, Fuzzy, ReplayPage;
    var r := s.replica.value;
    match a
    case Start(bounds) =>
      assert |s.source.tables| == TABLES by {
        SourceTables(base, s.source);
      }
      BeginOk(r, s.source, bounds);
    case Page(page) =>
      SourceKeys(base, s.source, r.table);
      PageKeepsCopy(r, s.source, page);
      if CopyPage(r, s.source.tables[r.table], page).table == TABLES {
        CopiedIsFuzzy(base, CopyPage(r, s.source.tables[r.table], page), s.source);
      }
    case Aim =>
    case Replay =>
      var target := s.stage.goal.value.position;
      FuzzyRange(base, s.source.log, r, target);
      ReplayAdvances(base, s.source, r, s.pruned, target);
      FuzzyLater(base, s.source.log, ReplayPage(r, s.source.log, s.pruned, target).value, target, |s.source.log|);
  }

  lemma SourceTables(base: seq<Copy>, s: Source)
    requires SourceOk(base, s)
    ensures |s.tables| == |base| == TABLES
  {
  }

  lemma SourceKeys(base: seq<Copy>, s: Source, n: nat)
    requires SourceOk(base, s) && n < TABLES
    ensures KeysUnique(s.tables[n])
  {
  }

  lemma FuzzyRange(base: seq<Copy>, log: seq<Entry>, r: Replica, q: nat)
    requires Fuzzy(base, log, r, q)
    ensures r.through <= q <= |log|
  {
  }

  lemma StepKeeps(base: seq<Copy>, s: Site, a: Action)
    requires SiteOk(base, s) && Enabled(s, a)
    ensures !JournalError(s, a) && SiteOk(base, Next(s, a))
  {
    NoJournalError(base, s, a);
    hide SourceOk, CopyOk, Fuzzy, ReplayPage;
    match a
    case Change(w) => ChangeKeeps(base, s, w);
    case Start(_) => WorkerKeeps(base, s, a);
    case Page(_) => WorkerKeeps(base, s, a);
    case Aim => WorkerKeeps(base, s, a);
    case Replay => WorkerKeeps(base, s, a);
    case _ =>
  }

  // ---------------------------------------------------------------- whole runs

  ghost predicate Initial(base: seq<Copy>, s: Site) {
    && SourceOk(base, s.source)
    && s == Site(s.source, s.epoch, 0, 0, None, false, Idle)
  }

  ghost predicate IsRun(base: seq<Copy>, states: seq<Site>, actions: seq<Action>) {
    && |states| == |actions| + 1
    && Initial(base, states[0])
    && forall i :: 0 <= i < |actions| ==>
         && Enabled(states[i], actions[i])
         && (!JournalError(states[i], actions[i]) ==> states[i + 1] == Next(states[i], actions[i]))
  }

  /**
   Over all runs, no journal row above a live replica's position is ever deleted, and neither
   journal error is ever raised.
   */
  lemma {:induction false} JournalOutlivesReplica(base: seq<Copy>, states: seq<Site>, actions: seq<Action>, i: nat)
    requires IsRun(base, states, actions) && i < |states|
    ensures SiteOk(base, states[i])
    ensures states[i].replica.Some? && states[i].replica.value.bounds.Some? ==>
              states[i].pruned <= states[i].ack <= states[i].replica.value.through
    ensures i < |actions| ==> !JournalError(states[i], actions[i])
  {
    hide SourceOk, CopyOk, Fuzzy, ReplayPage, Enabled, Next, JournalError;
    if i > 0 {
      JournalOutlivesReplica(base, states, actions, i - 1);
      StepKeeps(base, states[i - 1], actions[i - 1]);
    }
    if i < |actions| {
      NoJournalError(base, states[i], actions[i]);
    }
  }

  predicate IsPrefix(a: seq<Entry>, b: seq<Entry>) {
    |a| <= |b| && b[..|a|] == a
  }

  lemma LogGrows(s: Site, a: Action)
    requires Enabled(s, a) && !JournalError(s, a)
    ensures IsPrefix(s.source.log, Next(s, a).source.log)
  {
  }

  /** The goal of a synchronization is the state of the journal at its last aim. */
  lemma {:induction false} AimedEarlier(base: seq<Copy>, states: seq<Site>, actions: seq<Action>, i: nat)
    returns (j: nat)
    requires IsRun(base, states, actions) && i < |states|
    requires states[i].stage.Synchronizing? && states[i].stage.goal.Some?
    ensures j < i && actions[j] == Aim
    ensures states[i].stage.goal.value.position == |states[j].source.log|
    ensures IsPrefix(states[j].source.log, states[i].source.log)
    ensures SourceOk(base, states[j].source)
    decreases i
  {
    hide SiteOk, SourceOk, ReplayPage, WriteOk, IsPage, AreBounds;
    JournalOutlivesReplica(base, states, actions, i - 1);
    LogGrows(states[i - 1], actions[i - 1]);
    if actions[i - 1].Aim? {
      j := i - 1;
      SiteSource(base, states[j]);
    } else {
      j := AimedEarlier(base, states, actions, i - 1);
    }
  }

  lemma SiteSource(base: seq<Copy>, s: Site)
    requires SiteOk(base, s)
    ensures SourceOk(base, s.source)
  {
  }

  /**
   Fuzzy copy plus journal replay is a snapshot: when a synchronization finishes, each table of
   the replica shows the source table exactly as it stood when the synchronization took aim,
   for any interleaving of writes with the page reads, and however often earlier
   synchronizations of the same replica were interrupted.
   */
  lemma FinishedReplicaIsSnapshot(base: seq<Copy>, states: seq<Site>, actions: seq<Action>, i: nat) returns (j: nat)
    requires IsRun(base, states, actions) && i < |actions| && actions[i] == Finish
    ensures j < i && actions[j] == Aim
    ensures states[i].replica.Some? && states[i].replica.value.through == |states[j].source.log|
    ensures |states[i].replica.value.copies| == |states[j].source.tables| == TABLES
    ensures forall n | 0 <= n < TABLES :: Shows(states[j].source.tables[n], states[i].replica.value.copies[n])
    ensures states[i + 1].stage == Finished(|states[j].source.log|, states[i].stage.goal.value.epoch)
  {
    JournalOutlivesReplica(base, states, actions, i);
    j := AimedEarlier(base, states, actions, i);
    var site, aimed := states[i], states[j];
    CaughtUpAt(base, site, aimed);
  }

  lemma CaughtUpAt(base: seq<Copy>, site: Site, aimed: Site)
    requires SiteOk(base, site) && SourceOk(base, aimed.source)
    requires site.stage.Synchronizing? && site.stage.goal.Some?
    requires site.stage.goal.value.position == |aimed.source.log| && site.replica.value.through >= |aimed.source.log|
    requires IsPrefix(aimed.source.log, site.source.log)
    ensures site.replica.value.through == |aimed.source.log|
    ensures |site.replica.value.copies| == |aimed.source.tables| == TABLES
    ensures forall n | 0 <= n < TABLES :: Shows(aimed.source.tables[n], site.replica.value.copies[n])
  {
    hide Shows;
    var r := site.replica.value;
    CaughtUp(base, site.source.log, r);
    var p := |aimed.source.log|;
    assert site.source.log[..p] == aimed.source.log == aimed.source.log[..p];
    assert At(base, site.source.log, p) == At(base, aimed.source.log, p);
  }
}
