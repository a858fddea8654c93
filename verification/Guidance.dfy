/** Publication of guidance snapshots for manager runs: one attempt per run, one gapless history.
  *
  * The store writes a run row atomically and takes a guidance snapshot only at the next revision. A
  * crash stops every later effect of a pass; a write may also happen and be reported as failed. The
  * helper's answers are arbitrary snapshots, or no answer.
  */
module Guidance {
  import opened Options

  /** What ties a snapshot to its run: sandbox, reservation, run, the derived identifiers and binding digest. */
  datatype Identity = Identity(
    sandbox: string, reservation: string, run: string, guard: string, pendingInput: string, binding: string)

  /** Times count from the zero time, which is 0. */
  datatype Snapshot = Snapshot(
    format: int,
    identity: Identity,
    revision: int,
    digest: string,
    state: string,
    refusal: Option<string>,
    logCursor: Option<int>,
    observedAt: int,
    admittedAt: Option<int>,
    availableAt: Option<int>,
    settledAt: Option<int>,
    receipt: string)

  datatype Proposal = Proposal(outcome: string, digest: Option<string>)

  datatype Report = Report(state: string, receipted: bool, proposal: Option<Proposal>)

  datatype Run = Run(
    identity: Identity,
    automatic: bool,
    manual: bool,
    phase: string,
    report: Option<Report>,
    attempted: bool,
    guidance: Option<Snapshot>)

  // ---------------------------------------------------------------- validation and transitions

  predicate DigestShaped(s: string) {
    |s| == 71 && "sha256:" <= s && forall i :: 7 <= i < 71 ==> '0' <= s[i] <= '9' || 'a' <= s[i] <= 'f'
  }

  const REFUSALS := {"guard_stale_input", "guard_execution_changed", "guard_context_changed", "guard_expired",
                     "guard_session_mismatch", "authority_expired", "source_stale", "policy_off",
                     "capability_unavailable", "worker_inactive"}

  predicate Validates(run: Run, s: Snapshot) {
    s.format == 1 && s.identity == run.identity
    && DigestShaped(s.digest)
    && s.state in {"pending", "available_to_worker", "cancelled", "refused", "unknown"}
    && (s.refusal.Some? <==> s.state == "refused")
    && (s.refusal.Some? ==> s.refusal.value in REFUSALS)
    && (s.logCursor.Some? ==> s.logCursor.value >= 0)
    && s.observedAt != 0
    && (s.availableAt.Some? ==> s.state == "available_to_worker")
    && (s.settledAt.Some? ==> Final(s.state))
  }

  predicate Final(state: string) {
    state == "available_to_worker" || state == "cancelled" || state == "refused"
  }

  predicate ValidTransition(from: string, to: string) {
    (from == "pending" || from == "unknown")
    && to in {"pending", "unknown", "available_to_worker", "cancelled", "refused"}
  }

  predicate SemanticEqual(a: Snapshot, b: Snapshot) {
    a.state == b.state && a.digest == b.digest && a.identity.binding == b.identity.binding
    && a.identity.guard == b.identity.guard && a.identity.pendingInput == b.identity.pendingInput
    && a.refusal == b.refusal && a.logCursor == b.logCursor && a.admittedAt == b.admittedAt
    && a.availableAt == b.availableAt && a.settledAt == b.settledAt
  }

  /** The proposal's own guidance digest, or nothing. */
  function ProposedDigest(run: Run): string {
    if run.report.Some? && run.report.value.proposal.Some? && run.report.value.proposal.value.digest.Some?
    then run.report.value.proposal.value.digest.value
    else ""
  }

  /** The fallback published when an attempt's outcome is not known. */
  function UnknownGuidance(run: Run, now: int): Snapshot {
    Snapshot(1, run.identity, 1, ProposedDigest(run), "unknown", None, None, now, None, None, None, "")
  }

  /** The fallback passes validation exactly when the proposal's digest is well shaped. */
  lemma UnknownValidates(run: Run, now: int)
    requires now != 0
    ensures Validates(run, UnknownGuidance(run, now)) <==> DigestShaped(ProposedDigest(run))
  {
  }

  /** A terminal, acknowledged, automatic recommendation with a well-shaped digest, not attempted yet. */
  predicate Admissible(run: Run) {
    run.automatic && run.report.Some? && !run.attempted && run.guidance.None?
    && run.phase == run.report.value.state && run.report.value.receipted && !run.manual
    && run.report.value.state in {"recommended", "no_action", "needs_owner"}
    && run.report.value.proposal.Some? && run.report.value.proposal.value.outcome == "recommendation"
    && run.report.value.proposal.value.digest.Some? && DigestShaped(run.report.value.proposal.value.digest.value)
  }

  lemma AdmissibleRows(rows: map<string, Run>)
    ensures forall id | id in rows :: var run := rows[id];
      Admissible(run) <==>
        && run.automatic && !run.manual && !run.attempted && run.guidance.None?
        && run.report.Some? && run.report.value.receipted && run.phase == run.report.value.state
        && run.phase in {"recommended", "no_action", "needs_owner"}
        && run.report.value.proposal.Some? && run.report.value.proposal.value.outcome == "recommendation"
        && run.report.value.proposal.value.digest.Some? && DigestShaped(run.report.value.proposal.value.digest.value)
  {
    hide DigestShaped;
  }

  // ---------------------------------------------------------------- histories

  datatype Action = Dispatch | Observe | Cancel

  type Seal = Snapshot -> string

  /** Revisions 1, 2, 3 …; every snapshot valid and carrying its own digest; every step a change and allowed. */
  ghost predicate Published(run: Run, log: seq<Snapshot>, seal: Seal) {
    (forall i :: 0 <= i < |log| ==>
      log[i].revision == i + 1 && Validates(run, log[i]) && log[i].receipt == seal(log[i].(receipt := "")))
    && (forall i :: 0 < i < |log| ==>
      !SemanticEqual(log[i - 1], log[i]) && ValidTransition(log[i - 1].state, log[i].state))
  }

  /** Nothing follows a final snapshot: one that is not the last is still open. */
  lemma FinalIsLast(run: Run, log: seq<Snapshot>, seal: Seal, i: nat)
    requires Published(run, log, seal) && i < |log|
    ensures Final(log[i].state) ==> i == |log| - 1
    ensures i < |log| - 1 ==> log[i].state == "pending" || log[i].state == "unknown"
  {
    if i < |log| - 1 {
      assert ValidTransition(log[i + 1 - 1].state, log[i + 1].state);
    }
  }

  /** One run: its row, its history, and how often its attempt was posted. */
  ghost predicate RunWell(run: Run, log: seq<Snapshot>, posts: nat, seal: Seal) {
    Published(run, log, seal)
    && run.guidance == (if log == [] then None else Some(log[|log| - 1]))
    && posts <= 1
    && (posts == 1 || log != [] ==> run.attempted)
    && (run.attempted ==> DigestShaped(ProposedDigest(run)))
  }

  /** What the run's fields other than the attempt and the guidance are may not change. */
  predicate SameRun(a: Run, b: Run) {
    a == b.(attempted := a.attempted, guidance := a.guidance)
  }

  /** A copy of a row made earlier in the pass: its guidance is some snapshot of the history. */
  ghost predicate Remembers(run: Run, row: Run, log: seq<Snapshot>) {
    SameRun(run, row) && (run.attempted ==> row.attempted)
    && (run.guidance.Some? ==>
      1 <= run.guidance.value.revision <= |log| && run.guidance.value == log[run.guidance.value.revision - 1])
  }

  lemma PublishedMore(run: Run, log: seq<Snapshot>, s: Snapshot, seal: Seal)
    requires Published(run, log, seal) && Validates(run, s)
    requires s.revision == |log| + 1 && s.receipt == seal(s.(receipt := ""))
    requires log != [] ==> !SemanticEqual(log[|log| - 1], s) && ValidTransition(log[|log| - 1].state, s.state)
    ensures Published(run, log + [s], seal)
  {
    hide Validates, SemanticEqual, ValidTransition;
  }

  lemma PublishedSame(run: Run, other: Run, log: seq<Snapshot>, seal: Seal)
    requires Published(run, log, seal) && run.identity == other.identity
    ensures Published(other, log, seal)
  {
  }

  /** Rows keep their run and never lose an attempt; histories only grow. */
  ghost predicate Onward(rows: map<string, Run>, logs: map<string, seq<Snapshot>>,
                         laterRows: map<string, Run>, laterLogs: map<string, seq<Snapshot>>)
  {
    rows.Keys == laterRows.Keys && logs.Keys == laterLogs.Keys
    && (forall id :: id in rows ==>
      SameRun(laterRows[id], rows[id]) && (rows[id].attempted ==> laterRows[id].attempted))
    && (forall id :: id in logs ==> logs[id] <= laterLogs[id])
  }

  /** What a review changes of its run: the phase, and until there is an attempt the report. */
  predicate Reviewed(before: Run, after: Run) {
    after == before.(phase := after.phase, report := after.report)
    && (before.attempted ==> after.report == before.report)
  }

  /** What a review may write: a run of its own, new, or an up-to-date copy of the row with its changes. */
  predicate Writable(rows: map<string, Run>, run: Run) {
    if run.identity.run in rows then Reviewed(rows[run.identity.run], run) else !run.attempted && run.guidance.None?
  }

  /** Runs join but never leave, and keep who they are; an attempted run keeps its report and its attempt;
    * histories only grow and no post is forgotten. */
  ghost predicate Grown(rows: map<string, Run>, logs: map<string, seq<Snapshot>>, posts: map<string, nat>,
                        laterRows: map<string, Run>, laterLogs: map<string, seq<Snapshot>>, laterPosts: map<string, nat>)
  {
    (forall id :: id in rows ==>
      id in laterRows && laterRows[id].identity == rows[id].identity
      && (rows[id].attempted ==> laterRows[id].report == rows[id].report && laterRows[id].attempted))
    && (forall id :: id in logs ==> id in laterLogs && logs[id] <= laterLogs[id])
    && (forall id :: id in posts ==> id in laterPosts && posts[id] <= laterPosts[id])
  }

  lemma GrownChain(rows: map<string, Run>, logs: map<string, seq<Snapshot>>, posts: map<string, nat>,
                   midRows: map<string, Run>, midLogs: map<string, seq<Snapshot>>, midPosts: map<string, nat>,
                   laterRows: map<string, Run>, laterLogs: map<string, seq<Snapshot>>, laterPosts: map<string, nat>)
    requires Grown(rows, logs, posts, midRows, midLogs, midPosts)
    requires Grown(midRows, midLogs, midPosts, laterRows, laterLogs, laterPosts)
    ensures Grown(rows, logs, posts, laterRows, laterLogs, laterPosts)
  {
  }

  /** A pass posts no run that was posted before. */
  lemma OnwardGrown(rows: map<string, Run>, logs: map<string, seq<Snapshot>>, posts: map<string, nat>, seal: Seal,
                    laterRows: map<string, Run>, laterLogs: map<string, seq<Snapshot>>, laterPosts: map<string, nat>)
    requires StateWell(rows, logs, posts, seal) && Onward(rows, logs, laterRows, laterLogs)
    requires laterPosts.Keys == posts.Keys
    requires forall id :: id in posts && rows[id].attempted ==> laterPosts[id] == posts[id]
    ensures Grown(rows, logs, posts, laterRows, laterLogs, laterPosts)
  {
    forall id | id in posts ensures posts[id] <= laterPosts[id] {
      assert RunWell(rows[id], logs[id], posts[id], seal);
    }
  }

  /** Only the one run has changed. */
  ghost predicate OnlyRun(id: string, rows: map<string, Run>, logs: map<string, seq<Snapshot>>,
                          laterRows: map<string, Run>, laterLogs: map<string, seq<Snapshot>>)
  {
    Onward(rows, logs, laterRows, laterLogs)
    && (forall other :: other in rows && other != id ==> laterRows[other] == rows[other])
    && (forall other :: other in logs && other != id ==> laterLogs[other] == logs[other])
  }

  ghost predicate StateWell(rows: map<string, Run>, logs: map<string, seq<Snapshot>>, posts: map<string, nat>, seal: Seal) {
    logs.Keys == rows.Keys && posts.Keys == rows.Keys
    && forall id :: id in rows ==> rows[id].identity.run == id && RunWell(rows[id], logs[id], posts[id], seal)
  }

  lemma NothingChanges(id: string, rows: map<string, Run>, logs: map<string, seq<Snapshot>>)
    ensures OnlyRun(id, rows, logs, rows, logs)
  {
  }

  /** Replacing one row and its history by others that are well keeps the whole state well. */
  lemma ReplaceKeeps(rows: map<string, Run>, logs: map<string, seq<Snapshot>>, posts: map<string, nat>, seal: Seal,
                     id: string, run: Run, log: seq<Snapshot>, count: nat)
    requires StateWell(rows, logs, posts, seal) && id in rows && SameRun(run, rows[id])
    requires (rows[id].attempted ==> run.attempted) && id in logs && logs[id] <= log
    requires RunWell(run, log, count, seal)
    ensures StateWell(rows[id := run], logs[id := log], posts[id := count], seal)
    ensures OnlyRun(id, rows, logs, rows[id := run], logs[id := log])
  {
    hide RunWell;
  }

  /** The history of a run, and how often it was posted: nothing yet for a new one. */
  function HistoryOf(logs: map<string, seq<Snapshot>>, id: string): seq<Snapshot> {
    if id in logs then logs[id] else []
  }

  function PostsOf(posts: map<string, nat>, id: string): nat {
    if id in posts then posts[id] else 0
  }

  /** A run that joins starts with an empty history; one that its review has moved on keeps what it had. */
  lemma ReviewKeeps(rows: map<string, Run>, logs: map<string, seq<Snapshot>>, posts: map<string, nat>, seal: Seal, run: Run)
    requires StateWell(rows, logs, posts, seal) && Writable(rows, run)
    ensures
      var id := run.identity.run;
      var laterLogs, laterPosts := logs[id := HistoryOf(logs, id)], posts[id := PostsOf(posts, id)];
      StateWell(rows[id := run], laterLogs, laterPosts, seal)
      && Grown(rows, logs, posts, rows[id := run], laterLogs, laterPosts)
  {
    hide RunWell, Writable, Grown, HistoryOf, PostsOf;
    ReviewWell(rows, logs, posts, seal, run);
    ReviewGrown(rows, logs, posts, run);
  }

  lemma ReviewGrown(rows: map<string, Run>, logs: map<string, seq<Snapshot>>, posts: map<string, nat>, run: Run)
    requires logs.Keys == rows.Keys == posts.Keys && Writable(rows, run)
    ensures
      var id := run.identity.run;
      Grown(rows, logs, posts, rows[id := run], logs[id := HistoryOf(logs, id)], posts[id := PostsOf(posts, id)])
  {
  }

  lemma ReviewWell(rows: map<string, Run>, logs: map<string, seq<Snapshot>>, posts: map<string, nat>, seal: Seal, run: Run)
    requires StateWell(rows, logs, posts, seal) && Writable(rows, run)
    ensures RunWell(run, HistoryOf(logs, run.identity.run), PostsOf(posts, run.identity.run), seal)
  {
    hide Published, DigestShaped;
    var id := run.identity.run;
    if id in rows {
      assert RunWell(rows[id], logs[id], posts[id], seal);
      PublishedSame(rows[id], run, logs[id], seal);
    } else {
      NothingPublished(run, seal);
    }
  }

  lemma NothingPublished(run: Run, seal: Seal)
    ensures Published(run, [], seal)
  {
  }

  lemma AttemptWell(row: Run, run: Run, log: seq<Snapshot>, count: nat, seal: Seal)
    requires RunWell(row, log, count, seal) && row == run.(attempted := false)
    requires run.attempted && DigestShaped(ProposedDigest(run))
    ensures RunWell(run, log, count, seal)
  {
    hide DigestShaped;
    PublishedSame(row, run, log, seal);
  }

  lemma SnapshotWell(row: Run, log: seq<Snapshot>, count: nat, seal: Seal, s: Snapshot)
    requires RunWell(row, log, count, seal) && row.attempted
    requires Validates(row, s) && s.receipt == seal(s.(receipt := "")) && s.revision == |log| + 1
    requires log != [] ==> !SemanticEqual(log[|log| - 1], s) && ValidTransition(log[|log| - 1].state, s.state)
    ensures RunWell(row.(guidance := Some(s)), log + [s], count, seal)
  {
    hide DigestShaped, Validates, SemanticEqual, ValidTransition;
    PublishedMore(row, log, s, seal);
    PublishedSame(row, row.(guidance := Some(s)), log + [s], seal);
  }

  lemma RowWell(rows: map<string, Run>, logs: map<string, seq<Snapshot>>, posts: map<string, nat>, seal: Seal, id: string)
    requires StateWell(rows, logs, posts, seal) && id in rows
    ensures id in logs && id in posts && rows[id].identity.run == id && RunWell(rows[id], logs[id], posts[id], seal)
  {
  }

  lemma RowRevision(rows: map<string, Run>, logs: map<string, seq<Snapshot>>, posts: map<string, nat>, seal: Seal, id: string)
    requires StateWell(rows, logs, posts, seal) && id in rows
    ensures id in logs && id in posts && rows[id].identity.run == id
    ensures rows[id].guidance == if logs[id] == [] then None else Some(logs[id][|logs[id]| - 1])
    ensures logs[id] != [] ==> logs[id][|logs[id]| - 1].revision == |logs[id]|
    ensures posts[id] <= 1 && (posts[id] == 1 || logs[id] != [] ==> rows[id].attempted)
    ensures rows[id].attempted ==> DigestShaped(ProposedDigest(rows[id]))
  {
    assert RunWell(rows[id], logs[id], posts[id], seal);
  }

  lemma OnlyRunChain(id: string, rows: map<string, Run>, logs: map<string, seq<Snapshot>>, midRows: map<string, Run>,
                     midLogs: map<string, seq<Snapshot>>, laterRows: map<string, Run>, laterLogs: map<string, seq<Snapshot>>)
    requires OnlyRun(id, rows, logs, midRows, midLogs) && OnlyRun(id, midRows, midLogs, laterRows, laterLogs)
    ensures OnlyRun(id, rows, logs, laterRows, laterLogs)
  {
  }

  lemma OnwardChain(rows: map<string, Run>, logs: map<string, seq<Snapshot>>, midRows: map<string, Run>,
                    midLogs: map<string, seq<Snapshot>>, laterRows: map<string, Run>, laterLogs: map<string, seq<Snapshot>>)
    requires Onward(rows, logs, midRows, midLogs) && Onward(midRows, midLogs, laterRows, laterLogs)
    ensures Onward(rows, logs, laterRows, laterLogs)
  {
  }

  lemma RemembersOn(id: string, run: Run, rows: map<string, Run>, logs: map<string, seq<Snapshot>>,
                    laterRows: map<string, Run>, laterLogs: map<string, seq<Snapshot>>)
    requires OnlyRun(id, rows, logs, laterRows, laterLogs) && id in rows && id in logs
    requires Remembers(run, rows[id], logs[id])
    ensures id in laterRows && id in laterLogs && Remembers(run, laterRows[id], laterLogs[id])
    ensures rows[id].attempted ==> laterRows[id].attempted
    ensures logs[id] <= laterLogs[id]
  {
  }

  lemma RemembersNew(run: Run, row: Run, log: seq<Snapshot>, s: Snapshot)
    requires Remembers(run, row, log + [s]) && s.revision == |log| + 1
    ensures Remembers(run.(guidance := Some(s)), row, log + [s])
  {
  }

  lemma RevisedValidates(run: Run, row: Run, s: Snapshot, revision: int, receipt: string)
    requires SameRun(run, row)
    ensures Validates(run, s) ==> Validates(row, s.(revision := revision, receipt := receipt))
  {
  }

  lemma SameValidates(run: Run, other: Run, s: Snapshot)
    requires run.identity == other.identity
    ensures Validates(run, s) <==> Validates(other, s)
  {
    hide DigestShaped;
  }

  /** Anything valid may follow what is pending or unknown, and nothing may follow anything else. */
  lemma TransitionMeans(run: Run, s: Snapshot)
    requires run.guidance.Some? && Validates(run, run.guidance.value) && Validates(run, s)
    ensures Final(run.guidance.value.state) || !ValidTransition(run.guidance.value.state, s.state) <==>
            run.guidance.value.state !in {"pending", "unknown"}
  {
    hide DigestShaped;
  }

  lemma RememberedValidates(run: Run, row: Run, log: seq<Snapshot>, posts: nat, seal: Seal)
    requires RunWell(row, log, posts, seal) && Remembers(run, row, log) && run.guidance.Some?
    ensures Validates(run, run.guidance.value)
  {
    hide DigestShaped;
  }

  /** Snapshots of one run that say the same differ in when they were observed and published at most. */
  lemma SemanticMeans(run: Run, a: Snapshot, b: Snapshot)
    requires Validates(run, a) && Validates(run, b)
    ensures SemanticEqual(a, b) <==> a.(revision := b.revision, observedAt := b.observedAt, receipt := b.receipt) == b
  {
    hide DigestShaped;
  }

  /** No other run was posted. */
  ghost predicate PostsApart(id: string, posts: map<string, nat>, later: map<string, nat>) {
    posts.Keys == later.Keys && forall other :: other in posts && other != id ==> later[other] == posts[other]
  }

  /** A run whose guidance a fence of the sandbox cancels. */
  predicate Fenced(run: Run, sandbox: string) {
    run.guidance.Some? && run.guidance.value.state == "pending" && run.identity.sandbox == sandbox
  }

  /** A run with a snapshot that is not final. */
  predicate Open(run: Run) {
    run.guidance.Some? && !Final(run.guidance.value.state)
  }

  class Coordinator {
    const seal: Seal
    var rows: map<string, Run>
    var alive: bool
    ghost var logs: map<string, seq<Snapshot>>
    ghost var posts: map<string, nat>
    ghost var smooth: bool
    /** The runs whose guidance the helper was asked to look up, and to cancel. */
    ghost var observed: set<string>
    ghost var cancelled: set<string>

    constructor (seal: Seal)
      ensures Valid() && this.seal == seal && rows == map[] && posts == map[] && alive
    {
      this.seal, rows, alive, logs, posts, smooth := seal, map[], true, map[], map[], true;
      observed, cancelled := {}, {};
    }

    ghost predicate Valid()
      reads this`rows, this`logs, this`posts
    {
      StateWell(rows, logs, posts, seal)
    }

    /** The process may stop before any effect; from then on effects do nothing. */
    method Proceed() returns (going: bool)
      modifies this`alive, this`smooth
      ensures going == alive && (alive ==> old(alive))
      ensures smooth ==> old(smooth) && (old(alive) ==> alive)
    {
      var stop: bool := *;
      if stop && alive {
        alive, smooth := false, false;
      }
      going := alive;
    }

    /** A review creates its run, or moves its phase and its report on. */
    method PutReview(run: Run) returns (ok: bool)
      requires Valid() && Writable(rows, run)
      modifies this`rows, this`logs, this`posts, this`alive, this`smooth
      ensures Valid() && Grown(old(rows), old(logs), old(posts), rows, logs, posts)
      ensures rows == old(rows) || rows == old(rows)[run.identity.run := run]
      ensures ok ==> rows == old(rows)[run.identity.run := run]
      ensures smooth ==> old(smooth) && (old(alive) ==> ok)
    {
      hide StateWell, Grown, RunWell, Writable;
      var id := run.identity.run;
      var stored: bool := *;
      var heard: bool := *;
      ReviewKeeps(rows, logs, posts, seal, run);
      GrownSame(rows, logs, posts);
      var going := Proceed();
      if !going || !stored {
        smooth := false;
        return false;
      }
      rows, logs, posts := rows[id := run], logs[id := HistoryOf(logs, id)], posts[id := PostsOf(posts, id)];
      smooth := smooth && heard;
      return heard;
    }

    /** Writes the attempt into the row. */
    method PutAttempt(run: Run) returns (ok: bool)
      requires Valid() && run.identity.run in rows && rows[run.identity.run] == run.(attempted := false)
      requires run.attempted && DigestShaped(ProposedDigest(run))
      modifies this`rows, this`alive, this`smooth
      ensures Valid() && OnlyRun(run.identity.run, old(rows), logs, rows, logs) && run.identity.run in rows
      ensures rows[run.identity.run] == run || rows[run.identity.run] == old(rows)[run.identity.run]
      ensures ok ==> rows[run.identity.run] == run && alive
      ensures smooth ==> old(smooth) && (old(alive) ==> ok)
    {
      hide StateWell, OnlyRun, RunWell, DigestShaped;
      var id := run.identity.run;
      var stored: bool := *;
      var heard: bool := *;
      RowWell(rows, logs, posts, seal, id);
      AttemptWell(rows[id], run, logs[id], posts[id], seal);
      ReplaceKeeps(rows, logs, posts, seal, id, run, logs[id], posts[id]);
      assert logs[id := logs[id]] == logs && posts[id := posts[id]] == posts;
      NothingChanges(id, rows, logs);
      var going := Proceed();
      if !going || !stored {
        smooth := false;
        return false;
      }
      rows := rows[id := run];
      smooth := smooth && heard;
      return heard;
    }

    /** The store takes a snapshot only at the revision after the row's own. */
    method PutManagerGuidance(id: string, s: Snapshot, expected: int) returns (ok: bool)
      requires Valid() && id in rows && id in logs && rows[id].attempted
      requires Validates(rows[id], s) && s.receipt == seal(s.(receipt := "")) && s.revision == expected + 1
      requires expected == |logs[id]| && expected > 0 ==>
        !SemanticEqual(logs[id][expected - 1], s) && ValidTransition(logs[id][expected - 1].state, s.state)
      modifies this`rows, this`logs, this`alive, this`smooth
      ensures Valid() && OnlyRun(id, old(rows), old(logs), rows, logs)
      ensures id in rows && id in logs && rows[id].attempted
      ensures logs[id] == old(logs)[id] || (expected == |old(logs)[id]| && logs[id] == old(logs)[id] + [s])
      ensures ok ==> expected == |old(logs)[id]| && logs[id] == old(logs)[id] + [s]
      ensures smooth ==> old(smooth) && (old(alive) ==> alive) && (old(alive) && expected == |old(logs)[id]| ==> ok)
      ensures smooth && !ok ==> rows == old(rows) && logs == old(logs)
    {
      hide StateWell, OnlyRun, RunWell, DigestShaped, SemanticEqual, ValidTransition, Validates;
      RowRevision(rows, logs, posts, seal, id);
      RowWell(rows, logs, posts, seal, id);
      NothingChanges(id, rows, logs);
      var prior := rows[id];
      var current := if prior.guidance.Some? then prior.guidance.value.revision else 0;
      if expected != current || s.revision != current + 1 {
        return false;
      }
      var stored: bool := *;
      var heard: bool := *;
      var going := Proceed();
      if !going || !stored {
        smooth := false;
        return false;
      }
      SnapshotWell(prior, logs[id], posts[id], seal, s);
      ReplaceKeeps(rows, logs, posts, seal, id, prior.(guidance := Some(s)), logs[id] + [s], posts[id]);
      assert posts[id := posts[id]] == posts;
      rows := rows[id := prior.(guidance := Some(s))];
      logs := logs[id := logs[id] + [s]];
      smooth := smooth && heard;
      return heard;
    }

    /** One request to the helper: the attempt itself, a look, or a cancellation. */
    method CallGuidance(id: string, action: Action) returns (answer: Option<Snapshot>)
      requires Valid() && id in rows && id in posts
      requires action.Dispatch? ==> rows[id].attempted && posts[id] == 0
      modifies this`posts, this`observed, this`cancelled, this`alive, this`smooth
      ensures Valid()
      ensures !action.Dispatch? ==> posts == old(posts)
      ensures PostsApart(id, old(posts), posts)
      ensures answer.Some? ==> match action
        case Dispatch => id in posts && posts[id] == 1
        case Observe => id in observed
        case Cancel => id in cancelled
      ensures old(observed) <= observed <= old(observed) + {id} && old(cancelled) <= cancelled <= old(cancelled) + {id}
      ensures !action.Observe? ==> observed == old(observed)
      ensures !action.Cancel? ==> cancelled == old(cancelled)
      ensures smooth ==> old(smooth) && (old(alive) ==> alive)
    {
      hide StateWell, RunWell;
      answer := *;
      var sent: bool := *;
      var going := Proceed();
      if going && sent && action.Observe? {
        observed := observed + {id};
      }
      if going && sent && action.Cancel? {
        cancelled := cancelled + {id};
      }
      if going && sent && action.Dispatch? {
        RowWell(rows, logs, posts, seal, id);
        PostedWell(rows[id], logs[id], seal);
        ReplaceKeeps(rows, logs, posts, seal, id, rows[id], logs[id], 1);
        assert rows[id := rows[id]] == rows && logs[id := logs[id]] == logs;
        posts := posts[id := 1];
      }
      if !going || !sent {
        answer := None;
      }
    }

    /** Validates, skips what says nothing new, and publishes at the next revision. */
    method PersistGuidance(run: Run, given: Snapshot) returns (ok: bool, after: Run)
      requires Valid() && run.identity.run in rows && run.identity.run in logs
      requires rows[run.identity.run].attempted && Remembers(run, rows[run.identity.run], logs[run.identity.run])
      modifies this`rows, this`logs, this`alive, this`smooth
      ensures Valid() && OnlyRun(run.identity.run, old(rows), old(logs), rows, logs)
      ensures run.identity.run in rows && run.identity.run in logs && rows[run.identity.run].attempted
      ensures Remembers(after, rows[run.identity.run], logs[run.identity.run])
      ensures !ok ==> after == run
      ensures ok ==> Validates(run, given) && rows[run.identity.run].guidance.Some?
      ensures ok ==> after.guidance.Some? && SemanticEqual(after.guidance.value, given)
      ensures ok ==> after.guidance.value.(revision := given.revision, observedAt := given.observedAt, receipt := given.receipt) == given
      // Onto a run without one, the snapshot itself is published, as the first.
      ensures ok && run.guidance.None? ==>
        exists receipt :: logs[run.identity.run] == [given.(revision := 1, receipt := receipt)]
      ensures smooth ==> old(smooth) && (old(alive) ==> alive)
      ensures smooth && !ok ==> rows == old(rows) && logs == old(logs)
      ensures smooth && old(alive) && Validates(run, given) && old(rows)[run.identity.run].guidance.None? ==> ok
      // A valid snapshot is refused only after a final one that says something else.
      ensures smooth && old(alive) && old(rows)[run.identity.run].guidance == run.guidance ==>
        (ok <==> Validates(run, given)
                 && (run.guidance.Some? && run.guidance.value.state !in {"pending", "unknown"} ==>
                       run.guidance.value.(revision := given.revision, observedAt := given.observedAt, receipt := given.receipt) == given))
    {
      hide StateWell, OnlyRun, RunWell, DigestShaped, Validates, ValidTransition;
      var id := run.identity.run;
      after := run;
      NothingChanges(id, rows, logs);
      RowRevision(rows, logs, posts, seal, id);
      if !Validates(run, given) {
        return false, run;
      }
      var expected := 0;
      if run.guidance.Some? {
        expected := run.guidance.value.revision;
        RowWell(rows, logs, posts, seal, id);
        RememberedValidates(run, rows[id], logs[id], posts[id], seal);
        SemanticMeans(run, run.guidance.value, given);
        if SemanticEqual(run.guidance.value, given) {
          return true, run;
        }
        TransitionMeans(run, given);
        if Final(run.guidance.value.state) || !ValidTransition(run.guidance.value.state, given.state) {
          return false, run;
        }
      }
      var snapshot := given.(revision := expected + 1);
      snapshot := snapshot.(receipt := seal(snapshot.(receipt := "")));
      RevisedValidates(run, rows[id], given, snapshot.revision, snapshot.receipt);
      assert snapshot.(receipt := "") == given.(revision := expected + 1, receipt := "");
      ok := PutManagerGuidance(id, snapshot, expected);
      RemembersOn(id, run, old(rows), old(logs), rows, logs);
      RowRevision(rows, logs, posts, seal, id);
      if ok {
        RemembersNew(run, rows[id], old(logs)[id], snapshot);
        after := run.(guidance := Some(snapshot));
        assert expected == 0 ==> logs[id] == [given.(revision := 1, receipt := snapshot.receipt)];
      }
    }

    /** The single attempt: its intent is durable first, then one request, then whatever came of it. */
    method DispatchGuidance(run: Run, now: int) returns (ok: bool, ghost answer: Option<Snapshot>)
      requires Valid() && run.identity.run in rows && rows[run.identity.run] == run && Admissible(run)
      modifies this`rows, this`logs, this`posts, this`observed, this`cancelled, this`alive, this`smooth
      ensures Valid() && OnlyRun(run.identity.run, old(rows), old(logs), rows, logs)
      ensures run.identity.run in rows
      ensures smooth ==> old(smooth) && (old(alive) ==> alive && rows[run.identity.run].attempted)
      ensures ok ==> rows[run.identity.run].attempted && rows[run.identity.run].guidance.Some?
      ensures ok ==> run.identity.run in posts && posts[run.identity.run] == 1
      ensures PostsApart(run.identity.run, old(posts), posts)
      // An answer is published as it is if it is valid; without one, an unknown outcome of the proposed digest is.
      ensures smooth && old(alive) && answer.Some? ==> (ok <==> Validates(run, answer.value))
      ensures ok ==> answer.Some?
      ensures smooth && old(alive) && answer.None? && now != 0 ==>
        && run.identity.run in logs && |logs[run.identity.run]| == 1
        && var s := logs[run.identity.run][0];
        && s.state == "unknown" && s.revision == 1 && s.observedAt == now && s.identity == run.identity
        && s.refusal.None? && s.logCursor.None? && s.admittedAt.None? && s.availableAt.None? && s.settledAt.None?
        && run.report.Some? && run.report.value.proposal.Some? && run.report.value.proposal.value.digest == Some(s.digest)
    {
      hide StateWell, OnlyRun, RunWell, DigestShaped, Validates, SemanticEqual, ValidTransition;
      answer := None;
      var id := run.identity.run;
      RowRevision(rows, logs, posts, seal, id);
      var attempt := run.(attempted := true);
      var stored := PutAttempt(attempt);
      if !stored {
        return false, None;
      }
      RowRevision(rows, logs, posts, seal, id);
      var reply := CallGuidance(id, Dispatch);
      answer := reply;
      RowRevision(rows, logs, posts, seal, id);
      label called:
      var after: Run;
      if reply.None? {
        if now != 0 {
          UnknownValidates(attempt, now);
        }
        var written: bool;
        written, after := PersistGuidance(attempt, UnknownGuidance(attempt, now));
        ok := false;
      } else {
        SameValidates(run, attempt, reply.value);
        ok, after := PersistGuidance(attempt, reply.value);
      }
      OnlyRunChain(id, old(rows), old(logs), old@called(rows), old@called(logs), rows, logs);
    }

    /** Asks the helper about an attempt, or to cancel it; never posts one. */
    method AskGuidance(run: Run, action: Action) returns (ok: bool, after: Run)
      requires !action.Dispatch?
      requires Valid() && run.identity.run in rows && run.identity.run in logs
      requires rows[run.identity.run].attempted && Remembers(run, rows[run.identity.run], logs[run.identity.run])
      modifies this`rows, this`logs, this`posts, this`observed, this`cancelled, this`alive, this`smooth
      ensures Valid() && OnlyRun(run.identity.run, old(rows), old(logs), rows, logs)
      ensures run.identity.run in rows && run.identity.run in logs && rows[run.identity.run].attempted
      ensures Remembers(after, rows[run.identity.run], logs[run.identity.run])
      ensures ok ==> rows[run.identity.run].guidance.Some?
      ensures !ok ==> after == run
      ensures posts == old(posts)
      ensures ok ==> match action
        case Observe => run.identity.run in observed
        case Cancel => run.identity.run in cancelled
      ensures old(observed) <= observed && old(cancelled) <= cancelled <= old(cancelled) + {run.identity.run}
      ensures !action.Cancel? ==> cancelled == old(cancelled)
      ensures smooth && !ok ==> rows == old(rows) && logs == old(logs)
      ensures smooth ==> old(smooth) && (old(alive) ==> alive)
    {
      hide StateWell, OnlyRun, RunWell, DigestShaped, Validates, SemanticEqual, ValidTransition;
      RowRevision(rows, logs, posts, seal, run.identity.run);
      NothingChanges(run.identity.run, rows, logs);
      var answer := CallGuidance(run.identity.run, action);
      if answer.None? {
        return false, run;
      }
      ok, after := PersistGuidance(run, answer.value);
    }

    /** Recovery of one run: an attempt without a snapshot is observed, or else recorded as unknown. */
    method RecoverRun(run: Run, now: int) returns (ok: bool)
      requires Valid() && run.identity.run in rows && rows[run.identity.run] == run && now != 0
      modifies this`rows, this`logs, this`posts, this`observed, this`cancelled, this`alive, this`smooth
      ensures Valid() && OnlyRun(run.identity.run, old(rows), old(logs), rows, logs)
      ensures posts == old(posts) && run.identity.run in rows
      ensures ok && rows[run.identity.run].attempted ==> rows[run.identity.run].guidance.Some?
      ensures smooth ==> old(smooth) && (old(alive) ==> alive)
      ensures smooth && old(alive) && run.guidance.None? ==> ok
      ensures smooth && ok && Open(run) ==> run.identity.run in observed
      // Where the helper was not heard, what is published says so, of the digest that was proposed.
      ensures ok && run.attempted && run.guidance.None? && run.identity.run !in observed ==>
        && run.identity.run in logs && |logs[run.identity.run]| == 1
        && var s := logs[run.identity.run][0];
        && s.state == "unknown" && s.revision == 1 && s.observedAt == now && s.identity == run.identity
        && s.refusal.None? && s.logCursor.None? && s.admittedAt.None? && s.availableAt.None? && s.settledAt.None?
        && run.report.Some? && run.report.value.proposal.Some? && run.report.value.proposal.value.digest == Some(s.digest)
      ensures old(observed) <= observed && cancelled == old(cancelled)
      ensures run.guidance.Some? && Final(run.guidance.value.state) ==> ok && rows == old(rows) && logs == old(logs)
    {
      hide StateWell, OnlyRun, RunWell, DigestShaped, Validates, SemanticEqual, ValidTransition;
      var id := run.identity.run;
      RowRevision(rows, logs, posts, seal, id);
      NothingChanges(id, rows, logs);
      var after: Run;
      if run.guidance.None? {
        if !run.attempted {
          return true;
        }
        UnknownValidates(run, now);
        ok, after := AskGuidance(run, Observe);
        if !ok {
          label observed:
          RowRevision(rows, logs, posts, seal, id);
          ok, after := PersistGuidance(run, UnknownGuidance(run, now));
          OnlyRunChain(id, old(rows), old(logs), old@observed(rows), old@observed(logs), rows, logs);
        }
        return;
      }
      if Final(run.guidance.value.state) {
        return true;
      }
      if run.guidance.value.state != "pending" && run.guidance.value.state != "unknown" {
        RowWell(rows, logs, posts, seal, id);
        OpenStates(run, logs[id], posts[id], seal);
        return true;
      }
      var readable: bool := *;
      if !readable {
        smooth := false;
        return true;
      }
      ok, after := AskGuidance(run, Observe);
    }

    /** Cancels what is known to be pending on a sandbox; unknown guidance stays as it is. */
    method FenceRun(run: Run, sandbox: string) returns (ok: bool)
      requires Valid() && run.identity.run in rows && rows[run.identity.run] == run
      modifies this`rows, this`logs, this`posts, this`observed, this`cancelled, this`alive, this`smooth
      ensures Valid() && OnlyRun(run.identity.run, old(rows), old(logs), rows, logs)
      ensures posts == old(posts) && run.identity.run in rows
      ensures ok && Fenced(run, sandbox) ==> run.identity.run in cancelled
      ensures old(cancelled) <= cancelled <= old(cancelled) + (if Fenced(run, sandbox) then {run.identity.run} else {})
      ensures !Fenced(run, sandbox) ==> ok && rows == old(rows)
    {
      hide StateWell, OnlyRun, RunWell, DigestShaped, Validates, SemanticEqual, ValidTransition;
      RowRevision(rows, logs, posts, seal, run.identity.run);
      NothingChanges(run.identity.run, rows, logs);
      if run.guidance.None? || run.guidance.value.state != "pending" || run.identity.sandbox != sandbox {
        return true;
      }
      var after: Run;
      ok, after := AskGuidance(run, Cancel);
    }

    /** The rows, one copy each, in some order. */
    method ManagerRuns() returns (runs: seq<Run>)
      requires Valid()
      ensures forall i :: 0 <= i < |runs| ==> runs[i].identity.run in rows && rows[runs[i].identity.run] == runs[i]
      ensures forall i, j :: 0 <= i < j < |runs| ==> runs[i].identity.run != runs[j].identity.run
      ensures forall id :: id in rows ==> rows[id] in runs && rows[id].identity.run == id
    {
      hide RunWell;
      runs := [];
      var left := rows.Keys;
      while left != {}
        invariant left <= rows.Keys
        invariant forall i :: 0 <= i < |runs| ==>
          runs[i].identity.run in rows.Keys - left && rows[runs[i].identity.run] == runs[i]
        invariant forall i, j :: 0 <= i < j < |runs| ==> runs[i].identity.run != runs[j].identity.run
        invariant forall id :: id in rows.Keys - left ==> rows[id] in runs
      {
        var id :| id in left;
        runs := runs + [rows[id]];
        left := left - {id};
      }
    }

    /** The end of an apply pass: one attempt for each run that qualifies and has none, and no other.
      * `qualified` is what the policy, the sandbox and the review authority say of a run. */
    method DispatchPendingGuidance(qualified: Run -> bool) returns (ok: bool)
      requires Valid()
      modifies this`rows, this`logs, this`posts, this`observed, this`cancelled, this`alive, this`smooth
      ensures Valid() && Onward(old(rows), old(logs), rows, logs)
      ensures rows.Keys == old(rows).Keys && posts.Keys == old(posts).Keys == rows.Keys
      ensures forall id | id in rows :: var run := old(rows)[id];
        if qualified(run) && run.automatic && !run.manual && !run.attempted && run.guidance.None?
           && run.report.Some? && run.report.value.receipted && run.phase == run.report.value.state
           && run.phase in {"recommended", "no_action", "needs_owner"}
           && run.report.value.proposal.Some? && run.report.value.proposal.value.outcome == "recommendation"
           && run.report.value.proposal.value.digest.Some? && DigestShaped(run.report.value.proposal.value.digest.value)
        then ok ==> rows[id].attempted && rows[id].guidance.Some? && posts[id] == 1
        else rows[id] == run && posts[id] == old(posts)[id]
    {
      hide StateWell, OnlyRun, Onward, RunWell, SameRun, DigestShaped;
      AdmissibleRows(rows);
      hide Admissible;
      var runs := ManagerRuns();
      OnwardSame(rows, logs);
      SameDomains(rows, logs, posts, seal);
      for i := 0 to |runs|
        invariant Valid() && Onward(old(rows), old(logs), rows, logs)
        invariant rows.Keys == old(rows).Keys && posts.Keys == old(posts).Keys == rows.Keys
        invariant forall j :: i <= j < |runs| ==> runs[j].identity.run in rows && rows[runs[j].identity.run] == runs[j]
        invariant forall id | id in rows && !(Admissible(old(rows)[id]) && qualified(old(rows)[id])) ::
          rows[id] == old(rows)[id] && posts[id] == old(posts)[id]
        invariant forall j | 0 <= j < i && Admissible(runs[j]) && qualified(runs[j]) ::
          Attempted(rows, posts, runs[j].identity.run)
      {
        var fatal: bool := *;
        var now: int := *;
        if !Admissible(runs[i]) {
          continue;
        }
        if fatal {
          return false;
        }
        if !qualified(runs[i]) {
          continue;
        }
        label before:
        ghost var answer;
        ok, answer := DispatchGuidance(runs[i], now);
        OnlyRunOnward(runs[i].identity.run, old(rows), old(logs), old@before(rows), old@before(logs), rows, logs);
        if !ok {
          return false;
        }
      }
      return true;
    }

    /** A recovery pass that completes leaves no attempted run without a snapshot, and attempts nothing. */
    method RecoverPendingGuidance(now: int) returns (ok: bool)
      requires Valid() && now != 0
      modifies this`rows, this`logs, this`posts, this`observed, this`cancelled, this`alive, this`smooth
      ensures Valid() && Onward(old(rows), old(logs), rows, logs) && posts == old(posts)
      ensures ok ==> forall id :: id in rows && rows[id].attempted ==> rows[id].guidance.Some?
      ensures ok && smooth ==> forall id :: id in old(rows) && Open(old(rows)[id]) ==> id in observed
      ensures cancelled == old(cancelled)
    {
      hide StateWell, OnlyRun, Onward, RunWell, SameRun, Open;
      var runs := ManagerRuns();
      OnwardSame(rows, logs);
      for i := 0 to |runs|
        invariant Valid() && Onward(old(rows), old(logs), rows, logs) && posts == old(posts)
        invariant rows.Keys == old(rows).Keys
        invariant forall j :: i <= j < |runs| ==> runs[j].identity.run in rows && rows[runs[j].identity.run] == runs[j]
        invariant forall j :: 0 <= j < i ==> var id := runs[j].identity.run;
          id in rows && (rows[id].attempted ==> rows[id].guidance.Some?)
        invariant cancelled == old(cancelled)
        invariant smooth ==> forall j | 0 <= j < i && Open(runs[j]) :: runs[j].identity.run in observed
      {
        label before:
        ok := RecoverRun(runs[i], now);
        OnlyRunOnward(runs[i].identity.run, old(rows), old(logs), old@before(rows), old@before(logs), rows, logs);
        if !ok {
          return false;
        }
      }
      Covered(old(rows), runs, rows);
      return true;
    }

    /** Cancels the guidance of every run that is pending on the sandbox, and of no other. */
    method FenceOffGuidance(sandbox: string) returns (ok: bool)
      requires Valid()
      modifies this`rows, this`logs, this`posts, this`observed, this`cancelled, this`alive, this`smooth
      ensures Valid() && Onward(old(rows), old(logs), rows, logs) && posts == old(posts)
      ensures ok ==> forall id | id in old(rows) && Fenced(old(rows)[id], sandbox) :: id in cancelled
      ensures forall id | id in cancelled && id !in old(cancelled) :: id in old(rows) && Fenced(old(rows)[id], sandbox)
    {
      hide StateWell, OnlyRun, Onward, RunWell, SameRun, Fenced;
      var runs := ManagerRuns();
      OnwardSame(rows, logs);
      for i := 0 to |runs|
        invariant Valid() && Onward(old(rows), old(logs), rows, logs) && posts == old(posts)
        invariant forall j :: i <= j < |runs| ==> runs[j].identity.run in rows && rows[runs[j].identity.run] == runs[j]
        invariant old(cancelled) <= cancelled
        invariant forall j | 0 <= j < i && Fenced(runs[j], sandbox) :: runs[j].identity.run in cancelled
        invariant forall id | id in cancelled && id !in old(cancelled) :: id in old(rows) && Fenced(old(rows)[id], sandbox)
      {
        label before:
        ok := FenceRun(runs[i], sandbox);
        OnlyRunOnward(runs[i].identity.run, old(rows), old(logs), old@before(rows), old@before(logs), rows, logs);
        if !ok {
          return false;
        }
      }
      return true;
    }

    /** One pass of any kind. */
    method GuidancePass()
      requires Valid()
      modifies this`rows, this`logs, this`posts, this`observed, this`cancelled, this`alive, this`smooth
      ensures Valid() && Grown(old(rows), old(logs), old(posts), rows, logs, posts)
    {
      hide StateWell, Onward, Grown, RunWell, SameRun, Admissible;
      var kind: nat := *;
      var sandbox: string := *;
      var now: int := *;
      var qualified: Run -> bool := *;
      var ok: bool;
      SameDomains(rows, logs, posts, seal);
      UnattemptedIfAdmissible();
      if kind == 0 {
        ok := DispatchPendingGuidance(qualified);
      } else if kind == 1 && now != 0 {
        ok := RecoverPendingGuidance(now);
      } else {
        ok := FenceOffGuidance(sandbox);
      }
      OnwardGrown(old(rows), old(logs), old(posts), seal, rows, logs, posts);
    }

    /** Reviews that create runs and move them on, and any passes of any kind, each cut short anywhere, with any
      * answers from the helper. */
    method History(steps: nat)
      requires Valid()
      modifies this`rows, this`logs, this`posts, this`observed, this`cancelled, this`alive, this`smooth
      ensures Valid() && Grown(old(rows), old(logs), old(posts), rows, logs, posts)
      ensures forall id :: id in rows ==> id in logs && id in posts && Published(rows[id], logs[id], seal) && posts[id] <= 1
      // A run whose last snapshot is final keeps its history and its guidance, whatever happens to others.
      ensures forall id | old(Settled(rows, id)) :: id in rows && rows[id].guidance == old(rows)[id].guidance
      ensures forall id | old(Settled(rows, id)) :: id in logs && id in old(logs) && logs[id] == old(logs)[id]
    {
      hide StateWell, Grown, RunWell, Writable, Published;
      GrownSame(rows, logs, posts);
      for i := 0 to steps
        invariant Valid() && Grown(old(rows), old(logs), old(posts), rows, logs, posts)
      {
        alive := true;
        var run: Run := *;
        var review: bool := *;
        var ok: bool;
        label before:
        if !review {
          GuidancePass();
        } else if Writable(rows, run) {
          ok := PutReview(run);
        } else {
          GrownSame(rows, logs, posts);
        }
        GrownChain(old(rows), old(logs), old(posts), old@before(rows), old@before(logs), old@before(posts), rows, logs, posts);
      }
      AllPublished(rows, logs, posts, seal);
      forall id | old(Settled(rows, id))
        ensures id in rows && id in logs && id in old(logs)
        ensures logs[id] == old(logs)[id] && rows[id].guidance == old(rows)[id].guidance
      {
        RowWell(old(rows), old(logs), old(posts), seal, id);
        GrownRow(old(rows), old(logs), old(posts), rows, logs, posts, id);
        RowWell(rows, logs, posts, seal, id);
        SettledStays(old(rows)[id], old(logs)[id], old(posts)[id], rows[id], logs[id], posts[id], seal);
      }
    }

    /** Settled: no automatic run of the sandbox has an attempt without a final snapshot. */
    method GuidanceSettled(sandbox: string) returns (settled: bool)
      requires Valid()
      ensures settled <==> forall id :: id in rows && rows[id].identity.sandbox == sandbox && rows[id].automatic ==>
        (rows[id].attempted ==> rows[id].guidance.Some?)
        && (rows[id].guidance.Some? ==> Final(rows[id].guidance.value.state))
    {
      hide StateWell, RunWell;
      var runs := ManagerRuns();
      for i := 0 to |runs|
        invariant forall j :: 0 <= j < i && runs[j].identity.sandbox == sandbox && runs[j].automatic ==>
          (runs[j].attempted ==> runs[j].guidance.Some?)
          && (runs[j].guidance.Some? ==> Final(runs[j].guidance.value.state))
      {
        var run := runs[i];
        if run.identity.sandbox != sandbox || !run.automatic {
          continue;
        }
        if run.attempted && run.guidance.None? {
          return false;
        }
        if run.guidance.Some? && !Final(run.guidance.value.state) {
          return false;
        }
      }
      return true;
    }
  }

  lemma AllPublished(rows: map<string, Run>, logs: map<string, seq<Snapshot>>, posts: map<string, nat>, seal: Seal)
    requires StateWell(rows, logs, posts, seal)
    ensures forall id :: id in rows ==> id in logs && id in posts && Published(rows[id], logs[id], seal) && posts[id] <= 1
  {
  }

  lemma GrownSame(rows: map<string, Run>, logs: map<string, seq<Snapshot>>, posts: map<string, nat>)
    ensures Grown(rows, logs, posts, rows, logs, posts)
  {
  }

  lemma UnattemptedIfAdmissible()
    ensures forall run: Run :: Admissible(run) ==> !run.attempted
  {
  }

  /** A settled run stays settled: once its last snapshot is final, its history never changes again. */
  lemma SettledStays(run: Run, log: seq<Snapshot>, count: nat, later: Run, laterLog: seq<Snapshot>, laterCount: nat, seal: Seal)
    requires RunWell(run, log, count, seal) && RunWell(later, laterLog, laterCount, seal) && log <= laterLog
    requires run.guidance.Some? && Final(run.guidance.value.state)
    ensures laterLog == log && later.guidance == run.guidance
  {
    hide Validates, SemanticEqual, DigestShaped;
    FinalIsLast(later, laterLog, seal, |log| - 1);
  }

  /** The run's last snapshot is final. */
  predicate Settled(rows: map<string, Run>, id: string) {
    id in rows && rows[id].guidance.Some? && Final(rows[id].guidance.value.state)
  }

  lemma GrownRow(rows: map<string, Run>, logs: map<string, seq<Snapshot>>, posts: map<string, nat>,
                 laterRows: map<string, Run>, laterLogs: map<string, seq<Snapshot>>, laterPosts: map<string, nat>, id: string)
    requires Grown(rows, logs, posts, laterRows, laterLogs, laterPosts) && id in rows && id in logs
    ensures id in laterRows && id in laterLogs && logs[id] <= laterLogs[id]
  {
  }

  lemma OnwardSame(rows: map<string, Run>, logs: map<string, seq<Snapshot>>)
    ensures Onward(rows, logs, rows, logs)
  {
  }

  lemma OnlyRunOnward(id: string, rows: map<string, Run>, logs: map<string, seq<Snapshot>>, midRows: map<string, Run>,
                      midLogs: map<string, seq<Snapshot>>, laterRows: map<string, Run>, laterLogs: map<string, seq<Snapshot>>)
    requires Onward(rows, logs, midRows, midLogs) && OnlyRun(id, midRows, midLogs, laterRows, laterLogs)
    ensures Onward(rows, logs, laterRows, laterLogs) && laterRows.Keys == midRows.Keys == rows.Keys
    ensures forall other :: other in midRows && other != id ==> laterRows[other] == midRows[other]
  {
    OnwardChain(rows, logs, midRows, midLogs, laterRows, laterLogs);
  }

  lemma Covered(rows: map<string, Run>, runs: seq<Run>, laterRows: map<string, Run>)
    requires forall id :: id in rows ==> rows[id] in runs && rows[id].identity.run == id
    requires laterRows.Keys == rows.Keys
    requires forall j :: 0 <= j < |runs| ==> var id := runs[j].identity.run;
      id in laterRows && (laterRows[id].attempted ==> laterRows[id].guidance.Some?)
    ensures forall id :: id in laterRows && laterRows[id].attempted ==> laterRows[id].guidance.Some?
  {
  }

  ghost predicate Attempted(rows: map<string, Run>, posts: map<string, nat>, id: string) {
    id in rows && id in posts && rows[id].attempted && rows[id].guidance.Some? && posts[id] == 1
  }

  lemma SameDomains(rows: map<string, Run>, logs: map<string, seq<Snapshot>>, posts: map<string, nat>, seal: Seal)
    requires StateWell(rows, logs, posts, seal)
    ensures posts.Keys == rows.Keys == logs.Keys
  {
  }

  /** A snapshot that is neither pending nor unknown is final. */
  lemma OpenStates(run: Run, log: seq<Snapshot>, count: nat, seal: Seal)
    requires RunWell(run, log, count, seal) && run.guidance.Some?
    ensures Final(run.guidance.value.state) || run.guidance.value.state == "pending" || run.guidance.value.state == "unknown"
  {
    assert Validates(run, log[|log| - 1]);
  }

  lemma PostedWell(run: Run, log: seq<Snapshot>, seal: Seal)
    requires RunWell(run, log, 0, seal) && run.attempted
    ensures RunWell(run, log, 1, seal)
  {
  }
}
