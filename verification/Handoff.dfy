/** One continuation handoff: its durable phases, the target workspace, and the helper's native session.
  *
  * Every store write is atomic and may fail without effect, or happen and be reported as failed. A helper
  * call takes effect before it answers or is reported lost; its answers are true. After a crash nothing
  * more happens in that pass. Calls are serialized by the controller's mutex.
  */
module Handoff {
  import opened Options

  /** Whether the target workspace is created for the handoff, or is an accepted restore. */
  datatype Mode = Allocate | AcceptedRestore

  /** `target`: the selection of the target workspace, allocated for the operation or restored earlier. */
  datatype Manifest = Manifest(operation: string, mode: Mode, target: string)

  datatype Phase = Allocating | Materializing | WorkspaceRegistered | RecoveryRequired | Ready

  /** A ready report: the target workspace and the native session it was prepared in. */
  datatype Report = Report(selection: string, session: string)

  datatype Record = Record(manifest: Manifest, phase: Phase, selection: string, report: Option<Report>)

  /** The helper's session record for the operation. */
  datatype Session = NoSession | Prepared(report: Report) | Consumed(report: Report) | Released(report: Report)

  datatype Project = Unallocated | Allocated | Registered

  datatype Content = Blank | Partial | Full

  datatype Answer = Missing | Found(report: Report) | Unknown

  // ---------------------------------------------------------------- what holds between any two effects

  /** The native session: at most one was ever created, and none before the first preparation was sent. */
  ghost predicate SessionSound(session: Session, prepares: nat, created: nat, manifest: Manifest) {
    created <= 1
    && (session.NoSession? <==> created == 0)
    && (prepares == 0 ==> created == 0)
    && (!session.NoSession? ==> session.report.selection == manifest.target)
  }

  /** Phases up to materializing prove that no preparation was sent; later ones that the workspace is done. */
  ghost predicate RecordSound(record: Option<Record>, prepares: nat, session: Session, project: Project,
                              content: Content, manifest: Manifest)
  {
    match record
    case None => prepares == 0
    case Some(r) =>
      && r.manifest == manifest
      && (r.phase.Allocating? || r.phase.Materializing? ==> prepares == 0)
      && r.selection == (if r.phase.Allocating? then "" else manifest.target)
      && (r.report.Some? <==> r.phase.Ready?)
      && (r.report.Some? ==> !session.NoSession? && r.report.value == session.report)
      && (manifest.mode.Allocate? && r.phase.Materializing? ==> !project.Unallocated?)
      && (manifest.mode.Allocate? && !r.phase.Allocating? && !r.phase.Materializing? ==>
           project.Registered? && content.Full?)
  }

  /** A mapped source and a release presuppose the ready report; a finished release, a released session. */
  ghost predicate OutcomeSound(record: Option<Record>, source: Option<string>, release: Option<bool>, session: Session) {
    && (source.Some? ==> record.Some? && record.value.report.Some? && source.value == record.value.report.value.session)
    && (release.Some? ==> record.Some? && record.value.report.Some?)
    && (release == Some(true) ==> session.Released?)
  }

  lemma PhaseSound(record: Option<Record>, prepares: nat, session: Session, project: Project, content: Content, manifest: Manifest,
                   source: Option<string>, release: Option<bool>, phase: Phase)
    requires RecordSound(record, prepares, session, project, content, manifest) && OutcomeSound(record, source, release, session)
    requires phase.Materializing? || phase.WorkspaceRegistered? || phase.RecoveryRequired?
    requires phase.Materializing? ==> prepares == 0 && (manifest.mode.Allocate? ==> !project.Unallocated?)
    requires !phase.Materializing? ==> manifest.mode.Allocate? ==> project.Registered? && content.Full?
    ensures record.Some? && record.value.report.None? ==>
      var next := Some(record.value.(phase := phase, selection := manifest.target));
      RecordSound(next, prepares, session, project, content, manifest) && OutcomeSound(next, source, release, session)
    ensures record.Some? ==> record.value.selection in {"", manifest.target}
  {
  }

  lemma ReportSound(record: Option<Record>, prepares: nat, session: Session, project: Project, content: Content, manifest: Manifest,
                    source: Option<string>, release: Option<bool>, report: Report)
    requires RecordSound(record, prepares, session, project, content, manifest) && OutcomeSound(record, source, release, session)
    requires record.Some? && session == Prepared(report) && (manifest.mode.Allocate? ==> project.Registered? && content.Full?)
    ensures record.value.report.None? ==>
      var next := Some(Record(manifest, Ready, manifest.target, Some(report)));
      RecordSound(next, prepares, session, project, content, manifest) && OutcomeSound(next, source, release, session)
      && OutcomeSound(next, Some(report.session), release, session)
    ensures record.value.report == Some(report) ==> OutcomeSound(record, Some(report.session), release, session)
    ensures record.value.report.Some? && source.Some? ==> source.value == record.value.report.value.session
    ensures record.value.report.None? ==> source.None?
  {
  }

  // ---------------------------------------------------------------- states with no way out

  /** What recovery needs of the record, the session and the destination. */
  predicate Hopeful(r: Record, session: Session, content: Content) {
    if r.manifest.mode.Allocate? && r.phase.Materializing? then !content.Partial? && session.NoSession?
    else if r.manifest.mode.Allocate? && r.phase.RecoveryRequired? then session.NoSession? || session.Prepared?
    else !r.phase.Allocating? && session.Prepared?
  }

  /** What recovery needs of everything else. */
  datatype Around = Around(sourceCurrent: bool, sourceKnown: bool, checkpointRetained: bool, targetReady: bool, claimed: bool)

  predicate Favourable(r: Record, around: Around) {
    !around.claimed && around.targetReady
    && (if r.manifest.mode.Allocate? && r.phase.Materializing? then around.checkpointRetained && around.sourceKnown
        else (r.manifest.mode.Allocate? && r.phase.RecoveryRequired?) || (around.sourceCurrent && around.checkpointRetained))
  }

  /** An undisturbed recovery completes this unfinished preparation. */
  predicate Completes(record: Option<Record>, session: Session, content: Content, around: Around) {
    record.Some? && record.value.report.None?
    && Hopeful(record.value, session, content) && Favourable(record.value, around)
  }

  /** The same by mode and phase. */
  lemma CompletesMeans(record: Option<Record>, session: Session, content: Content, around: Around)
    requires record.Some? && record.value.report.None?
    ensures Completes(record, session, content, around) <==>
      && !around.claimed && around.targetReady
      && match (record.value.manifest.mode, record.value.phase)
         case (_, Allocating) => false
         case (Allocate, Materializing) =>
           session.NoSession? && content != Partial && around.sourceKnown && around.checkpointRetained
         case (Allocate, RecoveryRequired) => session.NoSession? || session.Prepared?
         case _ => session.Prepared? && around.sourceCurrent && around.checkpointRetained
  {
  }

  /** Unfinished for good: a session that was never made and cannot be, or one that was used up first. */
  predicate NoWayOut(record: Option<Record>, session: Session, content: Content) {
    record.Some? && record.value.report.None? && !Hopeful(record.value, session, content)
  }

  /** Without a way out are exactly the unfinished preparations that no surroundings let recovery complete. */
  lemma NoWayOutExactly(record: Option<Record>, session: Session, content: Content)
    requires record.Some? && record.value.report.None?
    ensures NoWayOut(record, session, content) <==> forall around :: !Completes(record, session, content, around)
  {
    if Hopeful(record.value, session, content) {
      assert Completes(record, session, content, Around(true, true, true, true, false));
    }
  }

  /** Every unfinished phase has such a state, but the one whose recovery prepares again; a registered workspace
    * has it whether or not its preparation was sent. */
  lemma StuckInEveryPhase(manifest: Manifest, phase: Phase, prepares: nat)
    requires !phase.Ready? && !(manifest.mode.Allocate? && phase.RecoveryRequired?)
    requires phase.Allocating? || phase.Materializing? ==> prepares == 0
    ensures
      var record := Some(Record(manifest, phase, if phase.Allocating? then "" else manifest.target, None));
      var project := if phase.Allocating? then Unallocated else if phase.Materializing? then Allocated else Registered;
      var content := if phase.Allocating? then Blank else if phase.Materializing? then Partial else Full;
      SessionSound(NoSession, prepares, 0, manifest) && RecordSound(record, prepares, NoSession, project, content, manifest)
      && OutcomeSound(record, None, None, NoSession) && NoWayOut(record, NoSession, content)
  {
  }

  /** The work used its session up before the report was published. */
  lemma UsedUpFirst(manifest: Manifest, name: string, phase: Phase)
    requires phase.WorkspaceRegistered? || phase.RecoveryRequired?
    ensures
      var session := Consumed(Report(manifest.target, name));
      var record := Some(Record(manifest, phase, manifest.target, None));
      SessionSound(session, 1, 1, manifest) && RecordSound(record, 1, session, Registered, Full, manifest)
      && OutcomeSound(record, None, None, session) && NoWayOut(record, session, Full)
  {
  }

  /** A release was recorded, and the session is not released: sent and lost, or never sent. */
  ghost predicate ReleaseLost(release: Option<bool>, session: Session) {
    release == Some(false) && !session.Released?
  }

  /** A published handoff whose release was recorded but did not reach the helper. */
  lemma ReleaseCanBeLost(manifest: Manifest, name: string)
    ensures
      var report := Report(manifest.target, name);
      var record := Some(Record(manifest, Ready, manifest.target, Some(report)));
      SessionSound(Prepared(report), 1, 1, manifest)
      && RecordSound(record, 1, Prepared(report), Registered, Full, manifest)
      && OutcomeSound(record, Some(name), Some(false), Prepared(report)) && ReleaseLost(Some(false), Prepared(report))
  {
  }

  class Controller {
    const manifest: Manifest
    var record: Option<Record>
    var project: Project
    var content: Content
    var source: Option<string>
    var release: Option<bool>
    // The helper, and what is true of the surroundings; neither is the controller's to write.
    var session: Session
    var sourceCurrent: bool
    var sourceKnown: bool
    var checkpointRetained: bool
    var targetReady: bool
    var restoreReady: bool
    var claimed: bool
    // The pass.
    var alive: bool
    ghost var smooth: bool
    // No write of the handoff's row has failed.
    ghost var storing: bool
    ghost var prepares: nat
    ghost var created: nat
    ghost var releases: nat

    constructor (manifest: Manifest)
      requires manifest.target != ""
      ensures Valid() && this.manifest == manifest && record.None? && prepares == 0
    {
      this.manifest := manifest;
      record, project, content, source, release, session := None, Unallocated, Blank, None, None, NoSession;
      sourceCurrent, sourceKnown, checkpointRetained, targetReady := true, true, true, true;
      restoreReady, claimed, alive, smooth, storing, prepares, created, releases := true, false, true, true, true, 0, 0, 0;
    }

    ghost predicate Valid()
      reads this`record, this`project, this`content, this`source, this`release, this`session
      reads this`prepares, this`created, this`releases
    {
      manifest.target != ""
      && SessionSound(session, prepares, created, manifest)
      && RecordSound(record, prepares, session, project, content, manifest)
      && OutcomeSound(record, source, release, session)
      && (release.None? ==> releases == 0) && releases <= 1
    }

    ghost predicate Phased(phase: Phase)
      reads this`record
    {
      record.Some? && record.value.phase == phase
    }

    // ------------------------------------------------------------ effects

    /** The process may stop before any effect. */
    method Proceed() returns (going: bool)
      modifies this`alive, this`smooth
      ensures going == alive && (alive ==> old(alive))
      ensures smooth ==> old(smooth) && alive == old(alive)
    {
      var stop: bool := *;
      if stop && alive {
        alive, smooth := false, false;
      }
      going := alive;
    }

    method PutPreparation() returns (ok: bool)
      requires Valid() && record.None?
      modifies this`record, this`alive, this`smooth
      ensures Valid() && (record.None? || record == Some(Record(manifest, Allocating, "", None)))
      ensures ok ==> record.Some?
      ensures smooth ==> old(smooth) && alive == old(alive) && (alive ==> ok)
    {
      var stored: bool := *;
      var heard: bool := *;
      var going := Proceed();
      if !going || !stored {
        smooth := smooth && !going;
        return false;
      }
      record := Some(Record(manifest, Allocating, "", None));
      smooth := smooth && heard;
      return heard;
    }

    /** Refuses a phase for a finished record or another selection. */
    method SetPhase(phase: Phase, selection: string) returns (ok: bool)
      requires Valid() && selection == manifest.target && (phase.Materializing? || phase.WorkspaceRegistered? || phase.RecoveryRequired?)
      requires phase.Materializing? ==> prepares == 0 && (manifest.mode.Allocate? ==> !project.Unallocated?)
      requires !phase.Materializing? ==> manifest.mode.Allocate? ==> project.Registered? && content.Full?
      modifies this`record, this`alive, this`smooth, this`storing
      ensures Valid() && (record == old(record) || Phased(phase))
      ensures record != old(record) ==> old(record).Some? && record == Some(old(record).value.(phase := phase, selection := selection))
      ensures ok ==> Phased(phase)
      ensures smooth ==> old(smooth) && alive == old(alive)
      ensures smooth && alive && old(record).Some? && old(record).value.report.None? ==> ok
      ensures storing ==> old(storing)
      ensures storing && alive && old(record).Some? && old(record).value.report.None? ==> Phased(phase)
      ensures alive ==> old(alive)
    {
      PhaseSound(record, prepares, session, project, content, manifest, source, release, phase);
      hide RecordSound, OutcomeSound, SessionSound;
      if record.None? || record.value.report.Some? || (record.value.selection != "" && record.value.selection != selection) {
        return false;
      }
      var stored: bool := *;
      var heard: bool := *;
      var going := Proceed();
      storing := storing && (stored || !going);
      if !going || !stored {
        smooth := smooth && !going;
        return false;
      }
      record := Some(record.value.(phase := phase, selection := selection));
      smooth := smooth && heard;
      return heard;
    }

    method AllocateHandoff() returns (ok: bool)
      requires Valid() && manifest.mode.Allocate?
      modifies this`project, this`alive, this`smooth
      ensures Valid() && (project == old(project) || (old(project).Unallocated? && project.Allocated?))
      ensures ok ==> !project.Unallocated?
      ensures smooth ==> old(smooth) && alive == old(alive) && (alive ==> ok)
    {
      var done: bool := *;
      var heard: bool := *;
      var going := Proceed();
      if !going || !done {
        smooth := smooth && !going;
        return false;
      }
      if project.Unallocated? {
        project := Allocated;
      }
      smooth := smooth && heard;
      return heard;
    }

    /** Fills an empty destination or accepts a complete one; a half-filled one is refused for good. */
    method MaterializeNew() returns (ok: bool)
      requires Valid()
      modifies this`content, this`alive, this`smooth
      ensures Valid() && (content == old(content) || old(content).Blank?)
      ensures ok ==> content.Full?
      ensures smooth ==> old(smooth) && alive == old(alive) && (alive && !old(content).Partial? ==> ok)
    {
      var heard: bool := *;
      var reached: Content := *;
      var going := Proceed();
      if !going {
        return false;
      }
      if content.Blank? {
        content := reached;
        smooth := smooth && content.Full?;
      }
      smooth := smooth && (content.Partial? || heard);
      return content.Full? && heard;
    }

    method CompleteHandoff() returns (ok: bool)
      requires Valid() && !project.Unallocated? && content.Full?
      modifies this`project, this`alive, this`smooth
      ensures Valid() && (project == old(project) || project.Registered?)
      ensures ok ==> project.Registered?
      ensures smooth ==> old(smooth) && alive == old(alive) && (alive ==> ok)
    {
      var done: bool := *;
      var heard: bool := *;
      var going := Proceed();
      if !going || !done {
        smooth := smooth && !going;
        return false;
      }
      project := Registered;
      smooth := smooth && heard;
      return heard;
    }

    /** A call with no lasting effect here: verification of the tree, registration with the supervisor. */
    method Call() returns (ok: bool)
      modifies this`alive, this`smooth
      ensures ok ==> alive
      ensures smooth ==> old(smooth) && alive == old(alive) && (alive ==> ok)
    {
      var done: bool := *;
      var going := Proceed();
      smooth := smooth && (done || !going);
      return going && done;
    }

    /** `prepare_handoff`: may be sent only while the helper holds no session for the operation. */
    method Prepare() returns (answer: Answer)
      requires Valid() && session.NoSession? && Phased(WorkspaceRegistered)
      modifies this`session, this`alive, this`smooth, this`prepares, this`created
      ensures Valid() && old(prepares) <= prepares <= old(prepares) + 1
      ensures answer.Found? ==> session == Prepared(answer.report)
      ensures session.NoSession? || session.Prepared?
      ensures smooth ==> old(smooth) && alive == old(alive) && (alive ==> answer.Found?)
    {
      var sent: bool := *;
      var made: bool := *;
      var heard: bool := *;
      var name: string := *;
      var going := Proceed();
      if !going || !sent {
        smooth := smooth && !going;
        return Unknown;
      }
      prepares := prepares + 1;
      if made {
        session, created := Prepared(Report(manifest.target, name)), created + 1;
      }
      smooth := smooth && made && heard;
      if made && heard {
        return Found(session.report);
      }
      return Unknown;
    }

    /** `reconcile_handoff`: says that there is no session, or shows a prepared one, or nothing certain. */
    method Reconcile() returns (answer: Answer)
      requires Valid()
      modifies this`alive, this`smooth
      ensures Valid()
      ensures answer.Missing? ==> session.NoSession?
      ensures answer.Found? ==> session == Prepared(answer.report)
      ensures smooth ==> old(smooth) && alive == old(alive)
      ensures smooth && alive && session.NoSession? ==> answer.Missing?
      ensures smooth && alive && session.Prepared? ==> answer.Found?
    {
      var heard: bool := *;
      var going := Proceed();
      if !going || !heard {
        smooth := smooth && !going;
        return Unknown;
      }
      if session.NoSession? {
        return Missing;
      }
      if session.Prepared? {
        return Found(session.report);
      }
      return Unknown;
    }

    // ------------------------------------------------------------ the controller

    ghost predicate WorkspaceDone()
      reads this
    {
      manifest.mode.Allocate? ==> project.Registered? && content.Full?
    }

    /** The report is durable, its session is prepared and the mapped source is registered. */
    ghost predicate Published()
      reads this
    {
      record.Some? && record.value.report.Some?
      && session == Prepared(record.value.report.value) && source == Some(record.value.report.value.session)
    }

    ghost predicate Unfinished()
      reads this`record
    {
      record.Some? && record.value.report.None?
    }

    /** Completes the row with the report, unless its target or source is claimed. */
    method CompleteReport(report: Report) returns (ok: bool)
      requires Valid() && Unfinished() && session == Prepared(report) && WorkspaceDone()
      modifies this`record, this`alive, this`smooth, this`storing
      ensures Valid() && (record == old(record) || (record.Some? && record.value.report == Some(report)))
      ensures ok ==> !claimed && record.Some? && record.value.report == Some(report)
      ensures storing ==> old(storing)
      ensures storing && alive && !claimed ==> record.value.report.Some?
      ensures alive ==> old(alive)
      ensures smooth ==> old(smooth) && alive == old(alive) && (alive && !claimed ==> ok)
    {
      ReportSound(record, prepares, session, project, content, manifest, source, release, report);
      hide RecordSound, OutcomeSound, SessionSound;
      if claimed {
        return false;
      }
      var stored: bool := *;
      var heard: bool := *;
      var going := Proceed();
      storing := storing && (stored || !going);
      if !going || !stored {
        smooth := smooth && !going;
        return false;
      }
      record := Some(Record(manifest, Ready, manifest.target, Some(report)));
      smooth := smooth && heard;
      return heard;
    }

    /** Completes the row with the report, then registers the mapped source. */
    method PublishHandoffReady(report: Report) returns (ok: bool)
      requires Valid() && record.Some? && session == Prepared(report) && WorkspaceDone()
      requires record.value.report.None? || record.value.report == Some(report)
      modifies this`record, this`source, this`alive, this`smooth, this`storing
      ensures Valid() && (record == old(record) || (record.Some? && record.value.report == Some(report)))
      ensures ok ==> Published() && (old(record).value.report.None? ==> !claimed)
      ensures storing ==> old(storing)
      ensures storing && alive && !claimed ==> record.value.report.Some?
      ensures alive ==> old(alive)
      ensures smooth ==> old(smooth) && alive == old(alive) && (alive && (!claimed || old(record).value.report.Some?) ==> ok)
    {
      ReportSound(record, prepares, session, project, content, manifest, source, release, report);
      if record.value.report.None? {
        ok := CompleteReport(report);
        if !ok {
          return;
        }
      }
      ReportSound(record, prepares, session, project, content, manifest, source, release, report);
      hide RecordSound, OutcomeSound, SessionSound;
      if source.Some? {
        return true;
      }
      var stored: bool := *;
      var heard: bool := *;
      var going := Proceed();
      if !going || !stored {
        smooth := smooth && !going;
        return false;
      }
      source := Some(report.session);
      smooth := smooth && heard;
      return heard;
    }

    /** A half-filled destination is never completed; a restored workspace must still be the accepted one. */
    predicate Realizable()
      reads this`content, this`restoreReady
    {
      if manifest.mode.Allocate? then !content.Partial? else restoreReady
    }

    /** Makes the target workspace exist with the checkpoint's content, or finds the restored one. */
    method RealizeHandoffWorkspace() returns (ok: bool)
      requires Valid() && Unfinished() && (Phased(Allocating) || Phased(Materializing))
      modifies this`record, this`project, this`content, this`alive, this`smooth, this`storing
      ensures Valid() && (record == old(record) || Phased(Materializing))
      ensures ok ==> Unfinished() && Phased(Materializing) && WorkspaceDone()
      ensures ok ==> old(Realizable())
      ensures old(content).Partial? ==> content.Partial?
      ensures smooth ==> old(smooth) && alive == old(alive)
      ensures smooth && alive && old(Realizable()) ==> ok
      ensures prepares == old(prepares)
    {
      if manifest.mode.AcceptedRestore? {
        if !restoreReady {
          return false;
        }
        ok := Call();
        if !ok {
          return false;
        }
        ok := SetPhase(Materializing, manifest.target);
        return;
      }
      ok := AllocateHandoff();
      if !ok {
        return false;
      }
      ok := SetPhase(Materializing, manifest.target);
      if !ok {
        return false;
      }
      ok := MaterializeNew();
      if !ok {
        return false;
      }
      ok := CompleteHandoff();
      if !ok {
        return false;
      }
      ok := Call();
    }

    /** Registers the workspace, sends the one preparation, and publishes what it reports. */
    method CompleteHandoffWorkspace() returns (ok: bool)
      requires Valid() && Unfinished() && session.NoSession? && WorkspaceDone()
      modifies this`record, this`source, this`session, this`prepares, this`created, this`alive, this`smooth, this`storing
      ensures Valid()
      ensures ok ==> Published() && !claimed
      ensures old(prepares) <= prepares <= old(prepares) + 1
      ensures record == old(record) || Phased(WorkspaceRegistered) || Phased(RecoveryRequired) || Phased(Ready)
      ensures smooth ==> old(smooth) && alive == old(alive) && (alive && !claimed ==> ok)
      // If no write of the row fails, a preparation that was sent ends ready or as recovery_required.
      ensures storing && alive && !claimed && prepares > old(prepares) ==> Phased(RecoveryRequired) || Phased(Ready)
    {
      ok := SetPhase(WorkspaceRegistered, manifest.target);
      if !ok {
        return false;
      }
      ok := Call();
      if !ok {
        return false;
      }
      var answer := Prepare();
      if !answer.Found? {
        var noted := SetPhase(RecoveryRequired, manifest.target);
        return false;
      }
      ok := PublishHandoffReady(answer.report);
    }

    /** At most one preparation was sent, and none to a helper that already held a session. */
    ghost predicate SentOnlyWithout(before: Session, count: nat)
      reads this`prepares
    {
      prepares == count || (prepares == count + 1 && before.NoSession?)
    }

    /** Exactly when a recovery without faults completes an unfinished preparation. */
    predicate Recoverable()
      reads this
    {
      Completes(record, session, content, Around(sourceCurrent, sourceKnown, checkpointRetained, targetReady, claimed))
    }

    method RecoverMaterializedHandoff() returns (ok: bool)
      requires Valid() && Unfinished() && Phased(Materializing) && manifest.mode.Allocate?
      modifies this`record, this`project, this`content, this`source, this`session, this`prepares, this`created, this`alive, this`smooth, this`storing
      ensures Valid() && SentOnlyWithout(old(session), old(prepares))
      ensures ok ==> Published() && old(Recoverable())
      ensures old(content).Partial? ==> record == old(record) && content.Partial? && session == old(session)
      ensures smooth ==> old(smooth) && (alive && old(Recoverable()) ==> ok)
      // If no write of the row fails, a preparation that was sent ends ready or as recovery_required.
      ensures storing && alive && !claimed && prepares > old(prepares) ==> Phased(RecoveryRequired) || Phased(Ready)
    {
      if !targetReady || !checkpointRetained || !sourceKnown {
        return false;
      }
      ok := RealizeHandoffWorkspace();
      if ok {
        ok := CompleteHandoffWorkspace();
      }
    }

    method RecoverRegisteredHandoff() returns (ok: bool)
      requires Valid() && Unfinished() && Phased(RecoveryRequired) && manifest.mode.Allocate?
      modifies this`record, this`source, this`session, this`prepares, this`created, this`alive, this`smooth, this`storing
      ensures Valid() && SentOnlyWithout(old(session), old(prepares))
      ensures ok ==> Published() && old(Recoverable())
      ensures !old(session).NoSession? && !old(session).Prepared? ==>
        !ok && record == old(record) && session == old(session) && prepares == old(prepares)
      ensures smooth ==> old(smooth) && (alive && old(Recoverable()) ==> ok)
      // If no write of the row fails, a preparation that was sent ends ready or as recovery_required.
      ensures storing && alive && !claimed && prepares > old(prepares) ==> Phased(RecoveryRequired) || Phased(Ready)
    {
      if !targetReady {
        return false;
      }
      var answer := Reconcile();
      match answer
      case Missing => ok := CompleteHandoffWorkspace();
      case Unknown => ok := false;
      case Found(report) => ok := PublishHandoffReady(report);
    }

    method RecoverHandoff() returns (ok: bool)
      requires Valid() && Unfinished()
      modifies this`record, this`project, this`content, this`source, this`session, this`prepares, this`created, this`alive, this`smooth, this`storing
      ensures Valid() && SentOnlyWithout(old(session), old(prepares))
      ensures ok ==> Published() && old(Recoverable())
      ensures smooth ==> old(smooth) && (alive && old(Recoverable()) ==> ok)
      // By mode and phase: what an undisturbed recovery needs.
      ensures smooth && alive ==>
        (ok <==>
          && !claimed && targetReady
          && match (manifest.mode, old(record).value.phase)
             case (_, Allocating) => false
             case (Allocate, Materializing) =>
               old(session).NoSession? && old(content) != Partial && sourceKnown && checkpointRetained
             case (Allocate, RecoveryRequired) => old(session).NoSession? || old(session).Prepared?
             case _ => old(session).Prepared? && sourceCurrent && checkpointRetained)
      ensures old(Phased(Allocating)) || old(Phased(WorkspaceRegistered)) ==> prepares == old(prepares)
      ensures old(NoWayOut(record, session, content)) ==>
        !ok && NoWayOut(record, session, content) && record == old(record) && prepares == old(prepares)
      // If no write of the row fails, a preparation that was sent ends ready or as recovery_required.
      ensures storing && alive && !claimed && prepares > old(prepares) ==> Phased(RecoveryRequired) || Phased(Ready)
    {
      CompletesMeans(record, session, content, Around(sourceCurrent, sourceKnown, checkpointRetained, targetReady, claimed));
      if record.value.phase.Materializing? && record.value.selection != "" && manifest.mode.Allocate? {
        ok := RecoverMaterializedHandoff();
        return;
      }
      if record.value.phase.RecoveryRequired? && record.value.selection != "" && manifest.mode.Allocate? {
        ok := RecoverRegisteredHandoff();
        return;
      }
      if !sourceCurrent || !checkpointRetained || !targetReady {
        return false;
      }
      if record.value.selection == "" {
        return false;
      }
      var answer := Reconcile();
      if !answer.Found? {
        return false;
      }
      ok := PublishHandoffReady(answer.report);
    }

    /** A first application prepares the handoff; a repeated one recovers it, or finds it done. */
    method ApplyHandoff(given: Manifest) returns (ok: bool)
      requires Valid()
      modifies this`record, this`project, this`content, this`source, this`session, this`prepares, this`created, this`alive, this`smooth, this`storing
      ensures Valid() && SentOnlyWithout(old(session), old(prepares))
      ensures ok ==> given == manifest && record.Some? && record.value.report.Some?
      ensures ok && (old(record).None? || old(record).value.report.None?) ==> Published()
      ensures ok && old(Unfinished()) ==> old(Recoverable())
      ensures smooth && alive && given == manifest && old(Unfinished()) ==> (ok <==> old(Recoverable()))
      ensures smooth && alive && given == manifest && old(record).None? ==>
        (ok <==> sourceCurrent && checkpointRetained && targetReady && !claimed
                 && if manifest.mode.Allocate? then old(content) != Partial else restoreReady)
      ensures old(record).Some? && old(record).value.report.Some? ==>
        record == old(record) && session == old(session) && (ok <==> given == manifest)
      ensures old(NoWayOut(record, session, content)) ==>
        !ok && NoWayOut(record, session, content) && record == old(record) && prepares == old(prepares)
      // If no write of the row fails, a preparation that was sent ends ready or as recovery_required.
      ensures storing && alive && !claimed && prepares > old(prepares) ==> Phased(RecoveryRequired) || Phased(Ready)
    {
      if given != manifest {
        return false;
      }
      if record.Some? {
        if record.value.report.Some? {
          return true;
        }
        ok := RecoverHandoff();
        return;
      }
      if !sourceCurrent || !checkpointRetained || !targetReady {
        return false;
      }
      ok := PutPreparation();
      if !ok {
        return false;
      }
      ok := RealizeHandoffWorkspace();
      if !ok {
        return false;
      }
      ok := CompleteHandoffWorkspace();
    }

    /** A pass over a finished preparation probes both sessions again, then publishes the stored report. */
    method RecoverReady() returns (ok: bool)
      requires Valid() && record.Some? && record.value.report.Some?
      modifies this`record, this`source, this`alive, this`smooth, this`storing
      ensures Valid() && record == old(record)
      ensures ok ==> Published()
      ensures smooth ==> old(smooth) && (alive && session.Prepared? ==> ok)
    {
      ok := Call();
      if !ok {
        return false;
      }
      var answer := Reconcile();
      if !answer.Found? {
        return false;
      }
      ok := PublishHandoffReady(record.value.report.value);
    }

    // ------------------------------------------------------------ release

    method PutRelease() returns (ok: bool)
      requires Valid() && release.None? && record.Some? && record.value.report.Some?
      modifies this`release, this`alive, this`smooth
      ensures Valid() && (release.None? || release == Some(false))
      ensures ok ==> release == Some(false)
      ensures smooth ==> old(smooth) && alive == old(alive) && (alive ==> ok)
    {
      var stored: bool := *;
      var heard: bool := *;
      var going := Proceed();
      if !going || !stored {
        smooth := smooth && !going;
        return false;
      }
      release := Some(false);
      smooth := smooth && heard;
      return heard;
    }

    /** `release_handoff`: releases a prepared session; a consumed one stays consumed. */
    method SendRelease() returns (released: bool)
      requires Valid() && release == Some(false) && releases == 0
      modifies this`session, this`releases, this`alive, this`smooth
      ensures Valid()
      ensures released ==> session.Released?
      ensures session == old(session) || (old(session).Prepared? && session == Released(old(session).report))
      ensures smooth ==> old(smooth) && alive == old(alive) && (alive && !old(session).Consumed? ==> released)
    {
      var sent: bool := *;
      var heard: bool := *;
      var going := Proceed();
      if !going || !sent {
        smooth := smooth && !going;
        return false;
      }
      releases := releases + 1;
      if session.Prepared? {
        session := Released(session.report);
      }
      smooth := smooth && heard;
      return heard && session.Released?;
    }

    method SeesReleased() returns (released: bool)
      requires Valid()
      modifies this`alive, this`smooth
      ensures Valid()
      ensures released ==> session.Released?
      ensures smooth ==> old(smooth) && alive == old(alive) && (alive ==> (released <==> session.Released?))
    {
      var heard: bool := *;
      var going := Proceed();
      smooth := smooth && (heard || !going);
      return going && heard && session.Released?;
    }

    /** Only an envelope that shows the session released completes the release. */
    method CompleteRelease() returns (ok: bool)
      requires Valid() && release.Some? && session.Released?
      modifies this`release, this`alive, this`smooth
      ensures Valid() && (release == old(release) || release == Some(true))
      ensures ok ==> release == Some(true)
      ensures smooth ==> old(smooth) && alive == old(alive) && (alive ==> ok)
    {
      var stored: bool := *;
      var heard: bool := *;
      var going := Proceed();
      if !going || !stored {
        smooth := smooth && !going;
        return false;
      }
      release := Some(true);
      smooth := smooth && heard;
      return heard;
    }

    method ApplyRelease() returns (ok: bool)
      requires Valid()
      modifies this`release, this`session, this`releases, this`alive, this`smooth
      ensures Valid()
      ensures ok ==> release == Some(true) && session.Released?
      ensures session == old(session) || (old(session).Prepared? && session.Released?)
      ensures old(release).Some? ==> releases == old(releases) && session == old(session)
      ensures old(ReleaseLost(release, session)) ==> !ok && release == old(release)
      ensures old(record).None? || old(record).value.report.None? ==> !ok
      ensures smooth && alive && old(release).None? && record.Some? && record.value.report.Some? ==>
        (ok <==> !old(session).Consumed?)
    {
      if release.Some? {
        if release.value {
          return true;
        }
        ok := RecoverRelease();
        return;
      }
      if record.None? || record.value.report.None? {
        return false;
      }
      ok := PutRelease();
      if !ok {
        return false;
      }
      var released := SendRelease();
      if !released {
        return false;
      }
      ok := CompleteRelease();
    }

    /** Recovery of a release only looks: it finishes exactly when the helper shows the session released. */
    method RecoverRelease() returns (ok: bool)
      requires Valid() && release == Some(false)
      modifies this`release, this`alive, this`smooth
      ensures Valid()
      ensures ok ==> release == Some(true) && session.Released?
      ensures !session.Released? ==> release == old(release)
      ensures smooth ==> old(smooth) && (alive ==> (ok <==> session.Released?))
    {
      var released := SeesReleased();
      if !released {
        return false;
      }
      ok := CompleteRelease();
    }

    // ------------------------------------------------------------ histories

    /** The surroundings change as they like. */
    method Surroundings()
      requires Valid()
      modifies this`sourceCurrent, this`sourceKnown, this`checkpointRetained, this`targetReady, this`restoreReady, this`claimed
      ensures Valid()
    {
      hide SessionSound, RecordSound, OutcomeSound;
      sourceCurrent, sourceKnown, checkpointRetained := *, *, *;
      targetReady, restoreReady, claimed := *, *, *;
    }

    /** The work in a prepared session may consume it. */
    method Consume()
      requires Valid()
      modifies this`session
      ensures Valid()
      ensures session == old(session) || (old(session).Prepared? && session == Consumed(old(session).report))
    {
      if session.Prepared? {
        session := Consumed(session.report);
      }
    }

    /** One pass of the controller, or a step of the work in the session. */
    method Pass()
      requires Valid()
      modifies this
      ensures Valid()
      ensures old(record).Some? && old(record).value.report.Some? ==> record == old(record)
      ensures old(NoWayOut(record, session, content)) ==>
        NoWayOut(record, session, content) && record == old(record) && prepares == old(prepares)
      ensures old(ReleaseLost(release, session)) ==> ReleaseLost(release, session) && releases == old(releases)
    {
      hide SessionSound, RecordSound;
      Surroundings();
      alive := true;
      var kind: nat := *;
      var given: Manifest := *;
      var ok: bool;
      if kind == 0 {
        ok := ApplyHandoff(given);
      } else if kind == 1 && record.Some? {
        if record.value.report.Some? {
          ok := RecoverReady();
        } else {
          ok := RecoverHandoff();
        }
      } else if kind == 2 {
        ok := ApplyRelease();
      } else if kind == 3 && release == Some(false) {
        ok := RecoverRelease();
      } else {
        Consume();
      }
    }

    /** Any passes in any order, each cut short anywhere. */
    method History(passes: nat)
      requires Valid()
      modifies this
      ensures Valid()
      ensures created <= 1 && releases <= 1
      ensures Phased(Allocating) || Phased(Materializing) ==> prepares == 0 && session.NoSession?
      ensures release == Some(true) ==> session.Released?
      ensures old(record).Some? && old(record).value.report.Some? ==> record == old(record)
      ensures old(NoWayOut(record, session, content)) ==>
        NoWayOut(record, session, content) && record == old(record) && prepares == old(prepares)
      ensures old(ReleaseLost(release, session)) ==> ReleaseLost(release, session) && releases == old(releases)
    {
      for i := 0 to passes
        invariant Valid()
        invariant old(record).Some? && old(record).value.report.Some? ==> record == old(record)
        invariant old(NoWayOut(record, session, content)) ==>
          NoWayOut(record, session, content) && record == old(record) && prepares == old(prepares)
        invariant old(ReleaseLost(release, session)) ==> ReleaseLost(release, session) && releases == old(releases)
      {
        Pass();
      }
    }
  }
}
