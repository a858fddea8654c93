/** One continuation: a baseline prepared at most once, and its release.
  *
  * The same assumptions as for handoffs: atomic store writes that may be lost or reported as failed,
  * helper calls that take effect before they answer or are lost and answer truly, one pass at a time.
  */
module Continuation {
  import opened Options

  /** The helper's record of the native baseline. Consumed and released are for good. */
  datatype Baseline = NoBaseline | Prepared(id: string) | Consumed(id: string) | Released(id: string)

  datatype Outcome = ReadyWith(id: string) | FailedWith(code: string)

  datatype ReleaseOutcome = ReleaseDone | ReleaseFailed(code: string)

  datatype Row<+T> = Pending | Reported(report: T)

  datatype Authority = Current | WorkspaceChanged | Stale

  datatype Reply = Granted | Refused(code: string) | NoReply

  const CONSUMED := "continuation_consumed"

  /** A baseline exists only after the one dispatch; a failed preparation was never dispatched. */
  ghost predicate PreparationSound(preparation: Option<Row<Outcome>>, baseline: Baseline, dispatched: nat) {
    dispatched <= 1
    && (!baseline.NoBaseline? ==> dispatched == 1)
    && (preparation.None? ==> dispatched == 0)
    && (preparation.Some? && preparation.value.Reported? ==>
      match preparation.value.report
      case ReadyWith(id) => !baseline.NoBaseline? && baseline.id == id
      case FailedWith(_) => dispatched == 0)
  }

  /** What a durable release outcome means for the baseline. */
  ghost predicate ReleaseSound(preparation: Option<Row<Outcome>>, release: Option<Row<ReleaseOutcome>>,
                               baseline: Baseline, refused: set<string>)
  {
    (release.Some? ==> preparation.Some? && preparation.value.Reported?)
    && (release.Some? && release.value.Reported? ==>
      match release.value.report
      case ReleaseDone => baseline.Released? || preparation.value.report.FailedWith?
      case ReleaseFailed(code) => code in refused || (code == CONSUMED && baseline.Consumed?))
  }

  /** A released continuation has a released baseline, or never had one because nothing was dispatched. */
  lemma ReleasedMeans(preparation: Option<Row<Outcome>>, release: Option<Row<ReleaseOutcome>>, baseline: Baseline,
                      dispatched: nat, refused: set<string>)
    requires PreparationSound(preparation, baseline, dispatched) && ReleaseSound(preparation, release, baseline, refused)
    requires release == Some(Reported(ReleaseDone))
    ensures baseline.Released? || (baseline.NoBaseline? && dispatched == 0)
  {
  }

  /** A pending preparation may have no baseline, its dispatch lost or never made. */
  lemma PendingWithoutBaseline(dispatched: nat)
    ensures PreparationSound(Some(Pending), NoBaseline, dispatched) <==> dispatched <= 1
    ensures ReleaseSound(Some(Pending), None, NoBaseline, {})
  {
  }

  class Controller {
    var preparation: Option<Row<Outcome>>
    var release: Option<Row<ReleaseOutcome>>
    // The helper, and what is true of the surroundings.
    var baseline: Baseline
    var authority: Authority
    var instanceKnown: bool
    // The pass.
    var alive: bool
    ghost var smooth: bool
    ghost var dispatched: nat
    ghost var refused: set<string>

    constructor ()
      ensures Valid() && preparation.None? && dispatched == 0
    {
      preparation, release, baseline, authority, instanceKnown := None, None, NoBaseline, Current, true;
      alive, smooth, dispatched, refused := true, true, 0, {};
    }

    ghost predicate Valid()
      reads this`preparation, this`release, this`baseline, this`dispatched, this`refused
    {
      PreparationSound(preparation, baseline, dispatched) && ReleaseSound(preparation, release, baseline, refused)
    }

    // ------------------------------------------------------------ effects

    /** A store write: the process may stop before it, it may not happen, or be reported as failed. */
    method Write() returns (stored: bool, heard: bool)
      modifies this`alive, this`smooth
      ensures stored ==> alive
      ensures heard ==> stored
      ensures alive ==> old(alive)
      ensures smooth ==> old(smooth) && alive == old(alive) && (alive ==> heard)
    {
      var stop: bool := *;
      stored, heard := *, *;
      if stop && alive {
        alive, smooth := false, false;
      }
      stored := stored && alive;
      heard := heard && stored;
      smooth := smooth && (heard || !alive);
    }

    method PutPreparation() returns (ok: bool)
      requires Valid() && preparation.None?
      modifies this`preparation, this`alive, this`smooth
      ensures Valid() && (preparation.None? || preparation == Some(Pending))
      ensures ok ==> preparation == Some(Pending)
      ensures smooth ==> old(smooth) && alive == old(alive) && (alive ==> ok)
    {
      var stored, heard := Write();
      if stored {
        preparation := Some(Pending);
      }
      return heard;
    }

    method CompletePreparation(outcome: Outcome) returns (ok: bool)
      requires Valid() && preparation == Some(Pending) && release.None?
      requires match outcome case ReadyWith(id) => !baseline.NoBaseline? && baseline.id == id case FailedWith(_) => dispatched == 0
      modifies this`preparation, this`alive, this`smooth
      ensures Valid() && (preparation == old(preparation) || preparation == Some(Reported(outcome)))
      ensures ok ==> preparation == Some(Reported(outcome))
      ensures smooth ==> old(smooth) && alive == old(alive) && (alive ==> ok)
    {
      var stored, heard := Write();
      if stored {
        preparation := Some(Reported(outcome));
      }
      return heard;
    }

    /** `prepare_continuation`: may be sent once in the life of the operation. */
    method SendPrepare() returns (prepared: Option<string>)
      requires Valid() && preparation == Some(Pending) && dispatched == 0
      modifies this`baseline, this`dispatched, this`alive, this`smooth
      ensures Valid()
      ensures prepared.Some? ==> baseline == Prepared(prepared.value)
      ensures smooth ==> old(smooth) && alive == old(alive) && (alive ==> prepared.Some?)
    {
      var id: string := *;
      var made: bool := *;
      var sent, heard := Write();
      if sent {
        dispatched := 1;
        if made {
          baseline := Prepared(id);
        }
      }
      smooth := smooth && (made || !sent);
      return if heard && made then Some(id) else None;
    }

    /** `reconcile_continuation`: shows the baseline, or nothing certain. */
    method Reconcile() returns (seen: Baseline)
      requires Valid()
      modifies this`alive, this`smooth
      ensures Valid()
      ensures seen == baseline || seen.NoBaseline?
      ensures smooth ==> old(smooth) && alive == old(alive) && (alive ==> seen == baseline)
    {
      var sent, heard := Write();
      return if heard then baseline else NoBaseline;
    }

    method PutRelease() returns (ok: bool)
      requires Valid() && release.None? && preparation.Some? && preparation.value.Reported?
      modifies this`release, this`alive, this`smooth
      ensures Valid() && (release.None? || release == Some(Pending))
      ensures ok ==> release == Some(Pending)
      ensures smooth ==> old(smooth) && alive == old(alive) && (alive ==> ok)
    {
      var stored, heard := Write();
      if stored {
        release := Some(Pending);
      }
      return heard;
    }

    method CompleteRelease(outcome: ReleaseOutcome) returns (ok: bool)
      requires Valid() && release == Some(Pending)
      requires ReleaseSound(preparation, Some(Reported(outcome)), baseline, refused)
      modifies this`release, this`alive, this`smooth
      ensures Valid() && (release == old(release) || release == Some(Reported(outcome)))
      ensures ok ==> release == Some(Reported(outcome))
      ensures smooth ==> old(smooth) && alive == old(alive) && (alive ==> ok)
    {
      var stored, heard := Write();
      if stored {
        release := Some(Reported(outcome));
      }
      return heard;
    }

    /** `release_continuation`: releases a prepared baseline, refuses, or loses its answer. */
    method SendRelease() returns (reply: Reply)
      requires Valid() && !baseline.NoBaseline?
      modifies this`baseline, this`refused, this`alive, this`smooth
      ensures Valid() && old(refused) <= refused
      ensures reply.Granted? ==> baseline.Released?
      ensures reply.Refused? ==> reply.code in refused && baseline == old(baseline)
      ensures baseline == old(baseline) || (old(baseline).Prepared? && baseline == Released(old(baseline).id))
      ensures smooth ==> old(smooth) && alive == old(alive) && (alive ==> !reply.NoReply?)
    {
      var code: string := *;
      var refuses: bool := *;
      var sent, heard := Write();
      if sent && baseline.Prepared? && !refuses {
        baseline := Released(baseline.id);
      }
      if !heard {
        return NoReply;
      }
      if baseline.Released? {
        return Granted;
      }
      refused := refused + {code};
      return Refused(code);
    }

    // ------------------------------------------------------------ the controller

    /** `exact`: the manifest given is the one in the row. */
    method ApplyContinuation(exact: bool) returns (ok: bool)
      requires Valid()
      modifies this`preparation, this`baseline, this`dispatched, this`alive, this`smooth
      ensures Valid() && old(dispatched) <= dispatched
      ensures ok ==> preparation.Some? && preparation.value.Reported?
      ensures old(preparation).Some? ==> dispatched == old(dispatched) && baseline == old(baseline)
      ensures old(preparation).Some? && old(preparation).value.Reported? ==> preparation == old(preparation) && (ok <==> exact)
      ensures old(preparation) == Some(Pending) && old(baseline).NoBaseline? ==> preparation == old(preparation)
      ensures smooth && alive && old(preparation).None? ==> (ok <==> !authority.Stale?)
      ensures ok && old(preparation).None? ==>
        preparation.value.report.FailedWith? == authority.WorkspaceChanged? && (dispatched == 0 <==> authority.WorkspaceChanged?)
    {
      if preparation.Some? {
        if !exact {
          return false;
        }
        if preparation.value.Reported? {
          return true;
        }
        ok := RecoverContinuation();
        return;
      }
      if authority.Stale? {
        return false;
      }
      ok := PutPreparation();
      if !ok {
        return false;
      }
      if authority.WorkspaceChanged? {
        ok := CompletePreparation(FailedWith("workspace_changed"));
        return;
      }
      var prepared := SendPrepare();
      if prepared.None? {
        return false;
      }
      ok := CompletePreparation(ReadyWith(prepared.value));
    }

    /** Recovery only looks: it finishes exactly when the helper still shows a prepared or consumed baseline. */
    method RecoverContinuation() returns (ok: bool)
      requires Valid() && preparation == Some(Pending)
      modifies this`preparation, this`alive, this`smooth
      ensures Valid() && (preparation != old(preparation) ==> !baseline.NoBaseline? && preparation == Some(Reported(ReadyWith(baseline.id))))
      ensures ok ==> preparation.value.Reported?
      ensures ok ==> authority.Current? && (baseline.Prepared? || baseline.Consumed?)
      ensures smooth ==> old(smooth) && alive == old(alive)
      ensures smooth && alive && authority.Current? && (baseline.Prepared? || baseline.Consumed?) ==> ok
    {
      if !authority.Current? {
        return false;
      }
      var seen := Reconcile();
      if !seen.Prepared? && !seen.Consumed? {
        return false;
      }
      ok := CompletePreparation(ReadyWith(seen.id));
    }

    method ApplyRelease(exact: bool) returns (ok: bool)
      requires Valid()
      modifies this`release, this`baseline, this`refused, this`alive, this`smooth
      ensures Valid()
      ensures ok ==> release.Some? && release.value.Reported?
      ensures old(release).Some? && old(release).value.Reported? ==> release == old(release) && (ok <==> exact)
      ensures baseline == old(baseline) || (old(baseline).Prepared? && baseline.Released?)
      ensures smooth && alive && old(release).None? ==>
        (ok <==> preparation.Some? && preparation.value.Reported? && (preparation.value.report.FailedWith? || instanceKnown))
    {
      if release.Some? {
        if !exact {
          return false;
        }
        if release.value.Reported? {
          return true;
        }
        ok := RecoverRelease();
        return;
      }
      if preparation.None? || preparation.value.Pending? {
        return false;
      }
      ok := PutRelease();
      if !ok {
        return false;
      }
      if preparation.value.report.FailedWith? {
        ok := CompleteRelease(ReleaseDone);
        return;
      }
      ok := DispatchRelease();
    }

    method DispatchRelease() returns (ok: bool)
      requires Valid() && release == Some(Pending) && preparation.value.report.ReadyWith?
      modifies this`release, this`baseline, this`refused, this`alive, this`smooth
      ensures Valid()
      ensures ok ==> release.Some? && release.value.Reported? && instanceKnown
      ensures baseline == old(baseline) || (old(baseline).Prepared? && baseline.Released?)
      ensures ok && release.value.report.ReleaseDone? ==> baseline.Released?
      ensures smooth ==> old(smooth) && alive == old(alive) && (alive && instanceKnown ==> ok)
    {
      if !instanceKnown {
        return false;
      }
      var reply := SendRelease();
      match reply
      case NoReply => ok := false;
      case Refused(code) => ok := CompleteRelease(ReleaseFailed(code));
      case Granted => ok := CompleteRelease(ReleaseDone);
    }

    /** Recovery ends every pending release, by what the helper shows the baseline to be. */
    method RecoverRelease() returns (ok: bool)
      requires Valid() && release == Some(Pending)
      modifies this`release, this`baseline, this`refused, this`alive, this`smooth
      ensures Valid()
      ensures ok ==> release.Some? && release.value.Reported?
      ensures baseline == old(baseline) || (old(baseline).Prepared? && baseline.Released?)
      ensures ok && old(baseline).Released? ==> release == Some(Reported(ReleaseDone))
      ensures ok && old(baseline).Consumed? ==> release == Some(Reported(ReleaseFailed(CONSUMED)))
      ensures smooth ==> old(smooth) && alive == old(alive)
      ensures smooth && alive ==> (ok <==> preparation.value.report.FailedWith? || instanceKnown)
    {
      if preparation.value.report.FailedWith? {
        ok := CompleteRelease(ReleaseDone);
        return;
      }
      if !instanceKnown {
        return false;
      }
      var seen := Reconcile();
      match seen
      case NoBaseline => ok := false;
      case Released(_) => ok := CompleteRelease(ReleaseDone);
      case Consumed(_) => ok := CompleteRelease(ReleaseFailed(CONSUMED));
      case Prepared(_) => ok := DispatchRelease();
    }

    // ------------------------------------------------------------ histories

    /** The work it was prepared for may consume a prepared baseline. */
    method Consume()
      requires Valid()
      modifies this`baseline
      ensures Valid()
      ensures baseline == old(baseline) || (old(baseline).Prepared? && baseline.Consumed?)
    {
      if baseline.Prepared? {
        baseline := Consumed(baseline.id);
      }
    }

    /** Any passes in any order, each cut short anywhere, in any surroundings. */
    method History(passes: nat)
      requires Valid()
      modifies this
      ensures Valid() && dispatched <= 1
      ensures release == Some(Reported(ReleaseDone)) ==> baseline.Released? || (baseline.NoBaseline? && dispatched == 0)
      ensures release == Some(Reported(ReleaseFailed(CONSUMED))) ==> baseline.Consumed? || CONSUMED in refused
      ensures old(release).Some? && old(release).value.Reported? ==> release == old(release)
      ensures old(baseline).Consumed? || old(baseline).Released? ==> baseline == old(baseline)
      ensures old(preparation) == Some(Pending) && old(baseline).NoBaseline? ==>
        preparation == Some(Pending) && baseline.NoBaseline? && dispatched == old(dispatched)
    {
      for i := 0 to passes
        invariant Valid()
        invariant old(release).Some? && old(release).value.Reported? ==> release == old(release)
        invariant old(baseline).Consumed? || old(baseline).Released? ==> baseline == old(baseline)
        invariant old(preparation) == Some(Pending) && old(baseline).NoBaseline? ==>
          preparation == Some(Pending) && baseline.NoBaseline? && dispatched == old(dispatched)
      {
        alive := true;
        authority, instanceKnown := *, *;
        var kind: nat := *;
        var exact: bool := *;
        var ok: bool;
        if kind == 0 {
          ok := ApplyContinuation(exact);
        } else if kind == 1 && preparation == Some(Pending) {
          ok := RecoverContinuation();
        } else if kind == 2 {
          ok := ApplyRelease(exact);
        } else if kind == 3 && release == Some(Pending) {
          ok := RecoverRelease();
        } else {
          Consume();
        }
      }
      if release == Some(Reported(ReleaseDone)) {
        ReleasedMeans(preparation, release, baseline, dispatched, refused);
      }
    }
  }
}
