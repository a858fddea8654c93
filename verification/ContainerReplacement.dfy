/** Replacing a container's image under a deterministic backup name.

    Every podman command may fail without effect, take effect and lose its
    answer, or be cut by a crash of the runtime before or after its effect, and
    an existence query may answer "absent" for any reason. Once the process is
    dead (`alive` is false) the remaining commands of a call do nothing, so the
    state a call leaves behind ranges over every point at which it can stop. */
module ContainerReplacement {
  import opened Options

  /** `id` is podman's immutable container ID; `hooked` says whether the reviewed
      witness is mounted in this container when it runs. */
  datatype Container = Container(id: nat, digest: string, running: bool, hooked: bool)

  datatype Name = Current | Backup

  datatype Table = Table(current: Option<Container>, backup: Option<Container>) {
    function Get(name: Name): Option<Container> {
      match name case Current => current case Backup => backup
    }

    function Put(name: Name, value: Option<Container>): Table {
      match name case Current => this.(current := value) case Backup => this.(backup := value)
    }

    predicate Has(name: Name) {
      Get(name).Some?
    }

    /** The workload survives as long as one of the two names exists. */
    predicate Present() {
      current.Some? || backup.Some?
    }
  }

  /** What the caller asks for. `hook` says whether this host mounts the witness
      into the containers it creates. */
  datatype Request = Request(cell: bool, force: bool, digest: string, running: bool, hook: bool) {
    predicate ForcedCell() {
      force && cell
    }
  }

  datatype Outcome =
    | Done
    | LifecycleUnsupported
    | ImagePullFailed
    | AmbiguousState
    | CommandFailed
    | RolledBack
    | RollbackFailed

  /** A removal that took effect, with the table just before it. */
  datatype Removal = Removal(name: Name, before: Table)

  /** The only removals that cannot lose the workload: the backup goes while the
      name carries the intended replacement, the name goes while the backup exists. */
  predicate Justified(r: Removal, request: Request) {
    match r.name
    case Backup =>
      && r.before.current.Some?
      && r.before.current.value.digest == request.digest
      && (request.ForcedCell() ==> r.before.current.value.hooked)
    case Current => r.before.backup.Some?
  }

  // ----- The meaning of an undisturbed call ---------------------------------

  function Fresh(request: Request, id: nat): Container {
    Container(id, request.digest, request.running, request.hook)
  }

  /** Where an undisturbed call ends, told by what stood under the two names. */
  function Undisturbed(t: Table, request: Request, id: nat): (Table, Outcome) {
    if t.current.Some? && t.backup.Some? then
      if t.current.value.digest == request.digest && (request.ForcedCell() ==> t.current.value.hooked) then
        (Table(Some(t.current.value.(running := request.running)), None), Done)
      else if request.ForcedCell() then
        (Table(Some(t.backup.value.(running := request.running)), None), RolledBack)
      else (t, AmbiguousState)
    else
      var prior := if t.current.Some? then t.current else t.backup;
      if prior.Some? && request.ForcedCell() && !(request.hook && request.running) then
        (Table(Some(prior.value.(running := request.running)), None), RolledBack)
      else (Table(Some(Fresh(request, id)), None), Done)
  }

  /** The container a rollback must bring back. */
  function Retained(t: Table): Option<Container> {
    if t.backup.Some? then t.backup else t.current
  }

  predicate SettledState(t: Table, request: Request) {
    t.backup.None? && t.current.Some? && t.current.value.running == request.running
  }

  /** The name carries the target image, and for a forced cell also the witness. */
  predicate Replaced(before: Table, after: Table, request: Request) {
    && SettledState(after, request)
    && after.current.value.digest == request.digest
    && (request.ForcedCell() && before.Present() ==> after.current.value.hooked)
  }

  /** The very container that served before is back under the name. */
  predicate Restored(before: Table, after: Table, request: Request) {
    && SettledState(after, request)
    && Retained(before).Some?
    && after.current.value == Retained(before).value.(running := request.running)
  }

  /** Two names of which neither explains the other. */
  predicate Ambiguous(t: Table, request: Request) {
    t.current.Some? && t.backup.Some? && !request.ForcedCell() && t.current.value.digest != request.digest
  }

  /** What a crash or a failure of a call with this request can leave behind: both
      names exist only if the name carries what this request creates. */
  predicate Resumable(t: Table, request: Request) {
    t.current.Some? && t.backup.Some? ==>
      t.current.value.digest == request.digest && t.current.value.hooked == request.hook
  }

  /** Exactly when an undisturbed call converges, for every table whatsoever. */
  lemma ConvergesExactly(t: Table, request: Request, id: nat)
    ensures
      var after := Undisturbed(t, request, id).0;
      (Replaced(t, after, request) || (request.ForcedCell() && Restored(t, after, request))) <==> !Ambiguous(t, request)
    ensures Undisturbed(t, request, id).1 == Done ==> Replaced(t, Undisturbed(t, request, id).0, request)
    ensures Undisturbed(t, request, id).1 == RolledBack ==>
              request.ForcedCell() && Restored(t, Undisturbed(t, request, id).0, request)
    ensures Undisturbed(t, request, id).1 == AmbiguousState <==> Ambiguous(t, request)
    ensures Ambiguous(t, request) ==> Undisturbed(t, request, id).0 == t
  {
  }

  /** What an undisturbed call does, told apart by what stands under the two names: a
      current container that is the target is kept, else the backup for a forced cell,
      else both; with one name or none a new container takes over, unless a forced
      cell's witness cannot be seen. */
  lemma UndisturbedExactly(t: Table, request: Request, id: nat)
    ensures t.current.Some? && t.backup.Some? ==>
      var current, backup := t.current.value, t.backup.value;
      Undisturbed(t, request, id) ==
        if current.digest == request.digest && (request.force && request.cell ==> current.hooked) then
          (Table(Some(current.(running := request.running)), None), Done)
        else if request.force && request.cell then (Table(Some(backup.(running := request.running)), None), RolledBack)
        else (t, AmbiguousState)
    ensures !(t.current.Some? && t.backup.Some?) ==>
      var prior := if t.current.Some? then t.current else t.backup;
      Undisturbed(t, request, id) ==
        if prior.Some? && request.force && request.cell && !(request.hook && request.running) then
          (Table(Some(prior.value.(running := request.running)), None), RolledBack)
        else (Table(Some(Container(id, request.digest, request.running, request.hook)), None), Done)
  {
  }

  /** Moving the one container aside does not change where the call ends. */
  lemma UndisturbedAside(t: Table, request: Request, id: nat)
    requires t.current.Some? && t.backup.None?
    ensures Undisturbed(Table(None, Some(t.current.value.(running := false))), request, id) == Undisturbed(t, request, id)
  {
  }

  /** Exactly one removal more, under this name. */
  predicate OneMore(past: seq<Removal>, now: seq<Removal>, name: Name) {
    |now| == |past| + 1 && past <= now && now[|past|].name == name
  }

  /** From what an earlier attempt with the same request can leave, an undisturbed
      call always converges, and it gives up on the replacement only for a forced
      cell whose witness is not there or cannot be seen because the cell is to be
      stopped. */
  lemma ResumableConverges(t: Table, request: Request, id: nat)
    requires Resumable(t, request)
    ensures var (after, outcome) := Undisturbed(t, request, id);
            || (Replaced(t, after, request) && outcome == Done)
            || (request.ForcedCell() && Restored(t, after, request) && outcome == RolledBack)
    ensures Undisturbed(t, request, id).1 == RolledBack ==> !(request.hook && request.running)
    ensures Resumable(Undisturbed(t, request, id).0, request)
  {
    ConvergesExactly(t, request, id);
  }

  /** The target image, and for a forced cell the witness. */
  predicate IsTarget(c: Container, request: Request) {
    c.digest == request.digest && (request.ForcedCell() ==> c.hooked)
  }

  /** The workload is still in the container that had it, or in the target. */
  predicate Carried(before: Table, after: Table, request: Request) {
    before.Present() ==>
      after.Present()
      && (Retained(after).value.(running := request.running) == Retained(before).value.(running := request.running)
          || IsTarget(Retained(after).value, request))
  }

  // ----- The engine and its failures -----------------------------------------

  datatype Fault = NoFault | Refused | LostAnswer | CrashBefore | CrashAfter

  class Podman {
    var table: Table
    var nextId: nat
    var alive: bool
    /** Still true if no command has misbehaved since a caller set it. */
    var faultless: bool
    ghost var removals: seq<Removal>
    /** How many commands have misbehaved. */
    ghost var faults: nat

    constructor (table: Table)
      ensures this.table == table && alive && faultless && removals == []
    {
      this.table, nextId, alive, faultless, removals, faults := table, 0, true, true, [], 0;
    }

    /** The fate of one command: whether it takes effect, and whether it answers. */
    method Strike() returns (effect: bool, ok: bool)
      modifies this`alive, this`faultless, this`faults
      ensures !old(alive) ==> !effect && !ok
      ensures alive ==> old(alive)
      ensures ok ==> effect && alive
      ensures faultless ==> old(faultless) && (old(alive) ==> alive)
      ensures faultless && old(alive) ==> ok
      ensures faults == old(faults) + if old(alive) && !ok then 1 else 0
    {
      var fault: Fault := *;
      if !alive {
        return false, false;
      }
      faultless := faultless && fault == NoFault;
      faults := faults + if fault == NoFault then 0 else 1;
      alive := !(fault == CrashBefore || fault == CrashAfter);
      effect := fault in {NoFault, LostAnswer, CrashAfter};
      ok := fault == NoFault;
    }

    /** A command without effect on the table: a probe, an inspection, a pull. */
    method Probe() returns (ok: bool)
      modifies this`alive, this`faultless, this`faults
      ensures alive ==> old(alive)
      ensures ok ==> alive
      ensures faultless ==> old(faultless) && (old(alive) ==> alive)
      ensures faultless && old(alive) ==> ok
      ensures faults == old(faults) + if old(alive) && !ok then 1 else 0
    {
      var effect;
      effect, ok := Strike();
    }

    method ContainerExists(name: Name) returns (found: bool)
      modifies this`alive, this`faultless, this`faults
      ensures found ==> table.Has(name) && alive
      ensures alive ==> old(alive)
      ensures faultless ==> old(faultless) && (old(alive) ==> alive)
      ensures faultless && old(alive) ==> found == table.Has(name)
      ensures faults >= old(faults) && (faults == old(faults) && old(alive) ==> alive && found == table.Has(name))
    {
      var ok := Probe();
      found := ok && table.Has(name);
    }

    method Rename(from: Name, to: Name) returns (ok: bool)
      requires from != to
      modifies this`table, this`alive, this`faultless, this`faults
      ensures ok ==> old(table).Has(from) && !old(table).Has(to) && alive
      ensures table == old(table) || (old(table).Has(from) && !old(table).Has(to) &&
                                      table == old(table).Put(to, old(table).Get(from)).Put(from, None))
      ensures ok ==> table != old(table)
      ensures alive ==> old(alive)
      ensures faultless ==> old(faultless) && (old(alive) ==> alive)
      ensures faultless && old(alive) ==> ok == (old(table).Has(from) && !old(table).Has(to))
      ensures faultless && old(alive) && !ok ==> table == old(table)
      ensures old(faults) <= faults <= old(faults) + 1
      ensures faults == old(faults) && old(alive) ==> alive && ok == (old(table).Has(from) && !old(table).Has(to))
    {
      var effect;
      effect, ok := Strike();
      var possible := table.Has(from) && !table.Has(to);
      ok := ok && possible;
      if effect && possible {
        table := table.Put(to, table.Get(from)).Put(from, None);
      }
    }

    /** Creates the target container, not yet running, under the current name. */
    method Create(request: Request) returns (ok: bool)
      modifies this`table, this`nextId, this`alive, this`faultless, this`faults
      ensures table == old(table) ||
              (old(table).current.None? &&
               table == old(table).(current := Some(Fresh(request, old(nextId)).(running := false))))
      ensures ok ==> old(table).current.None? && table != old(table) && alive
      ensures alive ==> old(alive)
      ensures faultless ==> old(faultless) && (old(alive) ==> alive)
      ensures faultless && old(alive) ==> ok == old(table).current.None?
      ensures faultless && old(alive) && !ok ==> table == old(table)
      ensures old(faults) <= faults <= old(faults) + 1
      ensures faults == old(faults) && old(alive) ==> alive && ok == old(table).current.None?
    {
      var effect;
      effect, ok := Strike();
      var possible := table.current.None?;
      ok := ok && possible;
      if effect && possible {
        table := table.(current := Some(Container(nextId, request.digest, false, request.hook)));
        nextId := nextId + 1;
      }
    }

    method Start(name: Name) returns (ok: bool)
      modifies this`table, this`alive, this`faultless, this`faults
      ensures table == old(table) ||
              (old(table).Has(name) && table == old(table).Put(name, Some(old(table).Get(name).value.(running := true))))
      ensures ok ==> old(table).Has(name) && table.Get(name) == Some(old(table).Get(name).value.(running := true)) && alive
      ensures alive ==> old(alive)
      ensures faultless ==> old(faultless) && (old(alive) ==> alive)
      ensures faultless && old(alive) ==> ok == old(table).Has(name)
      ensures old(faults) <= faults <= old(faults) + 1
      ensures faults == old(faults) && old(alive) ==> alive && ok == old(table).Has(name)
    {
      var effect;
      effect, ok := Strike();
      ok := ok && table.Has(name);
      if effect && table.Has(name) {
        table := table.Put(name, Some(table.Get(name).value.(running := true)));
      }
    }

    /** An absent container counts as stopped. */
    method StopContainer(name: Name) returns (ok: bool)
      modifies this`table, this`alive, this`faultless, this`faults
      ensures table == old(table) ||
              (old(table).Has(name) && table == old(table).Put(name, Some(old(table).Get(name).value.(running := false))))
      ensures ok && old(table).Has(name) ==> table.Get(name) == Some(old(table).Get(name).value.(running := false))
      ensures ok ==> alive
      ensures alive ==> old(alive)
      ensures faultless ==> old(faultless) && (old(alive) ==> alive)
      ensures faultless && old(alive) ==> ok
      ensures old(faults) <= faults <= old(faults) + 1
      ensures faults == old(faults) && old(alive) ==> alive && ok
    {
      var effect;
      effect, ok := Strike();
      if effect && table.Has(name) {
        table := table.Put(name, Some(table.Get(name).value.(running := false)));
      }
    }

    method SetContainerState(name: Name, running: bool) returns (ok: bool)
      modifies this`table, this`alive, this`faultless, this`faults
      ensures table == old(table) ||
              (old(table).Has(name) && table == old(table).Put(name, Some(old(table).Get(name).value.(running := running))))
      ensures ok && old(table).Has(name) ==> table.Get(name) == Some(old(table).Get(name).value.(running := running))
      ensures ok ==> alive
      ensures alive ==> old(alive)
      ensures faultless ==> old(faultless) && (old(alive) ==> alive)
      ensures faultless && old(alive) && old(table).Has(name) ==> ok
      ensures old(faults) <= faults <= old(faults) + 1
      ensures faults == old(faults) && old(alive) && old(table).Has(name) ==> alive && ok
    {
      if running {
        ok := Start(name);
      } else {
        ok := StopContainer(name);
      }
    }

    /** Removing an absent container succeeds. Whoever calls it justifies it. */
    method RemoveContainer(name: Name, ghost request: Request) returns (ok: bool)
      requires table.Has(name) ==> Justified(Removal(name, table), request)
      modifies this`table, this`alive, this`faultless, this`faults, this`removals
      ensures table == old(table) || table == old(table).Put(name, None)
      ensures removals == old(removals) ||
              (removals == old(removals) + [Removal(name, old(table))] && Justified(Removal(name, old(table)), request))
      ensures table != old(table) ==> removals != old(removals)
      ensures ok ==> !table.Has(name) && alive
      ensures ok && old(table).Has(name) ==> removals != old(removals)
      ensures alive ==> old(alive)
      ensures faultless ==> old(faultless) && (old(alive) ==> alive)
      ensures faultless && old(alive) ==> ok
      ensures old(faults) <= faults <= old(faults) + 1
      ensures faults == old(faults) && old(alive) ==> alive && ok
    {
      var effect;
      effect, ok := Strike();
      if effect && table.Has(name) {
        removals := removals + [Removal(name, table)];
        table := table.Put(name, None);
      }
    }

    method ContainerImageDigest(name: Name) returns (ok: bool, digest: string)
      modifies this`alive, this`faultless, this`faults
      ensures ok ==> table.Has(name) && digest == table.Get(name).value.digest && alive
      ensures alive ==> old(alive)
      ensures faultless ==> old(faultless) && (old(alive) ==> alive)
      ensures faultless && old(alive) ==> ok == table.Has(name)
    {
      ok := Probe();
      ok := ok && table.Has(name);
      digest := if ok then table.Get(name).value.digest else "";
    }

    /** A live observation: any failure to look reads as "not ready". */
    method ObserveCellWitness() returns (ready: bool)
      modifies this`alive, this`faultless, this`faults
      ensures ready ==> table.current.Some? && table.current.value.running && table.current.value.hooked && alive
      ensures alive ==> old(alive)
      ensures faultless ==> old(faultless) && (old(alive) ==> alive)
      ensures faultless && old(alive) ==>
                ready == (table.current.Some? && table.current.value.running && table.current.value.hooked)
      ensures old(faults) <= faults <= old(faults) + 1
    {
      var ok := Probe();
      ready := ok && table.current.Some? && table.current.value.running && table.current.value.hooked;
    }

    // ----- The replacement ---------------------------------------------------

    /** Everything a call promises about the state it leaves, whatever happened. */
    ghost predicate Kept(before: Table, after: Table, past: seq<Removal>, now: seq<Removal>, request: Request) {
      && Carried(before, after, request)
      && past <= now
      && (forall i :: |past| <= i < |now| ==> Justified(now[i], request))
      && (Resumable(before, request) ==> Resumable(after, request))
    }

    lemma Unmoved(t: Table, past: seq<Removal>, request: Request)
      ensures Kept(t, t, past, past, request) && Carried(t, t, request)
    {
    }

    lemma Moved(before: Table, after: Table, past: seq<Removal>, request: Request)
      requires Carried(before, after, request) && (Resumable(before, request) ==> Resumable(after, request))
      ensures Kept(before, after, past, past, request)
    {
    }

    method VerifyReplacementReady(request: Request) returns (ok: bool, ready: bool)
      modifies this`alive, this`faultless, this`faults
      ensures ready ==> ok && table.current.Some? && table.current.value.digest == request.digest
      ensures ready && request.ForcedCell() ==> table.current.value.hooked
      ensures ok ==> table.current.Some?
      ensures alive ==> old(alive)
      ensures faultless ==> old(faultless) && (old(alive) ==> alive)
      ensures faultless && old(alive) ==> ok == table.current.Some?
      ensures faultless && old(alive) && ok && (request.ForcedCell() ==> table.current.value.running) ==>
                ready == (table.current.value.digest == request.digest &&
                          (request.ForcedCell() ==> table.current.value.hooked))
    {
      var digest;
      ok, digest := ContainerImageDigest(Current);
      if !ok {
        return false, false;
      }
      if digest != request.digest {
        return true, false;
      }
      if !request.force || !request.cell {
        return true, true;
      }
      ready := ObserveCellWitness();
      return true, ready;
    }

    method RollbackReplacement(request: Request) returns (outcome: Outcome)
      requires table.backup.Some?
      modifies this`table, this`alive, this`faultless, this`faults, this`removals
      ensures Kept(old(table), table, old(removals), removals, request)
      ensures outcome in {RolledBack, RollbackFailed}
      ensures alive ==> old(alive)
      ensures faultless ==> old(faultless) && (old(alive) ==> alive)
      ensures outcome == RolledBack ==>
                table == Table(Some(old(table).backup.value.(running := request.running)), None)
      ensures faultless && old(alive) ==> outcome == RolledBack
      ensures faultless && old(alive) && old(table).current.Some? ==> OneMore(old(removals), removals, Current)
      // Whatever went wrong before, it fails only if some command of its own does.
      ensures faults >= old(faults) && (faults == old(faults) && old(alive) ==> outcome == RolledBack)
    {
      var failed := false;
      var found := ContainerExists(Current);
      if found {
        var removed := RemoveContainer(Current, request);
        failed := failed || !removed;
      }
      found := ContainerExists(Backup);
      if found {
        var renamed := Rename(Backup, Current);
        failed := failed || !renamed;
      } else {
        failed := true;
      }
      if !failed {
        var restored := SetContainerState(Current, request.running);
        failed := !restored;
      }
      outcome := if failed then RollbackFailed else RolledBack;
    }

    method ReplaceContainer(request: Request) returns (outcome: Outcome)
      modifies this
      ensures Kept(old(table), table, old(removals), removals, request)
      ensures outcome == Done ==> table.current.Some? && table.current.value.digest == request.digest &&
                                  table.current.value.running == request.running
      ensures outcome == RolledBack ==> old(table).Present() && Restored(old(table), table, request)
      // Under every fault, an ambiguous state or a refusal leaves every container alone.
      ensures outcome in {AmbiguousState, LifecycleUnsupported, ImagePullFailed} ==> table == old(table) && removals == old(removals)
      ensures outcome == AmbiguousState ==> old(table).current.Some? && old(table).backup.Some? && !(request.force && request.cell)
      ensures outcome == LifecycleUnsupported ==> request.cell
      ensures faultless ==> old(faultless) && (old(alive) ==> alive)
      ensures alive ==> old(alive)
      ensures faultless && old(alive) ==> (table, outcome) == Undisturbed(old(table), request, old(nextId))
      // Two names: the current one is kept if it is the target, otherwise the backup for a
      // forced cell, and otherwise both.
      ensures faultless && old(alive) && old(table).current.Some? && old(table).backup.Some? ==>
        var current, backup := old(table).current.value, old(table).backup.value;
        if current.digest == request.digest && (request.force && request.cell ==> current.hooked) then
          outcome == Done && table == Table(Some(current.(running := request.running)), None) && OneMore(old(removals), removals, Backup)
        else if request.force && request.cell then
          outcome == RolledBack && table == Table(Some(backup.(running := request.running)), None) && OneMore(old(removals), removals, Current)
        else outcome == AmbiguousState && table == old(table) && removals == old(removals)
      // One name or none: a new container, unless a forced cell's witness cannot be seen.
      ensures faultless && old(alive) && !(old(table).current.Some? && old(table).backup.Some?) ==>
        var prior := if old(table).current.Some? then old(table).current else old(table).backup;
        if prior.Some? && request.force && request.cell && !(request.hook && request.running) then
          outcome == RolledBack && table == Table(Some(prior.value.(running := request.running)), None)
          && OneMore(old(removals), removals, Current)
        else
          outcome == Done && table == Table(Some(Container(old(nextId), request.digest, request.running, request.hook)), None)
          && if prior.Some? then OneMore(old(removals), removals, Backup) else removals == old(removals)
    {
      Unmoved(table, removals, request);
      hide Kept, Carried, Resumable, Justified, Restored, Undisturbed;
      UndisturbedExactly(table, request, nextId);
      if table.current.Some? && table.backup.None? {
        UndisturbedAside(table, request, nextId);
      }
      var refusal := Preflight(request);
      if refusal.Some? {
        return refusal.value;
      }
      var currentExists := ContainerExists(Current);
      var backupExists := ContainerExists(Backup);
      if currentExists && backupExists {
        outcome := ResumeReplacement(request);
        return;
      }
      if currentExists {
        refusal := MoveAside(request);
        Moved(old(table), table, removals, request);
        if refusal.Some? {
          return refusal.value;
        }
        backupExists := true;
      }
      outcome := CreateReplacement(request, backupExists, old(table));
    }

    /** Nothing is touched before the host is known to support the cell and the
        image is there. */
    method Preflight(request: Request) returns (refusal: Option<Outcome>)
      modifies this`alive, this`faultless, this`faults
      ensures refusal in {None, Some(LifecycleUnsupported), Some(ImagePullFailed)}
      ensures refusal == Some(LifecycleUnsupported) ==> request.cell
      ensures alive ==> old(alive)
      ensures faultless ==> old(faultless) && (old(alive) ==> alive)
      ensures faultless && old(alive) ==> refusal == None
    {
      if request.cell {
        var supported := Probe();
        if !supported {
          return Some(LifecycleUnsupported);
        }
      }
      var present := Probe();
      if !present {
        var pulled := Probe();
        if !pulled {
          return Some(ImagePullFailed);
        }
      }
      return None;
    }

    /** The serving container stops and takes the backup name. */
    method MoveAside(request: Request) returns (refusal: Option<Outcome>)
      requires table.current.Some?
      modifies this`table, this`alive, this`faultless, this`faults
      ensures refusal in {None, Some(CommandFailed), Some(RollbackFailed)}
      ensures refusal == None ==> old(table).backup.None?
      ensures refusal == None ==> table == Table(None, Some(old(table).current.value.(running := false)))
      ensures Carried(old(table), table, request) && (Resumable(old(table), request) ==> Resumable(table, request))
      ensures alive ==> old(alive)
      ensures faultless ==> old(faultless) && (old(alive) ==> alive)
      ensures faultless && old(alive) && old(table).backup.None? ==> refusal == None
    {
      var stopped := StopContainer(Current);
      if !stopped {
        return Some(CommandFailed);
      }
      refusal := RenameAside(request);
    }

    /** The stopped container takes the backup name, or is brought back to the state asked for. */
    method RenameAside(request: Request) returns (refusal: Option<Outcome>)
      requires table.current.Some?
      modifies this`table, this`alive, this`faultless, this`faults
      ensures refusal in {None, Some(CommandFailed), Some(RollbackFailed)}
      ensures refusal == None ==> old(table).backup.None? && table == Table(None, old(table).current)
      ensures refusal == Some(CommandFailed) && table.current.Some? ==> table.current.value.running == request.running
      ensures refusal == Some(RollbackFailed) && alive ==> table.current.None? || faults > old(faults)
      ensures table.current.None? ==> table == Table(None, old(table).current) && old(table).backup.None?
      ensures table.current.Some? ==> table.backup == old(table).backup
      ensures table.current.Some? ==> table.current.value.(running := request.running) == old(table).current.value.(running := request.running)
      ensures alive ==> old(alive)
      ensures faultless ==> old(faultless) && (old(alive) ==> alive)
      ensures faultless && old(alive) && old(table).backup.None? ==> refusal == None
    {
      var renamed := Rename(Current, Backup);
      if renamed {
        return None;
      }
      var restored := SetContainerState(Current, request.running);
      refusal := Some(if restored then CommandFailed else RollbackFailed);
    }

    /** Both names exist: a prior replacement stopped between creating the new
        container and removing the backup. */
    method ResumeReplacement(request: Request) returns (outcome: Outcome)
      requires table.current.Some? && table.backup.Some?
      modifies this`table, this`alive, this`faultless, this`faults, this`removals
      ensures Kept(old(table), table, old(removals), removals, request)
      ensures outcome == Done ==> table.current.Some? && table.current.value.digest == request.digest &&
                                  table.current.value.running == request.running
      ensures outcome == RolledBack ==> Restored(old(table), table, request)
      ensures outcome in {Done, RolledBack, RollbackFailed, CommandFailed, AmbiguousState}
      ensures outcome == AmbiguousState ==> table == old(table) && removals == old(removals) && !(request.force && request.cell)
      ensures faultless ==> old(faultless) && (old(alive) ==> alive)
      ensures alive ==> old(alive)
      ensures faultless && old(alive) ==> (table, outcome) == Undisturbed(old(table), request, nextId)
      ensures faultless && old(alive) && outcome == Done ==> OneMore(old(removals), removals, Backup)
      ensures faultless && old(alive) && outcome == RolledBack ==> OneMore(old(removals), removals, Current)
    {
      if request.force && request.cell {
        var started := SetContainerState(Current, true);
        if !started {
          return CommandFailed;
        }
      }
      var ok, ready := VerifyReplacementReady(request);
      if !ok {
        return CommandFailed;
      }
      if ready {
        var placed := SetContainerState(Current, request.running);
        if !placed {
          return CommandFailed;
        }
        var removed := RemoveContainer(Backup, request);
        return if removed then Done else CommandFailed;
      }
      if request.force && request.cell {
        outcome := RollbackReplacement(request);
        return;
      }
      return AmbiguousState;
    }

    /** The name is free, as far as the queries could tell, and an existing
        container has moved to the backup name. `start` is the table at entry. */
    method CreateReplacement(request: Request, backupExists: bool, ghost start: Table) returns (outcome: Outcome)
      requires backupExists ==> table.backup.Some?
      requires backupExists && Retained(start).Some? ==>
                 table.backup.value.(running := request.running) == Retained(start).value.(running := request.running)
      requires (start.Present() <==> table.Present()) && Carried(start, table, request)
      requires Resumable(start, request) ==> Resumable(table, request)
      modifies this`table, this`nextId, this`alive, this`faultless, this`faults, this`removals
      ensures Kept(start, table, old(removals), removals, request)
      ensures outcome == Done ==> table.current.Some? && table.current.value.digest == request.digest &&
                                  table.current.value.running == request.running
      ensures outcome == RolledBack ==> backupExists && Restored(start, table, request)
      ensures outcome in {Done, RolledBack, RollbackFailed, CommandFailed}
      ensures faultless && old(alive) && outcome == Done ==>
        if backupExists then OneMore(old(removals), removals, Backup) else removals == old(removals)
      ensures faultless && old(alive) && outcome == RolledBack && old(table).current.None? ==> OneMore(old(removals), removals, Current)
      ensures faultless ==> old(faultless) && (old(alive) ==> alive)
      ensures alive ==> old(alive)
      ensures faultless && old(alive) && old(table).current.None? && backupExists == old(table).backup.Some? ==>
                (table, outcome) == Undisturbed(start.(current := None, backup := old(table).backup), request, old(nextId))
      // With a container set aside, one command that fails is always rolled back, or the target serves already.
      ensures backupExists && outcome == CommandFailed ==>
        table.current.Some? && table.current.value.digest == request.digest && table.current.value.running == request.running
      ensures backupExists && outcome == RollbackFailed && alive && old(table).current.None? && !request.ForcedCell() ==>
        faults >= old(faults) + 2
    {
      var ready := Place(request);
      if ready && backupExists && request.force && request.cell {
        ready := ObserveCellWitness();
      }
      if !ready {
        if !backupExists {
          return CommandFailed;
        }
        outcome := RollbackReplacement(request);
        return;
      }
      if backupExists {
        var removed := RemoveContainer(Backup, request);
        if !removed {
          return CommandFailed;
        }
      }
      return Done;
    }

    /** The target is created and brought to the state asked for. */
    method Place(request: Request) returns (ok: bool)
      modifies this`table, this`nextId, this`alive, this`faultless, this`faults
      ensures table == old(table) || (old(table).current.None? && table.backup == old(table).backup && table.current.Some?
                && table.current.value.digest == request.digest && table.current.value.hooked == request.hook)
      ensures ok ==> old(table).current.None? && table == old(table).(current := Some(Fresh(request, old(nextId))))
      ensures alive ==> old(alive)
      ensures faultless ==> old(faultless) && (old(alive) ==> alive)
      ensures faultless && old(alive) ==> ok == old(table).current.None?
      ensures faults >= old(faults) && (!ok && old(alive) && old(table).current.None? ==> faults > old(faults))
    {
      ok := Create(request);
      if ok {
        ok := SetContainerState(Current, request.running);
      }
    }
  }

  /** A whole history: `attempts` calls with the same request, each of which may
      fail or crash anywhere, then one undisturbed call, made on the table `last`. It
      ends replaced, with the witness where one is asked for, or with the container
      that had the workload then: the one that had it at the start, or an earlier
      attempt's target. */
  method RetryUntilUndisturbed(podman: Podman, request: Request, attempts: nat) returns (outcome: Outcome, ghost last: Table)
    requires Resumable(podman.table, request)
    modifies podman
    ensures Carried(old(podman.table), last, request) && Carried(old(podman.table), podman.table, request)
    ensures old(podman.removals) <= podman.removals
    ensures forall i :: |old(podman.removals)| <= i < |podman.removals| ==> Justified(podman.removals[i], request)
    ensures podman.faultless && podman.alive ==>
              || (outcome == Done && Replaced(last, podman.table, request))
              || (outcome == RolledBack && Restored(last, podman.table, request)
                  && request.ForcedCell() && !(request.hook && request.running))
    ensures podman.faultless && podman.alive && old(podman.table).Present() && outcome == Done ==>
              IsTarget(podman.table.current.value, request)
  {
    for i := 0 to attempts
      invariant Resumable(podman.table, request)
      invariant Carried(old(podman.table), podman.table, request)
      invariant old(podman.removals) <= podman.removals
      invariant forall i :: |old(podman.removals)| <= i < |podman.removals| ==> Justified(podman.removals[i], request)
    {
      podman.alive := true;
      var _ := podman.ReplaceContainer(request);
    }
    podman.alive, podman.faultless := true, true;
    last := podman.table;
    ResumableConverges(last, request, podman.nextId);
    outcome := podman.ReplaceContainer(request);
  }
}
