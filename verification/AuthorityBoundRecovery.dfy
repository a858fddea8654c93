/** Recovery of every pending operation against recovery of those the current authority names.
  *
  * The step that recovers one operation is a function of the whole state before it: it may change that
  * operation's row (never its manifest) and everything outside the rows, and it succeeds or fails.
  */
module AuthorityBoundRecovery {
  import opened Options

  datatype Domain = Continuations | Releases | Restores

  datatype Row = Row(manifest: string, phase: string, report: Option<string>)

  type Table = map<string, Row>

  datatype World<S> = World(continuations: Table, releases: Table, restores: Table, outside: S)

  datatype Effect<S> = Effect(phase: string, report: Option<string>, outside: S, ok: bool)

  type Step<!S> = (Domain, string, World<S>) -> Effect<S>

  /** The typed operations of one manifest, by operation identifier. */
  datatype Authority = Authority(continuations: map<string, string>, releases: map<string, string>, restores: map<string, string>)

  datatype Result<S> = Result(world: World<S>, ok: bool)

  function Rows<S>(w: World<S>, d: Domain): Table {
    match d case Continuations => w.continuations case Releases => w.releases case Restores => w.restores
  }

  function WithRow<S>(w: World<S>, d: Domain, id: string, row: Row): World<S> {
    match d
    case Continuations => w.(continuations := w.continuations[id := row])
    case Releases => w.(releases := w.releases[id := row])
    case Restores => w.(restores := w.restores[id := row])
  }

  function Intents(a: Authority, d: Domain): map<string, string> {
    match d case Continuations => a.continuations case Releases => a.releases case Restores => a.restores
  }

  /** One operation recovered: only its row and the outside change. */
  function Recovered<S>(w: World<S>, d: Domain, id: string, step: Step<S>): Result<S>
    requires id in Rows(w, d)
  {
    var e := step(d, id, w);
    Result(WithRow(w, d, id, Row(Rows(w, d)[id].manifest, e.phase, e.report)).(outside := e.outside), e.ok)
  }

  predicate Listing<S>(w: World<S>, d: Domain, ids: seq<string>) {
    (forall id :: id in ids ==> id in Rows(w, d))
    && (forall i, j :: 0 <= i < j < |ids| ==> ids[i] != ids[j])
  }

  predicate Pending<S>(w: World<S>, d: Domain, id: string) {
    id in Rows(w, d) && Rows(w, d)[id].report.None?
  }

  /** Every pending operation of the domain, in order, until one fails. */
  function PendingRecovered<S>(w: World<S>, d: Domain, ids: seq<string>, step: Step<S>): (r: Result<S>)
    requires Listing(w, d, ids)
    ensures forall other: Domain :: Rows(r.world, other).Keys == Rows(w, other).Keys
    decreases |ids|
  {
    if ids == [] then Result(w, true)
    else if !Pending(w, d, ids[0]) then PendingRecovered(w, d, ids[1..], step)
    else
      var r := Recovered(w, d, ids[0], step);
      if r.ok then PendingRecovered(r.world, d, ids[1..], step) else r
  }

  /** The pending operations that are named, in order, until one fails or is named differently. */
  function NamedRecovered<S>(w: World<S>, d: Domain, ids: seq<string>, intents: map<string, string>, step: Step<S>): (r: Result<S>)
    requires Listing(w, d, ids)
    ensures forall other: Domain :: Rows(r.world, other).Keys == Rows(w, other).Keys
    decreases |ids|
  {
    if ids == [] then Result(w, true)
    else if !Pending(w, d, ids[0]) || ids[0] !in intents then NamedRecovered(w, d, ids[1..], intents, step)
    else if intents[ids[0]] != Rows(w, d)[ids[0]].manifest then Result(w, false)
    else
      var r := Recovered(w, d, ids[0], step);
      if r.ok then NamedRecovered(r.world, d, ids[1..], intents, step) else r
  }

  /** Everything a recovery may not touch: other domains, rows outside `may`, and every manifest. */
  ghost predicate Kept<S>(w: World<S>, later: World<S>, d: Domain, may: iset<string>) {
    (forall other: Domain :: other != d ==> Rows(later, other) == Rows(w, other))
    && Rows(later, d).Keys == Rows(w, d).Keys
    && (forall id :: id in Rows(w, d) ==> Rows(later, d)[id].manifest == Rows(w, d)[id].manifest)
    && (forall id :: id in Rows(w, d) && id !in may ==> Rows(later, d)[id] == Rows(w, d)[id])
  }

  lemma RecoveredKeeps<S>(w: World<S>, d: Domain, ids: seq<string>, step: Step<S>)
    requires ids != [] && Listing(w, d, ids)
    ensures Kept(w, Recovered(w, d, ids[0], step).world, d, iset{ids[0]})
    ensures Listing(w, d, ids[1..]) && Listing(Recovered(w, d, ids[0], step).world, d, ids[1..])
    ensures ids[0] in Rows(w, d)
    ensures forall id <- ids[1..] :: id in Rows(w, d) && id != ids[0]
    ensures forall id <- ids[1..] :: Rows(Recovered(w, d, ids[0], step).world, d)[id] == Rows(w, d)[id]
  {
  }

  lemma KeptChain<S>(w: World<S>, mid: World<S>, later: World<S>, d: Domain, first: iset<string>, second: iset<string>, may: iset<string>)
    requires Kept(w, mid, d, first) && Kept(mid, later, d, second) && first <= may && second <= may
    ensures Kept(w, later, d, may)
  {
  }

  lemma KeptSame<S>(w: World<S>, d: Domain, may: iset<string>)
    ensures Kept(w, w, d, may)
  {
  }

  /** The rows a named recovery may change: pending ones of the list that are named. */
  ghost function Named<S>(w: World<S>, d: Domain, ids: seq<string>, intents: map<string, string>): iset<string> {
    iset id | id in ids && id in intents && Pending(w, d, id)
  }

  /** The named recovery changes only rows that are pending and named. */
  lemma {:induction false} NamedKeeps<S>(w: World<S>, d: Domain, ids: seq<string>, intents: map<string, string>, step: Step<S>)
    requires Listing(w, d, ids)
    ensures Kept(w, NamedRecovered(w, d, ids, intents, step).world, d, Named(w, d, ids, intents))
    decreases |ids|
  {
    hide Kept, Recovered, Listing;
    KeptSame(w, d, Named(w, d, ids, intents));
    if ids != [] {
      RecoveredKeeps(w, d, ids, step);
      var r := Recovered(w, d, ids[0], step);
      if Pending(w, d, ids[0]) && ids[0] in intents {
        KeptSame(r.world, d, iset{});
        KeptChain(w, r.world, r.world, d, iset{ids[0]}, iset{}, Named(w, d, ids, intents));
        if intents[ids[0]] == Rows(w, d)[ids[0]].manifest && r.ok {
          NamedKeeps(r.world, d, ids[1..], intents, step);
          KeptChain(w, r.world, NamedRecovered(r.world, d, ids[1..], intents, step).world, d,
                    iset{ids[0]}, Named(r.world, d, ids[1..], intents), Named(w, d, ids, intents));
        }
      } else {
        NamedKeeps(w, d, ids[1..], intents, step);
        KeptChain(w, w, NamedRecovered(w, d, ids[1..], intents, step).world, d,
                  Named(w, d, ids, intents), Named(w, d, ids[1..], intents), Named(w, d, ids, intents));
      }
    }
  }

  /** The authority names every pending operation of the list, exactly. */
  ghost predicate NamesAll<S>(w: World<S>, d: Domain, ids: seq<string>, intents: map<string, string>) {
    forall id <- ids :: Pending(w, d, id) ==> id in intents && intents[id] == Rows(w, d)[id].manifest
  }

  /** Naming every pending operation exactly makes the two recoveries one. */
  lemma {:induction false} NamedIsPending<S>(w: World<S>, d: Domain, ids: seq<string>, intents: map<string, string>, step: Step<S>)
    requires Listing(w, d, ids) && NamesAll(w, d, ids, intents)
    ensures NamedRecovered(w, d, ids, intents, step) == PendingRecovered(w, d, ids, step)
    decreases |ids|
  {
    hide Kept, Recovered, Listing;
    if ids != [] {
      RecoveredKeeps(w, d, ids, step);
      if !Pending(w, d, ids[0]) {
        NamedIsPending(w, d, ids[1..], intents, step);
      } else {
        assert ids[0] in ids;
        if Recovered(w, d, ids[0], step).ok {
          NamedIsPending(Recovered(w, d, ids[0], step).world, d, ids[1..], intents, step);
        }
      }
    }
  }

  /** Success means that no pending operation is named with another manifest. */
  lemma {:induction false} NamedOkIsExact<S>(w: World<S>, d: Domain, ids: seq<string>, intents: map<string, string>, step: Step<S>)
    requires Listing(w, d, ids) && NamedRecovered(w, d, ids, intents, step).ok
    ensures forall id <- ids :: Pending(w, d, id) && id in intents ==> intents[id] == Rows(w, d)[id].manifest
    decreases |ids|
  {
    if ids != [] {
      RecoveredKeeps(w, d, ids, step);
      if Pending(w, d, ids[0]) && ids[0] in intents {
        NamedOkIsExact(Recovered(w, d, ids[0], step).world, d, ids[1..], intents, step);
      } else {
        NamedOkIsExact(w, d, ids[1..], intents, step);
      }
      assert ids == [ids[0]] + ids[1..];
    }
  }

  /** One more operation at the end of the list: nothing after a failure; skipped if it is finished or not named;
    * refused if named with another manifest; otherwise its step is taken in the state the others leave. */
  lemma {:induction false} NamedLast<S>(w: World<S>, d: Domain, ids: seq<string>, last: string, intents: map<string, string>, step: Step<S>)
    requires Listing(w, d, ids + [last]) && Listing(w, d, ids)
    ensures var before, after := NamedRecovered(w, d, ids, intents, step), NamedRecovered(w, d, ids + [last], intents, step);
      && last in Rows(before.world, d)
      && if !before.ok || Rows(w, d)[last].report.Some? || last !in intents then after == before
         else if intents[last] != Rows(w, d)[last].manifest then !after.ok && after.world == before.world
         else
           var e := step(d, last, before.world);
           && after.ok == e.ok && after.world.outside == e.outside && last in Rows(after.world, d)
           && Rows(after.world, d)[last] == Row(Rows(w, d)[last].manifest, e.phase, e.report)
    decreases |ids|
  {
    assert (ids + [last])[|ids|] == last;
    NamedKeeps(w, d, ids, intents, step);
    if ids == [] {
      assert [] + [last] == [last] && [last][1..] == [];
    } else {
      assert (ids + [last])[0] == ids[0] && (ids + [last])[1..] == ids[1..] + [last];
      RecoveredKeeps(w, d, ids + [last], step);
      RecoveredKeeps(w, d, ids, step);
      hide Kept, Recovered, Listing;
      if !Pending(w, d, ids[0]) || ids[0] !in intents {
        NamedLast(w, d, ids[1..], last, intents, step);
      } else if intents[ids[0]] == Rows(w, d)[ids[0]].manifest && Recovered(w, d, ids[0], step).ok {
        assert last in ids[1..] + [last];
        NamedLast(Recovered(w, d, ids[0], step).world, d, ids[1..], last, intents, step);
      }
    }
  }

  /** Exactly when a named recovery succeeds: every pending named operation is named with its own manifest, and
    * its step succeeds in the state that the operations before it leave. */
  lemma {:induction false} NamedOkExactly<S>(w: World<S>, d: Domain, ids: seq<string>, intents: map<string, string>, step: Step<S>)
    requires Listing(w, d, ids)
    ensures forall n | 0 <= n <= |ids| :: Listing(w, d, ids[..n])
    ensures NamedRecovered(w, d, ids, intents, step).ok <==>
      forall n | 0 <= n < |ids| && ids[n] in intents && Rows(w, d)[ids[n]].report.None? ::
        intents[ids[n]] == Rows(w, d)[ids[n]].manifest
        && step(d, ids[n], NamedRecovered(w, d, ids[..n], intents, step).world).ok
    decreases |ids|
  {
    if ids != [] {
      var before, last := ids[..|ids| - 1], ids[|ids| - 1];
      assert ids == before + [last] && forall n | 0 <= n <= |before| :: ids[..n] == before[..n];
      assert forall n | 0 <= n < |before| :: before[n] == ids[n];
      NamedOkExactly(w, d, before, intents, step);
      NamedLast(w, d, before, last, intents, step);
      assert before[..|before|] == before;
    }
  }

  // ---------------------------------------------------------------- all three domains

  /** The order in which the store lists each domain. */
  datatype Orders = Orders(continuations: seq<string>, releases: seq<string>, restores: seq<string>)

  function Order(o: Orders, d: Domain): seq<string> {
    match d case Continuations => o.continuations case Releases => o.releases case Restores => o.restores
  }

  ghost predicate Lists<S>(o: Orders, w: World<S>) {
    forall d: Domain :: Listing(w, d, Order(o, d)) && forall id :: id in Rows(w, d) ==> id in Order(o, d)
  }

  ghost function AllPendingRecovered<S>(w: World<S>, o: Orders, step: Step<S>): Result<S>
    requires Lists(o, w)
  {
    var first := PendingRecovered(w, Continuations, o.continuations, step);
    if !first.ok then first
    else
      assert Listing(first.world, Releases, Order(o, Releases));
      var second := PendingRecovered(first.world, Releases, o.releases, step);
      if !second.ok then second
      else
        assert Listing(second.world, Restores, Order(o, Restores));
        PendingRecovered(second.world, Restores, o.restores, step)
  }

  ghost function AllNamedRecovered<S>(w: World<S>, o: Orders, a: Authority, step: Step<S>): Result<S>
    requires Lists(o, w)
  {
    var first := NamedRecovered(w, Continuations, o.continuations, a.continuations, step);
    if !first.ok then first
    else
      assert Listing(first.world, Releases, Order(o, Releases));
      var second := NamedRecovered(first.world, Releases, o.releases, a.releases, step);
      if !second.ok then second
      else
        assert Listing(second.world, Restores, Order(o, Restores));
        NamedRecovered(second.world, Restores, o.restores, a.restores, step)
  }

  /** When the authority names every pending row exactly, both recoveries have one effect and one result. */
  lemma SameWhenAllNamed<S>(w: World<S>, o: Orders, a: Authority, step: Step<S>)
    requires Lists(o, w) && forall d: Domain :: NamesAll(w, d, Order(o, d), Intents(a, d))
    ensures AllNamedRecovered(w, o, a, step) == AllPendingRecovered(w, o, step)
  {
    hide NamesAll, Kept, PendingRecovered, NamedRecovered;
    assert Listing(w, Continuations, Order(o, Continuations));
    assert NamesAll(w, Continuations, Order(o, Continuations), Intents(a, Continuations));
    assert NamesAll(w, Releases, Order(o, Releases), Intents(a, Releases));
    assert NamesAll(w, Restores, Order(o, Restores), Intents(a, Restores));
    NamedIsPending(w, Continuations, o.continuations, a.continuations, step);
    NamedKeeps(w, Continuations, o.continuations, a.continuations, step);
    var first := NamedRecovered(w, Continuations, o.continuations, a.continuations, step);
    if first.ok {
      StillNamed(w, first.world, Continuations, Releases, o.releases, a.releases, Named(w, Continuations, o.continuations, a.continuations));
      StillNamed(w, first.world, Continuations, Restores, o.restores, a.restores, Named(w, Continuations, o.continuations, a.continuations));
      NamedIsPending(first.world, Releases, o.releases, a.releases, step);
      NamedKeeps(first.world, Releases, o.releases, a.releases, step);
      var second := NamedRecovered(first.world, Releases, o.releases, a.releases, step);
      if second.ok {
        StillNamed(first.world, second.world, Releases, Restores, o.restores, a.restores, Named(first.world, Releases, o.releases, a.releases));
        NamedIsPending(second.world, Restores, o.restores, a.restores, step);
      }
    }
  }

  lemma StillNamed<S>(w: World<S>, later: World<S>, d: Domain, other: Domain, ids: seq<string>, intents: map<string, string>, may: iset<string>)
    requires Kept(w, later, d, may) && other != d && Listing(w, other, ids) && NamesAll(w, other, ids, intents)
    ensures Listing(later, other, ids) && NamesAll(later, other, ids, intents)
  {
  }

  /** A row that is finished, or that the authority does not name, is exactly as before. */
  lemma UnnamedUntouched<S>(w: World<S>, o: Orders, a: Authority, step: Step<S>, d: Domain, id: string)
    requires Lists(o, w) && id in Rows(w, d) && (!Pending(w, d, id) || id !in Intents(a, d))
    ensures id in Rows(AllNamedRecovered(w, o, a, step).world, d)
    ensures Rows(AllNamedRecovered(w, o, a, step).world, d)[id] == Rows(w, d)[id]
  {
    hide NamedRecovered;
    assert Listing(w, Continuations, Order(o, Continuations));
    NamedKeeps(w, Continuations, o.continuations, a.continuations, step);
    var first := NamedRecovered(w, Continuations, o.continuations, a.continuations, step);
    if first.ok {
      assert Listing(first.world, Releases, Order(o, Releases));
      NamedKeeps(first.world, Releases, o.releases, a.releases, step);
      var second := NamedRecovered(first.world, Releases, o.releases, a.releases, step);
      if second.ok {
        assert Listing(second.world, Restores, Order(o, Restores));
        NamedKeeps(second.world, Restores, o.restores, a.restores, step);
      }
    }
  }

  /** A pending row named with another manifest makes the authority-bound recovery fail. */
  lemma ConflictFails<S>(w: World<S>, o: Orders, a: Authority, step: Step<S>, d: Domain, id: string)
    requires Lists(o, w) && Pending(w, d, id) && id in Intents(a, d) && Intents(a, d)[id] != Rows(w, d)[id].manifest
    ensures !AllNamedRecovered(w, o, a, step).ok
  {
    hide NamedRecovered;
    assert id in Order(o, d);
    assert Listing(w, Continuations, Order(o, Continuations));
    NamedKeeps(w, Continuations, o.continuations, a.continuations, step);
    var first := NamedRecovered(w, Continuations, o.continuations, a.continuations, step);
    if first.ok {
      NamedOkIsExact(w, Continuations, o.continuations, a.continuations, step);
      assert Listing(first.world, Releases, Order(o, Releases));
      NamedKeeps(first.world, Releases, o.releases, a.releases, step);
      var second := NamedRecovered(first.world, Releases, o.releases, a.releases, step);
      if second.ok {
        NamedOkIsExact(first.world, Releases, o.releases, a.releases, step);
        assert Listing(second.world, Restores, Order(o, Restores));
        if NamedRecovered(second.world, Restores, o.restores, a.restores, step).ok {
          NamedOkIsExact(second.world, Restores, o.restores, a.restores, step);
        }
      }
    }
  }

  lemma ListingMeans<S>(w: World<S>, d: Domain, ids: seq<string>)
    requires Listing(w, d, ids)
    ensures forall id <- ids :: id in Rows(w, d)
  {
  }

  class S2Controller<S> {
    var world: World<S>

    constructor (world: World<S>)
      ensures this.world == world
    {
      this.world := world;
    }

    method RecoverPending(d: Domain, ids: seq<string>, step: Step<S>) returns (ok: bool)
      requires Listing(world, d, ids)
      modifies this
      ensures Result(world, ok) == PendingRecovered(old(world), d, ids, step)
    {
      hide Kept, Recovered, Listing;
      var records := Rows(world, d);
      assert ids[0..] == ids;
      ListingMeans(world, d, ids);
      for i := 0 to |ids|
        invariant Listing(world, d, ids[i..])
        invariant forall id <- ids[i..] :: id in Rows(world, d) && id in records && Rows(world, d)[id] == records[id]
        invariant PendingRecovered(old(world), d, ids, step) == PendingRecovered(world, d, ids[i..], step)
      {
        RecoveredKeeps(world, d, ids[i..], step);
        assert ids[i..][1..] == ids[i + 1..];
        if records[ids[i]].report.Some? {
          continue;
        }
        var r := Recovered(world, d, ids[i], step);
        world := r.world;
        if !r.ok {
          return false;
        }
      }
      return true;
    }

    method RecoverNamed(d: Domain, ids: seq<string>, intents: map<string, string>, step: Step<S>) returns (ok: bool)
      requires Listing(world, d, ids)
      modifies this
      ensures Result(world, ok) == NamedRecovered(old(world), d, ids, intents, step)
    {
      hide Kept, Recovered, Listing;
      var records := Rows(world, d);
      assert ids[0..] == ids;
      ListingMeans(world, d, ids);
      for i := 0 to |ids|
        invariant Listing(world, d, ids[i..])
        invariant forall id <- ids[i..] :: id in Rows(world, d) && id in records && Rows(world, d)[id] == records[id]
        invariant NamedRecovered(old(world), d, ids, intents, step) == NamedRecovered(world, d, ids[i..], intents, step)
      {
        RecoveredKeeps(world, d, ids[i..], step);
        assert ids[i..][1..] == ids[i + 1..];
        if records[ids[i]].report.Some? || ids[i] !in intents {
          continue;
        }
        if intents[ids[i]] != records[ids[i]].manifest {
          return false;
        }
        var r := Recovered(world, d, ids[i], step);
        world := r.world;
        if !r.ok {
          return false;
        }
      }
      return true;
    }

    method Recover(o: Orders, step: Step<S>) returns (ok: bool)
      requires Lists(o, world)
      modifies this
      ensures Result(world, ok) == AllPendingRecovered(old(world), o, step)
    {
      hide PendingRecovered;
      assert Listing(world, Continuations, Order(o, Continuations));
      ok := RecoverPending(Continuations, o.continuations, step);
      if !ok {
        return;
      }
      assert Listing(world, Releases, Order(o, Releases));
      ok := RecoverPending(Releases, o.releases, step);
      if !ok {
        return;
      }
      assert Listing(world, Restores, Order(o, Restores));
      ok := RecoverPending(Restores, o.restores, step);
    }

    /** Recovery bound to the current authority; it is `Recover` when that names every pending row exactly. */
    method RecoverCurrent(o: Orders, a: Authority, step: Step<S>) returns (ok: bool)
      requires Lists(o, world)
      modifies this
      ensures Result(world, ok) == AllNamedRecovered(old(world), o, a, step)
      ensures (forall d: Domain :: NamesAll(old(world), d, Order(o, d), Intents(a, d))) ==>
        Result(world, ok) == AllPendingRecovered(old(world), o, step)
      ensures forall d: Domain, id :: id in Rows(old(world), d) && (!Pending(old(world), d, id) || id !in Intents(a, d)) ==>
        id in Rows(world, d) && Rows(world, d)[id] == Rows(old(world), d)[id]
    {
      hide NamedRecovered, PendingRecovered, NamesAll, Pending;
      ghost var before := world;
      forall d: Domain, id | id in Rows(before, d) && (!Pending(before, d, id) || id !in Intents(a, d))
        ensures id in Rows(AllNamedRecovered(before, o, a, step).world, d)
        ensures Rows(AllNamedRecovered(before, o, a, step).world, d)[id] == Rows(before, d)[id]
      {
        UnnamedUntouched(before, o, a, step, d, id);
      }
      if forall d: Domain :: NamesAll(before, d, Order(o, d), Intents(a, d)) {
        SameWhenAllNamed(before, o, a, step);
      }
      ok := RecoverCurrentDomains(o, a, step);
    }

    method RecoverCurrentDomains(o: Orders, a: Authority, step: Step<S>) returns (ok: bool)
      requires Lists(o, world)
      modifies this
      ensures Result(world, ok) == AllNamedRecovered(old(world), o, a, step)
    {
      hide NamedRecovered;
      assert Listing(world, Continuations, Order(o, Continuations));
      ok := RecoverNamed(Continuations, o.continuations, a.continuations, step);
      if !ok {
        return;
      }
      assert Listing(world, Releases, Order(o, Releases));
      ok := RecoverNamed(Releases, o.releases, a.releases, step);
      if !ok {
        return;
      }
      assert Listing(world, Restores, Order(o, Restores));
      ok := RecoverNamed(Restores, o.restores, a.restores, step);
    }
  }
}
