/** The live sessions of access grants, and waiting for a grant's sessions to end.
  *
  * Every method of the class is one critical section or one `select` of the gateway, so a run of them
  * in any order is an interleaving of its goroutines. Channels are numbered as they are made.
  */
module Sessions {
  datatype Tracked = Tracked(done: nat)

  type Table = map<string, map<nat, Tracked>>

  datatype Outcome = Waiting | Returned | Cancelled

  /** A call of `TerminateGrant`: the sessions it recorded, and how far its waiting has come. */
  datatype Waiter = Waiter(grant: string, tracked: seq<Tracked>, next: nat, outcome: Outcome)

  /** A session that was added: the grant it belongs to and the identifier it was given. The session added after
    * n others has channel n. */
  datatype Entry = Entry(grant: string, id: nat)

  const IDS: nat := 0x1_0000_0000_0000_0000

  // ---------------------------------------------------------------- what the table must hold

  /** Session `id` of the grant was added and has not finished. */
  predicate Live(added: seq<Entry>, finished: set<nat>, grant: string, id: nat) {
    Entry(grant, id) in added && id !in finished
  }

  predicate Holds(sessions: Table, grant: string, id: nat) {
    grant in sessions && id in sessions[grant]
  }

  /** Identifiers 1, 2, 3 … in order and around; a channel is closed exactly when its session has finished. */
  ghost predicate Numbered(added: seq<Entry>, finished: set<nat>, closed: seq<bool>) {
    |closed| == |added|
    && (forall k :: 0 <= k < |added| ==> added[k].id == (k + 1) % IDS)
    && (forall k :: 0 <= k < |closed| ==> (closed[k] <==> k + 1 in finished))
    && (forall id <- finished :: 1 <= id <= |added|)
  }

  lemma OnceRound(added: seq<Entry>, finished: set<nat>, closed: seq<bool>)
    requires Numbered(added, finished, closed) && |added| < IDS
    ensures forall k :: 0 <= k < |added| ==> added[k].id == k + 1
  {
  }

  /** Every channel in the table is open, was made for a session of the grant, and is there only once. */
  ghost predicate OwnChannels(sessions: Table, added: seq<Entry>, closed: seq<bool>) {
    |closed| == |added|
    && (forall g, id :: Holds(sessions, g, id) ==> OwnChannel(sessions[g][id].done, g, added, closed))
    && (forall g, id, h, x :: Holds(sessions, g, id) && Holds(sessions, h, x) && sessions[g][id].done == sessions[h][x].done ==>
      g == h && id == x)
  }

  predicate OwnChannel(channel: nat, grant: string, added: seq<Entry>, closed: seq<bool>)
    requires |closed| == |added|
  {
    channel < |closed| && !closed[channel] && added[channel].grant == grant
  }

  lemma OwnChannelsAdd(sessions: Table, added: seq<Entry>, closed: seq<bool>, grant: string, id: nat, own: map<nat, Tracked>)
    requires OwnChannels(sessions, added, closed)
    requires own == (if grant in sessions then sessions[grant] else map[])[id := Tracked(|closed|)]
    ensures OwnChannels(sessions[grant := own], added + [Entry(grant, id)], closed + [false])
  {
    AddHolds(sessions, grant, id, own, |closed|);
    hide Holds;
  }

  predicate HasChannel(sessions: Table, grant: string, id: nat, channel: nat) {
    Holds(sessions, grant, id) && sessions[grant][id].done == channel
  }

  ghost predicate InTable(sessions: Table, channel: nat) {
    exists g, id :: HasChannel(sessions, g, id, channel)
  }

  /** Adding a session puts another out of the table, still open, exactly when it is given that one's identifier.
    * No identifier is given twice before the counter has gone round. */
  lemma Overtaken(sessions: Table, added: seq<Entry>, closed: seq<bool>, grant: string, id: nat, own: map<nat, Tracked>,
                  channel: nat)
    requires OwnChannels(sessions, added, closed)
    requires own == (if grant in sessions then sessions[grant] else map[])[id := Tracked(|closed|)]
    ensures InTable(sessions, channel) && !InTable(sessions[grant := own], channel) <==> HasChannel(sessions, grant, id, channel)
    ensures HasChannel(sessions, grant, id, channel) ==> channel < |closed| && !closed[channel]
  {
    var table := sessions[grant := own];
    AddHolds(sessions, grant, id, own, |closed|);
    if HasChannel(sessions, grant, id, channel) {
      assert InTable(sessions, channel);
    } else if InTable(sessions, channel) {
      var g, x :| HasChannel(sessions, g, x, channel);
      assert HasChannel(table, g, x, channel);
    }
  }

  lemma OwnChannelsRemove(sessions: Table, added: seq<Entry>, closed: seq<bool>, grant: string, id: nat)
    requires OwnChannels(sessions, added, closed) && grant in sessions
    ensures !Holds(sessions, grant, id) ==> OwnChannels(Removed(sessions, grant, id), added, closed)
    ensures Holds(sessions, grant, id) ==>
      OwnChannels(Removed(sessions, grant, id), added, closed[sessions[grant][id].done := true])
  {
    hide Removed;
    forall g, x
      ensures var table := Removed(sessions, grant, id);
        Holds(table, g, x) ==> Holds(sessions, g, x) && !(g == grant && x == id) && table[g][x] == sessions[g][x]
    {
      RemovedHolds(sessions, grant, id, g, x);
    }
  }

  /** The nested map holds the live sessions and nothing else, and a grant only while it has one. */
  ghost predicate Mapped(sessions: Table, added: seq<Entry>, finished: set<nat>) {
    (forall g :: g in sessions <==> exists id :: Holds(sessions, g, id))
    && (forall g, id :: Holds(sessions, g, id) <==> Live(added, finished, g, id))
    && (forall g, id :: Holds(sessions, g, id) ==> sessions[g][id].done + 1 == id)
  }

  function Ids(tracked: seq<Tracked>): set<nat> {
    set t | t in tracked :: t.done + 1
  }

  /** A waiter has recorded its snapshot, has passed only closed channels, and returns after the last. */
  ghost predicate WaitsWell(w: Waiter, snapshot: set<nat>, closed: seq<bool>) {
    snapshot == Ids(w.tracked) && w.next <= |w.tracked|
    && (forall i :: 0 <= i < |w.tracked| ==> w.tracked[i].done < |closed|)
    && (forall i :: 0 <= i < w.next ==> closed[w.tracked[i].done])
    && (w.outcome.Returned? ==> w.next == |w.tracked|)
  }

  ghost predicate Waits(waiters: seq<Waiter>, snapshots: seq<set<nat>>, closed: seq<bool>) {
    |snapshots| == |waiters| && forall w :: 0 <= w < |waiters| ==> WaitsWell(waiters[w], snapshots[w], closed)
  }

  lemma AddKeeps(sessions: Table, added: seq<Entry>, finished: set<nat>, closed: seq<bool>,
                 grant: string, own: map<nat, Tracked>)
    requires Numbered(added, finished, closed) && Mapped(sessions, added, finished) && |added| + 1 < IDS
    requires own == (if grant in sessions then sessions[grant] else map[])[|added| + 1 := Tracked(|closed|)]
    ensures Mapped(sessions[grant := own], added + [Entry(grant, |added| + 1)], finished)
  {
    OnceRound(added, finished, closed);
    var more, table := added + [Entry(grant, |added| + 1)], sessions[grant := own];
    forall g, id ensures Holds(table, g, id) <==> Live(more, finished, g, id) {
      assert Holds(table, g, id) <==> Holds(sessions, g, id) || (g == grant && id == |added| + 1);
    }
    assert Holds(table, grant, |added| + 1);
    forall g | g in table ensures exists id :: Holds(table, g, id) {
      if g != grant {
        var id :| Holds(sessions, g, id);
        assert Holds(table, g, id);
      }
    }
  }

  /** The table without one session, and without its grant when that was the last. */
  function Removed(sessions: Table, grant: string, id: nat): Table
    requires grant in sessions
  {
    var own := sessions[grant] - {id};
    if own == map[] then sessions - {grant} else sessions[grant := own]
  }

  lemma RemovedHolds(sessions: Table, grant: string, id: nat, g: string, x: nat)
    requires grant in sessions
    ensures var table := Removed(sessions, grant, id);
      && (Holds(table, g, x) <==> Holds(sessions, g, x) && !(g == grant && x == id))
      && (Holds(table, g, x) ==> table[g][x] == sessions[g][x])
  {
    var own := sessions[grant] - {id};
    if g == grant {
      assert own == map[] ==> x !in own;
    }
  }

  lemma RemovedGrants(sessions: Table, grant: string, id: nat)
    requires grant in sessions && forall g :: g in sessions <==> exists x :: Holds(sessions, g, x)
    ensures forall g :: g in Removed(sessions, grant, id) <==> exists x :: Holds(Removed(sessions, grant, id), g, x)
  {
    var table := Removed(sessions, grant, id);
    forall g | g in table ensures exists x :: Holds(table, g, x) {
      if g == grant {
        var own := sessions[grant] - {id};
        var x :| x in own;
        assert Holds(table, g, x);
      } else {
        var x :| Holds(sessions, g, x);
        RemovedHolds(sessions, grant, id, g, x);
      }
    }
  }

  /** What is live once a live session has finished. */
  lemma LiveAfter(added: seq<Entry>, finished: set<nat>, grant: string, id: nat, g: string, x: nat)
    requires forall j, k :: 0 <= j < |added| && 0 <= k < |added| && added[j].id == added[k].id ==> j == k
    requires Live(added, finished, grant, id)
    ensures Live(added, finished + {id}, g, x) <==> Live(added, finished, g, x) && !(g == grant && x == id)
  {
    if x == id && Entry(g, x) in added {
      var j :| 0 <= j < |added| && added[j] == Entry(g, x);
      var k :| 0 <= k < |added| && added[k] == Entry(grant, id);
    }
  }

  lemma RemovedLive(sessions: Table, added: seq<Entry>, finished: set<nat>, grant: string, id: nat, g: string, x: nat)
    requires Mapped(sessions, added, finished) && grant in sessions
    requires forall j, k :: 0 <= j < |added| && 0 <= k < |added| && added[j].id == added[k].id ==> j == k
    ensures var table := Removed(sessions, grant, id);
            var done := if Live(added, finished, grant, id) then finished + {id} else finished;
      (Holds(table, g, x) <==> Live(added, done, g, x)) && (Holds(table, g, x) ==> table[g][x].done + 1 == x)
  {
    hide Live, Removed, Holds;
    RemovedHolds(sessions, grant, id, g, x);
    if Live(added, finished, grant, id) {
      LiveAfter(added, finished, grant, id, g, x);
    }
  }

  /** The three parts of the table's meaning together. */
  lemma MappedFrom(sessions: Table, added: seq<Entry>, finished: set<nat>)
    requires forall g :: g in sessions <==> exists id :: Holds(sessions, g, id)
    requires forall g, id :: Holds(sessions, g, id) <==> Live(added, finished, g, id)
    requires forall g, id :: Holds(sessions, g, id) ==> sessions[g][id].done + 1 == id
    ensures Mapped(sessions, added, finished)
  {
    hide Live;
  }

  lemma FinishKeeps(sessions: Table, added: seq<Entry>, finished: set<nat>, grant: string, id: nat)
    requires Mapped(sessions, added, finished) && grant in sessions
    requires forall j, k :: 0 <= j < |added| && 0 <= k < |added| && added[j].id == added[k].id ==> j == k
    ensures Mapped(Removed(sessions, grant, id), added,
                   if Live(added, finished, grant, id) then finished + {id} else finished)
  {
    RemovedGrants(sessions, grant, id) by {
      hide Live, Removed;
    }
    hide Mapped, Live, Removed, Holds;
    var table := Removed(sessions, grant, id);
    var done := if Live(added, finished, grant, id) then finished + {id} else finished;
    forall g, x
      ensures (Holds(table, g, x) <==> Live(added, done, g, x)) && (Holds(table, g, x) ==> table[g][x].done + 1 == x)
    {
      RemovedLive(sessions, added, finished, grant, id, g, x);
    }
    MappedFrom(table, added, done);
  }

  lemma AddNumbered(added: seq<Entry>, finished: set<nat>, closed: seq<bool>, grant: string)
    requires Numbered(added, finished, closed)
    ensures |closed| == |added| && Numbered(added + [Entry(grant, (|added| + 1) % IDS)], finished, closed + [false])
    ensures |added| + 1 < IDS ==> forall e <- added :: e.id != |added| + 1
  {
  }

  lemma AddHolds(sessions: Table, grant: string, id: nat, own: map<nat, Tracked>, channel: nat)
    requires own == (if grant in sessions then sessions[grant] else map[])[id := Tracked(channel)]
    ensures var table := sessions[grant := own];
      Holds(table, grant, id) && table[grant][id].done == channel
      && forall g, x | !(g == grant && x == id) ::
        Holds(table, g, x) == Holds(sessions, g, x) && (Holds(table, g, x) ==> table[g][x] == sessions[g][x])
  {
  }

  lemma FinishNumbered(added: seq<Entry>, finished: set<nat>, closed: seq<bool>, channel: nat)
    requires Numbered(added, finished, closed) && channel < |closed|
    ensures Numbered(added, finished + {channel + 1}, closed[channel := true])
  {
  }

  /** Channels only ever close, so what a waiter has passed stays passed. */
  lemma WaitsOn(waiters: seq<Waiter>, snapshots: seq<set<nat>>, closed: seq<bool>, later: seq<bool>)
    requires Waits(waiters, snapshots, closed) && |closed| <= |later|
    requires forall k :: 0 <= k < |closed| && closed[k] ==> later[k]
    ensures Waits(waiters, snapshots, later)
  {
    forall w | 0 <= w < |waiters| ensures WaitsWell(waiters[w], snapshots[w], later) {
      assert WaitsWell(waiters[w], snapshots[w], closed);
    }
  }

  /** The sessions of a grant's map, as they were numbered when added. */
  function Channels(own: map<nat, Tracked>): set<nat> {
    set id | id in own :: own[id].done + 1
  }

  lemma SnapshotExact(sessions: Table, added: seq<Entry>, finished: set<nat>, grant: string, own: map<nat, Tracked>)
    requires Mapped(sessions, added, finished)
    requires own == if grant in sessions then sessions[grant] else map[]
    ensures forall n :: n in Channels(own) <==> Live(added, finished, grant, n)
  {
    forall id ensures id in own <==> Live(added, finished, grant, id) {
      assert id in own <==> Holds(sessions, grant, id);
    }
    forall id | id in own ensures own[id].done + 1 == id {
      assert Holds(sessions, grant, id);
    }
    assert Channels(own) == own.Keys;
  }

  lemma ChannelsOf(sessions: Table, added: seq<Entry>, closed: seq<bool>, grant: string, own: map<nat, Tracked>)
    requires OwnChannels(sessions, added, closed) && own == if grant in sessions then sessions[grant] else map[]
    ensures forall n <- Channels(own) :: n <= |closed|
  {
    forall id | id in own ensures own[id].done < |closed| {
      assert Holds(sessions, grant, id);
    }
  }

  lemma FreshWaiter(w: Waiter, snapshot: set<nat>, closed: seq<bool>)
    requires w.next == 0 && w.outcome.Waiting? && snapshot == Ids(w.tracked)
    requires forall id <- snapshot :: id <= |closed|
    ensures WaitsWell(w, snapshot, closed)
  {
    forall i | 0 <= i < |w.tracked| ensures w.tracked[i].done < |closed| {
      assert w.tracked[i] in w.tracked && w.tracked[i].done + 1 in Ids(w.tracked);
    }
  }

  lemma NoIds(own: map<nat, Tracked>)
    ensures Ids([]) == Channels(own - own.Keys)
  {
  }

  lemma ChannelsMore(own: map<nat, Tracked>, left: set<nat>, id: nat)
    requires id in left && left <= own.Keys
    ensures Channels(own - (left - {id})) == Channels(own - left) + {own[id].done + 1}
  {
    var before, after := own - left, own - (left - {id});
    assert after == before[id := own[id]];
    assert after[id] == own[id];
    forall x | x in before ensures before[x].done + 1 in Channels(after) {
      assert after[x] == before[x];
    }
  }

  lemma IdsAppend(tracked: seq<Tracked>, one: Tracked)
    ensures Ids(tracked + [one]) == Ids(tracked) + {one.done + 1}
  {
    var all := tracked + [one];
    assert one in all && forall t <- tracked :: t in all;
    assert forall t <- all :: t in tracked || t == one;
  }

  lemma InRange(w: Waiter, snapshot: set<nat>, closed: seq<bool>)
    requires WaitsWell(w, snapshot, closed)
    ensures w.next <= |w.tracked| && forall i :: 0 <= i < |w.tracked| ==> w.tracked[i].done < |closed|
    ensures w.outcome.Returned? ==> w.next == |w.tracked|
  {
  }

  lemma StepKeeps(w: Waiter, after: Waiter, snapshot: set<nat>, closed: seq<bool>)
    requires WaitsWell(w, snapshot, closed)
    requires w.grant == after.grant && w.tracked == after.tracked
    requires after.next == w.next || (w.next < |w.tracked| && closed[w.tracked[w.next].done] && after.next == w.next + 1)
    requires after.outcome.Returned? ==> after.next == |w.tracked|
    ensures WaitsWell(after, snapshot, closed)
  {
  }

  lemma PassedAreFinished(added: seq<Entry>, finished: set<nat>, closed: seq<bool>, w: Waiter, snapshot: set<nat>)
    requires Numbered(added, finished, closed) && WaitsWell(w, snapshot, closed)
    ensures w.outcome.Returned? ==> snapshot <= finished
    ensures snapshot <= finished ==> forall i :: 0 <= i < |w.tracked| ==> closed[w.tracked[i].done]
  {
  }

  class Gateway {
    var sessions: Table
    var nextID: nat
    var closed: seq<bool>
    var cancelled: set<nat>
    var waiters: seq<Waiter>
    ghost var added: seq<Entry>
    ghost var finished: set<nat>
    ghost var snapshots: seq<set<nat>>

    constructor ()
      ensures Valid() && added == [] && waiters == [] && finished == {}
    {
      sessions, nextID, closed, cancelled, waiters := map[], 0, [], {}, [];
      added, finished, snapshots := [], {}, [];
    }

    /** What holds between any two critical sections. The table is the live sessions until the counter has gone
      * once round; from then on a session may take the place of another. */
    ghost predicate Valid()
      reads this
    {
      && nextID == |added| % IDS
      && Numbered(added, finished, closed)
      && OwnChannels(sessions, added, closed)
      && Waits(waiters, snapshots, closed)
      && (|added| < IDS ==> Mapped(sessions, added, finished))
    }

    method AddSession(grant: string) returns (id: nat)
      requires Valid()
      modifies this`sessions, this`nextID, this`closed, this`added
      ensures Valid()
      ensures added == old(added) + [Entry(grant, id)] && id == |added| % IDS
      ensures Holds(sessions, grant, id) && sessions[grant][id].done == |old(added)|
      ensures forall g, x | !(g == grant && x == id) ::
        Holds(sessions, g, x) == old(Holds(sessions, g, x)) && (Holds(sessions, g, x) ==> sessions[g][x] == old(sessions[g][x]))
      ensures |added| < IDS ==> forall e <- old(added) :: e.id != id
    {
      hide Mapped, Waits, OwnChannels, Numbered, Holds;
      var own: map<nat, Tracked> := if grant in sessions then sessions[grant] else map[];
      AddNumbered(added, finished, closed, grant);
      NextID(|added|);
      nextID := (nextID + 1) % IDS;
      id := nextID;
      own := own[id := Tracked(|closed|)];
      if |added| + 1 < IDS {
        AddKeeps(sessions, added, finished, closed, grant, own);
      }
      AddHolds(sessions, grant, id, own, |closed|);
      OwnChannelsAdd(sessions, added, closed, grant, id, own);
      WaitsOn(waiters, snapshots, closed, closed + [false]);
      closed := closed + [false];
      sessions := sessions[grant := own];
      added := added + [Entry(grant, id)];
    }

    /** Finishes the session the identifier names in the table, if there is one. */
    method FinishSession(grant: string, id: nat)
      requires Valid()
      modifies this`sessions, this`closed, this`finished
      ensures Valid()
      ensures finished == old(finished) + (if old(Holds(sessions, grant, id)) then {old(sessions[grant][id].done) + 1} else {})
      ensures |added| < IDS ==> finished == old(finished) + (if old(Live(added, finished, grant, id)) then {id} else {})
      ensures forall g, x :: Holds(sessions, g, x) <==> old(Holds(sessions, g, x)) && !(g == grant && x == id)
    {
      hide Waits, Mapped, Removed, Numbered;
      if |added| < IDS {
        UnfoldMapped(sessions, added, finished, grant, id);
      }
      if grant !in sessions {
        return;
      }
      if |added| < IDS {
        OnceRound(added, finished, closed);
        FinishKeeps(sessions, added, finished, grant, id);
      }
      OwnChannelsRemove(sessions, added, closed, grant, id);
      forall g, x {
        RemovedHolds(sessions, grant, id, g, x);
      }
      if id in sessions[grant] {
        var channel := sessions[grant][id].done;
        assert Holds(sessions, grant, id);
        FinishNumbered(added, finished, closed, channel);
        WaitsOn(waiters, snapshots, closed, closed[channel := true]);
        Close(channel);
        finished := finished + {channel + 1};
      }
      sessions := Removed(sessions, grant, id);
    }

    /** The critical section of `TerminateGrant`: records the sessions the table has for the grant and cancels each. */
    method BeginTerminate(grant: string) returns (w: nat)
      requires Valid()
      modifies this`cancelled, this`waiters, this`snapshots
      ensures Valid() && w == |old(waiters)|
      ensures |waiters| == |snapshots| == w + 1 && waiters[..w] == old(waiters) && snapshots[..w] == old(snapshots)
      ensures waiters[w].outcome.Waiting? && waiters[w].next == 0
      ensures forall id :: Holds(sessions, grant, id) ==> sessions[grant][id].done + 1 in snapshots[w]
      ensures |added| < IDS ==> forall id :: id in snapshots[w] <==> Live(added, finished, grant, id)
      ensures forall id :: Holds(sessions, grant, id) ==> sessions[grant][id].done in cancelled
    {
      hide Mapped, Numbered, OwnChannels, WaitsWell, Live;
      var own: map<nat, Tracked> := if grant in sessions then sessions[grant] else map[];
      ChannelsOf(sessions, added, closed, grant, own);
      if |added| < IDS {
        SnapshotExact(sessions, added, finished, grant, own);
      }
      var tracked := Record(own);
      w := |waiters|;
      waiters := waiters + [Waiter(grant, tracked, 0, Waiting)];
      snapshots := snapshots + [Channels(own)];
      FreshWaiter(waiters[w], Channels(own), closed);
    }

    /** Collects and cancels the sessions of a grant, in whatever order the map gives them. */
    method Record(own: map<nat, Tracked>) returns (tracked: seq<Tracked>)
      modifies this`cancelled
      ensures Ids(tracked) == Channels(own) && old(cancelled) <= cancelled
      ensures forall id :: id in own ==> own[id].done in cancelled
    {
      hide Ids, Channels;
      tracked := [];
      var left := own.Keys;
      assert Ids([]) == Channels(own - left) by {
        NoIds(own);
      }
      while left != {}
        invariant left <= own.Keys && old(cancelled) <= cancelled
        invariant Ids(tracked) == Channels(own - left)
        invariant forall id :: id in own.Keys - left ==> own[id].done in cancelled
      {
        var id :| id in left;
        IdsAppend(tracked, own[id]);
        ChannelsMore(own, left, id);
        tracked := tracked + [own[id]];
        cancelled := cancelled + {own[id].done};
        left := left - {id};
      }
      assert own - {} == own;
    }

    /** One `select` of a waiter: the next channel is closed, or the caller gives up, or neither yet. */
    method Await(w: nat, givesUp: bool)
      requires Valid() && w < |waiters|
      modifies this`waiters
      ensures Valid()
      ensures |waiters| == |old(waiters)| && forall v :: 0 <= v < |waiters| && v != w ==> waiters[v] == old(waiters[v])
      ensures waiters[w].outcome.Returned? ==> snapshots[w] <= finished
      ensures !givesUp && snapshots[w] <= finished && old(waiters[w].outcome.Waiting?) ==>
        waiters[w].outcome.Returned? || (waiters[w].outcome.Waiting? && waiters[w].next == old(waiters[w].next) + 1)
    {
      hide Mapped, Numbered, OwnChannels, WaitsWell;
      var own := waiters[w];
      assert WaitsWell(own, snapshots[w], closed);
      InRange(own, snapshots[w], closed);
      if own.outcome.Waiting? {
        if own.next == |own.tracked| {
          own := own.(outcome := Returned);
        } else {
          var ready := closed[own.tracked[own.next].done];
          var first: bool := *;
          if ready && (first || !givesUp) {
            own := own.(next := own.next + 1);
          } else if givesUp {
            own := own.(outcome := Cancelled);
          }
        }
      }
      StepKeeps(waiters[w], own, snapshots[w], closed);
      PassedAreFinished(added, finished, closed, own, snapshots[w]);
      waiters := waiters[w := own];
    }

    /** Any number of steps of the other goroutines, in any order. */
    method Others(steps: nat, mine: nat)
      requires Valid() && mine < |waiters|
      modifies this
      ensures Valid()
      ensures old(added) <= added && old(finished) <= finished
      ensures mine < |waiters| && waiters[mine] == old(waiters[mine]) && snapshots[mine] == old(snapshots[mine])
    {
      hide Mapped, Numbered, OwnChannels, WaitsWell;
      for i := 0 to steps
        invariant Valid()
        invariant old(added) <= added && old(finished) <= finished
        invariant mine < |waiters| && waiters[mine] == old(waiters[mine]) && snapshots[mine] == old(snapshots[mine])
      {
        var grant: string := *;
        var id: nat := *;
        var kind: nat := *;
        var givesUp: bool := *;
        if kind == 0 {
          id := AddSession(grant);
        } else if kind == 1 {
          FinishSession(grant, id);
        } else if kind == 2 {
          id := BeginTerminate(grant);
        } else if id < |waiters| && id != mine {
          Await(id, givesUp);
        }
      }
    }

    /** A nil return means that every session the table had for the grant has finished: until the counter has gone
      * round, every session of the grant that was live. */
    method TerminateGrant(grant: string, patience: nat) returns (outcome: Outcome)
      requires Valid()
      modifies this
      ensures Valid() && old(added) <= added
      ensures outcome.Returned? ==>
        forall id :: old(Holds(sessions, grant, id)) ==> old(sessions[grant][id].done) + 1 in finished
      ensures outcome.Returned? && |old(added)| < IDS ==>
        forall id :: old(Live(added, finished, grant, id)) ==> id in finished
    {
      hide Mapped, Numbered, OwnChannels, WaitsWell;
      var w := BeginTerminate(grant);
      ghost var snapshot := snapshots[w];
      outcome := Waiting;
      for turn := 0 to patience
        invariant Valid() && old(added) <= added
        invariant w < |waiters| && snapshots[w] == snapshot
        invariant outcome.Returned? ==> snapshot <= finished
      {
        var steps: nat := *;
        var givesUp: bool := *;
        Others(steps, w);
        Await(w, givesUp);
        outcome := waiters[w].outcome;
        if !outcome.Waiting? {
          break;
        }
      }
    }

    /** Closing a closed channel panics, so no caller may do it. */
    method Close(channel: nat)
      requires channel < |closed| && !closed[channel]
      modifies this`closed
      ensures closed == old(closed)[channel := true]
    {
      closed := closed[channel := true];
    }
  }

  lemma NextID(n: nat)
    ensures (n % IDS + 1) % IDS == (n + 1) % IDS
  {
  }

  lemma UnfoldMapped(sessions: Table, added: seq<Entry>, finished: set<nat>, grant: string, id: nat)
    requires Mapped(sessions, added, finished)
    ensures Holds(sessions, grant, id) <==> Live(added, finished, grant, id)
    ensures Holds(sessions, grant, id) ==> sessions[grant][id].done + 1 == id
  {
  }
}
