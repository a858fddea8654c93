/** The incident-change cursor of one monitored source: pages, the outbox, and acknowledgement.
  *
  * One registered source, one collector. The store keeps at most one unacknowledged batch per source and
  * moves the cursor in the transaction that removes the batch. A crash is a failure of the next effect,
  * after which a pass does nothing more. `smooth` stays true while no effect fails or loses its answer.
  */
module Collector {
  import opened Options

  datatype Finding = Finding(id: string, lastSequence: int)

  datatype Change = Change(sequence: int, finding: Finding)

  datatype Cursor = Cursor(revision: int, generation: string, change: int, through: int, status: string, gap: string)

  datatype Request = Request(after: int, expected: Option<string>)

  /** `echoes`: the format, action and identity fields are the requested ones, the generation is well shaped. */
  datatype Response = Response(
    echoes: bool,
    generation: string,
    healthGeneration: string,
    from: int,
    next: int,
    throughChange: int,
    through: int,
    complete: bool,
    gap: Option<string>,
    changes: seq<Change>)

  datatype Batch = Batch(revision: int, generation: string, through: int, observedAt: int,
                         status: string, gap: Option<string>, findings: seq<Finding>)

  datatype Item = Item(batch: Batch, next: Cursor)

  /** What the control plane answered, if the answer arrived. */
  datatype Receipt = Receipt(accepted: nat, through: int)

  const PAGE_LIMIT: nat := 64

  // ---------------------------------------------------------------- chains of pages

  /** An acknowledged page: the cursor it was requested from, the one it moved to, and its changes with their findings. */
  datatype Page = Page(start: int, end: int, generation: string, sequences: seq<int>, findings: seq<Finding>)

  predicate Increasing(s: seq<int>) {
    forall i, j :: 0 <= i < j < |s| ==> s[i] < s[j]
  }

  /** Increasing, after `start` and up to `end`. */
  predicate InOrder(s: seq<int>, start: int, end: int) {
    Increasing(s) && forall i :: 0 <= i < |s| ==> start < s[i] <= end
  }

  ghost predicate PageWell(p: Page) {
    p.start <= p.end && |p.findings| == |p.sequences| && InOrder(p.sequences, p.start, p.end)
    && (p.sequences != [] ==> p.sequences[|p.sequences| - 1] == p.end)
  }

  function End(pages: seq<Page>): int {
    if pages == [] then 0 else pages[|pages| - 1].end
  }

  /** The pages that may be acknowledged after these: from their end, and empty on a new journal. */
  ghost predicate Follows(pages: seq<Page>, p: Page) {
    PageWell(p) && p.start == End(pages)
    && (pages != [] && pages[|pages| - 1].generation != p.generation ==> p.sequences == [])
  }

  ghost predicate Chained(pages: seq<Page>) {
    forall i :: 0 <= i < |pages| ==> Follows(pages[..i], pages[i])
  }

  function Changes(pages: seq<Page>): seq<int> {
    if pages == [] then [] else Changes(pages[..|pages| - 1]) + pages[|pages| - 1].sequences
  }

  lemma ChainedMore(pages: seq<Page>, p: Page)
    requires Chained(pages) && Follows(pages, p)
    ensures Chained(pages + [p])
  {
    forall i | 0 <= i < |pages + [p]| ensures Follows((pages + [p])[..i], (pages + [p])[i]) {
      if i < |pages| {
        assert (pages + [p])[..i] == pages[..i];
      } else {
        assert (pages + [p])[..i] == pages;
      }
    }
  }

  lemma ChainedPrefix(pages: seq<Page>, n: nat)
    requires Chained(pages) && n <= |pages|
    ensures Chained(pages[..n])
  {
    forall i | 0 <= i < n ensures Follows(pages[..n][..i], pages[..n][i]) {
      assert pages[..n][..i] == pages[..i];
    }
  }

  /** Along a chain every change is acknowledged once, in order, and the cursor has passed them all. */
  lemma {:induction false} ChangesIncrease(pages: seq<Page>)
    requires Chained(pages)
    ensures Increasing(Changes(pages)) && 0 <= End(pages)
    ensures forall s <- Changes(pages) :: 0 < s <= End(pages)
  {
    if pages != [] {
      var before, last := pages[..|pages| - 1], pages[|pages| - 1];
      ChainedPrefix(pages, |before|);
      ChangesIncrease(before);
      assert Follows(before, last);
      var all := Changes(before) + last.sequences;
      forall i, j | 0 <= i < j < |all| ensures all[i] < all[j] {
        if i < |Changes(before)| <= j {
          assert all[i] in Changes(before) && all[j] in last.sequences;
        }
      }
    }
  }

  /** The cursor never decreases, and the changes a chain has acknowledged stay acknowledged first. */
  lemma {:induction false} CursorNeverDecreases(pages: seq<Page>, i: nat)
    requires Chained(pages) && i <= |pages|
    ensures End(pages[..i]) <= End(pages)
    ensures Changes(pages[..i]) <= Changes(pages)
    decreases |pages| - i
  {
    if i == |pages| {
      assert pages[..i] == pages;
    } else {
      CursorNeverDecreases(pages, i + 1);
      assert Follows(pages[..i], pages[i]);
      assert pages[..i + 1][..i] == pages[..i];
    }
  }

  // ---------------------------------------------------------------- the trace of batches

  datatype Fate = Open | Acknowledged | Retired

  /** A batch that was put in the outbox: its page, what is sent for it, and what has become of it. */
  datatype Stored = Stored(page: Page, batch: Batch, fate: Fate)

  /** What is sent for a page: its findings, all of them and in its order. */
  predicate Carries(batch: Batch, page: Page) {
    batch.findings == page.findings && batch.generation == page.generation
  }

  /** Every batch carries its page, and what was acknowledged was submitted. */
  ghost predicate Reported(batches: seq<Stored>, submissions: seq<nat>) {
    (forall i :: 0 <= i < |batches| ==> Carries(batches[i].batch, batches[i].page))
    && (forall i :: 0 <= i < |batches| && batches[i].fate.Acknowledged? ==> i in submissions)
  }

  /** Batches in the order they were stored, and submissions naming them by their position: what is
    * acknowledged is behind every later batch, and only the last batch can still be submitted. */
  ghost predicate TraceSound(batches: seq<Stored>, submissions: seq<nat>, end: int, pending: Option<Page>) {
    (forall i :: 0 <= i < |batches| ==> PageWell(batches[i].page))
    && (forall i :: 0 <= i < |batches| && batches[i].fate.Acknowledged? ==> batches[i].page.end <= end)
    && (forall i, j :: 0 <= i < j < |batches| && batches[i].fate.Acknowledged? ==>
      batches[i].page.end <= batches[j].page.start)
    && (forall i :: 0 <= i < |batches| - 1 ==> !batches[i].fate.Open?)
    && (pending.Some? <==> batches != [] && batches[|batches| - 1].fate.Open?)
    && (pending.Some? ==> batches[|batches| - 1].page == pending.value)
    && (forall k :: 0 <= k < |submissions| ==> submissions[k] < |batches|)
    && (forall k, l :: 0 <= k < l < |submissions| ==> submissions[k] <= submissions[l])
  }

  /** The pages of the acknowledged batches. */
  ghost function Accepted(batches: seq<Stored>): seq<Page> {
    if batches == [] then [] else
      var last := batches[|batches| - 1];
      Accepted(batches[..|batches| - 1]) + (if last.fate.Acknowledged? then [last.page] else [])
  }

  /** Two different submitted batches report one change only if the earlier was retired unacknowledged. */
  ghost predicate SharedOnlyAfterRetirement(batches: seq<Stored>, submissions: seq<nat>) {
    forall k, l, s :: 0 <= k < l < |submissions| && submissions[k] != submissions[l]
      && submissions[k] < |batches| && submissions[l] < |batches|
      && s in batches[submissions[k]].page.sequences && s in batches[submissions[l]].page.sequences
      ==> batches[submissions[k]].fate.Retired?
  }

  /** The finding of every acknowledged change was in a batch that was submitted, at the change's place. */
  ghost predicate FindingsSent(batches: seq<Stored>, submissions: seq<nat>) {
    forall i, j :: 0 <= i < |batches| && batches[i].fate.Acknowledged? && 0 <= j < |batches[i].page.sequences| ==>
      i in submissions && j < |batches[i].batch.findings| && j < |batches[i].page.findings|
      && batches[i].batch.findings[j] == batches[i].page.findings[j]
  }

  lemma SentWhereReported(batches: seq<Stored>, submissions: seq<nat>, end: int, pending: Option<Page>)
    requires TraceSound(batches, submissions, end, pending) && Reported(batches, submissions)
    ensures FindingsSent(batches, submissions)
  {
    forall i | 0 <= i < |batches| ensures PageWell(batches[i].page) && Carries(batches[i].batch, batches[i].page) {
    }
    hide TraceSound, InOrder;
  }

  lemma TraceShares(batches: seq<Stored>, submissions: seq<nat>, end: int, pending: Option<Page>)
    requires TraceSound(batches, submissions, end, pending)
    ensures SharedOnlyAfterRetirement(batches, submissions)
  {
    forall k, l, s | 0 <= k < l < |submissions| && submissions[k] != submissions[l]
      && s in batches[submissions[k]].page.sequences && s in batches[submissions[l]].page.sequences
      ensures batches[submissions[k]].fate.Retired?
    {
      var earlier, later := batches[submissions[k]], batches[submissions[l]];
      assert submissions[k] < submissions[l];
      InPage(earlier.page, s);
      InPage(later.page, s);
    }
  }

  lemma InPage(p: Page, s: int)
    requires PageWell(p) && s in p.sequences
    ensures p.start < s <= p.end
  {
  }

  /** Stored, submitted, retired before the answer came, collected again, stored and submitted again: the second
    * batch reports the change of the first. */
  lemma RetiredIsReportedAgain(page: Page, batch: Batch, s: int)
    requires PageWell(page) && page.start == 0 && s in page.sequences
    ensures
      var first := [Stored(page, batch, Open)];
      var second := [Stored(page, batch, Retired), Stored(page, batch, Open)];
      TraceSound(first, [0], 0, Some(page)) && TraceSound(Settled(first, Retired), [0], 0, None)
      && Settled(first, Retired) + [Stored(page, batch, Open)] == second && TraceSound(second, [0, 1], 0, Some(page))
      && s in second[0].page.sequences && s in second[1].page.sequences
  {
    hide PageWell;
    assert Settled([Stored(page, batch, Open)], Retired) == [Stored(page, batch, Retired)];
  }

  lemma StoredMore(batches: seq<Stored>, submissions: seq<nat>, pages: seq<Page>, page: Page, batch: Batch)
    requires TraceSound(batches, submissions, End(pages), None) && Follows(pages, page)
    requires Reported(batches, submissions) && Carries(batch, page)
    ensures Reported(batches + [Stored(page, batch, Open)], submissions)
    ensures TraceSound(batches + [Stored(page, batch, Open)], submissions, End(pages), Some(page))
    ensures Accepted(batches + [Stored(page, batch, Open)]) == Accepted(batches)
  {
    assert (batches + [Stored(page, batch, Open)])[..|batches|] == batches;
  }

  lemma SubmittedMore(batches: seq<Stored>, submissions: seq<nat>, end: int, page: Page)
    requires TraceSound(batches, submissions, end, Some(page)) && Reported(batches, submissions)
    ensures batches != [] && TraceSound(batches, submissions + [|batches| - 1], end, Some(page))
    ensures Reported(batches, submissions + [|batches| - 1])
  {
  }

  /** The trace with the fate of its last batch decided. */
  function Settled(batches: seq<Stored>, fate: Fate): seq<Stored> {
    if batches == [] then [] else batches[..|batches| - 1] + [batches[|batches| - 1].(fate := fate)]
  }

  lemma SettledAppended(batches: seq<Stored>, last: Stored, fate: Fate)
    ensures Settled(batches + [last], fate) == batches + [last.(fate := fate)]
  {
    assert (batches + [last])[..|batches|] == batches;
  }

  lemma {:induction false} AcknowledgedSound(batches: seq<Stored>, submissions: seq<nat>, pages: seq<Page>, page: Page)
    requires TraceSound(batches, submissions, End(pages), Some(page)) && Follows(pages, page)
    ensures batches != []
    ensures TraceSound(Settled(batches, Acknowledged), submissions, End(pages + [page]), None)
    ensures Accepted(Settled(batches, Acknowledged)) == Accepted(batches) + [page]
    ensures End(pages + [page]) == page.end
  {
    assert Settled(batches, Acknowledged)[..|batches| - 1] == batches[..|batches| - 1];
  }

  lemma AcknowledgedReported(batches: seq<Stored>, submissions: seq<nat>)
    requires batches != [] && Reported(batches, submissions) && |batches| - 1 in submissions
    ensures Reported(Settled(batches, Acknowledged), submissions)
  {
    hide Carries;
  }

  lemma {:induction false} RetiredSound(batches: seq<Stored>, submissions: seq<nat>, end: int, page: Page)
    requires TraceSound(batches, submissions, end, Some(page)) && Reported(batches, submissions)
    ensures TraceSound(Settled(batches, Retired), submissions, end, None) && Reported(Settled(batches, Retired), submissions)
    ensures Accepted(Settled(batches, Retired)) == Accepted(batches)
  {
    assert Settled(batches, Retired)[..|batches| - 1] == batches[..|batches| - 1];
  }

  // ---------------------------------------------------------------- one page

  function Opening(cursor: Option<Cursor>): Request {
    match cursor
    case None => Request(0, None)
    case Some(c) => Request(c.change, if c.generation != "" then Some(c.generation) else None)
  }

  /** The checks on a response before its changes are read. */
  predicate HeaderOk(request: Request, r: Response) {
    r.echoes && r.generation != "" && r.healthGeneration == r.generation && r.from == request.after
    && request.after <= r.next <= r.throughChange && 0 <= r.through
    && (r.complete <==> r.gap.None?)
    && (request.expected.Some? && r.generation != request.expected.value ==>
      r.gap == Some("journal_generation_changed") && r.changes == [] && r.next == r.throughChange)
  }

  function Sequences(changes: seq<Change>): (s: seq<int>)
    ensures |s| == |changes| && forall i :: 0 <= i < |s| ==> s[i] == changes[i].sequence
  {
    seq(|changes|, i requires 0 <= i < |changes| => changes[i].sequence)
  }

  function Findings(changes: seq<Change>): (s: seq<Finding>)
    ensures |s| == |changes| && forall i :: 0 <= i < |s| ==> s[i] == changes[i].finding
  {
    seq(|changes|, i requires 0 <= i < |changes| => changes[i].finding)
  }

  /** The page a response describes is well formed, short enough, and carries only valid findings. */
  ghost predicate ChangesOk(request: Request, r: Response, valid: (Finding, int) -> bool) {
    PageWell(Page(request.after, r.next, r.generation, Sequences(r.changes), Findings(r.changes)))
    && |r.changes| <= PAGE_LIMIT
    && forall change <- r.changes :: valid(change.finding, r.through)
  }

  /** A response that a collection accepts. */
  ghost predicate Collectable(request: Request, r: Response, valid: (Finding, int) -> bool) {
    HeaderOk(request, r) && ChangesOk(request, r, valid)
  }

  /** What a header must say: who answers, one generation throughout, where the page starts, how far the journal
    * goes, complete or why not; another generation than the expected one only with nothing but a new start. */
  lemma HeaderMeans(request: Request, r: Response)
    ensures HeaderOk(request, r) <==>
      r.echoes && r.from == request.after <= r.next <= r.throughChange && r.through >= 0
      && r.healthGeneration == r.generation != "" && r.complete == r.gap.None?
      && (request.expected.None? || request.expected.value == r.generation
          || (r.gap == Some("journal_generation_changed") && |r.changes| == 0 && r.next == r.throughChange))
  {
  }

  /** A change comes after the one before it, or after the start, and not after the end. */
  predicate StepAt(s: seq<int>, start: int, end: int, i: nat)
    requires i < |s|
  {
    (if i == 0 then start else s[i - 1]) < s[i] <= end
  }

  lemma {:induction false} StepsAscend(s: seq<int>, start: int, end: int)
    ensures InOrder(s, start, end) <==> forall i :: 0 <= i < |s| ==> StepAt(s, start, end, i)
  {
    if s != [] {
      var n := |s| - 1;
      StepsAscend(s[..n], start, end);
      assert forall i :: 0 <= i < n ==> StepAt(s, start, end, i) == StepAt(s[..n], start, end, i);
      assert StepAt(s, start, end, n) <==> (if n == 0 then start else s[n - 1]) < s[n] <= end;
      hide InOrder, StepAt;
      assert s[..n + 1] == s;
      if InOrder(s, start, end) {
        PrefixInOrder(s, n, start, end);
      }
      if InOrder(s[..n], start, end) {
        OneMoreInOrder(s, n, start, end);
      }
    }
  }

  lemma PrefixInOrder(s: seq<int>, n: nat, start: int, end: int)
    requires n <= |s| && InOrder(s, start, end)
    ensures InOrder(s[..n], start, end)
  {
  }

  /** What the changes must be: at most 64, each valid and after the one before, and the last at the page's end. */
  lemma ChangesMean(request: Request, r: Response, valid: (Finding, int) -> bool)
    ensures ChangesOk(request, r, valid) <==>
      request.after <= r.next && |r.changes| <= 64
      && (forall i :: 0 <= i < |r.changes| ==> valid(r.changes[i].finding, r.through))
      && (forall i :: 0 <= i < |r.changes| ==> StepAt(Sequences(r.changes), request.after, r.next, i))
      && (r.changes != [] ==> r.changes[|r.changes| - 1].sequence == r.next)
  {
    StepsAscend(Sequences(r.changes), request.after, r.next);
    hide InOrder, StepAt;
    assert forall i :: 0 <= i < |r.changes| ==> r.changes[i] in r.changes;
  }

  /** The reasons the control plane knows for a gap. */
  lemma GapReasons(gap: Option<string>)
    ensures BackendGapReason(gap) == match gap
      case None => None
      case Some("journal_generation_changed") => Some("journal_generation_changed")
      case Some("change_cursor_ahead") => Some("cursor_ahead")
      case Some(_) => Some("monitor_gap")
  {
  }

  lemma NoChangesOk(request: Request, r: Response, valid: (Finding, int) -> bool)
    ensures HeaderOk(request, r) && r.changes == [] ==> ChangesOk(request, r, valid)
  {
  }

  /** Reads the changes of a page one by one; fails exactly when the page is not in order. */
  method ReadChanges(request: Request, r: Response, valid: (Finding, int) -> bool) returns (findings: Option<seq<Finding>>)
    requires request.after <= r.next
    ensures findings.Some? <==> ChangesOk(request, r, valid)
    ensures findings.Some? ==> findings.value == Findings(r.changes)
  {
    hide Increasing, InOrder;
    var read: seq<Finding> := [];
    var previous := request.after;
    ghost var sequences := Sequences(r.changes);
    NoneInOrder(request.after, r.next);
    for i := 0 to |r.changes|
      invariant previous == if i == 0 then request.after else sequences[i - 1]
      invariant InOrder(sequences[..i], request.after, r.next)
      invariant forall k :: 0 <= k < i ==> valid(r.changes[k].finding, r.through)
      invariant read == Findings(r.changes)[..i]
    {
      var change := r.changes[i];
      OneMoreInOrder(sequences, i, request.after, r.next);
      if change.sequence <= previous || change.sequence > r.next {
        return None;
      }
      previous := change.sequence;
      if !valid(change.finding, r.through) {
        assert change in r.changes;
        return None;
      }
      read := read + [change.finding];
    }
    assert sequences[..|sequences|] == sequences;
    if |r.changes| > PAGE_LIMIT || (|r.changes| != 0 && previous != r.next) {
      return None;
    }
    return Some(read);
  }

  lemma NoneInOrder(start: int, end: int)
    ensures InOrder([], start, end)
  {
  }

  lemma OneMoreInOrder(s: seq<int>, i: nat, start: int, end: int)
    requires i < |s| && InOrder(s[..i], start, end)
    ensures var previous := if i == 0 then start else s[i - 1];
      (InOrder(s[..i + 1], start, end) <==> previous < s[i] <= end)
      && (!InOrder(s[..i + 1], start, end) ==> !InOrder(s, start, end))
  {
    assert s[..i + 1] == s[..i] + [s[i]];
    if i > 0 {
      assert s[..i][i - 1] == s[i - 1];
      assert s[..i + 1][i - 1] == s[i - 1] && s[..i + 1][i] == s[i];
    }
  }

  // ---------------------------------------------------------------- the source

  function BackendGapReason(gap: Option<string>): Option<string> {
    match gap
    case None => None
    case Some(reason) =>
      if reason == "journal_generation_changed" then Some("journal_generation_changed")
      else if reason == "change_cursor_ahead" then Some("cursor_ahead")
      else Some("monitor_gap")
  }

  function StringValue(value: Option<string>): string {
    if value.Some? then value.value else ""
  }

  /** The page that a response adds after the cursor it was requested from. */
  function PageOf(cursor: Option<Cursor>, r: Response): Page {
    Page(Opening(cursor).after, r.next, r.generation, Sequences(r.changes), Findings(r.changes))
  }

  /** The batch that a response makes. */
  function BatchOf(revision: int, now: int, r: Response): Batch {
    Batch(revision, r.generation, r.through, now, if r.gap.None? then "ready" else "degraded", BackendGapReason(r.gap),
          Findings(r.changes))
  }

  /** The cursor says already what this response says, and it brings no change. */
  predicate Nothing(cursor: Option<Cursor>, revision: int, r: Response) {
    r.changes == [] && cursor.Some? && cursor.value.revision == revision
    && cursor.value.status == (if r.gap.None? then "ready" else "degraded")
    && cursor.value.gap == StringValue(BackendGapReason(r.gap))
  }

  datatype Submission = Receipted(receipt: Receipt) | PolicyConflict | Lost

  datatype Disposition = Retirable | Exact | Elsewhere

  class Source {
    var cursor: Option<Cursor>
    var pending: Option<Item>
    ghost var pages: seq<Page>
    ghost var pendingPage: Page
    ghost var batches: seq<Stored>
    ghost var submissions: seq<nat>
    ghost var smooth: bool

    constructor ()
      ensures Valid() && pages == [] && pending == None
    {
      cursor, pending, pages, pendingPage, smooth := None, None, [], Page(0, 0, "", [], []), true;
      batches, submissions := [], [];
    }

    /** The cursor is the end of the acknowledged chain, and a pending batch is the chain's next page. */
    ghost predicate Valid()
      reads this`cursor, this`pending, this`pages, this`pendingPage, this`batches, this`submissions
    {
      Chained(pages)
      && (cursor.None? <==> pages == [])
      && (cursor.Some? ==> cursor.value.change == End(pages) && cursor.value.generation == pages[|pages| - 1].generation)
      && (cursor.Some? ==> cursor.value.generation != "")
      && (pending.Some? ==> pending.value.next.generation != "")
      && (pending.Some? ==> Follows(pages, pendingPage) && Ends(pending.value.next, pendingPage))
      && (pending.Some? ==> batches != [] && batches[|batches| - 1].batch == pending.value.batch && Announces(pending.value))
      && Reported(batches, submissions)
      && pages == Accepted(batches)
      && TraceSound(batches, submissions, End(pages), if pending.Some? then Some(pendingPage) else None)
    }

    ghost predicate Ends(next: Cursor, page: Page) {
      next.generation != "" && next.change == page.end && next.generation == page.generation
    }

    /** One more batch for this page, whatever has become of it. */
    ghost predicate SentAs(before: seq<Stored>, after: seq<Stored>, page: Page, batch: Batch) {
      |after| == |before| + 1 && before <= after && after[|before|].page == page && after[|before|].batch == batch
    }

    /** The cursor that follows a batch says what the batch said. */
    ghost predicate Announces(item: Item) {
      item.next.revision == item.batch.revision && item.next.generation == item.batch.generation
      && item.next.through == item.batch.through && item.next.status == item.batch.status
      && item.next.gap == StringValue(item.batch.gap)
    }

    /** One row per source: another batch for it is a conflict while one is pending. */
    method PutOutbox(item: Item, ghost page: Page) returns (ok: bool)
      requires Valid() && Follows(pages, page) && Ends(item.next, page) && Carries(item.batch, page) && Announces(item)
      modifies this`pending, this`pendingPage, this`batches, this`smooth
      ensures Valid()
      ensures batches == old(batches) || (old(pending).None? && pending == Some(item) && batches == old(batches) + [Stored(page, item.batch, Open)])
      ensures smooth ==> old(smooth) && (old(pending).None? ==> ok)
      ensures ok ==> pending == Some(item)
      ensures old(pending).Some? ==> pending == old(pending) && pendingPage == old(pendingPage)
      ensures old(pending).None? && pending.Some? ==> pendingPage == page && batches != old(batches)
      ensures pending == old(pending) ==> batches == old(batches)
    {
      hide Chained, Follows, TraceSound, Reported, Accepted;
      if pending.Some? {
        return pending == Some(item);
      }
      var stored: bool := *;
      var heard: bool := *;
      smooth := smooth && stored && heard;
      if !stored {
        return false;
      }
      StoredMore(batches, submissions, pages, page, item.batch);
      batches := batches + [Stored(page, item.batch, Open)];
      pending, pendingPage := Some(item), page;
      return heard;
    }

    /** Records the observation, then moves the cursor and removes the batch in one transaction. */
    method Acknowledge(item: Item, receipt: Receipt) returns (ok: bool)
      requires Valid() && pending == Some(item) && |batches| - 1 in submissions
      modifies this`cursor, this`pending, this`pages, this`batches, this`smooth
      ensures Valid()
      ensures smooth ==> old(smooth) && (receipt == Receipt(|item.batch.findings|, item.batch.through) ==> ok)
      ensures pages == old(pages) || pages == old(pages) + [pendingPage]
      ensures pages == old(pages) ==> cursor == old(cursor) && pending == old(pending)
      ensures pages != old(pages) ==> cursor == Some(item.next) && pending == None
      ensures batches == if pages == old(pages) then old(batches) else Settled(old(batches), Acknowledged)
      ensures ok ==> pages == old(pages) + [pendingPage] && pending == None
      ensures receipt != Receipt(|item.batch.findings|, item.batch.through) ==> !ok && pages == old(pages)
    {
      hide Chained, Follows, TraceSound, Reported, Accepted, Settled, End;
      var observed: bool := *;
      var committed: bool := *;
      var heard: bool := *;
      smooth := smooth && observed && committed && heard;
      if !observed || receipt != Receipt(|item.batch.findings|, item.batch.through) || !committed {
        return false;
      }
      ChainedMore(pages, pendingPage);
      AcknowledgedSound(batches, submissions, pages, pendingPage);
      AcknowledgedReported(batches, submissions);
      batches := Settled(batches, Acknowledged);
      pages := pages + [pendingPage];
      cursor, pending := Some(item.next), None;
      return heard;
    }

    method Retire()
      requires Valid()
      modifies this`pending, this`batches, this`smooth
      ensures Valid() && (pending == old(pending) || pending == None)
      ensures smooth ==> old(smooth) && pending == None
    {
      hide Chained, Follows, TraceSound, Reported, Accepted, Settled;
      var stored: bool := *;
      smooth := smooth && stored;
      if stored && pending.Some? {
        RetiredSound(batches, submissions, End(pages), pendingPage);
        batches := Settled(batches, Retired);
        pending := None;
      }
    }

    /** The request may be lost on the way, or its answer. */
    method Submit(item: Item) returns (answer: Submission)
      requires Valid() && pending == Some(item)
      modifies this`submissions, this`smooth
      ensures Valid()
      ensures submissions == old(submissions) || submissions == old(submissions) + [|batches| - 1]
      ensures answer.Receipted? ==> submissions == old(submissions) + [|batches| - 1]
      ensures smooth ==> old(smooth) && answer == Receipted(Receipt(|item.batch.findings|, item.batch.through))
    {
      hide Chained, Follows, TraceSound, Reported, Accepted;
      answer := *;
      var sent: bool := *;
      if sent || answer.Receipted? {
        SubmittedMore(batches, submissions, End(pages), pendingPage);
        submissions := submissions + [|batches| - 1];
      }
      smooth := smooth && answer == Receipted(Receipt(|item.batch.findings|, item.batch.through));
    }

    method PublishDisabled(revision: int, authority: bool, now: int) returns (ok: bool)
      requires Valid()
      modifies this
      ensures Valid() && old(pages) <= pages && old(submissions) <= submissions
      ensures forall i :: |old(pages)| <= i < |pages| ==> old(pending).Some? || pages[i].sequences == []
      ensures ok && old(pending).None? ==> pages == old(pages) || cursor.value.change == old(End(pages))
      ensures old(pending).None? && batches != old(batches) ==>
        |batches| == |old(batches)| + 1 && old(batches) <= batches
        && batches[|old(batches)|].batch == Batch(revision,
          if old(cursor).Some? then old(cursor).value.generation else "journal_unobserved",
          if old(cursor).Some? then old(cursor).value.through else 0, now, "disabled", Some("monitor_disabled"), [])
      ensures authority && old(cursor).Some? && old(cursor).value.revision == revision && old(cursor).value.status == "disabled" ==>
        ok && unchanged(this)
      ensures !authority ==> !ok && unchanged(this)
      ensures ok ==> authority && cursor.Some? && cursor.value.status == "disabled" && cursor.value.revision == revision
      ensures smooth ==> old(smooth) && (old(pending).None? ==> ok == authority)
    {
      hide Chained, Follows, TraceSound, Reported, Accepted;
      if !authority {
        return false;
      }
      if cursor.Some? && cursor.value.revision == revision && cursor.value.status == "disabled" {
        return true;
      }
      var journal, change, through := "journal_unobserved", 0, 0;
      if cursor.Some? {
        journal, change, through := cursor.value.generation, cursor.value.change, cursor.value.through;
      }
      var batch := Batch(revision, journal, through, now, "disabled", Some("monitor_disabled"), []);
      var next := Cursor(revision, journal, change, through, "disabled", "monitor_disabled");
      ghost var page := Page(change, change, journal, [], []);
      IdlePageFollows(pages, page);
      ok := Deliver(Item(batch, next), page);
    }

    /** Puts a batch in the outbox, submits it and acknowledges the receipt. */
    method Deliver(item: Item, ghost page: Page) returns (ok: bool)
      requires Valid() && Follows(pages, page) && Ends(item.next, page) && Carries(item.batch, page) && Announces(item)
      modifies this
      ensures Valid() && old(pages) <= pages && old(submissions) <= submissions
      ensures old(pending).None? ==> batches == old(batches) || SentAs(old(batches), batches, page, item.batch)
      ensures old(pending).None? && pages != old(pages) ==> batches != old(batches) && cursor == Some(item.next)
      ensures pages == old(pages) ==> cursor == old(cursor)
      ensures pages == old(pages) || pages == old(pages) + [if old(pending).Some? then old(pendingPage) else page]
      ensures ok ==> pending == None && cursor == Some(item.next) && |pages| == |old(pages)| + 1
      ensures smooth ==> old(smooth) && (old(pending).None? ==> ok)
    {
      hide Chained, Follows, TraceSound, Reported, Accepted;
      ok := PutOutbox(item, page);
      SettledAppended(old(batches), Stored(page, item.batch, Open), Acknowledged);
      if !ok {
        return;
      }
      var answer := Submit(item);
      if !answer.Receipted? {
        return false;
      }
      ok := Acknowledge(item, answer.receipt);
    }

    /** One collection: a valid response with news becomes the next page; any other leaves the chain alone.
      * `fits` says whether the encoded batch is small enough. */
    method CollectSource(revision: int, authority: bool, now: int, answer: Option<Response>,
                         valid: (Finding, int) -> bool, fits: Batch -> bool) returns (ok: bool)
      requires Valid()
      modifies this
      ensures Valid() && old(pages) <= pages && old(submissions) <= submissions
      ensures answer.Some? && !HeaderOk(Opening(old(cursor)), answer.value) ==> !ok && unchanged(this)
      ensures answer.Some? && answer.value.changes != [] && !ChangesOk(Opening(old(cursor)), answer.value, valid) ==>
        !ok && unchanged(this)
      ensures ok ==> authority && answer.Some? && HeaderOk(Opening(old(cursor)), answer.value)
      ensures ok ==>
        (pages == old(pages) && answer.value.changes == [])
        || (ChangesOk(Opening(old(cursor)), answer.value, valid) && cursor.Some? && cursor.value.change == answer.value.next
            && (old(pending).None? ==> pages == old(pages) + [PageOf(old(cursor), answer.value)]))
      // What is put in the outbox, and sent from it, is what the response said, with every finding in its place.
      ensures old(pending).None? && batches != old(batches) ==>
        answer.Some? && |batches| == |old(batches)| + 1 && old(batches) <= batches
        && var batch, r := batches[|old(batches)|].batch, answer.value;
          batch.revision == revision && batch.generation == r.generation && batch.through == r.through && batch.observedAt == now
          && batch.status == (if r.gap.None? then "ready" else "degraded") && batch.gap == BackendGapReason(r.gap)
          && |batch.findings| == |r.changes|
          && forall i :: 0 <= i < |r.changes| ==> batch.findings[i] == r.changes[i].finding
      ensures old(pending).None? && pages != old(pages) ==> batches != old(batches)
      ensures old(pending).None? && cursor != old(cursor) ==>
        cursor.Some? && batches != old(batches)
        && var batch := batches[|batches| - 1].batch;
          cursor.value == Cursor(revision, batch.generation, answer.value.next, batch.through, batch.status, StringValue(batch.gap))
      ensures smooth ==> old(smooth)
      ensures smooth && old(pending).None? && answer.Some? ==>
        (ok <==> authority && Collectable(Opening(old(cursor)), answer.value, valid)
                 && (Nothing(old(cursor), revision, answer.value) || fits(BatchOf(revision, now, answer.value))))
      // Only what says nothing new is not reported.
      ensures smooth && ok && old(pending).None? ==> (pages == old(pages) <==> Nothing(old(cursor), revision, answer.value))
    {
      hide Chained, Follows, TraceSound, Reported, Accepted, ChangesOk;
      if answer.Some? {
        NoChangesOk(Opening(cursor), answer.value, valid);
      }
      if !authority || answer.None? {
        return false;
      }
      var r := answer.value;
      var request := Opening(cursor);
      if !HeaderOk(request, r) {
        return false;
      }
      var gap := BackendGapReason(r.gap);
      var status := if gap.Some? then "degraded" else "ready";
      if |r.changes| == 0 && cursor.Some? && cursor.value.revision == revision
         && cursor.value.status == status && cursor.value.gap == StringValue(gap) {
        return true;
      }
      var findings := ReadChanges(request, r, valid);
      if findings.None? {
        return false;
      }
      var batch := Batch(revision, r.generation, r.through, now, status, gap, findings.value);
      if !fits(batch) {
        return false;
      }
      var next := Cursor(revision, r.generation, r.next, r.through, status, StringValue(gap));
      ResponseFollows(pages, cursor, r, valid);
      ok := Deliver(Item(batch, next), PageOf(cursor, r));
    }

    /** One pass over this source: first the batch left from earlier passes, then a fresh collection. */
    method Pass(revision: int, authority: bool, enabled: bool, now: int, disposition: Disposition,
                answer: Option<Response>, valid: (Finding, int) -> bool, fits: Batch -> bool) returns (ok: bool)
      requires Valid()
      modifies this
      ensures Valid() && old(pages) <= pages && old(submissions) <= submissions
      ensures smooth ==> old(smooth)
      ensures smooth && old(pending).Some? && disposition.Exact? ==>
        ok && pages == old(pages) + [old(pendingPage)] && pending == None && cursor == Some(old(pending).value.next)
      ensures smooth && old(pending).None? && !enabled ==> ok == authority
      ensures smooth && old(pending).None? && enabled && answer.Some? ==>
        (ok <==> authority && Collectable(Opening(old(cursor)), answer.value, valid)
                 && (Nothing(old(cursor), revision, answer.value) || fits(BatchOf(revision, now, answer.value))))
      ensures ok && old(pending).None? && enabled && answer.Some? && answer.value.changes != [] ==>
        pages == old(pages) + [PageOf(old(cursor), answer.value)]
    {
      hide Chained, Follows, TraceSound, Reported, Accepted, ChangesOk, Collectable, Nothing, BatchOf;
      ok := true;
      var skipped := false;
      if pending.Some? {
        if disposition.Retirable? {
          Retire();
        } else if disposition.Exact? {
          skipped := Resubmit(pending.value);
        }
      }
      if !skipped {
        if enabled {
          ok := CollectSource(revision, authority, now, answer, valid, fits);
        } else {
          ok := PublishDisabled(revision, authority, now);
        }
      }
    }

    /** Submits the pending batch again; a policy conflict may retire it. */
    method Resubmit(item: Item) returns (acknowledged: bool)
      requires Valid() && pending == Some(item)
      modifies this
      ensures Valid() && old(pages) <= pages && old(submissions) <= submissions
      ensures acknowledged ==> pending == None && pages == old(pages) + [old(pendingPage)] && cursor == Some(item.next)
      ensures smooth ==> old(smooth) && acknowledged
    {
      hide Chained, Follows, TraceSound, Reported, Accepted;
      acknowledged := false;
      var answer := Submit(item);
      match answer
      case Receipted(receipt) => acknowledged := Acknowledge(item, receipt);
      case PolicyConflict =>
        var superseded: bool := *;
        if superseded {
          Retire();
        }
      case Lost =>
    }
  }

  /** Any number of passes, each cut short anywhere: no change is acknowledged twice or out of order, and two
    * submitted batches share one only if the earlier was retired unacknowledged. */
  method History(source: Source, passes: nat, valid: (Finding, int) -> bool, fits: Batch -> bool)
    requires source.Valid()
    modifies source
    ensures source.Valid()
    ensures old(End(source.pages)) <= End(source.pages)
    ensures old(Changes(source.pages)) <= Changes(source.pages)
    ensures Increasing(Changes(source.pages))
    ensures source.pages == Accepted(source.batches) && old(source.submissions) <= source.submissions
    ensures SharedOnlyAfterRetirement(source.batches, source.submissions)
    // The finding of every acknowledged change was submitted, in its place.
    ensures FindingsSent(source.batches, source.submissions)
    ensures source.cursor.Some? ==>
      source.cursor.value.change == End(source.pages)
      && forall s <- Changes(source.pages) :: 0 < s <= source.cursor.value.change
  {
    hide Chained, Follows, TraceSound, Reported, Accepted, ChangesOk;
    for i := 0 to passes
      invariant source.Valid() && old(source.pages) <= source.pages
      invariant old(source.submissions) <= source.submissions
    {
      var revision: int := *;
      var authority: bool := *;
      var enabled: bool := *;
      var now: int := *;
      var disposition: Disposition := *;
      var answer: Option<Response> := *;
      var ok := source.Pass(revision, authority, enabled, now, disposition, answer, valid, fits);
    }
    assert source.pages[..|old(source.pages)|] == old(source.pages);
    SourceShares(source);
    ChangesIncrease(source.pages);
    CursorNeverDecreases(source.pages, |old(source.pages)|);
  }

  lemma SourceShares(source: Source)
    requires source.Valid()
    ensures SharedOnlyAfterRetirement(source.batches, source.submissions)
    ensures FindingsSent(source.batches, source.submissions)
  {
    var pending := if source.pending.Some? then Some(source.pendingPage) else None;
    SentWhereReported(source.batches, source.submissions, End(source.pages), pending);
    TraceShares(source.batches, source.submissions, End(source.pages), pending);
  }

  lemma IdlePageFollows(pages: seq<Page>, page: Page)
    requires page == Page(End(pages), End(pages), page.generation, [], [])
    ensures Follows(pages, page)
  {
  }

  lemma ResponseFollows(pages: seq<Page>, cursor: Option<Cursor>, r: Response, valid: (Finding, int) -> bool)
    requires HeaderOk(Opening(cursor), r) && ChangesOk(Opening(cursor), r, valid)
    requires cursor.None? <==> pages == []
    requires cursor.Some? ==> cursor.value.change == End(pages) && cursor.value.generation == pages[|pages| - 1].generation
    requires cursor.Some? ==> cursor.value.generation != ""
    ensures Follows(pages, PageOf(cursor, r))
  {
  }
}
