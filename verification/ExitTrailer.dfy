/** The in-band exit trailer of an interactive session.

    The supervisor ends a session's byte stream with NUL, "warpmetal-exit:", a
    random marker, ':', the decimal exit status and a newline. The gateway
    client copies the stream to its own output and must recognise that trailer,
    and only that trailer, whatever the chunking of its reads and whatever
    look-alikes the sandbox program printed before. */
module ExitTrailer {
  type byte = b: int | 0 <= b < 256

  const NUL: byte := 0
  const NEWLINE: byte := 10
  const ZERO: byte := 48
  const NINE: byte := 57
  const COLON: byte := 58

  /** "warpmetal-exit:" in ASCII. */
  const LABEL: seq<byte> := [119, 97, 114, 112, 109, 101, 116, 97, 108, 45, 101, 120, 105, 116, 58]

  function Prefix(marker: seq<byte>): (prefix: seq<byte>) {
    [NUL] + LABEL + marker + [COLON]
  }

  predicate IsDigit(b: byte) {
    ZERO <= b <= NINE
  }

  predicate AllDigits(s: seq<byte>) {
    forall i :: 0 <= i < |s| ==> IsDigit(s[i])
  }

  // ----- The classifier ---------------------------------------------------

  datatype TrailerState = Invalid | Incomplete | Complete

  /** The status bytes from `index` on, scanned left to right. */
  function StatusState(status: seq<byte>, index: nat): TrailerState
    decreases |status| - index
  {
    if index >= |status| then Incomplete
    else if IsDigit(status[index]) then
      if index >= 3 then Invalid else StatusState(status, index + 1)
    else if status[index] == NEWLINE && index > 0 && index == |status| - 1 then Complete
    else Invalid
  }

  /** A candidate longer than the prefix is classified by its status bytes alone:
      its first bytes are not compared with the prefix again. */
  function SessionTrailerState(candidate: seq<byte>, prefix: seq<byte>): TrailerState {
    if |candidate| <= |prefix| then
      if candidate == prefix[..|candidate|] then Incomplete else Invalid
    else
      var status := candidate[|prefix|..];
      if |status| > 4 then Invalid else StatusState(status, 0)
  }

  // ----- What the stream means --------------------------------------------

  /** The trailer format: the whole prefix, one to three digits, a newline. */
  predicate IsTrailer(t: seq<byte>, prefix: seq<byte>) {
    && |prefix| + 2 <= |t| <= |prefix| + 4
    && t[..|prefix|] == prefix
    && AllDigits(t[|prefix|..|t| - 1])
    && t[|t| - 1] == NEWLINE
  }

  /** The decimal value of a digit string. */
  function Value(digits: seq<byte>): nat
    requires AllDigits(digits)
  {
    if digits == [] then 0
    else Value(digits[..|digits| - 1]) * 10 + (digits[|digits| - 1] - ZERO)
  }

  function StatusOf(t: seq<byte>, prefix: seq<byte>): nat
    requires IsTrailer(t, prefix)
  {
    Value(t[|prefix|..|t| - 1])
  }

  /** A trailer occupies the stream from position k to its very end. */
  predicate TrailerAt(stream: seq<byte>, prefix: seq<byte>, k: nat) {
    k <= |stream| && IsTrailer(stream[k..], prefix)
  }

  ghost predicate WellFormedPrefix(prefix: seq<byte>) {
    |prefix| > 0 && prefix[0] == NUL && forall i :: 0 < i < |prefix| ==> prefix[i] != NUL
  }

  lemma PrefixWellFormed(marker: seq<byte>)
    requires NUL !in marker
    ensures WellFormedPrefix(Prefix(marker))
  {
    var p := Prefix(marker);
    forall i | 0 < i < |p| ensures p[i] != NUL {
      if i <= |LABEL| {
        assert p[i] == LABEL[i - 1];
      } else if i < |p| - 1 {
        assert p[i] == marker[i - 1 - |LABEL|];
      }
    }
  }

  // ----- The one candidate the copy loop may hold back ----------------------

  /** A nonempty beginning of some trailer. */
  predicate Live(p: seq<byte>, prefix: seq<byte>) {
    || (0 < |p| <= |prefix| && p == prefix[..|p|])
    || (|prefix| < |p| <= |prefix| + 3 && p[..|prefix|] == prefix && AllDigits(p[|prefix|..]))
    || IsTrailer(p, prefix)
  }

  /** The bytes from the last NUL on. */
  function FromLastNul(s: seq<byte>): (t: seq<byte>) {
    if s == [] then []
    else
      var last := s[|s| - 1];
      if last == NUL then [NUL]
      else
        var r := FromLastNul(s[..|s| - 1]);
        if r == [] then [] else r + [last]
  }

  /** The only suffix of s that can still grow into a final trailer. */
  function Candidate(s: seq<byte>, prefix: seq<byte>): (t: seq<byte>) {
    var t := FromLastNul(s);
    if t != [] && Live(t, prefix) then t else []
  }

  lemma {:induction false} FromLastNulIsSuffix(s: seq<byte>)
    ensures |FromLastNul(s)| <= |s| && s[|s| - |FromLastNul(s)|..] == FromLastNul(s)
  {
    if s != [] {
      FromLastNulIsSuffix(s[..|s| - 1]);
    }
  }

  lemma CandidateIsSuffix(s: seq<byte>, prefix: seq<byte>)
    ensures |Candidate(s, prefix)| <= |s| && s[|s| - |Candidate(s, prefix)|..] == Candidate(s, prefix)
    ensures Candidate(s, prefix) == [] || Live(Candidate(s, prefix), prefix)
  {
    FromLastNulIsSuffix(s);
  }

  lemma {:induction false} FromLastNulAt(s: seq<byte>, k: nat)
    requires k < |s| && s[k] == NUL
    requires forall i :: k < i < |s| ==> s[i] != NUL
    ensures FromLastNul(s) == s[k..]
  {
    if k < |s| - 1 {
      var front := s[..|s| - 1];
      FromLastNulAt(front, k);
      assert s[k..] == front[k..] + [s[|s| - 1]];
    }
  }

  lemma {:induction false} StatusStateMeaning(status: seq<byte>, index: nat)
    requires index <= |status| <= 4 && AllDigits(status[..index]) && index <= 3
    ensures StatusState(status, index) == Incomplete <==> AllDigits(status) && |status| <= 3
    ensures StatusState(status, index) == Complete <==>
            |status| >= 2 && AllDigits(status[..|status| - 1]) && status[|status| - 1] == NEWLINE
    decreases |status| - index
  {
    if index < |status| {
      if IsDigit(status[index]) {
        if index < 3 {
          assert status[..index + 1] == status[..index] + [status[index]];
          StatusStateMeaning(status, index + 1);
        }
      } else if index < |status| - 1 {
        assert !IsDigit(status[..|status| - 1][index]);
      }
    }
    if index == |status| {
      assert status[..index] == status;
      assert status != [] ==> IsDigit(status[..index][|status| - 1]);
    }
  }

  /** Inside a live candidate the first byte is the only NUL, and a newline can
      only be the last byte. */
  lemma LiveShape(p: seq<byte>, prefix: seq<byte>, i: nat)
    requires WellFormedPrefix(prefix) && Live(p, prefix) && i < |p|
    ensures p[0] == NUL
    ensures i > 0 ==> p[i] != NUL
    ensures |prefix| <= i < |p| - 1 ==> p[i] != NEWLINE
  {
    if i < |prefix| {
      assert p[i] == prefix[i] && p[0] == prefix[0] by {
        if |p| > |prefix| {
          assert p[i] == p[..|prefix|][i] && p[0] == p[..|prefix|][0];
        }
      }
    } else {
      assert p[0] == p[..|prefix|][0];
      if i < |p| - 1 {
        assert p[i] == p[|prefix|..|p| - 1][i - |prefix|];
      }
      assert p[i] == p[|prefix|..][i - |prefix|];
    }
  }

  /** Growing a live candidate by one byte keeps the classifier exact, although
      it never rechecks the prefix. */
  lemma LiveGrowth(p: seq<byte>, prefix: seq<byte>, v: byte)
    requires WellFormedPrefix(prefix) && Live(p, prefix)
    ensures Live(p + [v], prefix) <==> SessionTrailerState(p + [v], prefix) != Invalid
    ensures SessionTrailerState(p, prefix) == Complete <==> IsTrailer(p, prefix)
    ensures IsTrailer(p, prefix) ==> !Live(p + [v], prefix)
    ensures v == NUL ==> !Live(p + [v], prefix)
  {
    Classified(p, prefix);
    var q := p + [v];
    if |p| >= |prefix| {
      assert q[..|prefix|] == p[..|prefix|] == prefix;
      Classified(q, prefix);
    }
    if Live(q, prefix) {
      LiveShape(q, prefix, |p|);
      LiveShape(q, prefix, |p| - 1);
    }
  }

  /** For a candidate that does begin with the prefix, the classifier's verdict
      is the meaning of its name. */
  lemma Classified(p: seq<byte>, prefix: seq<byte>)
    requires |prefix| > 0
    requires p[..if |p| <= |prefix| then |p| else |prefix|] == prefix[..if |p| <= |prefix| then |p| else |prefix|]
    ensures SessionTrailerState(p, prefix) == Complete <==> IsTrailer(p, prefix)
    ensures p != [] ==> (Live(p, prefix) <==> SessionTrailerState(p, prefix) != Invalid)
  {
    if |p| > |prefix| {
      var status := p[|prefix|..];
      if |status| <= 4 {
        StatusStateMeaning(status, 0);
        assert status[..|status| - 1] == p[|prefix|..|p| - 1];
      }
    } else {
      assert p == prefix[..|p|];
    }
  }

  /** How the candidate moves when one more byte is consumed. */
  lemma CandidateStep(s: seq<byte>, prefix: seq<byte>, v: byte)
    requires WellFormedPrefix(prefix)
    ensures v == NUL ==> Candidate(s + [v], prefix) == [NUL]
    ensures v != NUL && Candidate(s, prefix) == [] ==> Candidate(s + [v], prefix) == []
    ensures v != NUL && Candidate(s, prefix) != [] ==>
            Candidate(s + [v], prefix) ==
            if Live(Candidate(s, prefix) + [v], prefix) then Candidate(s, prefix) + [v] else []
  {
    assert (s + [v])[..|s|] == s;
    if v == NUL {
      assert [NUL] == prefix[..1];
    } else {
      var t := FromLastNul(s);
      if t != [] && Live(t + [v], prefix) {
        LiveClosed(t, prefix, v);
      }
    }
  }

  /** Every nonempty beginning of a live candidate is live. */
  lemma LiveClosed(t: seq<byte>, prefix: seq<byte>, v: byte)
    requires t != [] && Live(t + [v], prefix)
    ensures Live(t, prefix)
  {
    var q := t + [v];
    assert t == q[..|t|];
    if |q| <= |prefix| {
      assert t == prefix[..|q|][..|t|] == prefix[..|t|];
    } else if |t| == |prefix| {
      assert prefix == prefix[..|t|];
    } else {
      assert t[..|prefix|] == q[..|prefix|];
      if IsTrailer(q, prefix) {
        assert t[|prefix|..] == q[|prefix|..|q| - 1];
      } else {
        assert t[|prefix|..] == q[|prefix|..][..|t| - |prefix|];
      }
    }
  }

  /** A final trailer is always exactly the candidate. */
  lemma TrailerIsCandidate(s: seq<byte>, prefix: seq<byte>, k: nat)
    requires WellFormedPrefix(prefix) && TrailerAt(s, prefix, k)
    ensures Candidate(s, prefix) == s[k..]
  {
    var t := s[k..];
    assert t[..|prefix|][0] == NUL;
    forall i | k < i < |s| ensures s[i] != NUL {
      var at := i - k;
      assert s[i] == t[at];
      if at < |prefix| {
        assert t[at] == t[..|prefix|][at];
      } else if at < |t| - 1 {
        assert IsDigit(t[|prefix|..|t| - 1][at - |prefix|]);
      }
    }
    FromLastNulAt(s, k);
  }

  /** A stream ends with at most one trailer, so the split is a fact about the
      stream and not about how it was read. */
  lemma TrailerUnique(s: seq<byte>, prefix: seq<byte>, j: nat, k: nat)
    requires WellFormedPrefix(prefix) && TrailerAt(s, prefix, j) && TrailerAt(s, prefix, k)
    ensures j == k
  {
    TrailerIsCandidate(s, prefix, j);
    TrailerIsCandidate(s, prefix, k);
    assert |s[j..]| == |s[k..]|;
  }

  // ----- Copying ------------------------------------------------------------

  /** The local output. It takes `room` more bytes and then fails every write. */
  class Writer {
    var written: seq<byte>
    var room: nat

    constructor (room: nat)
      ensures this.room == room && written == []
    {
      this.room, written := room, [];
    }

    method Write(p: seq<byte>) returns (ok: bool)
      modifies this
      ensures ok <==> |p| <= old(room)
      ensures ok ==> written == old(written) + p && room == old(room) - |p|
      ensures !ok ==> written == old(written) + p[..old(room)] && room == 0
    {
      ok := |p| <= room;
      var accepted := if ok then |p| else room;
      written := written + p[..accepted];
      room := room - accepted;
    }
  }

  function Flatten(chunks: seq<seq<byte>>): seq<byte> {
    if chunks == [] then [] else Flatten(chunks[..|chunks| - 1]) + chunks[|chunks| - 1]
  }

  /** How the stream ended: end of file, or an error from the connection. */
  datatype ReadEnd = EndOfFile | ReadError

  datatype Outcome = Exit(status: nat) | MissingStatus | InvalidStatus | ReadFailed | WriteFailed

  /** One turn of the copy loop: how the buffers move when `value` arrives after
      the bytes `seen`. */
  method AbsorbByte(value: byte, written: seq<byte>, held: seq<byte>, prefix: seq<byte>, ghost seen: seq<byte>)
    returns (output: seq<byte>, pending: seq<byte>)
    requires WellFormedPrefix(prefix) && held == Candidate(seen, prefix)
    ensures pending == Candidate(seen + [value], prefix)
    ensures output + pending == written + held + [value]
  {
    assert [NUL] == prefix[..1];
    CandidateIsSuffix(seen, prefix);
    hide *;
    output, pending := written, held;
    CandidateStep(seen, prefix, value);
    Associative(written, held, [value]);
    if pending != [] {
      LiveGrowth(pending, prefix, value);
    }
    if |pending| > 0 && SessionTrailerState(pending, prefix) == Complete {
      output := output + pending;
      pending := [];
    }
    if |pending| == 0 && value != NUL {
      return output + [value], pending;
    }
    pending := pending + [value];
    if SessionTrailerState(pending, prefix) != Invalid {
      return;
    }
    if value == NUL {
      output := output + pending[..|pending| - 1];
      pending := [NUL];
    } else {
      output := output + pending;
      pending := [];
    }
  }

  /** The inner loop of the copy, over the bytes of one read: what may be written
      and what is still held back. `seen` is the stream before this read. */
  method AbsorbRead(chunk: seq<byte>, held: seq<byte>, prefix: seq<byte>, ghost seen: seq<byte>)
    returns (output: seq<byte>, pending: seq<byte>)
    requires WellFormedPrefix(prefix) && held == Candidate(seen, prefix)
    ensures pending == Candidate(seen + chunk, prefix)
    ensures output + pending == held + chunk
  {
    hide *;
    output, pending := [], held;
    assert seen + chunk[..0] == seen;
    for j := 0 to |chunk|
      invariant pending == Candidate(seen + chunk[..j], prefix)
      invariant output + pending == held + chunk[..j]
    {
      assert seen + chunk[..j] + [chunk[j]] == seen + chunk[..j + 1];
      assert held + chunk[..j] + [chunk[j]] == held + chunk[..j + 1];
      output, pending := AbsorbByte(chunk[j], output, pending, prefix, seen + chunk[..j]);
    }
    assert chunk[..|chunk|] == chunk;
  }

  /** The read loop. Without a write failure everything read is either written or
      held back as the one candidate. */
  method CopyReads(chunks: seq<seq<byte>>, writer: Writer, prefix: seq<byte>) returns (failed: bool, pending: seq<byte>)
    requires WellFormedPrefix(prefix)
    modifies writer
    ensures old(writer.written) <= writer.written <= old(writer.written) + Flatten(chunks)
    ensures !failed ==> pending == Candidate(Flatten(chunks), prefix)
    ensures !failed ==> writer.written + pending == old(writer.written) + Flatten(chunks)
    ensures !failed ==> writer.room == old(writer.room) - (|writer.written| - |old(writer.written)|)
    ensures failed ==> old(writer.room) < |Flatten(chunks)|
  {
    ghost var start, total := writer.written, Flatten(chunks);
    pending := [];
    assert Flatten(chunks[..0]) == [] && Candidate([], prefix) == [];
    hide *;
    for i := 0 to |chunks|
      invariant pending == Candidate(Flatten(chunks[..i]), prefix)
      invariant start <= writer.written <= start + total
      invariant writer.written + pending == start + Flatten(chunks[..i])
      invariant writer.room == old(writer.room) - (|writer.written| - |start|)
    {
      ghost var seen, wrote, held := Flatten(chunks[..i]), writer.written, pending;
      var output: seq<byte>;
      output, pending := AbsorbRead(chunks[i], pending, prefix, seen);
      CopyStep(start, chunks, i, wrote, held, output, pending);
      if |output| > 0 {
        var ok := writer.Write(output);
        if !ok {
          return true, pending;
        }
      }
    }
    assert chunks[..|chunks|] == chunks;
    return false, pending;
  }

  /** `chunks` are the bytes the connection delivered, read by read; the last of
      them may arrive together with `end`. */
  method CopySessionOutput(chunks: seq<seq<byte>>, end: ReadEnd, writer: Writer, marker: seq<byte>)
    returns (outcome: Outcome)
    requires NUL !in marker
    modifies writer
    // Whatever happens, nothing is invented, dropped in the middle or reordered.
    ensures old(writer.written) <= writer.written <= old(writer.written) + Flatten(chunks)
    // A final trailer is removed, and its status is the result.
    ensures forall k: nat ::
              end == EndOfFile && old(writer.room) >= |Flatten(chunks)| && TrailerAt(Flatten(chunks), Prefix(marker), k) ==>
                && writer.written == old(writer.written) + Flatten(chunks)[..k]
                && var v := StatusOf(Flatten(chunks)[k..], Prefix(marker));
                   outcome == if v <= 255 then Exit(v) else InvalidStatus
    // A stream without one is written out in full.
    ensures end == EndOfFile && old(writer.room) >= |Flatten(chunks)| &&
            (forall k: nat :: !TrailerAt(Flatten(chunks), Prefix(marker), k)) ==>
              writer.written == old(writer.written) + Flatten(chunks) && outcome == MissingStatus
    // A status is reported only for a trailer that really ends the stream.
    ensures outcome.Exit? ==> end == EndOfFile && outcome.status <= 255
    ensures outcome.Exit? ==>
              exists k: nat :: TrailerAt(Flatten(chunks), Prefix(marker), k) &&
                               StatusOf(Flatten(chunks)[k..], Prefix(marker)) == outcome.status
    ensures end == ReadError ==> outcome in {ReadFailed, WriteFailed}
    ensures outcome == WriteFailed ==> old(writer.room) < |Flatten(chunks)|
  {
    var prefix := Prefix(marker);
    PrefixWellFormed(marker);
    var failed, pending := CopyReads(chunks, writer, prefix);
    if failed {
      return WriteFailed;
    }
    if end == ReadError {
      return ReadFailed;
    }
    hide *;
    outcome := Finish(pending, prefix, Flatten(chunks), writer, old(writer.written));
  }

  /** What follows the read loop once the whole stream has arrived. */
  method Finish(pending: seq<byte>, prefix: seq<byte>, ghost total: seq<byte>, writer: Writer, ghost start: seq<byte>)
    returns (outcome: Outcome)
    requires WellFormedPrefix(prefix) && pending == Candidate(total, prefix)
    requires writer.written + pending == start + total && start <= writer.written
    modifies writer
    ensures start <= writer.written <= start + total
    ensures forall k: nat :: TrailerAt(total, prefix, k) ==>
              && writer.written == start + total[..k]
              && var v := StatusOf(total[k..], prefix);
                 outcome == if v <= 255 then Exit(v) else InvalidStatus
    ensures old(writer.room) >= |pending| && (forall k: nat :: !TrailerAt(total, prefix, k)) ==>
              writer.written == start + total && outcome == MissingStatus
    ensures outcome.Exit? ==> outcome.status <= 255 && TrailerAt(total, prefix, |total| - |pending|)
    ensures outcome.Exit? ==> StatusOf(total[|total| - |pending|..], prefix) == outcome.status
    ensures outcome !in {WriteFailed, ReadFailed}
  {
    ghost var cut := |total| - |pending|;
    CandidateIsSuffix(total, prefix);
    forall k: nat | TrailerAt(total, prefix, k) ensures k == cut {
      TrailerIsCandidate(total, prefix, k);
    }
    if pending != [] {
      Classified(pending, prefix);
    }
    assert IsTrailer(pending, prefix) <==> TrailerAt(total, prefix, cut);
    assert SessionTrailerState([], prefix) != Complete;
    CutOff(writer.written, pending, start, total);
    if IsTrailer(pending, prefix) {
      assert Value(pending[|prefix|..|pending| - 1]) == StatusOf(total[cut..], prefix);
    }
    hide *;
    if SessionTrailerState(pending, prefix) != Complete {
      var _ := writer.Write(pending);
      return MissingStatus;
    }
    assert TrailerAt(total, prefix, cut);
    var status := Value(pending[|prefix|..|pending| - 1]);
    if status > 255 {
      return InvalidStatus;
    }
    return Exit(status);
  }

  lemma CutOff(written: seq<byte>, pending: seq<byte>, start: seq<byte>, total: seq<byte>)
    requires written + pending == start + total && |pending| <= |total|
    ensures written == start + total[..|total| - |pending|]
  {
    assert written == (start + total)[..|written|];
  }

  /** One read keeps `written + held back == everything read`. */
  lemma CopyStep(start: seq<byte>, chunks: seq<seq<byte>>, i: nat, wrote: seq<byte>, held: seq<byte>,
                 output: seq<byte>, pending: seq<byte>)
    requires i < |chunks| && start <= wrote
    requires wrote + held == start + Flatten(chunks[..i])
    requires output + pending == held + chunks[i]
    ensures Flatten(chunks[..i + 1]) == Flatten(chunks[..i]) + chunks[i]
    ensures wrote + output + pending == start + Flatten(chunks[..i + 1])
    ensures wrote + output <= start + Flatten(chunks)
    ensures output == [] ==> wrote + output == wrote
  {
    FlattenPrefix(chunks, i + 1);
    var seen, part := Flatten(chunks[..i]), Flatten(chunks[..i + 1]);
    Associative(wrote, output, pending);
    Associative(wrote, held, chunks[i]);
    Associative(start, seen, chunks[i]);
    PrefixGrows(wrote + output, pending, start, part, Flatten(chunks));
  }

  lemma Associative(a: seq<byte>, b: seq<byte>, c: seq<byte>)
    ensures (a + b) + c == a + (b + c)
  {
  }

  lemma PrefixGrows(a: seq<byte>, b: seq<byte>, start: seq<byte>, part: seq<byte>, total: seq<byte>)
    requires a + b == start + part && part <= total
    ensures a <= start + total
  {
    Associative(start, part, total[|part|..]);
    assert part + total[|part|..] == total;
    assert a <= a + b;
  }

  lemma {:induction false} FlattenPrefix(chunks: seq<seq<byte>>, i: nat)
    requires i <= |chunks|
    ensures Flatten(chunks[..i]) <= Flatten(chunks)
    ensures i > 0 ==> Flatten(chunks[..i]) == Flatten(chunks[..i - 1]) + chunks[i - 1]
    decreases |chunks| - i
  {
    if i > 0 {
      assert chunks[..i][..i - 1] == chunks[..i - 1];
    }
    if i == |chunks| {
      assert chunks[..i] == chunks;
    } else {
      FlattenPrefix(chunks, i + 1);
      assert chunks[..i + 1][..i] == chunks[..i];
    }
  }

  // ----- The supervisor's side ------------------------------------------------

  /** What a finished command reports: nothing, an error that carries an exit
      code, or any other error. */
  datatype ExecError = NoError | ExitStatus(code: int) | OtherError

  function SessionExitCode(err: ExecError): int {
    match err
    case NoError => 0
    case ExitStatus(code) => if 0 < code <= 255 then code else 1
    case OtherError => 1
  }

  /** Decimal print of a natural number. */
  function Decimal(n: nat): seq<byte> {
    if n < 10 then [ZERO + n] else Decimal(n / 10) + [ZERO + n % 10]
  }

  /** Everything a session puts on the wire: the sandbox output, then the trailer. */
  function SessionStream(output: seq<byte>, marker: seq<byte>, err: ExecError): seq<byte>
    requires 0 <= SessionExitCode(err)
  {
    output + (Prefix(marker) + Decimal(SessionExitCode(err)) + [NEWLINE])
  }

  lemma {:induction false} DecimalValue(n: nat)
    ensures AllDigits(Decimal(n)) && Value(Decimal(n)) == n
    ensures n < 10 ==> |Decimal(n)| == 1
    ensures n < 100 ==> |Decimal(n)| <= 2
    ensures n < 1000 ==> 1 <= |Decimal(n)| <= 3
  {
    if n >= 10 {
      DecimalValue(n / 10);
      var d := Decimal(n / 10);
      assert Decimal(n)[..|Decimal(n)| - 1] == d;
      assert n == n / 10 * 10 + n % 10;
    } else {
      assert Value([ZERO + n]) == Value([ZERO + n][..0]) * 10 + n;
    }
  }

  /** The client undoes the server: the stream of any session, whatever its
      output contains, splits at exactly one place, the end of that output, and
      carries exactly the code the server computed. */
  lemma SessionRoundTrip(output: seq<byte>, marker: seq<byte>, err: ExecError, k: nat)
    requires NUL !in marker
    ensures 0 <= SessionExitCode(err) <= 255
    ensures SessionExitCode(err) == 0 <==> err == NoError
    ensures TrailerAt(SessionStream(output, marker, err), Prefix(marker), k) <==> k == |output|
    ensures TrailerAt(SessionStream(output, marker, err), Prefix(marker), |output|) &&
            StatusOf(SessionStream(output, marker, err)[|output|..], Prefix(marker)) == SessionExitCode(err)
    ensures StatusOf(SessionStream(output, marker, err)[|output|..], Prefix(marker)) ==
            if err.NoError? then 0 else if err.ExitStatus? && 1 <= err.code < 256 then err.code else 1
  {
    var prefix, code := Prefix(marker), SessionExitCode(err);
    PrefixWellFormed(marker);
    DecimalValue(code);
    var stream := SessionStream(output, marker, err);
    var t := prefix + Decimal(code) + [NEWLINE];
    assert stream[|output|..] == t;
    assert t[..|prefix|] == prefix;
    assert t[|prefix|..|t| - 1] == Decimal(code);
    assert TrailerAt(stream, prefix, |output|);
    if TrailerAt(stream, prefix, k) {
      TrailerUnique(stream, prefix, k, |output|);
    }
  }
}
