/**
 Stored results (server/src/services/resultModel.js): the snapshot document, with its payloads in the
 canonical form they are stored in, its recomputation and the reproducibility check. The content hash, a
 function of the canonical form, is a parameter.
 */
module Snapshots {
  import opened Wrappers
  import opened Sorting
  import opened TieBreakers
  import opened Eligibility
  import opened Results
  import opened Traces
  import opened Encoding
  import opened Readback

  datatype Kind = RULE_BASED | OVERRIDE

  /** A resultSnapshots document; `rest` is the canonical text of the fields no decision looks at. */
  datatype Snapshot = Snapshot(
    kind: Kind,
    computedWinnerEntryIds: seq<int>,
    declaredWinnerEntryIds: seq<int>,
    winningScore: Option<int>,
    tieBreakApplied: Option<Rule>,
    tieBreakTrace: Form,
    standings: Form,
    inputs: Form,
    inputsHash: string,
    rest: string)

  /** buildSnapshotInput, after normalizeSnapshot. */
  function BuildSnapshot(input: Input, result: GwResult, kind: Kind, declared: seq<int>, hash: Form -> string, rest: string): Snapshot {
    Snapshot(kind, result.outcome.winners, declared, result.outcome.winningScore, result.outcome.tieBreakApplied,
             TraceForm(ExplainDecision(result)), StandingsForm(result.rows), SavedForm(result.inputs, Entries(input.managers)),
             hash(InputsForm(result.inputs)), rest)
  }

  /** The engine inputs recomputeFromSnapshot reads from the stored form. */
  function StoredInput(s: Snapshot): Input {
    var i := InputsIn(s.inputs);
    Input(i.group, i.event, i.eventState, i.members, i.gwRows, FromEntries(i.effectiveSquads), FromEntries(ManagersIn(s.inputs)))
  }

  /** The six things a recomputation is compared on. */
  datatype Record = Record(
    inputsHash: string,
    winners: seq<int>,
    winningScore: Option<int>,
    tieBreakApplied: Option<Rule>,
    trace: Form,
    standings: Form)

  function RecordOf(r: GwResult, hash: Form -> string): Record {
    Record(hash(InputsForm(r.inputs)), r.outcome.winners, r.outcome.winningScore, r.outcome.tieBreakApplied,
           TraceForm(ExplainDecision(r)), StandingsForm(r.rows))
  }

  function StoredRecord(s: Snapshot): Record {
    Record(s.inputsHash, s.computedWinnerEntryIds, s.winningScore, s.tieBreakApplied, s.tieBreakTrace, s.standings)
  }

  datatype Mismatch = INPUTS_HASH | WINNERS | WINNING_SCORE | TIE_BREAK_APPLIED | TRACE | STANDINGS

  predicate Differs(m: Mismatch, r: Record, s: Record) {
    match m
    case INPUTS_HASH => r.inputsHash != s.inputsHash
    case WINNERS => r.winners != s.winners
    case WINNING_SCORE => r.winningScore != s.winningScore
    case TIE_BREAK_APPLIED => r.tieBreakApplied != s.tieBreakApplied
    case TRACE => r.trace != s.trace
    case STANDINGS => r.standings != s.standings
  }

  /** The comparisons of verifySnapshotReproduces. */
  method Compare(r: Record, s: Record) returns (mismatches: seq<Mismatch>)
    ensures forall m :: m in mismatches <==> Differs(m, r, s)
    ensures mismatches == [] <==> r == s
  {
    mismatches := PushIf([], r.inputsHash != s.inputsHash, INPUTS_HASH);
    mismatches := PushIf(mismatches, r.winners != s.winners, WINNERS);
    mismatches := PushIf(mismatches, r.winningScore != s.winningScore, WINNING_SCORE);
    mismatches := PushIf(mismatches, r.tieBreakApplied != s.tieBreakApplied, TIE_BREAK_APPLIED);
    mismatches := PushIf(mismatches, r.trace != s.trace, TRACE);
    mismatches := PushIf(mismatches, r.standings != s.standings, STANDINGS);
    assert forall m :: m in mismatches <==> Differs(m, r, s);
    assert mismatches != [] ==> mismatches[0] in mismatches;
  }

  ghost predicate Reproduces(s: Snapshot, nameKey: string -> real, hash: Form -> string) {
    RecordOf(Computed(StoredInput(s), nameKey), hash) == StoredRecord(s)
  }

  /** Each of the six stored results is reported exactly when it is not the recomputed one, and nothing else is. */
  predicate Reports(mismatches: seq<Mismatch>, s: Snapshot, r: GwResult, hash: Form -> string) {
    && (INPUTS_HASH in mismatches <==> s.inputsHash != hash(InputsForm(r.inputs)))
    && (WINNERS in mismatches <==> s.computedWinnerEntryIds != r.outcome.winners)
    && (WINNING_SCORE in mismatches <==> s.winningScore != r.outcome.winningScore)
    && (TIE_BREAK_APPLIED in mismatches <==> s.tieBreakApplied != r.outcome.tieBreakApplied)
    && (TRACE in mismatches <==> s.tieBreakTrace != TraceForm(ExplainDecision(r)))
    && (STANDINGS in mismatches <==> s.standings != StandingsForm(r.rows))
  }

  /** verifySnapshotReproduces: recompute from the stored inputs and report what differs. */
  method VerifySnapshotReproduces(s: Snapshot, nameKey: string -> real, hash: Form -> string)
    returns (mismatches: seq<Mismatch>)
    requires WellFormedInput(StoredInput(s))
    ensures mismatches == [] <==> Reproduces(s, nameKey, hash)
    ensures Reports(mismatches, s, Computed(StoredInput(s), nameKey), hash)
  {
    var r := ComputeGwResult(StoredInput(s), nameKey);
    mismatches := Compare(RecordOf(r, hash), StoredRecord(s));
    DifferencesReport(mismatches, s, r, hash);
  }

  lemma EachDifference(mismatches: seq<Mismatch>, a: Record, b: Record)
    requires forall m :: m in mismatches <==> Differs(m, a, b)
    ensures (INPUTS_HASH in mismatches <==> b.inputsHash != a.inputsHash) && (WINNERS in mismatches <==> b.winners != a.winners)
    ensures (WINNING_SCORE in mismatches <==> b.winningScore != a.winningScore)
    ensures (TIE_BREAK_APPLIED in mismatches <==> b.tieBreakApplied != a.tieBreakApplied)
    ensures (TRACE in mismatches <==> b.trace != a.trace) && (STANDINGS in mismatches <==> b.standings != a.standings)
  {
  }

  lemma DifferencesReport(mismatches: seq<Mismatch>, s: Snapshot, r: GwResult, hash: Form -> string)
    requires forall m :: m in mismatches <==> Differs(m, RecordOf(r, hash), StoredRecord(s))
    ensures Reports(mismatches, s, r, hash)
  {
    EachDifference(mismatches, RecordOf(r, hash), StoredRecord(s));
  }

  /**
   A snapshot that passes the check says what the engine decides on the inputs it holds: winners, score and
   deciding rule, its trace as read back, and in every cell of its table.
   */
  lemma PassingSnapshotIsTrue(s: Snapshot, nameKey: string -> real, hash: Form -> string)
    requires WellFormedInput(StoredInput(s)) && Reproduces(s, nameKey, hash)
    ensures var r := Computed(StoredInput(s), nameKey);
      && s.inputsHash == hash(InputsForm(r.inputs))
      && s.computedWinnerEntryIds == r.outcome.winners && s.winningScore == r.outcome.winningScore
      && s.tieBreakApplied == r.outcome.tieBreakApplied && TraceIn(s.tieBreakTrace) == ExplainDecision(r)
      && TableShows(s, r.rows)
  {
    var r := Computed(StoredInput(s), nameKey);
    TraceReadsBack(ExplainDecision(r));
    StandingsReadBack(r.rows);
  }

  predicate TableShows(s: Snapshot, rows: seq<Standing>) {
    var cells := StandingsIn(s.standings);
    |cells| == |rows| && forall k | 0 <= k < |rows| :: Shows(cells[k], rows[k])
  }

  /** What a built snapshot holds: the result, the inputs and the declared winners it was built from. */
  lemma SnapshotHolds(input: Input, result: GwResult, kind: Kind, declared: seq<int>, hash: Form -> string, rest: string)
    ensures var s := BuildSnapshot(input, result, kind, declared, hash, rest);
      && s.kind == kind && s.declaredWinnerEntryIds == declared && s.rest == rest
      && s.computedWinnerEntryIds == result.outcome.winners && s.winningScore == result.outcome.winningScore
      && s.tieBreakApplied == result.outcome.tieBreakApplied && TraceIn(s.tieBreakTrace) == ExplainDecision(result)
      && TableShows(s, result.rows) && s.inputsHash == hash(InputsForm(result.inputs))
      && InputsIn(s.inputs) == result.inputs && FromEntries(ManagersIn(s.inputs)) == input.managers
  {
    TraceReadsBack(ExplainDecision(result));
    StandingsReadBack(result.rows);
    SavedInputsReadBack(result.inputs, Entries(input.managers));
    EntriesRoundTrip(input.managers);
  }

  // ---- a stored result recomputes to itself ----

  lemma StoredMembers(input: Input)
    requires WellFormedInput(input)
    ensures multiset(SortByKey(input.members, MemberId())) == multiset(input.members)
    ensures DistinctKeys(SortByKey(input.members, MemberId()), MemberId())
  {
    SortByKeyIsStrict(input.members, MemberId());
  }

  lemma StoredRows(gwRows: seq<GwRow>, event: int)
    ensures forall r | r in RowValues(RowsByEntry(gwRows, event)) :: r in gwRows
  {
  }

  /** What comes back from the stored form of these inputs. */
  function ReadBack(input: Input): Input {
    Input(input.group, input.event, input.eventState, SortByKey(input.members, MemberId()),
          RowValues(RowsByEntry(input.gwRows, input.event)), input.effectiveSquads, input.managers)
  }

  lemma StoredInputIsReadBack(input: Input, s: Snapshot)
    requires s.inputs == SavedForm(CanonicalInputs(input), Entries(input.managers))
    ensures StoredInput(s) == ReadBack(input)
  {
    SavedInputsReadBack(CanonicalInputs(input), Entries(input.managers));
    EntriesRoundTrip(input.effectiveSquads);
    EntriesRoundTrip(input.managers);
  }

  /** The stored inputs are the original ones, up to the order of members and rows. */
  lemma ReadBackIsSame(input: Input)
    requires WellFormedInput(input)
    ensures WellFormedInput(ReadBack(input)) && SameUpToOrder(input, ReadBack(input))
  {
    StoredMembers(input);
    StoredRows(input.gwRows, input.event);
    RowValuesRoundTrip(input.gwRows, input.event);
  }

  /**
   Every snapshot the service can build from an engine result is reproducible from its stored canonical
   form, whatever order the members, rows, squads and managers came in and whichever winners were declared.
   */
  lemma SnapshotReproduces(input: Input, nameKey: string -> real, kind: Kind, declared: seq<int>, hash: Form -> string, rest: string)
    requires WellFormedInput(input)
    ensures var s := BuildSnapshot(input, Computed(input, nameKey), kind, declared, hash, rest);
      WellFormedInput(StoredInput(s)) && Reproduces(s, nameKey, hash)
  {
    var r := Computed(input, nameKey);
    StoredInputIsReadBack(input, BuildSnapshot(input, r, kind, declared, hash, rest));
    ReadBackIsSame(input);
    ResultIgnoresInputOrder(input, ReadBack(input), nameKey);
  }

  // ---- the inputs hash pins the decision ----

  ghost predicate CollisionFree(hash: Form -> string) {
    forall x, y | hash(x) == hash(y) :: x == y
  }

  /**
   Under a hash without collisions of canonical texts, any snapshot that passes the check with the inputs
   hash of a genuine one records the genuine decision: same winners, score, deciding rule and trace. Manager
   names are not under this hash; only the names in the standings, and the row order they decide, may differ.
   */
  lemma InputsHashPinsDecision(input: Input, s: Snapshot, nameKey: string -> real, hash: Form -> string)
    requires WellFormedInput(input) && WellFormedInput(StoredInput(s)) && CollisionFree(hash)
    requires s.inputsHash == hash(InputsForm(CanonicalInputs(input))) && Reproduces(s, nameKey, hash)
    ensures var r := Computed(input, nameKey);
      && s.computedWinnerEntryIds == r.outcome.winners
      && s.winningScore == r.outcome.winningScore
      && s.tieBreakApplied == r.outcome.tieBreakApplied
      && s.tieBreakTrace == TraceForm(ExplainDecision(r))
  {
    var mine := CanonicalInputs(StoredInput(s));
    assert hash(InputsForm(mine)) == s.inputsHash;
    FormsAreInjective(mine, [], CanonicalInputs(input), []);
    SameInputsSameDecision(StoredInput(s), input, nameKey);
  }
}
