/**
 * Payslip creation from payroll entries (`PayslipController::generate` and
 * `bulkGenerate`). The payslips table is modelled by the sequence of the
 * payroll entry IDs its rows point at, in creation order. What
 * `generatePayslipNumber`, `Payslip::create` and `generatePDF` do besides
 * adding that row is not modelled; whether and where an attempt throws is an
 * input (`fate`, indexed by loop position).
 */
module PayslipGeneration {
  import opened Wrappers
  import opened Numerals

  /** How the attempt at one loop position ends. */
  datatype Fate =
    | Succeeds
    | FailsBeforeCreate(message: string)   // generatePayslipNumber or create throws
    | FailsAfterCreate(message: string)    // the row exists, generatePDF throws

  predicate NoDuplicates(s: seq<nat>)
  {
    forall i, j :: 0 <= i < j < |s| ==> s[i] != s[j]
  }

  /** The entry of this line in `$errors`. */
  function ErrorMessage(entryId: nat, message: string): (r: string)
  {
    "Failed to generate payslip for entry ID " + NatToDecimal(entryId) + ": " + message
  }

  /** `implode(', ', $xs)`. */
  function Join(xs: seq<string>): (r: string)
  {
    if xs == [] then ""
    else if |xs| == 1 then xs[0]
    else Join(xs[..|xs| - 1]) + ", " + xs[|xs| - 1]
  }

  // ---------------------------------------------------------------------------
  // generate
  // ---------------------------------------------------------------------------

  /** The payslip rows, `$generatedCount` and `$errors` while the loop runs. */
  datatype RunState = RunState(payslips: seq<nat>, generatedCount: nat, errors: seq<string>)

  /** One iteration: skip unknown or already covered entries, otherwise attempt a payslip. */
  function GenerateStep(scoped: set<nat>, s: RunState, entryId: nat, fate: Fate): (r: RunState)
  {
    if entryId !in scoped || entryId in s.payslips then s
    else
      match fate
      case Succeeds =>
        s.(payslips := s.payslips + [entryId], generatedCount := s.generatedCount + 1)
      case FailsBeforeCreate(m) =>
        s.(errors := s.errors + [ErrorMessage(entryId, m)])
      case FailsAfterCreate(m) =>
        s.(payslips := s.payslips + [entryId], errors := s.errors + [ErrorMessage(entryId, m)])
  }

  /** The loop over `ids`, from existing payslips and zero counters. */
  function GenerateRun(scoped: set<nat>, existing: seq<nat>, ids: seq<nat>, fate: nat -> Fate): (r: RunState)
  {
    if ids == [] then RunState(existing, 0, [])
    else
      GenerateStep(scoped, GenerateRun(scoped, existing, ids[..|ids| - 1], fate), ids[|ids| - 1], fate(|ids| - 1))
  }

  /**
   * What a run of `generate` promises: the old payslips stay, every new one
   * is for a visible entry taken from the input that had none, no entry gets
   * two, each attempt ends either counted or as one error message, and the
   * count never exceeds the rows created.
   */
  lemma {:induction false} GenerateRunFacts(scoped: set<nat>, existing: seq<nat>, ids: seq<nat>, fate: nat -> Fate)
    ensures var r := GenerateRun(scoped, existing, ids, fate);
      && existing <= r.payslips
      && (forall k :: |existing| <= k < |r.payslips| ==>
            r.payslips[k] in scoped && r.payslips[k] in ids && r.payslips[k] !in existing)
      && (NoDuplicates(existing) ==> NoDuplicates(r.payslips))
      && r.generatedCount + |r.errors| <= |ids|
      && r.generatedCount <= |r.payslips| - |existing| <= r.generatedCount + |r.errors|
  {
    if ids != [] {
      var init := ids[..|ids| - 1];
      var id := ids[|ids| - 1];
      GenerateRunFacts(scoped, existing, init, fate);
      var s := GenerateRun(scoped, existing, init, fate);
      var r := GenerateStep(scoped, s, id, fate(|ids| - 1));
      assert forall x :: x in init ==> x in ids;
      if r.payslips != s.payslips {
        assert r.payslips == s.payslips + [id];
      }
    }
  }

  /**
   * When nothing throws, there are no errors, every creation is counted, and
   * the payslip entries become the old ones plus every visible input ID.
   */
  lemma {:induction false} GenerateAllSucceed(scoped: set<nat>, existing: seq<nat>, ids: seq<nat>, fate: nat -> Fate)
    requires forall i :: 0 <= i < |ids| ==> fate(i) == Succeeds
    ensures var r := GenerateRun(scoped, existing, ids, fate);
      && r.errors == []
      && r.generatedCount == |r.payslips| - |existing|
      && (forall x :: x in r.payslips <==> x in existing || (x in ids && x in scoped))
  {
    if ids != [] {
      var init := ids[..|ids| - 1];
      GenerateAllSucceed(scoped, existing, init, fate);
      GenerateRunFacts(scoped, existing, init, fate);
      assert forall x :: x in ids <==> x in init || x == ids[|ids| - 1];
    }
  }

  /** A repeated ID produces one payslip. */
  lemma RepeatedIdCreatesOnePayslip()
    ensures GenerateRun({7}, [], [7, 7], _ => Succeeds) == RunState([7], 1, [])
  {
    assert [7, 7][..1] == [7];
    assert [7][..0] == [];
  }

  /** A PDF failure leaves the row, counts nothing and logs the ID and the reason. */
  lemma PdfFailureExample()
    ensures GenerateRun({3}, [], [3], _ => FailsAfterCreate("disk full"))
      == RunState([3], 0, ["Failed to generate payslip for entry ID 3: disk full"])
  {
    assert [3][..0] == [];
    assert DecimalDigit(3) == '3';
    assert NatToDecimal(3) == "3";
    assert ErrorMessage(3, "disk full") == "Failed to generate payslip for entry ID 3: disk full";
  }

  datatype Flash = SuccessFlash(text: string) | ErrorFlash(text: string)

  /** The redirect message after the loop of `generate`. */
  function GenerateFlash(generatedCount: nat, errors: seq<string>): (f: Flash)
    ensures f.SuccessFlash? <==> generatedCount > 0
  {
    if generatedCount > 0 then
      SuccessFlash("Generated " + NatToDecimal(generatedCount) + " payslip(s) successfully."
        + (if errors != [] then " Some errors occurred: " + Join(errors) else ""))
    else ErrorFlash("No payslips were generated. " + Join(errors))
  }

  // ---------------------------------------------------------------------------
  // bulkGenerate
  // ---------------------------------------------------------------------------

  /** The payslip rows, `$generatedCount`, and the exception that ended the loop, if any. */
  datatype BulkState = BulkState(payslips: seq<nat>, generatedCount: nat, aborted: Option<string>)

  /** One iteration; there is no per-entry `try`, so the first exception ends the loop. */
  function BulkStep(s: BulkState, entryId: nat, fate: Fate): (r: BulkState)
  {
    if s.aborted.Some? || entryId in s.payslips then s
    else
      match fate
      case Succeeds => s.(payslips := s.payslips + [entryId], generatedCount := s.generatedCount + 1)
      case FailsBeforeCreate(m) => s.(aborted := Some(m))
      case FailsAfterCreate(m) => s.(payslips := s.payslips + [entryId], aborted := Some(m))
  }

  /** The loop over the run's entries. */
  function BulkRun(existing: seq<nat>, entries: seq<nat>, fate: nat -> Fate): (r: BulkState)
  {
    if entries == [] then BulkState(existing, 0, None)
    else BulkStep(BulkRun(existing, entries[..|entries| - 1], fate), entries[|entries| - 1], fate(|entries| - 1))
  }

  /** The redirect message of `bulkGenerate`. */
  function BulkFlash(s: BulkState): (f: Flash)
    ensures f.SuccessFlash? <==> s.aborted.None?
  {
    match s.aborted
    case None => SuccessFlash("Generated " + NatToDecimal(s.generatedCount) + " payslips successfully.")
    case Some(m) => ErrorFlash("Failed to generate payslips: " + m)
  }

  /**
   * Nothing is rolled back: rows created before an exception stay. The count
   * is exactly the rows added, except that a PDF failure adds one uncounted
   * row and stops the loop.
   */
  lemma {:induction false} BulkRunFacts(existing: seq<nat>, entries: seq<nat>, fate: nat -> Fate)
    ensures var r := BulkRun(existing, entries, fate);
      && existing <= r.payslips
      && (NoDuplicates(existing) ==> NoDuplicates(r.payslips))
      && (forall k :: |existing| <= k < |r.payslips| ==> r.payslips[k] in entries)
      && r.generatedCount <= |r.payslips| - |existing| <= r.generatedCount + 1
      && (r.aborted.None? ==> |r.payslips| - |existing| == r.generatedCount)
  {
    if entries != [] {
      var init := entries[..|entries| - 1];
      BulkRunFacts(existing, init, fate);
      assert forall x :: x in init ==> x in entries;
    }
  }

  /** Once an exception is raised the rest of the entries are not looked at. */
  lemma {:induction false} BulkStopsAtFirstFailure(existing: seq<nat>, entries: seq<nat>, more: seq<nat>, fate: nat -> Fate)
    requires BulkRun(existing, entries, fate).aborted.Some?
    ensures BulkRun(existing, entries + more, fate) == BulkRun(existing, entries, fate)
  {
    if more != [] {
      var all := entries + more;
      assert all[..|all| - 1] == entries + more[..|more| - 1];
      BulkStopsAtFirstFailure(existing, entries, more[..|more| - 1], fate);
    } else {
      assert entries + more == entries;
    }
  }

  // ---------------------------------------------------------------------------
  // The payslips table
  // ---------------------------------------------------------------------------

  class PayslipStore {
    /** Payroll entries the current company can see (`find` succeeds). */
    const scopedEntries: set<nat>
    /** `payroll_entry_id` of each payslip row, in creation order. */
    var payslips: seq<nat>

    constructor (scopedEntries: set<nat>, payslips: seq<nat>)
      ensures this.scopedEntries == scopedEntries && this.payslips == payslips
    {
      this.scopedEntries := scopedEntries;
      this.payslips := payslips;
    }

    /** `generate` over the validated `payroll_entry_ids`. */
    method Generate(ids: seq<nat>, fate: nat -> Fate) returns (generatedCount: nat, errors: seq<string>)
      modifies this
      ensures RunState(payslips, generatedCount, errors) == GenerateRun(scopedEntries, old(payslips), ids, fate)
    {
      generatedCount := 0;
      errors := [];
      ghost var existing := payslips;
      for i := 0 to |ids|
        invariant RunState(payslips, generatedCount, errors) == GenerateRun(scopedEntries, existing, ids[..i], fate)
      {
        var entryId := ids[i];
        assert ids[..i + 1][..i] == ids[..i];
        if entryId !in scopedEntries {
          continue;
        }
        if entryId in payslips {
          continue;
        }
        match fate(i)
        case Succeeds =>
          payslips := payslips + [entryId];
          generatedCount := generatedCount + 1;
        case FailsBeforeCreate(m) =>
          errors := errors + [ErrorMessage(entryId, m)];
        case FailsAfterCreate(m) =>
          payslips := payslips + [entryId];
          errors := errors + [ErrorMessage(entryId, m)];
      }
      assert ids[..|ids|] == ids;
    }

    /** `bulkGenerate` over the entries of one payroll run. */
    method BulkGenerate(entries: seq<nat>, fate: nat -> Fate) returns (flash: Flash)
      modifies this
      ensures var r := BulkRun(old(payslips), entries, fate);
        payslips == r.payslips && flash == BulkFlash(r)
    {
      var generatedCount := 0;
      ghost var existing := payslips;
      var i := 0;
      while i < |entries|
        invariant 0 <= i <= |entries|
        invariant BulkRun(existing, entries[..i], fate) == BulkState(payslips, generatedCount, None)
      {
        var entryId := entries[i];
        assert entries[..i + 1][..i] == entries[..i];
        if entryId !in payslips {
          match fate(i)
          case Succeeds =>
            payslips := payslips + [entryId];
            generatedCount := generatedCount + 1;
          case FailsBeforeCreate(m) =>
            BulkStopsAtFirstFailure(existing, entries[..i + 1], entries[i + 1..], fate);
            assert entries[..i + 1] + entries[i + 1..] == entries;
            return ErrorFlash("Failed to generate payslips: " + m);
          case FailsAfterCreate(m) =>
            payslips := payslips + [entryId];
            BulkStopsAtFirstFailure(existing, entries[..i + 1], entries[i + 1..], fate);
            assert entries[..i + 1] + entries[i + 1..] == entries;
            return ErrorFlash("Failed to generate payslips: " + m);
        }
        i := i + 1;
      }
      assert entries[..|entries|] == entries;
      flash := SuccessFlash("Generated " + NatToDecimal(generatedCount) + " payslips successfully.");
    }
  }
}
