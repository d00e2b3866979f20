/**
 * The per-row figures of the payslip exports (`PayslipController::exportExcel`
 * and `exportPdf`): each label of an entry's stored deductions breakdown goes
 * to one employee (EE) or employer (ER) column, each earning label to the
 * THR/PKWT or bonus column, and the row totals follow from the columns.
 *
 * Both exports run the same classification, so the model defines it once
 * (`Figures`, computed by the loops of `ComputeRow`) and renders it twice
 * (`ExcelCells`, `PdfRecordOf` + `BladeCells`).
 */
module PayslipExport {
  import opened Wrappers
  import opened Text
  import opened PhpArray

  // ---------------------------------------------------------------------------
  // Columns
  // ---------------------------------------------------------------------------

  /** `$eeValues`. */
  datatype EeBuckets = EeBuckets(
    bpjsSocialSecurity: real, bpjsHealthcare: real, pension: real,
    regularIncomeTax: real, irregularIncomeTax: real, expenses: real)

  /** `$erValues`. */
  datatype ErBuckets = ErBuckets(
    regularIncomeTax: real, irregularIncomeTax: real,
    bpjsSocialSecurity: real, bpjsHealthcare: real, pension: real)

  /** `$earningValues`. */
  datatype EarningBuckets = EarningBuckets(thrPkwt: real, bonus: real)

  datatype EeColumn = EeSocialSecurity | EeHealthcare | EePension | EeRegularTax | EeIrregularTax | EeExpenses
  datatype ErColumn = ErRegularTax | ErIrregularTax | ErSocialSecurity | ErHealthcare | ErPension

  /** Where one deductions label goes. */
  datatype DeductionClass = ToEmployee(ee: EeColumn) | ToEmployer(er: ErColumn) | EmployerDropped

  /** Where one earnings label goes. */
  datatype EarningClass = BasicSkipped | ToThrPkwt | ToBonus | EarningDropped

  const ZeroEe := EeBuckets(0.0, 0.0, 0.0, 0.0, 0.0, 0.0)
  const ZeroEr := ErBuckets(0.0, 0.0, 0.0, 0.0, 0.0)
  const ZeroEarnings := EarningBuckets(0.0, 0.0)

  // ---------------------------------------------------------------------------
  // Classification
  // ---------------------------------------------------------------------------

  /** An employer contribution: the original (not lower-cased) label begins with `ER_`. */
  predicate IsEmployerLabel(name: string)
  {
    StartsWith(name, "ER_")
  }

  predicate ErHealthKeyword(lower: string)
  {
    Contains(lower, "bpjs_kesehatan")
  }

  predicate ErSocialKeyword(lower: string)
  {
    Contains(lower, "bpjs_jht") || Contains(lower, "bpjs_jkk") || Contains(lower, "bpjs_jkm")
  }

  predicate ErPensionKeyword(lower: string)
  {
    Contains(lower, "bpjs_jp")
  }

  predicate ErTaxKeyword(lower: string)
  {
    Contains(lower, "tax") || Contains(lower, "pph")
  }

  /**
   * The sub-classification of an `ER_` label, first match: healthcare, social
   * security, pension, tax (irregular only on `irregular`); `None`: no column.
   */
  function ClassifyEmployer(lower: string): (r: Option<ErColumn>)
    ensures r == Some(ErHealthcare) <==> ErHealthKeyword(lower)
    ensures r == Some(ErSocialSecurity) <==> !ErHealthKeyword(lower) && ErSocialKeyword(lower)
    ensures r == Some(ErPension) <==>
      !ErHealthKeyword(lower) && !ErSocialKeyword(lower) && ErPensionKeyword(lower)
    ensures r in {Some(ErRegularTax), Some(ErIrregularTax)} <==>
      !ErHealthKeyword(lower) && !ErSocialKeyword(lower) && !ErPensionKeyword(lower) && ErTaxKeyword(lower)
    ensures r == Some(ErIrregularTax) ==> Contains(lower, "irregular")
    ensures r == Some(ErRegularTax) ==> !Contains(lower, "irregular")
    ensures r == None <==>
      !ErHealthKeyword(lower) && !ErSocialKeyword(lower) && !ErPensionKeyword(lower) && !ErTaxKeyword(lower)
  {
    if ErHealthKeyword(lower) then Some(ErHealthcare)
    else if ErSocialKeyword(lower) then Some(ErSocialSecurity)
    else if ErPensionKeyword(lower) then Some(ErPension)
    else if ErTaxKeyword(lower) then
      if Contains(lower, "irregular") then Some(ErIrregularTax) else Some(ErRegularTax)
    else None
  }

  predicate SocialKeyword(lower: string)
  {
    Contains(lower, "bpjs") &&
    (Contains(lower, "jht") || Contains(lower, "jkk") || Contains(lower, "jkm") ||
     Contains(lower, "social") || Contains(lower, "ketenagakerjaan") || Contains(lower, "working"))
  }

  predicate HealthKeyword(lower: string)
  {
    Contains(lower, "bpjs") &&
    (Contains(lower, "health") || Contains(lower, "kesehatan") || Contains(lower, "healthcare"))
  }

  predicate PensionKeyword(lower: string)
  {
    Contains(lower, "pension") || Contains(lower, "pensiun") || Contains(lower, "jp")
  }

  predicate TaxKeyword(lower: string)
  {
    Contains(lower, "tax") || Contains(lower, "pph") || Contains(lower, "pajak")
  }

  predicate IrregularKeyword(lower: string)
  {
    Contains(lower, "irregular") || Contains(lower, "tidak teratur")
  }

  /**
   * The column of any other label, first match: social security, healthcare,
   * pension, tax (irregular or regular), and expenses for everything else.
   */
  function ClassifyEmployee(lower: string): (col: EeColumn)
    ensures col == EeSocialSecurity <==> SocialKeyword(lower)
    ensures col == EeHealthcare <==> !SocialKeyword(lower) && HealthKeyword(lower)
    ensures col == EePension <==> !SocialKeyword(lower) && !HealthKeyword(lower) && PensionKeyword(lower)
    ensures col in {EeRegularTax, EeIrregularTax} <==>
      !SocialKeyword(lower) && !HealthKeyword(lower) && !PensionKeyword(lower) && TaxKeyword(lower)
    ensures col == EeIrregularTax ==> IrregularKeyword(lower)
    ensures col == EeRegularTax ==> !IrregularKeyword(lower)
  {
    if SocialKeyword(lower) then EeSocialSecurity
    else if HealthKeyword(lower) then EeHealthcare
    else if PensionKeyword(lower) then EePension
    else if TaxKeyword(lower) then
      if IrregularKeyword(lower) then EeIrregularTax else EeRegularTax
    // the `expense`/`biaya` branch and the final else both land here
    else EeExpenses
  }

  /** The classification of one deductions label. */
  function ClassifyDeduction(name: string): (c: DeductionClass)
    ensures c.ToEmployee? <==> !IsEmployerLabel(name)
    ensures c.ToEmployee? ==> c.ee == ClassifyEmployee(Lower(name))
    ensures c.ToEmployer? ==> IsEmployerLabel(name) && Some(c.er) == ClassifyEmployer(Lower(name))
    ensures c == EmployerDropped <==> IsEmployerLabel(name) && ClassifyEmployer(Lower(name)) == None
  {
    if IsEmployerLabel(name) then
      match ClassifyEmployer(Lower(name))
      case Some(col) => ToEmployer(col)
      case None => EmployerDropped
    else ToEmployee(ClassifyEmployee(Lower(name)))
  }

  predicate ThrKeyword(lower: string)
  {
    Contains(lower, "thr") || Contains(lower, "pkwt")
  }

  predicate BonusKeyword(lower: string)
  {
    Contains(lower, "bonus") || Contains(lower, "insentif") || Contains(lower, "incentive")
  }

  /** The classification of one earnings label; THR/PKWT is tested before bonus. */
  function ClassifyEarning(name: string): (c: EarningClass)
    ensures c == BasicSkipped <==> Lower(name) == "basic salary"
    ensures c == ToThrPkwt <==> Lower(name) != "basic salary" && ThrKeyword(Lower(name))
    ensures c == ToBonus <==>
      Lower(name) != "basic salary" && !ThrKeyword(Lower(name)) && BonusKeyword(Lower(name))
    ensures c == EarningDropped <==>
      Lower(name) != "basic salary" && !ThrKeyword(Lower(name)) && !BonusKeyword(Lower(name))
  {
    var lower := Lower(name);
    if lower == "basic salary" then BasicSkipped
    else if ThrKeyword(lower) then ToThrPkwt
    else if BonusKeyword(lower) then ToBonus
    else EarningDropped
  }

  // ---------------------------------------------------------------------------
  // Adding to a column
  // ---------------------------------------------------------------------------

  function AddEe(b: EeBuckets, col: EeColumn, amount: real): (r: EeBuckets)
  {
    match col
    case EeSocialSecurity => b.(bpjsSocialSecurity := b.bpjsSocialSecurity + amount)
    case EeHealthcare => b.(bpjsHealthcare := b.bpjsHealthcare + amount)
    case EePension => b.(pension := b.pension + amount)
    case EeRegularTax => b.(regularIncomeTax := b.regularIncomeTax + amount)
    case EeIrregularTax => b.(irregularIncomeTax := b.irregularIncomeTax + amount)
    case EeExpenses => b.(expenses := b.expenses + amount)
  }

  function AddEr(b: ErBuckets, col: ErColumn, amount: real): (r: ErBuckets)
  {
    match col
    case ErRegularTax => b.(regularIncomeTax := b.regularIncomeTax + amount)
    case ErIrregularTax => b.(irregularIncomeTax := b.irregularIncomeTax + amount)
    case ErSocialSecurity => b.(bpjsSocialSecurity := b.bpjsSocialSecurity + amount)
    case ErHealthcare => b.(bpjsHealthcare := b.bpjsHealthcare + amount)
    case ErPension => b.(pension := b.pension + amount)
  }

  /** `array_sum($eeValues)`. */
  function EeTotal(b: EeBuckets): (r: real)
  {
    b.bpjsSocialSecurity + b.bpjsHealthcare + b.pension + b.regularIncomeTax + b.irregularIncomeTax + b.expenses
  }

  /** `array_sum($erValues)`. */
  function ErTotal(b: ErBuckets): (r: real)
  {
    b.regularIncomeTax + b.irregularIncomeTax + b.bpjsSocialSecurity + b.bpjsHealthcare + b.pension
  }

  lemma AddEeTotal(b: EeBuckets, col: EeColumn, amount: real)
    ensures EeTotal(AddEe(b, col, amount)) == EeTotal(b) + amount
  {
  }

  lemma AddErTotal(b: ErBuckets, col: ErColumn, amount: real)
    ensures ErTotal(AddEr(b, col, amount)) == ErTotal(b) + amount
  {
  }

  // ---------------------------------------------------------------------------
  // The loops over the breakdowns, as folds
  // ---------------------------------------------------------------------------

  datatype DeductionTally = DeductionTally(ee: EeBuckets, er: ErBuckets)

  /** One iteration of the deductions loop. */
  function AddDeduction(t: DeductionTally, name: string, amount: real): (r: DeductionTally)
  {
    match ClassifyDeduction(name)
    case ToEmployee(col) => t.(ee := AddEe(t.ee, col, amount))
    case ToEmployer(col) => t.(er := AddEr(t.er, col, amount))
    case EmployerDropped => t
  }

  /** The columns after the deductions loop over `d`, starting from `t`. */
  function FoldDeductions(t: DeductionTally, d: Entries<real>): (r: DeductionTally)
  {
    if d == [] then t
    else
      var (name, amount) := d[|d| - 1];
      AddDeduction(FoldDeductions(t, d[..|d| - 1]), name, amount)
  }

  /** One iteration of the earnings loop. */
  function AddEarning(b: EarningBuckets, name: string, amount: real): (r: EarningBuckets)
  {
    match ClassifyEarning(name)
    case ToThrPkwt => b.(thrPkwt := b.thrPkwt + amount)
    case ToBonus => b.(bonus := b.bonus + amount)
    case _ => b
  }

  function FoldEarnings(b: EarningBuckets, e: Entries<real>): (r: EarningBuckets)
  {
    if e == [] then b
    else
      var (name, amount) := e[|e| - 1];
      AddEarning(FoldEarnings(b, e[..|e| - 1]), name, amount)
  }

  /** The deductions loop over `a + b` is the loop over `a` and then over `b`. */
  lemma {:induction false} FoldDeductionsAppend(t: DeductionTally, a: Entries<real>, b: Entries<real>)
    ensures FoldDeductions(t, a + b) == FoldDeductions(FoldDeductions(t, a), b)
  {
    if b == [] {
      assert a + b == a;
    } else {
      assert (a + b)[..|a + b| - 1] == a + b[..|b| - 1];
      FoldDeductionsAppend(t, a, b[..|b| - 1]);
    }
  }

  // ---------------------------------------------------------------------------
  // Reference sums
  // ---------------------------------------------------------------------------

  /** The sum of the amounts whose label does not begin with `ER_`. */
  function EmployeeSideSum(d: Entries<real>): (r: real)
  {
    if d == [] then 0.0
    else (if IsEmployerLabel(d[|d| - 1].0) then 0.0 else d[|d| - 1].1) + EmployeeSideSum(d[..|d| - 1])
  }

  /** The sum of the amounts of `ER_` labels that reach an employer column. */
  function EmployerColumnSum(d: Entries<real>): (r: real)
  {
    if d == [] then 0.0
    else (if ClassifyDeduction(d[|d| - 1].0).ToEmployer? then d[|d| - 1].1 else 0.0) + EmployerColumnSum(d[..|d| - 1])
  }

  /** The sum of the earning amounts that reach the THR/PKWT or bonus column. */
  function ShownEarningSum(e: Entries<real>): (r: real)
  {
    if e == [] then 0.0
    else (if ClassifyEarning(e[|e| - 1].0) in {ToThrPkwt, ToBonus} then e[|e| - 1].1 else 0.0) + ShownEarningSum(e[..|e| - 1])
  }

  /** Only the labels that are not `ER_`. */
  function EmployeeSide(d: Entries<real>): (r: Entries<real>)
    ensures forall i :: 0 <= i < |r| ==> !IsEmployerLabel(r[i].0)
  {
    if d == [] then []
    else
      var prev := EmployeeSide(d[..|d| - 1]);
      if IsEmployerLabel(d[|d| - 1].0) then prev else prev + [d[|d| - 1]]
  }

  /**
   * Every amount of a label that is not `ER_` lands in exactly one EE column
   * (unmatched labels go to expenses), so the EE columns add up to the sum of
   * those amounts; the ER columns add up to the `ER_` amounts that match a
   * keyword, the others being dropped.
   */
  lemma {:induction false} DeductionColumnSums(d: Entries<real>)
    ensures EeTotal(FoldDeductions(DeductionTally(ZeroEe, ZeroEr), d).ee) == EmployeeSideSum(d)
    ensures ErTotal(FoldDeductions(DeductionTally(ZeroEe, ZeroEr), d).er) == EmployerColumnSum(d)
  {
    if d != [] {
      var t := FoldDeductions(DeductionTally(ZeroEe, ZeroEr), d[..|d| - 1]);
      DeductionColumnSums(d[..|d| - 1]);
      var (name, amount) := d[|d| - 1];
      match ClassifyDeduction(name)
      case ToEmployee(col) => AddEeTotal(t.ee, col, amount);
      case ToEmployer(col) => AddErTotal(t.er, col, amount);
      case EmployerDropped =>
    }
  }

  /** An `ER_` label never contributes to an EE column: the EE columns only see the other labels. */
  lemma {:induction false} EmployerLabelsNeverReachEmployee(t: DeductionTally, d: Entries<real>)
    ensures FoldDeductions(t, d).ee == FoldDeductions(t, EmployeeSide(d)).ee
  {
    if d != [] {
      var init := d[..|d| - 1];
      EmployerLabelsNeverReachEmployee(t, init);
      var last := d[|d| - 1];
      if !IsEmployerLabel(last.0) {
        var r := EmployeeSide(init) + [last];
        assert r[..|r| - 1] == EmployeeSide(init);
      }
    }
  }

  /** Only THR/PKWT and bonus earnings reach the earning columns. */
  lemma {:induction false} EarningColumnSums(e: Entries<real>)
    ensures FoldEarnings(ZeroEarnings, e).thrPkwt + FoldEarnings(ZeroEarnings, e).bonus == ShownEarningSum(e)
  {
    if e != [] {
      EarningColumnSums(e[..|e| - 1]);
    }
  }

  // ---------------------------------------------------------------------------
  // The row
  // ---------------------------------------------------------------------------

  /** The stored payroll entry of a payslip; a null breakdown column is the empty array. */
  datatype PayrollEntry = PayrollEntry(
    basicSalary: real,
    netPay: real,
    earningsBreakdown: Entries<real>,
    deductionsBreakdown: Entries<real>)

  /** Everything a row of either export is made of. */
  datatype RowFigures = RowFigures(
    basicSalary: real,
    netPay: real,
    earnings: EarningBuckets,
    ee: EeBuckets,
    er: ErBuckets,
    totalStatutoryAndTax: real,
    totalEmployerCost: real)

  /** The figures of a payslip's row; a payslip without an entry counts as all zeros and empty breakdowns. */
  function Figures(entry: Option<PayrollEntry>): (r: RowFigures)
  {
    var basic := if entry.Some? then entry.value.basicSalary else 0.0;
    var netPay := if entry.Some? then entry.value.netPay else 0.0;
    var earningsBreakdown := if entry.Some? then entry.value.earningsBreakdown else [];
    var deductionsBreakdown := if entry.Some? then entry.value.deductionsBreakdown else [];
    var t := FoldDeductions(DeductionTally(ZeroEe, ZeroEr), deductionsBreakdown);
    var earnings := FoldEarnings(ZeroEarnings, earningsBreakdown);
    var totalStatutoryAndTax := EeTotal(t.ee) + ErTotal(t.er);
    RowFigures(basic, netPay, earnings, t.ee, t.er, totalStatutoryAndTax, netPay + totalStatutoryAndTax)
  }

  /**
   * The row totals: statutory-and-tax is the EE columns plus the ER columns,
   * which is every amount whose label is not `ER_` plus the classified `ER_`
   * amounts, and employer cost is net pay plus that.
   */
  lemma FiguresTotals(entry: PayrollEntry)
    ensures var f := Figures(Some(entry));
      var d := entry.deductionsBreakdown;
      && f.basicSalary == entry.basicSalary && f.netPay == entry.netPay
      && f.totalStatutoryAndTax == EeTotal(f.ee) + ErTotal(f.er)
      && f.totalStatutoryAndTax == EmployeeSideSum(d) + EmployerColumnSum(d)
      && f.totalEmployerCost == f.netPay + f.totalStatutoryAndTax
  {
    DeductionColumnSums(entry.deductionsBreakdown);
  }

  /** A payslip without an entry has zero basic, net pay, columns and totals. */
  lemma MissingEntryIsZero()
    ensures Figures(None) == RowFigures(0.0, 0.0, ZeroEarnings, ZeroEe, ZeroEr, 0.0, 0.0)
  {
    var zero := DeductionTally(ZeroEe, ZeroEr);
    assert FoldDeductions(zero, []) == zero;
    assert FoldEarnings(ZeroEarnings, []) == ZeroEarnings;
    assert EeTotal(ZeroEe) == 0.0 && ErTotal(ZeroEr) == 0.0;
  }

  /** The per-row loops of `exportExcel` and `exportPdf`, which are the same code. */
  method ComputeRow(entry: Option<PayrollEntry>) returns (f: RowFigures)
    ensures f == Figures(entry)
  {
    var basicSalary := if entry.Some? then entry.value.basicSalary else 0.0;
    var netPay := if entry.Some? then entry.value.netPay else 0.0;
    var earningsBreakdown := if entry.Some? then entry.value.earningsBreakdown else [];
    var deductionsBreakdown := if entry.Some? then entry.value.deductionsBreakdown else [];

    var eeValues := ZeroEe;
    var erValues := ZeroEr;
    var earningValues := ZeroEarnings;

    for i := 0 to |deductionsBreakdown|
      invariant DeductionTally(eeValues, erValues)
        == FoldDeductions(DeductionTally(ZeroEe, ZeroEr), deductionsBreakdown[..i])
    {
      var (name, amount) := deductionsBreakdown[i];
      assert deductionsBreakdown[..i + 1][..i] == deductionsBreakdown[..i];
      match ClassifyDeduction(name)
      case ToEmployer(col) =>
        erValues := AddEr(erValues, col, amount);
      case EmployerDropped =>
      case ToEmployee(col) =>
        eeValues := AddEe(eeValues, col, amount);
    }
    assert deductionsBreakdown[..|deductionsBreakdown|] == deductionsBreakdown;

    for i := 0 to |earningsBreakdown|
      invariant earningValues == FoldEarnings(ZeroEarnings, earningsBreakdown[..i])
    {
      var (name, amount) := earningsBreakdown[i];
      assert earningsBreakdown[..i + 1][..i] == earningsBreakdown[..i];
      match ClassifyEarning(name)
      case BasicSkipped =>
      case ToThrPkwt =>
        earningValues := earningValues.(thrPkwt := earningValues.thrPkwt + amount);
      case ToBonus =>
        earningValues := earningValues.(bonus := earningValues.bonus + amount);
      case EarningDropped =>
    }
    assert earningsBreakdown[..|earningsBreakdown|] == earningsBreakdown;

    var totalStatutoryAndTax := EeTotal(eeValues) + ErTotal(erValues);
    var totalEmployerCost := netPay + totalStatutoryAndTax;
    f := RowFigures(basicSalary, netPay, earningValues, eeValues, erValues, totalStatutoryAndTax, totalEmployerCost);
  }

  // ---------------------------------------------------------------------------
  // Classification on concrete labels
  // ---------------------------------------------------------------------------

  /** A label matching no keyword still counts, as an EE expense. */
  lemma ParkingFeeColumn(l: string)
    requires l == "parking fee"
    ensures ClassifyEmployee(l) == EeExpenses
  {
    assert !SocialKeyword(l) && !HealthKeyword(l) by { MissingChar(l, "bpjs", 'b'); }
    assert !PensionKeyword(l) by {
      MissingChar(l, "pension", 's');
      MissingChar(l, "pensiun", 's');
      MissingChar(l, "jp", 'j');
    }
    assert !TaxKeyword(l) by {
      MissingChar(l, "tax", 't');
      MissingChar(l, "pph", 'h');
      MissingChar(l, "pajak", 'j');
    }
  }

  lemma UnmatchedLabelIsExpense()
    ensures ClassifyDeduction("Parking Fee") == ToEmployee(EeExpenses)
  {
    assert "Parking Fee"[0] != "ER_"[0];
    assert Lower("Parking Fee") == "parking fee";
    ParkingFeeColumn(Lower("Parking Fee"));
  }

  /** EE tax recognises "tidak teratur" as irregular. */
  lemma TidakTeraturColumn(l: string)
    requires l == "pph 21 tidak teratur"
    ensures ClassifyEmployee(l) == EeIrregularTax
  {
    assert !SocialKeyword(l) && !HealthKeyword(l) && !PensionKeyword(l) by {
      MissingChar(l, "bpjs", 'b');
      MissingChar(l, "pension", 'n');
      MissingChar(l, "pensiun", 'n');
      MissingChar(l, "jp", 'j');
    }
    assert TaxKeyword(l) by { assert OccursAt(l, "pph", 0); }
    assert IrregularKeyword(l) by {
      assert l[7..20] == "tidak teratur";
      assert OccursAt(l, "tidak teratur", 7);
    }
  }

  lemma EmployeeIrregularTax()
    ensures ClassifyDeduction("PPh 21 Tidak Teratur") == ToEmployee(EeIrregularTax)
  {
    assert "PPh 21 Tidak Teratur"[0] != "ER_"[0];
    assert Lower("PPh 21 Tidak Teratur") == "pph 21 tidak teratur";
    TidakTeraturColumn(Lower("PPh 21 Tidak Teratur"));
  }

  lemma EmployerNoBpjs(l: string)
    requires 'b' !in l
    ensures !Contains(l, "bpjs_kesehatan") && !Contains(l, "bpjs_jht") && !Contains(l, "bpjs_jkk")
      && !Contains(l, "bpjs_jkm") && !Contains(l, "bpjs_jp")
  {
    MissingChar(l, "bpjs_kesehatan", 'b');
    MissingChar(l, "bpjs_jht", 'b');
    MissingChar(l, "bpjs_jkk", 'b');
    MissingChar(l, "bpjs_jkm", 'b');
    MissingChar(l, "bpjs_jp", 'b');
  }

  lemma EmployerTaxColumn(l: string)
    requires l == "er_pph_tidak_teratur"
    ensures ClassifyEmployer(l) == Some(ErRegularTax)
  {
    EmployerNoBpjs(l);
    assert OccursAt(l, "pph", 3);
    MissingChar(l, "irregular", 'g');
  }

  /** ER tax only looks for "irregular": the same wording is regular ER tax. */
  lemma EmployerTaxIgnoresTidakTeratur()
    ensures ClassifyDeduction("ER_PPh_Tidak_Teratur") == ToEmployer(ErRegularTax)
  {
    assert IsEmployerLabel("ER_PPh_Tidak_Teratur");
    assert Lower("ER_PPh_Tidak_Teratur") == "er_pph_tidak_teratur";
    EmployerTaxColumn(Lower("ER_PPh_Tidak_Teratur"));
  }

  /** An `ER_` label matching none of the employer keywords reaches no column at all. */
  lemma OtherEmployerColumn(l: string)
    requires l == "er_other"
    ensures ClassifyEmployer(l) == None
  {
    EmployerNoBpjs(l);
    MissingChar(l, "tax", 'a');
    MissingChar(l, "pph", 'p');
  }

  lemma UnmatchedEmployerLabelIsDropped()
    ensures ClassifyDeduction("ER_Other") == EmployerDropped
  {
    assert IsEmployerLabel("ER_Other");
    assert Lower("ER_Other") == "er_other";
    OtherEmployerColumn(Lower("ER_Other"));
  }

  /** Earnings: a label that lower-cases to "basic salary" is skipped. */
  lemma BasicSalaryEarningSkipped()
    ensures ClassifyEarning("Basic Salary") == BasicSkipped
  {
    assert Lower("Basic Salary") == "basic salary";
  }

  lemma ThrEarning()
    ensures ClassifyEarning("THR Lebaran") == ToThrPkwt
  {
    assert Lower("THR Lebaran") == "thr lebaran";
    assert OccursAt(Lower("THR Lebaran"), "thr", 0);
  }

  /** THR/PKWT is tested first; a bonus label has neither. */
  lemma BonusLabel(l: string)
    requires l == "performance bonus"
    ensures !Contains(l, "thr") && !Contains(l, "pkwt") && Contains(l, "bonus")
  {
    MissingChar(l, "thr", 't');
    MissingChar(l, "pkwt", 'k');
    assert OccursAt(l, "bonus", 12);
  }

  lemma BonusEarning()
    ensures ClassifyEarning("Performance Bonus") == ToBonus
  {
    assert Lower("Performance Bonus") == "performance bonus";
    BonusLabel(Lower("Performance Bonus"));
    assert Lower("Performance Bonus") != "basic salary" by {
      assert Lower("Performance Bonus")[0] != "basic salary"[0];
    }
  }

  /** An earning matching no keyword reaches no column and no total. */
  lemma GiftLabel(l: string)
    requires l == "holiday gift"
    ensures !Contains(l, "thr") && !Contains(l, "pkwt") && !Contains(l, "bonus")
      && !Contains(l, "insentif") && !Contains(l, "incentive")
  {
    MissingChar(l, "thr", 'r');
    MissingChar(l, "pkwt", 'p');
    MissingChar(l, "bonus", 'b');
    MissingChar(l, "insentif", 'n');
    MissingChar(l, "incentive", 'n');
  }

  lemma UnmatchedEarningDropped()
    ensures ClassifyEarning("Holiday Gift") == EarningDropped
  {
    assert Lower("Holiday Gift") == "holiday gift";
    GiftLabel(Lower("Holiday Gift"));
    assert Lower("Holiday Gift") != "basic salary" by {
      assert Lower("Holiday Gift")[0] != "basic salary"[0];
    }
  }

  // ---------------------------------------------------------------------------
  // Rendering
  // ---------------------------------------------------------------------------

  /** A rendered money cell; number formatting is not modelled. */
  datatype Cell = Number(value: real) | Dash

  /** `$v ?: '-'` in the spreadsheet and `$v ? number_format($v) : '-'` in the template: zero is falsy. */
  function DashIfZero(v: real): (r: Cell)
  {
    if v == 0.0 then Dash else Number(v)
  }

  /** The thirteen column values J..V (THR/PKWT through ER pension), in sheet order. */
  function BucketValues(f: RowFigures): (vs: seq<real>)
    ensures |vs| == 13
  {
    [f.earnings.thrPkwt, f.earnings.bonus,
     f.ee.bpjsSocialSecurity, f.ee.bpjsHealthcare, f.ee.pension,
     f.ee.regularIncomeTax, f.ee.irregularIncomeTax, f.ee.expenses,
     f.er.regularIncomeTax, f.er.irregularIncomeTax,
     f.er.bpjsSocialSecurity, f.er.bpjsHealthcare, f.er.pension]
  }

  /** The eighteen money cells of a row, Basic through Total Employer Cost. */
  datatype MoneyCells = MoneyCells(
    basic: Cell, monthly: Cell, thrPkwt: Cell, bonus: Cell,
    eeSocial: Cell, eeHealth: Cell, eePension: Cell, eeRegularTax: Cell, eeIrregularTax: Cell, eeExpenses: Cell,
    erRegularTax: Cell, erIrregularTax: Cell, erSocial: Cell, erHealth: Cell, erPension: Cell,
    netPay: Cell, totalStatutoryAndTax: Cell, totalEmployerCost: Cell)

  /** The thirteen column cells J..V, in sheet order. */
  function BucketCells(c: MoneyCells): (cs: seq<Cell>)
    ensures |cs| == 13
  {
    [c.thrPkwt, c.bonus, c.eeSocial, c.eeHealth, c.eePension, c.eeRegularTax, c.eeIrregularTax, c.eeExpenses,
     c.erRegularTax, c.erIrregularTax, c.erSocial, c.erHealth, c.erPension]
  }

  /** Cells H..Y of a spreadsheet row. */
  function ExcelCells(f: RowFigures): (r: MoneyCells)
  {
    MoneyCells(Number(f.basicSalary), Number(f.basicSalary),
      DashIfZero(f.earnings.thrPkwt), DashIfZero(f.earnings.bonus),
      DashIfZero(f.ee.bpjsSocialSecurity), DashIfZero(f.ee.bpjsHealthcare), DashIfZero(f.ee.pension),
      DashIfZero(f.ee.regularIncomeTax), DashIfZero(f.ee.irregularIncomeTax), DashIfZero(f.ee.expenses),
      DashIfZero(f.er.regularIncomeTax), DashIfZero(f.er.irregularIncomeTax),
      DashIfZero(f.er.bpjsSocialSecurity), DashIfZero(f.er.bpjsHealthcare), DashIfZero(f.er.pension),
      Number(f.netPay), Number(f.totalStatutoryAndTax), Number(f.totalEmployerCost))
  }

  /**
   * The spreadsheet rendering: Basic and Monthly both show basic salary, net
   * pay and the two totals are always numbers, and a column cell is a dash
   * exactly when its value is zero and otherwise shows the value.
   */
  lemma ExcelCellRules(f: RowFigures)
    ensures var cells := ExcelCells(f);
      && cells.basic == Number(f.basicSalary) && cells.monthly == Number(f.basicSalary)
      && cells.netPay == Number(f.netPay)
      && cells.totalStatutoryAndTax == Number(f.totalStatutoryAndTax)
      && cells.totalEmployerCost == Number(f.totalEmployerCost)
      && (forall j :: 0 <= j < 13 ==> (BucketCells(cells)[j] == Dash <==> BucketValues(f)[j] == 0.0))
      && (forall j :: 0 <= j < 13 && BucketValues(f)[j] != 0.0 ==> BucketCells(cells)[j] == Number(BucketValues(f)[j]))
  {
  }

  /** The `$rows[]` record the PDF view receives (money keys only). */
  datatype PdfRecord = PdfRecord(
    basicSalary: real, monthlySalary: real, thrPkwt: real, bonus: real,
    eeBpjsSocial: real, eeBpjsHealth: real, eePension: real,
    eeRegularTax: real, eeIrregularTax: real, eeExpenses: real,
    erRegularTax: real, erIrregularTax: real, erBpjsSocial: real, erBpjsHealth: real, erPension: real,
    netPay: real, totalStatutoryTax: real, totalEmployerCost: real)

  /** The `$rows[]` record `exportPdf` builds for a row. */
  function PdfRecordOf(f: RowFigures): (r: PdfRecord)
  {
    PdfRecord(
      f.basicSalary, f.basicSalary, f.earnings.thrPkwt, f.earnings.bonus,
      f.ee.bpjsSocialSecurity, f.ee.bpjsHealthcare, f.ee.pension,
      f.ee.regularIncomeTax, f.ee.irregularIncomeTax, f.ee.expenses,
      f.er.regularIncomeTax, f.er.irregularIncomeTax, f.er.bpjsSocialSecurity, f.er.bpjsHealthcare, f.er.pension,
      f.netPay, f.totalStatutoryAndTax, f.totalEmployerCost)
  }

  /** The money cells of a row of the `payslips.export-pdf` template. */
  function BladeCells(r: PdfRecord): (cells: MoneyCells)
  {
    MoneyCells(Number(r.basicSalary), Number(r.monthlySalary),
      DashIfZero(r.thrPkwt), DashIfZero(r.bonus),
      DashIfZero(r.eeBpjsSocial), DashIfZero(r.eeBpjsHealth), DashIfZero(r.eePension),
      DashIfZero(r.eeRegularTax), DashIfZero(r.eeIrregularTax), DashIfZero(r.eeExpenses),
      DashIfZero(r.erRegularTax), DashIfZero(r.erIrregularTax),
      DashIfZero(r.erBpjsSocial), DashIfZero(r.erBpjsHealth), DashIfZero(r.erPension),
      Number(r.netPay), Number(r.totalStatutoryTax), Number(r.totalEmployerCost))
  }

  /** For the same figures the spreadsheet row and the PDF row show the same money cells. */
  lemma ExportPathsAgree(f: RowFigures)
    ensures ExcelCells(f) == BladeCells(PdfRecordOf(f))
  {
  }
}
