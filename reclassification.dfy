/**
 * How the pieces fit together: the breakdown the salary engine produces is
 * stored on the payroll entry with the employer shares appended to the
 * deductions ("the combined array" the export reads), and the export's
 * classifier has to recover the statutory splits from the labels alone. The
 * custom values the page submits reach the engine through JSON.
 */
module Reclassification {
  import opened Wrappers
  import opened Text
  import opened PhpArray
  import opened EmployeeSalary
  import opened PayslipExport
  import Page = EmployeeSalariesPage
  import JsNumbers

  // ---------------------------------------------------------------------------
  // The engine's labels through the classifier
  // ---------------------------------------------------------------------------

  /** The statutory labels lower-cased, as the export compares them. */
  lemma EeKesehatanLower()
    ensures Lower(EeKesehatanLabel) == "bpjs kesehatan (1%)"
  {
  }

  lemma EeJhtLower()
    ensures Lower(EeJhtLabel) == "bpjs jht (2%)"
  {
  }

  lemma EeJpLower()
    ensures Lower(EeJpLabel) == "bpjs jp (1%)"
  {
  }

  lemma ErKesehatanLower()
    ensures Lower(ErKesehatanLabel) == "er_bpjs_kesehatan_(4%)"
  {
  }

  lemma ErJhtLower()
    ensures Lower(ErJhtLabel) == "er_bpjs_jht_(3.7%)"
  {
  }

  lemma ErJkkLower()
    ensures Lower(ErJkkLabel) == "er_bpjs_jkk_(0.24%)"
  {
  }

  lemma ErJkmLower()
    ensures Lower(ErJkmLabel) == "er_bpjs_jkm_(0.3%)"
  {
  }

  lemma ErJpLower()
    ensures Lower(ErJpLabel) == "er_bpjs_jp_(2%)"
  {
  }

  /** "bpjs kesehatan (1%)" contains neither "jht" nor "jkk": the "j" of "bpjs" is followed by "s". */
  lemma KesehatanNoJ(l: string)
    requires l == "bpjs kesehatan (1%)"
    ensures !Contains(l, "jht") && !Contains(l, "jkk")
  {
    assert l == "bpjs" + [' '] + "kesehatan (1%)";
    MissingChar("bpjs", "jht", 'h');
    MissingChar("kesehatan (1%)", "jht", 'j');
    if Contains(l, "jht") { SplitContains("bpjs", ' ', "kesehatan (1%)", "jht"); }
    MissingChar("bpjs", "jkk", 'k');
    MissingChar("kesehatan (1%)", "jkk", 'j');
    if Contains(l, "jkk") { SplitContains("bpjs", ' ', "kesehatan (1%)", "jkk"); }
  }

  lemma KesehatanNoJkmSocial(l: string)
    requires l == "bpjs kesehatan (1%)"
    ensures !Contains(l, "jkm") && !Contains(l, "social")
  {
    MissingChar(l, "jkm", 'm');
    MissingChar(l, "social", 'o');
  }

  lemma KesehatanNoWorkforce(l: string)
    requires l == "bpjs kesehatan (1%)"
    ensures !Contains(l, "ketenagakerjaan") && !Contains(l, "working")
  {
    MissingChar(l, "ketenagakerjaan", 'g');
    MissingChar(l, "working", 'w');
  }

  /** "bpjs kesehatan (1%)" names none of the social-security keywords but a healthcare one. */
  lemma KesehatanColumn(l: string)
    requires l == "bpjs kesehatan (1%)"
    ensures ClassifyEmployee(l) == EeHealthcare
  {
    KesehatanNoJ(l);
    KesehatanNoJkmSocial(l);
    KesehatanNoWorkforce(l);
    assert OccursAt(l, "bpjs", 0);
    assert OccursAt(l, "kesehatan", 5);
  }

  lemma EeKesehatanIsHealthcare()
    ensures ClassifyDeduction(EeKesehatanLabel) == ToEmployee(EeHealthcare)
  {
    StatutoryLabelPrefixes(StatutoryFor(0.0));
    EeKesehatanLower();
    KesehatanColumn(Lower(EeKesehatanLabel));
  }

  lemma JhtColumn(l: string)
    requires l == "bpjs jht (2%)"
    ensures ClassifyEmployee(l) == EeSocialSecurity
  {
    assert OccursAt(l, "bpjs", 0);
    assert OccursAt(l, "jht", 5);
  }

  lemma EeJhtIsSocialSecurity()
    ensures ClassifyDeduction(EeJhtLabel) == ToEmployee(EeSocialSecurity)
  {
    StatutoryLabelPrefixes(StatutoryFor(0.0));
    EeJhtLower();
    JhtColumn(Lower(EeJhtLabel));
  }

  /** "bpjs jp (1%)" has no "h", "k", "o" or "w", so no social-security or healthcare keyword fits. */
  lemma JpNotSocial(l: string)
    requires l == "bpjs jp (1%)"
    ensures !SocialKeyword(l)
  {
    MissingChar(l, "jht", 'h');
    MissingChar(l, "jkk", 'k');
    MissingChar(l, "jkm", 'k');
    MissingChar(l, "social", 'o');
    MissingChar(l, "ketenagakerjaan", 'k');
    MissingChar(l, "working", 'w');
  }

  lemma JpNotHealth(l: string)
    requires l == "bpjs jp (1%)"
    ensures !HealthKeyword(l)
  {
    MissingChar(l, "health", 'h');
    MissingChar(l, "kesehatan", 'k');
    MissingChar(l, "healthcare", 'h');
  }

  lemma JpColumn(l: string)
    requires l == "bpjs jp (1%)"
    ensures ClassifyEmployee(l) == EePension
  {
    JpNotSocial(l);
    JpNotHealth(l);
    assert OccursAt(l, "jp", 5);
  }

  lemma EeJpIsPension()
    ensures ClassifyDeduction(EeJpLabel) == ToEmployee(EePension)
  {
    StatutoryLabelPrefixes(StatutoryFor(0.0));
    EeJpLower();
    JpColumn(Lower(EeJpLabel));
  }

  lemma ErKesehatanColumn(l: string)
    requires l == "er_bpjs_kesehatan_(4%)"
    ensures ClassifyEmployer(l) == Some(ErHealthcare)
  {
    assert l[3..17] == "bpjs_kesehatan";
    assert OccursAt(l, "bpjs_kesehatan", 3);
  }

  lemma ErKesehatanIsHealthcare()
    ensures ClassifyDeduction(ErKesehatanLabel) == ToEmployer(ErHealthcare)
  {
    assert IsEmployerLabel(ErKesehatanLabel);
    ErKesehatanLower();
    ErKesehatanColumn(Lower(ErKesehatanLabel));
  }

  lemma ErJhtColumn(l: string)
    requires l == "er_bpjs_jht_(3.7%)"
    ensures ClassifyEmployer(l) == Some(ErSocialSecurity)
  {
    MissingChar(l, "bpjs_kesehatan", 'k');
    assert OccursAt(l, "bpjs_jht", 3);
  }

  lemma ErJhtIsSocialSecurity()
    ensures ClassifyDeduction(ErJhtLabel) == ToEmployer(ErSocialSecurity)
  {
    assert IsEmployerLabel(ErJhtLabel);
    ErJhtLower();
    ErJhtColumn(Lower(ErJhtLabel));
  }

  lemma ErJkkColumn(l: string)
    requires l == "er_bpjs_jkk_(0.24%)"
    ensures ClassifyEmployer(l) == Some(ErSocialSecurity)
  {
    MissingChar(l, "bpjs_kesehatan", 'h');
    assert OccursAt(l, "bpjs_jkk", 3);
  }

  lemma ErJkkIsSocialSecurity()
    ensures ClassifyDeduction(ErJkkLabel) == ToEmployer(ErSocialSecurity)
  {
    assert IsEmployerLabel(ErJkkLabel);
    ErJkkLower();
    ErJkkColumn(Lower(ErJkkLabel));
  }

  lemma ErJkmColumn(l: string)
    requires l == "er_bpjs_jkm_(0.3%)"
    ensures ClassifyEmployer(l) == Some(ErSocialSecurity)
  {
    MissingChar(l, "bpjs_kesehatan", 'h');
    assert OccursAt(l, "bpjs_jkm", 3);
  }

  lemma ErJkmIsSocialSecurity()
    ensures ClassifyDeduction(ErJkmLabel) == ToEmployer(ErSocialSecurity)
  {
    assert IsEmployerLabel(ErJkmLabel);
    ErJkmLower();
    ErJkmColumn(Lower(ErJkmLabel));
  }

  /** "er_bpjs_jp_(2%)" has no "k" or "h", so only the JP keyword fits. */
  lemma ErJpColumn(l: string)
    requires l == "er_bpjs_jp_(2%)"
    ensures ClassifyEmployer(l) == Some(ErPension)
  {
    MissingChar(l, "bpjs_kesehatan", 'k');
    MissingChar(l, "bpjs_jht", 'h');
    MissingChar(l, "bpjs_jkk", 'k');
    MissingChar(l, "bpjs_jkm", 'k');
    assert OccursAt(l, "bpjs_jp", 3);
  }

  lemma ErJpIsPension()
    ensures ClassifyDeduction(ErJpLabel) == ToEmployer(ErPension)
  {
    assert IsEmployerLabel(ErJpLabel);
    ErJpLower();
    ErJpColumn(Lower(ErJpLabel));
  }

  // ---------------------------------------------------------------------------
  // The stored breakdown through the export loop
  // ---------------------------------------------------------------------------

  /** The three EE entries the engine writes, in the order it writes them. */
  function EmployeeStatutoryEntries(s: Statutory): (r: Entries<real>)
  {
    [(EeKesehatanLabel, s.eeKesehatan), (EeJhtLabel, s.eeJht), (EeJpLabel, s.eeJp)]
  }

  /** The deductions breakdown as stored: the deductions followed by the employer contributions. */
  function StoredDeductions(b: Breakdown): (r: Entries<real>)
  {
    b.deductions + b.employerContributions
  }

  /** The deductions loop over one more entry in front is one step and then the rest. */
  lemma FoldDeductionsCons(t: DeductionTally, p: (string, real), rest: Entries<real>)
    ensures FoldDeductions(t, [p] + rest) == FoldDeductions(AddDeduction(t, p.0, p.1), rest)
  {
    FoldDeductionsAppend(t, [p], rest);
    assert [p][..0] == [];
  }

  /** One more entry with an `ER_` label adds its amount to that label's ER column. */
  lemma FoldEmployerEntry(t: DeductionTally, a: Entries<real>, name: string, amount: real, col: ErColumn)
    requires ClassifyDeduction(name) == ToEmployer(col)
    ensures var f := FoldDeductions(t, a);
      FoldDeductions(t, a + [(name, amount)]) == f.(er := AddEr(f.er, col, amount))
  {
    assert (a + [(name, amount)])[..|a|] == a;
  }

  /** The three EE entries land in the EE healthcare, social security and pension columns. */
  lemma EmployeeEntriesReclassify(t: DeductionTally, s: Statutory)
    ensures FoldDeductions(t, EmployeeStatutoryEntries(s))
      == DeductionTally(t.ee.(bpjsHealthcare := t.ee.bpjsHealthcare + s.eeKesehatan,
                              bpjsSocialSecurity := t.ee.bpjsSocialSecurity + s.eeJht,
                              pension := t.ee.pension + s.eeJp), t.er)
  {
    EeKesehatanIsHealthcare();
    EeJhtIsSocialSecurity();
    EeJpIsPension();
    var e := EmployeeStatutoryEntries(s);
    assert e[..2][..1] == [e[0]] && e[..2] == [e[0], e[1]] && [e[0]][..0] == [];
    var f1 := AddDeduction(t, EeKesehatanLabel, s.eeKesehatan);
    assert FoldDeductions(t, [e[0]]) == f1;
    var f2 := AddDeduction(f1, EeJhtLabel, s.eeJht);
    assert FoldDeductions(t, e[..2]) == f2;
    assert FoldDeductions(t, e) == AddDeduction(f2, EeJpLabel, s.eeJp);
  }

  /**
   * The five ER entries land in ER healthcare (Kesehatan), ER social security
   * (JHT, JKK and JKM together) and ER pension (JP).
   */
  lemma EmployerEntriesReclassify(t: DeductionTally, s: Statutory)
    ensures FoldDeductions(t, EmployerContributions(s))
      == DeductionTally(t.ee, t.er.(bpjsHealthcare := t.er.bpjsHealthcare + s.erKesehatan,
                                    bpjsSocialSecurity := t.er.bpjsSocialSecurity + s.erJht + s.erJkk + s.erJkm,
                                    pension := t.er.pension + s.erJp))
  {
    var e0 := [(ErKesehatanLabel, s.erKesehatan)];
    var e1 := e0 + [(ErJhtLabel, s.erJht)];
    var e2 := e1 + [(ErJpLabel, s.erJp)];
    var e3 := e2 + [(ErJkkLabel, s.erJkk)];
    assert EmployerContributions(s) == e3 + [(ErJkmLabel, s.erJkm)];
    assert FoldDeductions(t, e0) == t.(er := AddEr(t.er, ErHealthcare, s.erKesehatan)) by {
      ErKesehatanIsHealthcare();
      FoldEmployerEntry(t, [], ErKesehatanLabel, s.erKesehatan, ErHealthcare);
    }
    ErJhtIsSocialSecurity();
    FoldEmployerEntry(t, e0, ErJhtLabel, s.erJht, ErSocialSecurity);
    ErJpIsPension();
    FoldEmployerEntry(t, e1, ErJpLabel, s.erJp, ErPension);
    ErJkkIsSocialSecurity();
    FoldEmployerEntry(t, e2, ErJkkLabel, s.erJkk, ErSocialSecurity);
    ErJkmIsSocialSecurity();
    FoldEmployerEntry(t, e3, ErJkmLabel, s.erJkm, ErSocialSecurity);
  }

  /** Labels that are not `ER_` leave the ER columns alone. */
  lemma {:induction false} EmployeeLabelsKeepEr(t: DeductionTally, d: Entries<real>)
    requires forall i :: 0 <= i < |d| ==> !IsEmployerLabel(d[i].0)
    ensures FoldDeductions(t, d).er == t.er
  {
    if d != [] {
      EmployeeLabelsKeepEr(t, d[..|d| - 1]);
    }
  }

  /** Without `ER_` labels the EE columns take every amount. */
  lemma {:induction false} EmployeeSideSumIsSum(d: Entries<real>)
    requires forall i :: 0 <= i < |d| ==> !IsEmployerLabel(d[i].0)
    ensures EmployeeSideSum(d) == Sum(d)
  {
    if d != [] {
      var init := d[..|d| - 1];
      EmployeeSideSumIsSum(init);
      SumAppend(init, [d[|d| - 1]]);
      assert init + [d[|d| - 1]] == d;
      assert [d[|d| - 1]][1..] == [];
    }
  }

  /** Component names the export cannot mistake for statutory entries. */
  predicate PlainNames(comps: seq<SalaryComponent>)
  {
    forall i :: 0 <= i < |comps| ==>
      !IsEmployerLabel(comps[i].name)
      && comps[i].name != EeKesehatanLabel && comps[i].name != EeJhtLabel && comps[i].name != EeJpLabel
  }

  /** Writing three fresh labels appends them in order. */
  lemma PutFreshLabels(d: Entries<real>, s: Statutory)
    requires !HasKey(d, EeKesehatanLabel) && !HasKey(d, EeJhtLabel) && !HasKey(d, EeJpLabel)
    ensures WithStatutoryDeductions(d, s) == d + EmployeeStatutoryEntries(s)
  {
    assert EeKesehatanLabel != EeJhtLabel && EeKesehatanLabel != EeJpLabel && EeJhtLabel != EeJpLabel by {
      assert EeKesehatanLabel[5] != EeJhtLabel[5] && EeKesehatanLabel[5] != EeJpLabel[5];
      assert EeJhtLabel[6] != EeJpLabel[6];
    }
    var d1 := Put(d, EeKesehatanLabel, s.eeKesehatan);
    assert d1 == d + [(EeKesehatanLabel, s.eeKesehatan)];
    assert !HasKey(d1, EeJhtLabel) && !HasKey(d1, EeJpLabel);
    var d2 := Put(d1, EeJhtLabel, s.eeJht);
    assert d2 == d1 + [(EeJhtLabel, s.eeJht)];
    assert !HasKey(d2, EeJpLabel);
    assert Put(d2, EeJpLabel, s.eeJp) == d2 + [(EeJpLabel, s.eeJp)];
  }

  /** The component deductions are keyed by component names, which are plain. */
  lemma ComponentDeductionKeys(comps: seq<SalaryComponent>, ov: map<int, Override>, basic: real,
                               calculateAmount: (SalaryComponent, real) -> real)
    requires PlainNames(comps)
    ensures var d := Accumulate(comps, ov, basic, calculateAmount).deductions;
      && !HasKey(d, EeKesehatanLabel) && !HasKey(d, EeJhtLabel) && !HasKey(d, EeJpLabel)
      && forall i :: 0 <= i < |d| ==> !IsEmployerLabel(d[i].0)
  {
    var d := Accumulate(comps, ov, basic, calculateAmount).deductions;
    AccumulateRouting(comps, ov, basic, calculateAmount);
    NamesOfComponents(comps, EeKesehatanLabel);
    NamesOfComponents(comps, EeJhtLabel);
    NamesOfComponents(comps, EeJpLabel);
    forall i | 0 <= i < |d| ensures !IsEmployerLabel(d[i].0) {
      assert HasKey(d, d[i].0);
      NamesOfComponents(comps, d[i].0);
    }
  }

  /**
   * The engine appends the three EE shares after the component deductions:
   * no component carries one of their labels, so each write adds a new entry.
   */
  lemma StatutoryEntriesAppended(salary: SalaryRecord, catalog: seq<SalaryComponent>,
                                 calculateAmount: (SalaryComponent, real) -> real)
    requires PlainNames(SelectedComponents(salary, catalog))
    ensures var comps := SelectedComponents(salary, catalog);
      var t := Accumulate(comps, ParsedOverrides(salary.components), salary.basicSalary, calculateAmount);
      var b := Calculate(salary, catalog, calculateAmount);
      && b.deductions == t.deductions + EmployeeStatutoryEntries(StatutoryFor(salary.basicSalary))
      && (forall i :: 0 <= i < |t.deductions| ==> !IsEmployerLabel(t.deductions[i].0))
  {
    var comps := SelectedComponents(salary, catalog);
    var t := Accumulate(comps, ParsedOverrides(salary.components), salary.basicSalary, calculateAmount);
    ComponentDeductionKeys(comps, ParsedOverrides(salary.components), salary.basicSalary, calculateAmount);
    PutFreshLabels(t.deductions, StatutoryFor(salary.basicSalary));
  }

  /** The eight statutory entries after any columns `t`. */
  lemma StatutoryEntriesReclassify(t: DeductionTally, s: Statutory)
    ensures var r := FoldDeductions(t, EmployeeStatutoryEntries(s) + EmployerContributions(s));
      && r.ee == t.ee.(bpjsHealthcare := t.ee.bpjsHealthcare + s.eeKesehatan,
                       bpjsSocialSecurity := t.ee.bpjsSocialSecurity + s.eeJht,
                       pension := t.ee.pension + s.eeJp)
      && r.er == t.er.(bpjsHealthcare := t.er.bpjsHealthcare + s.erKesehatan,
                       bpjsSocialSecurity := t.er.bpjsSocialSecurity + s.erJht + s.erJkk + s.erJkm,
                       pension := t.er.pension + s.erJp)
  {
    var e := EmployeeStatutoryEntries(s);
    var c := EmployerContributions(s);
    FoldDeductionsAppend(t, e, c);
    EmployeeEntriesReclassify(t, s);
    EmployerEntriesReclassify(FoldDeductions(t, e), s);
  }

  /**
   * The columns a stored breakdown should produce: the EE columns of the
   * component deductions with each EE share added to its own column, and
   * the ER columns holding the employer shares and nothing else.
   */
  function StatutoryColumns(own: EeBuckets, s: Statutory): (r: DeductionTally)
  {
    DeductionTally(
      own.(bpjsHealthcare := own.bpjsHealthcare + s.eeKesehatan,
           bpjsSocialSecurity := own.bpjsSocialSecurity + s.eeJht,
           pension := own.pension + s.eeJp),
      ErBuckets(0.0, 0.0, s.erJht + s.erJkk + s.erJkm, s.erKesehatan, s.erJp))
  }

  /** The export loop over deductions that leave the ER columns empty, followed by the eight statutory entries. */
  lemma FoldStoredDeductions(d: Entries<real>, s: Statutory)
    requires FoldDeductions(DeductionTally(ZeroEe, ZeroEr), d).er == ZeroEr
    ensures var own := FoldDeductions(DeductionTally(ZeroEe, ZeroEr), d).ee;
      var r := FoldDeductions(DeductionTally(ZeroEe, ZeroEr), d + EmployeeStatutoryEntries(s) + EmployerContributions(s));
      r == StatutoryColumns(own, s)
  {
    var zero := DeductionTally(ZeroEe, ZeroEr);
    var e := EmployeeStatutoryEntries(s);
    var t0 := FoldDeductions(zero, d);
    var t1 := FoldDeductions(t0, e);
    assert FoldDeductions(zero, d + e) == t1 by { FoldDeductionsAppend(zero, d, e); }
    assert FoldDeductions(zero, d + e + EmployerContributions(s)) == FoldDeductions(t1, EmployerContributions(s)) by {
      FoldDeductionsAppend(zero, d + e, EmployerContributions(s));
    }
    EmployeeEntriesReclassify(t0, s);
    EmployerEntriesReclassify(t1, s);
  }

  /** Where the breakdown's two label maps come from. */
  lemma CalculateLabelMaps(salary: SalaryRecord, catalog: seq<SalaryComponent>,
                           calculateAmount: (SalaryComponent, real) -> real)
    ensures var b := Calculate(salary, catalog, calculateAmount);
      var s := StatutoryFor(salary.basicSalary);
      var t := Accumulate(SelectedComponents(salary, catalog), ParsedOverrides(salary.components),
                          salary.basicSalary, calculateAmount);
      b.deductions == WithStatutoryDeductions(t.deductions, s) && b.employerContributions == EmployerContributions(s)
  {
  }

  /**
   * Exporting a computed breakdown recovers the statutory split: the ER
   * columns hold exactly the five employer shares (JHT, JKK and JKM
   * together), and each EE statutory column holds its EE share on top of
   * what the components' own deductions put there.
   */
  lemma ExportRecoversStatutorySplit(salary: SalaryRecord, catalog: seq<SalaryComponent>,
                                     calculateAmount: (SalaryComponent, real) -> real)
    requires PlainNames(SelectedComponents(salary, catalog))
    ensures var b := Calculate(salary, catalog, calculateAmount);
      var s := StatutoryFor(salary.basicSalary);
      var t := Accumulate(SelectedComponents(salary, catalog), ParsedOverrides(salary.components),
                          salary.basicSalary, calculateAmount);
      var own := FoldDeductions(DeductionTally(ZeroEe, ZeroEr), t.deductions).ee;
      var r := FoldDeductions(DeductionTally(ZeroEe, ZeroEr), StoredDeductions(b));
      r == StatutoryColumns(own, s)
  {
    var comps := SelectedComponents(salary, catalog);
    var ov := ParsedOverrides(salary.components);
    var t := Accumulate(comps, ov, salary.basicSalary, calculateAmount);
    ComponentDeductionKeys(comps, ov, salary.basicSalary, calculateAmount);
    EmployeeLabelsKeepEr(DeductionTally(ZeroEe, ZeroEr), t.deductions);
    CalculateLabelMaps(salary, catalog, calculateAmount);
    PutFreshLabels(t.deductions, StatutoryFor(salary.basicSalary));
    FoldStoredDeductions(t.deductions, StatutoryFor(salary.basicSalary));
  }

  /**
   * When component names are also distinct and none is "Basic Salary", the
   * export's EE columns add up to the engine's `total_deductions`, and its
   * statutory-and-tax total is that plus the five employer shares.
   */
  lemma ExportTotalsMatchEngine(salary: SalaryRecord, catalog: seq<SalaryComponent>,
                                calculateAmount: (SalaryComponent, real) -> real)
    requires PlainNames(SelectedComponents(salary, catalog))
    requires DistinctNames(SelectedComponents(salary, catalog))
    requires forall i :: 0 <= i < |SelectedComponents(salary, catalog)| ==>
      SelectedComponents(salary, catalog)[i].name != BasicSalaryLabel
    ensures var b := Calculate(salary, catalog, calculateAmount);
      var s := StatutoryFor(salary.basicSalary);
      var f := Figures(Some(PayrollEntry(b.basicSalary, b.netSalary, b.earnings, StoredDeductions(b))));
      && EeTotal(f.ee) == b.totalDeductions
      && f.totalStatutoryAndTax == b.totalDeductions + (s.erKesehatan + s.erJht + s.erJp + s.erJkk + s.erJkm)
      && f.totalEmployerCost == b.totalEarnings + (s.erKesehatan + s.erJht + s.erJp + s.erJkk + s.erJkm)
  {
    var comps := SelectedComponents(salary, catalog);
    var ov := ParsedOverrides(salary.components);
    var b := Calculate(salary, catalog, calculateAmount);
    var s := StatutoryFor(salary.basicSalary);
    var t := Accumulate(comps, ov, salary.basicSalary, calculateAmount);
    var zero := DeductionTally(ZeroEe, ZeroEr);
    var own := FoldDeductions(zero, t.deductions).ee;
    var r := FoldDeductions(zero, StoredDeductions(b));
    assert r == StatutoryColumns(own, s) by {
      ExportRecoversStatutorySplit(salary, catalog, calculateAmount);
    }
    assert EeTotal(own) == t.totalDeductions by {
      StatutoryEntriesAppended(salary, catalog, calculateAmount);
      DeductionColumnSums(t.deductions);
      EmployeeSideSumIsSum(t.deductions);
      MapsMatchTotals(comps, ov, salary.basicSalary, calculateAmount);
    }
    assert EeTotal(r.ee) == b.totalDeductions;
  }

  // ---------------------------------------------------------------------------
  // From the page's submission to the engine's overrides
  // ---------------------------------------------------------------------------

  /** A submitted value after the JSON round trip to PHP (integers decode as `int`). */
  function ToPhp(v: Page.JsValue): (r: PhpValue)
  {
    match v
    case Undefined => Null
    case Null => Null
    case Str(s) => Str(s)
    case Num(n) => Int(n)
  }

  /** A submitted component as the engine reads it back; a `NaN` ID is serialised as `null`. */
  function ToRawEntry(e: Page.SubmittedEntry): (r: RawEntry)
  {
    var id := match e.id
      case NaN => None
      case Integer(n) => Some(n);
    Record(id, ToPhp(e.customAmount), ToPhp(e.customPercentage))
  }

  /**
   * The page and the engine agree on "set": a custom value the page submits
   * (`v || null`) is set for the engine exactly when it was truthy on the page.
   */
  lemma SubmittedValueIsSetIffTruthy(v: Page.JsValue)
    ensures IsSet(ToPhp(Page.Or(v, Page.Null))) <==> Page.Truthy(v)
  {
  }

  /**
   * Every component the page submits becomes an object entry for the engine,
   * with override values set exactly where the page's values were truthy;
   * an ID string that is the decimal form of `n` comes back as `n`.
   */
  lemma SubmissionReachesEngine(components: seq<string>, overrides: map<string, Page.FormOverride>)
    ensures var s := Page.Submit(Some(components), Some(overrides));
      && (forall i :: 0 <= i < |s.components| ==> ToRawEntry(s.components[i]).Record?)
      && (forall i :: 0 <= i < |s.components| && components[i] in overrides ==>
            && (IsSet(ToRawEntry(s.components[i]).customAmount) <==> Page.Truthy(overrides[components[i]].customAmount))
            && (IsSet(ToRawEntry(s.components[i]).customPercentage) <==> Page.Truthy(overrides[components[i]].customPercentage)))
      && (forall i :: 0 <= i < |s.components| && components[i] !in overrides ==>
            OverrideOf(ToRawEntry(s.components[i])) == Override(Null, Null))
      && (forall i, n :: 0 <= i < |s.components| && components[i] == JsNumbers.IntToString(n) ==>
            EntryRef(ToRawEntry(s.components[i])) == Some(n))
  {
    Page.SubmitFacts(components, overrides);
    forall n: int {
      JsNumbers.ParseIntRoundTrip(n);
    }
  }
}
