/**
 * The salary component engine of the `EmployeeSalary` model: normalising the
 * stored `components` field, resolving each component's amount (custom amount,
 * then custom percentage, then the template default), routing it into earnings
 * or deductions, and adding the Indonesian BPJS statutory shares.
 *
 * Money is `real` (exact decimals). The database query for active components
 * is a function over a catalog sequence, and `SalaryComponent::calculateAmount`
 * is a function parameter the engine does not look inside.
 */
module EmployeeSalary {
  import opened Wrappers
  import opened Text
  import opened Numerals
  import opened PhpArray

  // ---------------------------------------------------------------------------
  // Data model
  // ---------------------------------------------------------------------------

  /** A scalar decoded from the JSON `components` column; a missing key reads as `Null`. */
  datatype PhpValue = Null | Str(text: string) | Int(i: int) | Float(f: real)

  /** The per-employee custom values kept for one component ID. */
  datatype Override = Override(customAmount: PhpValue, customPercentage: PhpValue)

  /**
   * One element of the `components` field: a bare ID (the legacy `[1, 3, 5]`
   * format) or an object `{id, custom_amount, custom_percentage}`. An object
   * whose `id` is missing or null has `id == None`.
   */
  datatype RawEntry =
    | Bare(componentId: int)
    | Record(id: Option<int>, customAmount: PhpValue, customPercentage: PhpValue)

  /** An `employee_salaries` row; a null `components` column is the empty sequence. */
  datatype SalaryRecord = SalaryRecord(
    employeeId: int,
    basicSalary: real,
    components: seq<RawEntry>,
    isActive: bool)

  /** A salary component template. */
  datatype SalaryComponent = SalaryComponent(
    id: int,
    name: string,
    componentType: string,
    status: string)

  /** What `calculateAllComponents` returns. */
  datatype Breakdown = Breakdown(
    basicSalary: real,
    earnings: Entries<real>,
    deductions: Entries<real>,
    employerContributions: Entries<real>,
    totalEarnings: real,
    totalDeductions: real,
    grossSalary: real,
    netSalary: real)

  // ---------------------------------------------------------------------------
  // getActiveSalary / getBasicSalary
  // ---------------------------------------------------------------------------

  predicate IsActiveFor(r: SalaryRecord, employeeId: int)
  {
    r.employeeId == employeeId && r.isActive
  }

  /** `getActiveSalary`: the first active record of the employee, in table order. */
  function ActiveSalary(records: seq<SalaryRecord>, employeeId: int): (r: Option<SalaryRecord>)
    ensures r.None? <==> forall i :: 0 <= i < |records| ==> !IsActiveFor(records[i], employeeId)
    ensures r.Some? ==> exists i :: (0 <= i < |records| && records[i] == r.value
      && IsActiveFor(records[i], employeeId)
      && forall j :: 0 <= j < i ==> !IsActiveFor(records[j], employeeId))
  {
    if records == [] then None
    else if IsActiveFor(records[0], employeeId) then Some(records[0])
    else
      var r := ActiveSalary(records[1..], employeeId);
      assert forall i :: 0 < i < |records| ==> records[i] == records[1..][i - 1];
      r
  }

  /** `getBasicSalary`: the basic salary of the first active record, or 0 without one. */
  function GetBasicSalary(records: seq<SalaryRecord>, employeeId: int): (basic: real)
    ensures (forall i :: 0 <= i < |records| ==> !IsActiveFor(records[i], employeeId)) ==> basic == 0.0
    ensures forall i :: (0 <= i < |records| && IsActiveFor(records[i], employeeId)
      && (forall j :: 0 <= j < i ==> !IsActiveFor(records[j], employeeId))
      ==> basic == records[i].basicSalary)
  {
    match ActiveSalary(records, employeeId)
    case None => 0.0
    case Some(r) => r.basicSalary
  }

  // ---------------------------------------------------------------------------
  // parseComponents
  // ---------------------------------------------------------------------------

  /**
   * The ID an entry contributes to `$componentIds`. `None` stands for an
   * object without a set `id`, whose array is pushed instead; the model takes
   * such a slot to match no component in the `whereIn` query.
   */
  function EntryRef(e: RawEntry): (r: Option<int>)
  {
    match e
    case Bare(id) => Some(id)
    case Record(id, _, _) => id
  }

  /** `$componentIds` for a whole `components` field. */
  function EntryRefs(raw: seq<RawEntry>): (ids: seq<Option<int>>)
    ensures |ids| == |raw|
    ensures forall i :: 0 <= i < |raw| ==> ids[i] == EntryRef(raw[i])
  {
    seq(|raw|, i requires 0 <= i < |raw| => EntryRef(raw[i]))
  }

  /** The entry is an object with an ID, so it writes `$customOverrides[k]`. */
  predicate WritesOverride(e: RawEntry, k: int)
  {
    e.Record? && e.id == Some(k)
  }

  function OverrideOf(e: RawEntry): (r: Override)
    requires e.Record?
  {
    Override(e.customAmount, e.customPercentage)
  }

  /** `$customOverrides` after the loop over `raw`. */
  function ParsedOverrides(raw: seq<RawEntry>): (r: map<int, Override>)
  {
    if raw == [] then map[]
    else
      var e := raw[|raw| - 1];
      var prev := ParsedOverrides(raw[..|raw| - 1]);
      if e.Record? && e.id.Some? then prev[e.id.value := OverrideOf(e)] else prev
  }

  /** Exactly the IDs of object entries get an override record. */
  lemma {:induction false} ParsedOverridesKeys(raw: seq<RawEntry>)
    ensures forall k :: k in ParsedOverrides(raw) <==>
      exists i :: 0 <= i < |raw| && WritesOverride(raw[i], k)
  {
    if raw != [] {
      var init := raw[..|raw| - 1];
      var e := raw[|raw| - 1];
      ParsedOverridesKeys(init);
      forall k ensures k in ParsedOverrides(raw) <==> exists i :: 0 <= i < |raw| && WritesOverride(raw[i], k) {
        if k in ParsedOverrides(raw) && !WritesOverride(e, k) {
          assert k in ParsedOverrides(init);
          var i :| 0 <= i < |init| && WritesOverride(init[i], k);
          assert raw[i] == init[i];
        }
        if WritesOverride(e, k) {
          assert WritesOverride(raw[|raw| - 1], k);
        }
        if i :| 0 <= i < |raw| && WritesOverride(raw[i], k) {
          if i < |init| {
            assert init[i] == raw[i];
          }
        }
      }
    }
  }

  /** When several object entries carry the same ID, the last one wins. */
  lemma {:induction false} ParsedOverridesLastWins(raw: seq<RawEntry>, i: int, k: int)
    requires 0 <= i < |raw| && WritesOverride(raw[i], k)
    requires forall j :: i < j < |raw| ==> !WritesOverride(raw[j], k)
    ensures k in ParsedOverrides(raw)
    ensures ParsedOverrides(raw)[k] == OverrideOf(raw[i])
  {
    var init := raw[..|raw| - 1];
    if i < |raw| - 1 {
      assert !WritesOverride(raw[|raw| - 1], k);
      assert init[i] == raw[i];
      forall j | i < j < |init| ensures !WritesOverride(init[j], k) {
        assert init[j] == raw[j];
      }
      ParsedOverridesLastWins(init, i, k);
    }
  }

  /** `parseComponents`: one ID per entry, in order, plus the override records. */
  method ParseComponents(raw: seq<RawEntry>) returns (ids: seq<Option<int>>, overrides: map<int, Override>)
    ensures ids == EntryRefs(raw)
    ensures overrides == ParsedOverrides(raw)
  {
    ids, overrides := [], map[];
    for i := 0 to |raw|
      invariant |ids| == i
      invariant forall j :: 0 <= j < i ==> ids[j] == EntryRef(raw[j])
      invariant overrides == ParsedOverrides(raw[..i])
    {
      var entry := raw[i];
      assert raw[..i + 1][..i] == raw[..i];
      if entry.Record? && entry.id.Some? {
        ids := ids + [entry.id];
        overrides := overrides[entry.id.value := Override(entry.customAmount, entry.customPercentage)];
      } else {
        ids := ids + [EntryRef(entry)];
      }
    }
    assert raw[..|raw|] == raw;
    assert ids == EntryRefs(raw);
  }

  // ---------------------------------------------------------------------------
  // Amount resolution
  // ---------------------------------------------------------------------------

  /** `!is_null($v) && $v !== '' && $v !== 0`: strict, so only the integer 0 counts as unset. */
  predicate IsSet(v: PhpValue)
  {
    !(v.Null? || v == Str("") || v == Int(0))
  }

  /** PHP's `(float)` cast of a value (for strings: the leading decimal number, exponent not read). */
  function FloatValue(v: PhpValue): (r: real)
  {
    match v
    case Null => 0.0
    case Str(s) => FloatOfString(s)
    case Int(i) => i as real
    case Float(f) => f
  }

  predicate IsPhpSpace(c: char)
  {
    c == ' ' || c == '\t' || c == '\n' || c == '\r' || c == '\U{B}' || c == '\U{C}'
  }

  function TrimLeadingSpace(s: string): (t: string)
    ensures |t| <= |s|
  {
    if s != [] && IsPhpSpace(s[0]) then TrimLeadingSpace(s[1..]) else s
  }

  function Pow10(n: nat): (p: nat)
    ensures p > 0
  {
    if n == 0 then 1 else 10 * Pow10(n - 1)
  }

  /** The unsigned decimal number `digits[.digits]` at the start of `t`, or 0. */
  function UnsignedDecimalPrefix(t: string): (r: real)
  {
    var n := DigitRun(t, 10);
    var whole := DigitsValue(t[..n], 10) as real;
    if n < |t| && t[n] == '.' then
      var rest := t[n + 1..];
      var m := DigitRun(rest, 10);
      whole + (DigitsValue(rest[..m], 10) as real) / (Pow10(m) as real)
    else whole
  }

  function FloatOfString(s: string): (r: real)
  {
    var t := TrimLeadingSpace(s);
    if t != [] && t[0] == '-' then -UnsignedDecimalPrefix(t[1..])
    else if t != [] && t[0] == '+' then UnsignedDecimalPrefix(t[1..])
    else UnsignedDecimalPrefix(t)
  }

  /** `$basicSalary * $percentage / 100`. */
  function PercentOf(basic: real, percentage: real): (r: real)
  {
    basic * percentage / 100.0
  }

  /**
   * The amount of one component: a set custom amount wins, then a set custom
   * percentage of basic salary, then the template default.
   */
  function ResolveAmount(ov: Override, basic: real, templateAmount: real): (amount: real)
    ensures IsSet(ov.customAmount) ==> amount == FloatValue(ov.customAmount)
    ensures !IsSet(ov.customAmount) && IsSet(ov.customPercentage)
      ==> amount == basic * FloatValue(ov.customPercentage) / 100.0
    ensures !IsSet(ov.customAmount) && !IsSet(ov.customPercentage) ==> amount == templateAmount
  {
    if IsSet(ov.customAmount) then FloatValue(ov.customAmount)
    else if IsSet(ov.customPercentage) then PercentOf(basic, FloatValue(ov.customPercentage))
    else templateAmount
  }

  /**
   * The priority on concrete values: a custom amount beats a percentage, an
   * integer 0 falls through to the next rule, while a float 0.0 or the string
   * "0" is a set value (the test is strict) and yields 0.
   */
  lemma AmountPriorityExamples()
    ensures ResolveAmount(Override(Int(500000), Int(10)), 5000000.0, 77.0) == 500000.0
    ensures ResolveAmount(Override(Int(0), Int(5)), 1000000.0, 77.0) == 50000.0
    ensures ResolveAmount(Override(Str(""), Null), 1000000.0, 77.0) == 77.0
    ensures ResolveAmount(Override(Float(0.0), Int(5)), 1000000.0, 77.0) == 0.0
    ensures ResolveAmount(Override(Str("0"), Int(5)), 1000000.0, 77.0) == 0.0
  {
    assert FloatOfString("0") == 0.0 by {
      assert DigitRun("0", 10) == 1;
    }
  }

  /** `(float)` reads the leading decimal number of a string: "12.5" is 12.5. */
  lemma FloatOfDecimalString()
    ensures FloatOfString("12.5") == 12.5
  {
    var t := "12.5";
    assert TrimLeadingSpace(t) == t by { assert !IsPhpSpace(t[0]); }
    assert DigitRun(t, 10) == 2 by {
      assert IsDigit(t[0], 10) && IsDigit(t[1], 10) && !IsDigit(t[2], 10);
    }
    assert t[..2] == "12" && t[3..] == "5";
    assert "12"[..1] == "1" && "1"[..0] == [];
    assert DigitsValue("12", 10) == 12;
    assert DigitRun("5", 10) == 1 by { assert IsDigit("5"[0], 10); assert "5"[1..] == []; }
    assert "5"[..1] == "5" && "5"[..0] == [];
    assert DigitsValue("5", 10) == 5;
    assert Pow10(1) == 10;
  }

  /** Leading whitespace and a sign are read, trailing text ignored: " -3kg" is -3. */
  lemma FloatOfSignedString()
    ensures FloatOfString(" -3kg") == -3.0
  {
    var s := " -3kg";
    assert TrimLeadingSpace(s) == s[1..] by {
      assert IsPhpSpace(s[0]) && !IsPhpSpace(s[1..][0]);
    }
    var t := "3kg";
    assert s[1..][1..] == t;
    assert DigitRun(t, 10) == 1 by {
      assert IsDigit(t[0], 10) && !IsDigit(t[1], 10);
    }
    assert t[..1] == "3" && "3"[..0] == [];
    assert DigitsValue("3", 10) == 3;
  }

  /** A string with no leading number casts to 0. */
  lemma FloatOfNonNumericString()
    ensures FloatOfString("abc") == 0.0
  {
    var t := "abc";
    assert TrimLeadingSpace(t) == t by { assert !IsPhpSpace(t[0]); }
    assert DigitRun(t, 10) == 0 by { assert !IsDigit(t[0], 10); }
  }

  /** `$customOverrides[$component->id] ?? []`, read with `?? null`. */
  function OverrideFor(overrides: map<int, Override>, id: int): (r: Override)
  {
    if id in overrides then overrides[id] else Override(Null, Null)
  }

  function ComponentAmount(c: SalaryComponent, overrides: map<int, Override>, basic: real,
                           calculateAmount: (SalaryComponent, real) -> real): (r: real)
  {
    ResolveAmount(OverrideFor(overrides, c.id), basic, calculateAmount(c, basic))
  }

  // ---------------------------------------------------------------------------
  // The component query and the accumulation loop
  // ---------------------------------------------------------------------------

  /** `SalaryComponent::whereIn('id', $componentIds)->where('status', 'active')`, in catalog order. */
  function ActiveComponents(catalog: seq<SalaryComponent>, ids: seq<Option<int>>): (r: seq<SalaryComponent>)
    ensures forall c :: c in r <==> c in catalog && Some(c.id) in ids && c.status == "active"
    ensures |r| <= |catalog|
  {
    if catalog == [] then []
    else
      var c := catalog[|catalog| - 1];
      var prev := ActiveComponents(catalog[..|catalog| - 1], ids);
      assert catalog == catalog[..|catalog| - 1] + [c];
      if Some(c.id) in ids && c.status == "active" then prev + [c] else prev
  }

  predicate IsEarning(c: SalaryComponent)
  {
    c.componentType == "earning"
  }

  const BasicSalaryLabel: string := "Basic Salary"

  /** The maps and running totals of the component loop. */
  datatype Tally = Tally(
    earnings: Entries<real>,
    deductions: Entries<real>,
    totalEarnings: real,
    totalDeductions: real)

  function InitialTally(basic: real): (r: Tally)
  {
    Tally([(BasicSalaryLabel, basic)], [], basic, 0.0)
  }

  /** One iteration: an earning goes to earnings and its total, anything else to deductions. */
  function Route(t: Tally, c: SalaryComponent, amount: real): (r: Tally)
  {
    if IsEarning(c) then
      t.(earnings := Put(t.earnings, c.name, amount), totalEarnings := t.totalEarnings + amount)
    else
      t.(deductions := Put(t.deductions, c.name, amount), totalDeductions := t.totalDeductions + amount)
  }

  /** The tally after the loop over `comps`. */
  function Accumulate(comps: seq<SalaryComponent>, overrides: map<int, Override>, basic: real,
                      calculateAmount: (SalaryComponent, real) -> real): (r: Tally)
  {
    if comps == [] then InitialTally(basic)
    else
      var c := comps[|comps| - 1];
      Route(Accumulate(comps[..|comps| - 1], overrides, basic, calculateAmount), c,
            ComponentAmount(c, overrides, basic, calculateAmount))
  }

  /** Sum of the resolved amounts of the earning-typed components. */
  function EarningTotal(comps: seq<SalaryComponent>, overrides: map<int, Override>, basic: real,
                        calculateAmount: (SalaryComponent, real) -> real): (r: real)
  {
    if comps == [] then 0.0
    else
      var c := comps[0];
      (if IsEarning(c) then ComponentAmount(c, overrides, basic, calculateAmount) else 0.0)
        + EarningTotal(comps[1..], overrides, basic, calculateAmount)
  }

  /** Sum of the resolved amounts of all other components. */
  function DeductionTotal(comps: seq<SalaryComponent>, overrides: map<int, Override>, basic: real,
                          calculateAmount: (SalaryComponent, real) -> real): (r: real)
  {
    if comps == [] then 0.0
    else
      var c := comps[0];
      (if IsEarning(c) then 0.0 else ComponentAmount(c, overrides, basic, calculateAmount))
        + DeductionTotal(comps[1..], overrides, basic, calculateAmount)
  }

  lemma {:induction false} TotalsSnoc(comps: seq<SalaryComponent>, c: SalaryComponent, overrides: map<int, Override>,
                                      basic: real, calculateAmount: (SalaryComponent, real) -> real)
    ensures EarningTotal(comps + [c], overrides, basic, calculateAmount)
      == EarningTotal(comps, overrides, basic, calculateAmount)
         + (if IsEarning(c) then ComponentAmount(c, overrides, basic, calculateAmount) else 0.0)
    ensures DeductionTotal(comps + [c], overrides, basic, calculateAmount)
      == DeductionTotal(comps, overrides, basic, calculateAmount)
         + (if IsEarning(c) then 0.0 else ComponentAmount(c, overrides, basic, calculateAmount))
  {
    if comps != [] {
      assert (comps + [c])[1..] == comps[1..] + [c];
      TotalsSnoc(comps[1..], c, overrides, basic, calculateAmount);
    }
  }

  /** The running totals start at basic salary and 0 and add every resolved amount on its side. */
  lemma {:induction false} AccumulateTotals(comps: seq<SalaryComponent>, overrides: map<int, Override>, basic: real,
                                            calculateAmount: (SalaryComponent, real) -> real)
    ensures Accumulate(comps, overrides, basic, calculateAmount).totalEarnings
      == basic + EarningTotal(comps, overrides, basic, calculateAmount)
    ensures Accumulate(comps, overrides, basic, calculateAmount).totalDeductions
      == DeductionTotal(comps, overrides, basic, calculateAmount)
  {
    if comps != [] {
      var init := comps[..|comps| - 1];
      AccumulateTotals(init, overrides, basic, calculateAmount);
      TotalsSnoc(init, comps[|comps| - 1], overrides, basic, calculateAmount);
      assert init + [comps[|comps| - 1]] == comps;
    }
  }

  /** One step adds the component's name to the keys of its own side and nowhere else. */
  lemma RouteKeys(t: Tally, c: SalaryComponent, amount: real)
    ensures forall k :: HasKey(Route(t, c, amount).earnings, k) <==>
      HasKey(t.earnings, k) || (IsEarning(c) && k == c.name)
    ensures forall k :: HasKey(Route(t, c, amount).deductions, k) <==>
      HasKey(t.deductions, k) || (!IsEarning(c) && k == c.name)
    ensures UniqueKeys(t.earnings) && UniqueKeys(t.deductions) ==>
      UniqueKeys(Route(t, c, amount).earnings) && UniqueKeys(Route(t, c, amount).deductions)
  {
    if UniqueKeys(t.earnings) && UniqueKeys(t.deductions) {
      PutKeepsUnique(t.earnings, c.name, amount);
      PutKeepsUnique(t.deductions, c.name, amount);
    }
  }

  /** The maps of the tally are real PHP arrays, and "Basic Salary" is always an earnings key. */
  lemma {:induction false} AccumulateUnique(comps: seq<SalaryComponent>, overrides: map<int, Override>, basic: real,
                                            calculateAmount: (SalaryComponent, real) -> real)
    ensures var t := Accumulate(comps, overrides, basic, calculateAmount);
      UniqueKeys(t.earnings) && UniqueKeys(t.deductions) && HasKey(t.earnings, BasicSalaryLabel)
  {
    if comps == [] {
      assert InitialTally(basic).earnings[0].0 == BasicSalaryLabel;
    } else {
      var init := comps[..|comps| - 1];
      var c := comps[|comps| - 1];
      AccumulateUnique(init, overrides, basic, calculateAmount);
      RouteKeys(Accumulate(init, overrides, basic, calculateAmount), c,
                ComponentAmount(c, overrides, basic, calculateAmount));
    }
  }

  /** The names of the earning-typed components. */
  function EarningNames(comps: seq<SalaryComponent>): (r: set<string>)
  {
    if comps == [] then {}
    else
      var c := comps[|comps| - 1];
      EarningNames(comps[..|comps| - 1]) + (if IsEarning(c) then {c.name} else {})
  }

  /** The names of the other components. */
  function OtherNames(comps: seq<SalaryComponent>): (r: set<string>)
  {
    if comps == [] then {}
    else
      var c := comps[|comps| - 1];
      OtherNames(comps[..|comps| - 1]) + (if IsEarning(c) then {} else {c.name})
  }

  /** A name in either set belongs to a component of that type. */
  lemma {:induction false} NamesOfComponents(comps: seq<SalaryComponent>, k: string)
    ensures k in EarningNames(comps) <==> exists i :: 0 <= i < |comps| && IsEarning(comps[i]) && comps[i].name == k
    ensures k in OtherNames(comps) <==> exists i :: 0 <= i < |comps| && !IsEarning(comps[i]) && comps[i].name == k
  {
    if comps != [] {
      var init := comps[..|comps| - 1];
      var c := comps[|comps| - 1];
      NamesOfComponents(init, k);
      if i :| 0 <= i < |comps| && comps[i].name == k {
        if i < |init| { assert init[i] == comps[i]; }
      }
      if i :| 0 <= i < |init| && init[i].name == k {
        assert comps[i] == init[i];
      }
    }
  }

  /**
   * Routing: the earnings keys are "Basic Salary" and the names of the
   * earning-typed components, the deductions keys the names of the others.
   */
  lemma {:induction false} AccumulateRouting(comps: seq<SalaryComponent>, overrides: map<int, Override>, basic: real,
                                             calculateAmount: (SalaryComponent, real) -> real)
    ensures var t := Accumulate(comps, overrides, basic, calculateAmount);
      forall k :: HasKey(t.earnings, k) <==> k == BasicSalaryLabel || k in EarningNames(comps)
    ensures var t := Accumulate(comps, overrides, basic, calculateAmount);
      forall k :: HasKey(t.deductions, k) <==> k in OtherNames(comps)
  {
    if comps == [] {
      assert InitialTally(basic).earnings[0].0 == BasicSalaryLabel;
    } else {
      var init := comps[..|comps| - 1];
      var c := comps[|comps| - 1];
      AccumulateRouting(init, overrides, basic, calculateAmount);
      RouteKeys(Accumulate(init, overrides, basic, calculateAmount), c,
                ComponentAmount(c, overrides, basic, calculateAmount));
    }
  }

  predicate DistinctNames(comps: seq<SalaryComponent>)
  {
    forall i, j :: 0 <= i < j < |comps| ==> comps[i].name != comps[j].name
  }

  /** The maps of a tally carry its running totals. */
  predicate SumsMatch(t: Tally)
  {
    Sum(t.earnings) == t.totalEarnings && Sum(t.deductions) == t.totalDeductions
  }

  /** Routing a name that is a key of neither map appends it and keeps the sums matching. */
  lemma RouteFreshName(t: Tally, c: SalaryComponent, amount: real)
    requires SumsMatch(t)
    requires !HasKey(t.earnings, c.name) && !HasKey(t.deductions, c.name)
    ensures SumsMatch(Route(t, c, amount))
  {
    SumAppend(t.earnings, [(c.name, amount)]);
    SumAppend(t.deductions, [(c.name, amount)]);
  }

  /**
   * When component names are distinct and none is "Basic Salary", the maps
   * carry every amount: their sums equal the running totals.
   */
  lemma {:induction false} MapsMatchTotals(comps: seq<SalaryComponent>, overrides: map<int, Override>, basic: real,
                                           calculateAmount: (SalaryComponent, real) -> real)
    requires DistinctNames(comps)
    requires forall i :: 0 <= i < |comps| ==> comps[i].name != BasicSalaryLabel
    ensures var t := Accumulate(comps, overrides, basic, calculateAmount);
      Sum(t.earnings) == t.totalEarnings && Sum(t.deductions) == t.totalDeductions
  {
    if comps == [] {
      assert InitialTally(basic).earnings[1..] == [];
    } else {
      var init := comps[..|comps| - 1];
      var c := comps[|comps| - 1];
      var t0 := Accumulate(init, overrides, basic, calculateAmount);
      assert SumsMatch(t0) by {
        assert forall i :: 0 <= i < |init| ==> init[i] == comps[i];
        MapsMatchTotals(init, overrides, basic, calculateAmount);
      }
      assert !HasKey(t0.earnings, c.name) && !HasKey(t0.deductions, c.name) by {
        AccumulateRouting(init, overrides, basic, calculateAmount);
        NamesOfComponents(init, c.name);
      }
      RouteFreshName(t0, c, ComponentAmount(c, overrides, basic, calculateAmount));
    }
  }

  /** The loop over two components is two routing steps. */
  lemma AccumulateTwo(c1: SalaryComponent, c2: SalaryComponent, overrides: map<int, Override>, basic: real,
                      calculateAmount: (SalaryComponent, real) -> real)
    ensures Accumulate([c1, c2], overrides, basic, calculateAmount)
      == Route(Route(InitialTally(basic), c1, ComponentAmount(c1, overrides, basic, calculateAmount)),
               c2, ComponentAmount(c2, overrides, basic, calculateAmount))
  {
    assert [c1, c2][..1] == [c1];
    assert [c1][..0] == [];
    assert Accumulate([c1], overrides, basic, calculateAmount)
      == Route(Accumulate([], overrides, basic, calculateAmount), c1, ComponentAmount(c1, overrides, basic, calculateAmount));
  }

  lemma OverwriteAllowance()
    ensures Put(Put([(BasicSalaryLabel, 1000.0)], "Allowance", 100.0), "Allowance", 200.0)
      == [(BasicSalaryLabel, 1000.0), ("Allowance", 200.0)]
  {
    var basicEntry: Entries<real> := [(BasicSalaryLabel, 1000.0)];
    assert BasicSalaryLabel[0] != "Allowance"[0];
    assert !HasKey(basicEntry, "Allowance");
    var e1: Entries<real> := Put(basicEntry, "Allowance", 100.0);
    assert e1 == [(BasicSalaryLabel, 1000.0), ("Allowance", 100.0)];
    assert UniqueKeys(e1);
    assert HasKey(e1, "Allowance") by { assert e1[1].0 == "Allowance"; }
    var e2: Entries<real> := Put(e1, "Allowance", 200.0);
    assert e2[0] == e1[0] && e2[1] == ("Allowance", 200.0);
  }

  /**
   * Two earning components named "Allowance" with custom amounts 100 and 200:
   * both amounts reach total_earnings, but the earnings map keeps only the
   * second, so the map no longer sums to the total.
   */
  lemma DuplicateNamesLoseAnEntry(calculateAmount: (SalaryComponent, real) -> real)
    ensures var comps := [SalaryComponent(1, "Allowance", "earning", "active"),
                          SalaryComponent(2, "Allowance", "earning", "active")];
      var overrides := map[1 := Override(Int(100), Null), 2 := Override(Int(200), Null)];
      var t := Accumulate(comps, overrides, 1000.0, calculateAmount);
      t.totalEarnings == 1300.0 && Sum(t.earnings) == 1200.0
  {
    var c1, c2 := SalaryComponent(1, "Allowance", "earning", "active"), SalaryComponent(2, "Allowance", "earning", "active");
    var overrides := map[1 := Override(Int(100), Null), 2 := Override(Int(200), Null)];
    assert ComponentAmount(c1, overrides, 1000.0, calculateAmount) == 100.0;
    assert ComponentAmount(c2, overrides, 1000.0, calculateAmount) == 200.0;
    AccumulateTwo(c1, c2, overrides, 1000.0, calculateAmount);
    OverwriteAllowance();
    var e2: Entries<real> := [(BasicSalaryLabel, 1000.0), ("Allowance", 200.0)];
    assert Sum(e2) == 1000.0 + Sum(e2[1..]);
    assert |e2[1..][1..]| == 0;
  }

  // ---------------------------------------------------------------------------
  // BPJS statutory shares
  // ---------------------------------------------------------------------------

  const KesehatanCap: real := 12000000.0
  const JpCap: real := 10042300.0

  /** The eight statutory figures, EE = employee share, ER = employer share. */
  datatype Statutory = Statutory(
    eeKesehatan: real, erKesehatan: real,
    eeJht: real, erJht: real,
    eeJp: real, erJp: real,
    erJkk: real, erJkm: real)

  function Min(a: real, b: real): (r: real)
  {
    if a <= b then a else b
  }

  /**
   * Kesehatan: 1% EE and 4% ER of basic capped at 12,000,000; JHT: 2% EE and
   * 3.7% ER uncapped; JP: 1% EE and 2% ER of basic capped at 10,042,300;
   * JKK 0.24% and JKM 0.3% ER only.
   */
  function StatutoryFor(basic: real): (s: Statutory)
    ensures basic <= KesehatanCap ==> s.eeKesehatan == basic / 100.0 && s.erKesehatan == 4.0 * basic / 100.0
    ensures basic >= KesehatanCap ==> s.eeKesehatan == 120000.0 && s.erKesehatan == 480000.0
    ensures basic <= JpCap ==> s.eeJp == basic / 100.0 && s.erJp == 2.0 * basic / 100.0
    ensures basic >= JpCap ==> s.eeJp == 100423.0 && s.erJp == 200846.0
    ensures s.eeJht == 2.0 * basic / 100.0 && s.erJht == 3.7 * basic / 100.0
    ensures s.erJkk == 0.24 * basic / 100.0 && s.erJkm == 0.3 * basic / 100.0
  {
    var basisKesehatan := Min(basic, KesehatanCap);
    var basisJp := Min(basic, JpCap);
    Statutory(
      basisKesehatan * 0.01, basisKesehatan * 0.04,
      basic * 0.02, basic * 0.037,
      basisJp * 0.01, basisJp * 0.02,
      basic * 0.0024, basic * 0.003)
  }

  const EeKesehatanLabel: string := "BPJS Kesehatan (1%)"
  const EeJhtLabel: string := "BPJS JHT (2%)"
  const EeJpLabel: string := "BPJS JP (1%)"
  const ErKesehatanLabel: string := "ER_BPJS_Kesehatan_(4%)"
  const ErJhtLabel: string := "ER_BPJS_JHT_(3.7%)"
  const ErJpLabel: string := "ER_BPJS_JP_(2%)"
  const ErJkkLabel: string := "ER_BPJS_JKK_(0.24%)"
  const ErJkmLabel: string := "ER_BPJS_JKM_(0.3%)"

  /** The three EE shares written into `$deductions`. */
  function WithStatutoryDeductions(d: Entries<real>, s: Statutory): (r: Entries<real>)
  {
    Put(Put(Put(d, EeKesehatanLabel, s.eeKesehatan), EeJhtLabel, s.eeJht), EeJpLabel, s.eeJp)
  }

  /** `$employerContributions`. */
  function EmployerContributions(s: Statutory): (r: Entries<real>)
  {
    [(ErKesehatanLabel, s.erKesehatan), (ErJhtLabel, s.erJht), (ErJpLabel, s.erJp),
     (ErJkkLabel, s.erJkk), (ErJkmLabel, s.erJkm)]
  }

  // ---------------------------------------------------------------------------
  // calculateAllComponents
  // ---------------------------------------------------------------------------

  /** The components the engine iterates over. */
  function SelectedComponents(salary: SalaryRecord, catalog: seq<SalaryComponent>): (r: seq<SalaryComponent>)
  {
    ActiveComponents(catalog, EntryRefs(salary.components))
  }

  /** The breakdown `calculateAllComponents` returns, as a function of its inputs. */
  function Calculate(salary: SalaryRecord, catalog: seq<SalaryComponent>,
                     calculateAmount: (SalaryComponent, real) -> real): (r: Breakdown)
  {
    var basic := salary.basicSalary;
    var t := Accumulate(SelectedComponents(salary, catalog), ParsedOverrides(salary.components), basic, calculateAmount);
    var s := StatutoryFor(basic);
    var totalDeductions := t.totalDeductions + (s.eeKesehatan + s.eeJht + s.eeJp);
    Breakdown(basic, t.earnings, WithStatutoryDeductions(t.deductions, s), EmployerContributions(s),
              t.totalEarnings, totalDeductions, t.totalEarnings, t.totalEarnings - totalDeductions)
  }

  /**
   * The totals of a breakdown: gross equals total earnings, net is earnings
   * minus deductions, earnings start at basic salary and deductions at 0, and
   * only the three EE statutory shares join the component deductions.
   */
  lemma CalculateTotals(salary: SalaryRecord, catalog: seq<SalaryComponent>,
                        calculateAmount: (SalaryComponent, real) -> real)
    ensures var b := Calculate(salary, catalog, calculateAmount);
      var comps := SelectedComponents(salary, catalog);
      var ov := ParsedOverrides(salary.components);
      var s := StatutoryFor(salary.basicSalary);
      && b.grossSalary == b.totalEarnings
      && b.netSalary == b.totalEarnings - b.totalDeductions
      && b.totalEarnings == salary.basicSalary + EarningTotal(comps, ov, salary.basicSalary, calculateAmount)
      && b.totalDeductions == DeductionTotal(comps, ov, salary.basicSalary, calculateAmount)
                              + s.eeKesehatan + s.eeJht + s.eeJp
  {
    AccumulateTotals(SelectedComponents(salary, catalog), ParsedOverrides(salary.components),
                     salary.basicSalary, calculateAmount);
  }

  /** The deductions keys are the non-earning component names plus the three EE labels. */
  lemma CalculateDeductionKeys(salary: SalaryRecord, catalog: seq<SalaryComponent>,
                               calculateAmount: (SalaryComponent, real) -> real)
    ensures var b := Calculate(salary, catalog, calculateAmount);
      forall k :: HasKey(b.deductions, k) <==>
        k in OtherNames(SelectedComponents(salary, catalog)) || k == EeKesehatanLabel || k == EeJhtLabel || k == EeJpLabel
  {
    AccumulateRouting(SelectedComponents(salary, catalog), ParsedOverrides(salary.components),
                      salary.basicSalary, calculateAmount);
  }

  /** Every employer label carries the `ER_` prefix, and no employee label does. */
  lemma StatutoryLabelPrefixes(s: Statutory)
    ensures forall i :: 0 <= i < |EmployerContributions(s)| ==> StartsWith(EmployerContributions(s)[i].0, "ER_")
    ensures !StartsWith(EeKesehatanLabel, "ER_") && !StartsWith(EeJhtLabel, "ER_") && !StartsWith(EeJpLabel, "ER_")
  {
    assert EeKesehatanLabel[0] != 'E' && EeJhtLabel[0] != 'E' && EeJpLabel[0] != 'E';
  }

  /**
   * Employer shares are informational: net salary is basic plus the
   * earning components minus the other components minus the three EE shares,
   * whatever the ER shares are, every ER share sits in
   * `employer_contributions` under an `ER_` key, and an `ER_` key among the
   * deductions can only be a component's own name.
   */
  lemma EmployerSharesAreInformational(salary: SalaryRecord, catalog: seq<SalaryComponent>,
                                       calculateAmount: (SalaryComponent, real) -> real)
    ensures var b := Calculate(salary, catalog, calculateAmount);
      var comps := SelectedComponents(salary, catalog);
      var ov := ParsedOverrides(salary.components);
      var basic := salary.basicSalary;
      var s := StatutoryFor(basic);
      && b.netSalary == basic + EarningTotal(comps, ov, basic, calculateAmount)
                        - DeductionTotal(comps, ov, basic, calculateAmount)
                        - (s.eeKesehatan + s.eeJht + s.eeJp)
      && (forall i :: 0 <= i < |b.employerContributions| ==> StartsWith(b.employerContributions[i].0, "ER_"))
      && (forall k :: HasKey(b.deductions, k) && StartsWith(k, "ER_") ==> k in OtherNames(comps))
  {
    CalculateTotals(salary, catalog, calculateAmount);
    CalculateDeductionKeys(salary, catalog, calculateAmount);
    StatutoryLabelPrefixes(StatutoryFor(salary.basicSalary));
  }

  /** With basic salary 6,000,000 and no components, net salary is 5,760,000. */
  lemma SixMillionExample(calculateAmount: (SalaryComponent, real) -> real)
    ensures var b := Calculate(SalaryRecord(7, 6000000.0, [], true), [], calculateAmount);
      var s := StatutoryFor(6000000.0);
      && s == Statutory(60000.0, 240000.0, 120000.0, 222000.0, 60000.0, 120000.0, 14400.0, 18000.0)
      && b.totalDeductions == 240000.0
      && b.netSalary == 5760000.0
  {
  }

  /** The component loop of `calculateAllComponents`: earnings start at basic salary, deductions empty. */
  method AccumulateComponents(components: seq<SalaryComponent>, customOverrides: map<int, Override>, basic: real,
                              calculateAmount: (SalaryComponent, real) -> real) returns (t: Tally)
    ensures t == Accumulate(components, customOverrides, basic, calculateAmount)
    ensures t.totalEarnings == basic + EarningTotal(components, customOverrides, basic, calculateAmount)
    ensures t.totalDeductions == DeductionTotal(components, customOverrides, basic, calculateAmount)
  {
    var earnings: Entries<real> := [(BasicSalaryLabel, basic)];
    var deductions: Entries<real> := [];
    var totalEarnings := basic;
    var totalDeductions := 0.0;

    for i := 0 to |components|
      invariant Tally(earnings, deductions, totalEarnings, totalDeductions)
        == Accumulate(components[..i], customOverrides, basic, calculateAmount)
    {
      var component := components[i];
      assert components[..i + 1][..i] == components[..i];
      var ov := OverrideFor(customOverrides, component.id);
      var amount: real;
      if IsSet(ov.customAmount) {
        amount := FloatValue(ov.customAmount);
      } else if IsSet(ov.customPercentage) {
        amount := PercentOf(basic, FloatValue(ov.customPercentage));
      } else {
        amount := calculateAmount(component, basic);
      }
      assert amount == ComponentAmount(component, customOverrides, basic, calculateAmount);
      if component.componentType == "earning" {
        earnings := Put(earnings, component.name, amount);
        totalEarnings := totalEarnings + amount;
      } else {
        deductions := Put(deductions, component.name, amount);
        totalDeductions := totalDeductions + amount;
      }
    }
    assert components[..|components|] == components;
    t := Tally(earnings, deductions, totalEarnings, totalDeductions);
    AccumulateTotals(components, customOverrides, basic, calculateAmount);
  }

  /** `calculateAllComponents`. */
  method CalculateAllComponents(salary: SalaryRecord, catalog: seq<SalaryComponent>,
                                calculateAmount: (SalaryComponent, real) -> real) returns (b: Breakdown)
    ensures b == Calculate(salary, catalog, calculateAmount)
  {
    var componentIds, customOverrides := ParseComponents(salary.components);
    var components := ActiveComponents(catalog, componentIds);
    var basic := salary.basicSalary;
    var t := AccumulateComponents(components, customOverrides, basic, calculateAmount);

    // BPJS shares, Kesehatan and JP on capped bases.
    var shares := StatutoryFor(basic);
    var deductions := Put(t.deductions, EeKesehatanLabel, shares.eeKesehatan);
    deductions := Put(deductions, EeJhtLabel, shares.eeJht);
    deductions := Put(deductions, EeJpLabel, shares.eeJp);
    var totalDeductions := t.totalDeductions + (shares.eeKesehatan + shares.eeJht + shares.eeJp);

    var employerContributions := EmployerContributions(shares);
    b := Breakdown(basic, t.earnings, deductions, employerContributions,
                   t.totalEarnings, totalDeductions, t.totalEarnings, t.totalEarnings - totalDeductions);
  }
}
