/**
 * The state logic of the employee-salaries page: the filter indicators, the
 * sort toggle, and the form's handling of salary components, which are kept
 * as a list of selected ID strings plus a dictionary of custom values while
 * editing and turned back into `{id, custom_amount, custom_percentage}`
 * objects on submit.
 */
module EmployeeSalariesPage {
  import opened Wrappers
  import opened JsNumbers

  // ---------------------------------------------------------------------------
  // Filters and sorting
  // ---------------------------------------------------------------------------

  /** The filter state; an unset select holds "all". */
  datatype Filters = Filters(
    search: string, employee: string, isActive: string,
    branch: string, department: string, designation: string)

  /** `hasActiveFilters()`. */
  predicate HasActiveFilters(f: Filters)
  {
    f.search != "" || f.employee != "all" || f.isActive != "all"
    || f.branch != "all" || f.department != "all" || f.designation != "all"
  }

  function Indicator(b: bool): (r: nat)
  {
    if b then 1 else 0
  }

  /** `activeFilterCount()`; a search term counts when it is truthy, i.e. not empty. */
  function ActiveFilterCount(f: Filters): (n: nat)
    ensures n <= 6
  {
    Indicator(f.search != "") + Indicator(f.employee != "all") + Indicator(f.isActive != "all")
    + Indicator(f.branch != "all") + Indicator(f.department != "all") + Indicator(f.designation != "all")
  }

  /** The badge and the indicator agree: filters are active exactly when the count is positive. */
  lemma ActiveFiltersIffCount(f: Filters)
    ensures HasActiveFilters(f) <==> ActiveFilterCount(f) > 0
    ensures !HasActiveFilters(f) <==> f == Filters("", "all", "all", "all", "all", "all")
  {
  }

  datatype SortDirection = Asc | Desc

  /** The current `sort_field`/`sort_direction` query values, possibly absent. */
  datatype SortState = SortState(field: Option<string>, direction: Option<string>)

  function DirectionName(d: SortDirection): (r: string)
  {
    match d
    case Asc => "asc"
    case Desc => "desc"
  }

  /** `handleSort(field)`: the direction it requests. */
  function NextDirection(current: SortState, field: string): (r: SortDirection)
  {
    if current.field == Some(field) && current.direction == Some("asc") then Desc else Asc
  }

  /**
   * A click asks for `desc` only on the field already sorted ascending;
   * repeated clicks on one field alternate asc, desc, asc.
   */
  lemma SortToggle(current: SortState, field: string)
    ensures NextDirection(current, field) == Desc <==>
      current.field == Some(field) && current.direction == Some("asc")
    ensures var first := NextDirection(current, field);
      var second := NextDirection(SortState(Some(field), Some(DirectionName(first))), field);
      var third := NextDirection(SortState(Some(field), Some(DirectionName(second))), field);
      first != second && second != third
  {
    assert "desc" != "asc" by { assert "desc"[0] != "asc"[0]; }
  }

  // ---------------------------------------------------------------------------
  // Values
  // ---------------------------------------------------------------------------

  /** A JavaScript value as it appears in the form data (numbers: integers only). */
  datatype JsValue = Undefined | Null | Str(s: string) | Num(n: int)

  /** JavaScript truthiness. */
  predicate Truthy(v: JsValue)
  {
    match v
    case Undefined => false
    case Null => false
    case Str(s) => s != ""
    case Num(n) => n != 0
  }

  /** `v || d`. */
  function Or(v: JsValue, d: JsValue): (r: JsValue)
    ensures Truthy(v) ==> r == v
    ensures !Truthy(v) ==> r == d
  {
    if Truthy(v) then v else d
  }

  /** The custom values kept for one selected component while editing. */
  datatype FormOverride = FormOverride(customAmount: JsValue, customPercentage: JsValue)

  const EmptyOverride := FormOverride(Str(""), Str(""))

  // ---------------------------------------------------------------------------
  // Keeping the overrides in step with the selection
  // ---------------------------------------------------------------------------

  /** What the override dictionary should be for a selection. */
  function SyncedOverrides(overrides: map<string, FormOverride>, selected: seq<string>): (r: map<string, FormOverride>)
    ensures r.Keys == set id | id in selected
  {
    map id | id in selected :: if id in overrides then overrides[id] else EmptyOverride
  }

  /**
   * The dictionary tracks the selection: selecting the same IDs again
   * changes nothing, and deselecting then reselecting an ID resets it.
   */
  lemma SyncedOverridesIdempotent(overrides: map<string, FormOverride>, selected: seq<string>)
    ensures SyncedOverrides(SyncedOverrides(overrides, selected), selected) == SyncedOverrides(overrides, selected)
  {
  }

  lemma DeselectResets(overrides: map<string, FormOverride>, selected: seq<string>, id: string)
    requires id !in selected
    ensures SyncedOverrides(SyncedOverrides(overrides, selected), selected + [id])[id] == EmptyOverride
  {
  }

  /** The multi-select change handler: add blank overrides for new IDs, then delete the deselected ones. */
  method SyncOverrides(overrides: map<string, FormOverride>, value: Option<seq<string>>)
    returns (newOverrides: map<string, FormOverride>)
    ensures newOverrides == SyncedOverrides(overrides, if value.Some? then value.value else [])
    ensures forall id :: id in newOverrides && id in overrides ==> newOverrides[id] == overrides[id]
    ensures forall id :: id in newOverrides && id !in overrides ==> newOverrides[id] == EmptyOverride
  {
    var selected := if value.Some? then value.value else [];
    newOverrides := overrides;
    for i := 0 to |selected|
      invariant forall id :: id in newOverrides <==> id in overrides || id in selected[..i]
      invariant forall id :: id in newOverrides ==>
        newOverrides[id] == if id in overrides then overrides[id] else EmptyOverride
    {
      if selected[i] !in newOverrides {
        newOverrides := newOverrides[selected[i] := EmptyOverride];
      }
      assert forall id :: id in selected[..i + 1] <==> id in selected[..i] || id == selected[i];
    }
    assert selected[..|selected|] == selected;
    var keys := newOverrides.Keys;
    while keys != {}
      invariant keys <= newOverrides.Keys
      invariant forall id :: id in newOverrides <==> id in keys || id in selected
      invariant forall id :: id in newOverrides ==>
        newOverrides[id] == if id in overrides then overrides[id] else EmptyOverride
      decreases keys
    {
      var id :| id in keys;
      if id !in selected {
        newOverrides := newOverrides - {id};
      }
      keys := keys - {id};
    }
  }

  // ---------------------------------------------------------------------------
  // Parsing the stored components for the edit form
  // ---------------------------------------------------------------------------

  /** One element of the stored `components` field as the page receives it. */
  datatype JsEntry =
    | ObjectEntry(id: JsValue, customAmount: JsValue, customPercentage: JsValue)
    | NumberEntry(n: int)
    | StringEntry(s: string)
    | NullEntry

  /** The page's form state for the components. */
  datatype ComponentForm = ComponentForm(componentIds: seq<string>, componentOverrides: map<string, FormOverride>)

  /** A `TypeError` thrown while building the form. */
  datatype JsError = TypeError(message: string)

  /** `x.toString()`; `None` where it throws (`null`, `undefined`). */
  function ToStringOf(v: JsValue): (r: Option<string>)
  {
    match v
    case Undefined => None
    case Null => None
    case Str(s) => Some(s)
    case Num(n) => Some(IntToString(n))
  }

  /** The new format: an object with a truthy `id`. */
  predicate IsObjectWithId(e: JsEntry)
  {
    e.ObjectEntry? && Truthy(e.id)
  }

  /** The ID string one entry contributes; `None` where `toString` throws. */
  function EntryIdString(e: JsEntry): (r: Option<string>)
  {
    match e
    case ObjectEntry(id, _, _) => if Truthy(id) then ToStringOf(id) else Some("[object Object]")
    case NumberEntry(n) => Some(IntToString(n))
    case StringEntry(s) => Some(s)
    case NullEntry => None
  }

  /** The override one entry contributes: its own values, falsy ones blanked, or blanks for the old format. */
  function EntryOverride(e: JsEntry): (r: FormOverride)
  {
    if IsObjectWithId(e) then FormOverride(Or(e.customAmount, Str("")), Or(e.customPercentage, Str("")))
    else EmptyOverride
  }

  /** The form the parse builds from `raw`, or the error it throws. */
  function ParseForm(raw: seq<JsEntry>): (r: Result<ComponentForm, JsError>)
  {
    if raw == [] then Success(ComponentForm([], map[]))
    else
      match ParseForm(raw[..|raw| - 1])
      case Failure(err) => Failure(err)
      case Success(form) =>
        var e := raw[|raw| - 1];
        match EntryIdString(e)
        case None => Failure(TypeError("Cannot read properties of null (reading 'toString')"))
        case Some(idStr) =>
          Success(ComponentForm(form.componentIds + [idStr], form.componentOverrides[idStr := EntryOverride(e)]))
  }

  /** The parse throws exactly when some entry is `null`. */
  lemma {:induction false} ParseFailsIffNull(raw: seq<JsEntry>)
    ensures ParseForm(raw).Failure? <==> exists i :: 0 <= i < |raw| && raw[i] == NullEntry
  {
    if raw != [] {
      var init := raw[..|raw| - 1];
      ParseFailsIffNull(init);
      assert forall i :: 0 <= i < |init| ==> init[i] == raw[i];
      if ParseForm(init).Success? && ParseForm(raw).Failure? {
        assert raw[|raw| - 1] == NullEntry;
      }
    }
  }

  /** A successful parse has one ID string per entry, in entry order. */
  lemma {:induction false} ParseIds(raw: seq<JsEntry>)
    requires ParseForm(raw).Success?
    ensures var ids := ParseForm(raw).value.componentIds;
      |ids| == |raw| && forall i :: 0 <= i < |raw| ==> Some(ids[i]) == EntryIdString(raw[i])
  {
    if raw != [] {
      ParseIds(raw[..|raw| - 1]);
    }
  }

  /** Every ID string, and nothing else, has an override. */
  lemma {:induction false} ParseKeys(raw: seq<JsEntry>)
    requires ParseForm(raw).Success?
    ensures var form := ParseForm(raw).value;
      forall k :: k in form.componentOverrides <==> k in form.componentIds
  {
    if raw != [] {
      ParseKeys(raw[..|raw| - 1]);
    }
  }

  /** The override of an ID is the one its last entry contributes. */
  lemma {:induction false} ParseLastWins(raw: seq<JsEntry>, i: nat)
    requires ParseForm(raw).Success?
    requires i < |raw|
    requires var ids := ParseForm(raw).value.componentIds;
      |ids| == |raw| && forall j :: i < j < |raw| ==> ids[j] != ids[i]
    ensures var form := ParseForm(raw).value;
      form.componentIds[i] in form.componentOverrides
      && form.componentOverrides[form.componentIds[i]] == EntryOverride(raw[i])
  {
    var init := raw[..|raw| - 1];
    var form := ParseForm(raw).value;
    var prev := ParseForm(init).value;
    assert form.componentIds == prev.componentIds + [form.componentIds[|raw| - 1]];
    if i < |raw| - 1 {
      assert forall j :: i < j < |init| ==> prev.componentIds[j] == form.componentIds[j];
      ParseLastWins(init, i);
      assert init[i] == raw[i];
    }
  }

  /** The `initialData` builder; `currentItem.components || []` makes a missing field empty. */
  method ParseInitialComponents(components: Option<seq<JsEntry>>) returns (r: Result<ComponentForm, JsError>)
    ensures r == ParseForm(if components.Some? then components.value else [])
  {
    var rawComponents := if components.Some? then components.value else [];
    var componentIds: seq<string> := [];
    var componentOverrides: map<string, FormOverride> := map[];
    for i := 0 to |rawComponents|
      invariant ParseForm(rawComponents[..i]) == Success(ComponentForm(componentIds, componentOverrides))
    {
      var entry := rawComponents[i];
      assert rawComponents[..i + 1][..i] == rawComponents[..i];
      if entry.ObjectEntry? && Truthy(entry.id) {
        var idStr := ToStringOf(entry.id).value;
        componentIds := componentIds + [idStr];
        componentOverrides := componentOverrides[idStr := FormOverride(Or(entry.customAmount, Str("")), Or(entry.customPercentage, Str("")))];
      } else {
        var idStr := EntryIdString(entry);
        if idStr.None? {
          assert ParseForm(rawComponents[..i + 1]).Failure?;
          BlankEntryStopsParse(rawComponents, i + 1);
          assert rawComponents[..i + 1] + rawComponents[i + 1..] == rawComponents;
          return Failure(TypeError("Cannot read properties of null (reading 'toString')"));
        }
        componentIds := componentIds + [idStr.value];
        componentOverrides := componentOverrides[idStr.value := EmptyOverride];
      }
    }
    assert rawComponents[..|rawComponents|] == rawComponents;
    return Success(ComponentForm(componentIds, componentOverrides));
  }

  /** Once the parse has thrown, later entries do not matter. */
  lemma {:induction false} BlankEntryStopsParse(raw: seq<JsEntry>, n: nat)
    requires n <= |raw|
    requires ParseForm(raw[..n]).Failure?
    ensures ParseForm(raw) == ParseForm(raw[..n])
  {
    if n < |raw| {
      assert raw[..|raw| - 1][..n] == raw[..n];
      BlankEntryStopsParse(raw[..|raw| - 1], n);
    } else {
      assert raw[..n] == raw;
    }
  }

  // ---------------------------------------------------------------------------
  // Submitting
  // ---------------------------------------------------------------------------

  /** One element of the submitted `components` list. */
  datatype SubmittedEntry = SubmittedEntry(id: ParsedInt, customAmount: JsValue, customPercentage: JsValue)

  /** The submitted payload's components; there is no `component_overrides` field in it any more. */
  datatype Submission = Submission(components: seq<SubmittedEntry>)

  /** One ID string turned back into an object: `overrides[idStr] || {}`, values `|| null`. */
  function SubmitEntry(idStr: string, overrides: map<string, FormOverride>): (r: SubmittedEntry)
  {
    if idStr in overrides then
      SubmittedEntry(ParseInt(idStr), Or(overrides[idStr].customAmount, Null), Or(overrides[idStr].customPercentage, Null))
    else SubmittedEntry(ParseInt(idStr), Null, Null)
  }

  /** The `onSubmit` transformation; absent fields count as `[]` and `{}`. */
  function Submit(components: Option<seq<string>>, overrides: Option<map<string, FormOverride>>): (s: Submission)
    ensures var ids := if components.Some? then components.value else [];
      |s.components| == |ids|
  {
    var ids := if components.Some? then components.value else [];
    var ov := if overrides.Some? then overrides.value else map[];
    Submission(seq(|ids|, i requires 0 <= i < |ids| => SubmitEntry(ids[i], ov)))
  }

  /**
   * The submitted list follows the selection: same length and order, each
   * ID is `parseInt` of its string, and a custom value is sent exactly when
   * it is truthy, `null` otherwise (also for IDs without an override).
   */
  lemma SubmitFacts(components: seq<string>, overrides: map<string, FormOverride>)
    ensures var s := Submit(Some(components), Some(overrides));
      && |s.components| == |components|
      && (forall i :: 0 <= i < |components| ==> s.components[i].id == ParseInt(components[i]))
      && (forall i :: 0 <= i < |components| && components[i] in overrides ==>
            var o := overrides[components[i]];
            && (Truthy(o.customAmount) ==> s.components[i].customAmount == o.customAmount)
            && (!Truthy(o.customAmount) ==> s.components[i].customAmount == Null)
            && (Truthy(o.customPercentage) ==> s.components[i].customPercentage == o.customPercentage)
            && (!Truthy(o.customPercentage) ==> s.components[i].customPercentage == Null))
      && (forall i :: 0 <= i < |components| && components[i] !in overrides ==>
            s.components[i].customAmount == Null && s.components[i].customPercentage == Null)
  {
    var s := Submit(Some(components), Some(overrides));
    assert forall i :: 0 <= i < |components| ==> s.components[i] == SubmitEntry(components[i], overrides);
  }

  /** A stored object entry with a non-zero integer ID (an ID of 0 is falsy and reads as the old format). */
  predicate IsStoredObject(e: JsEntry)
  {
    e.ObjectEntry? && e.id.Num? && e.id.n != 0
  }

  function StoredId(e: JsEntry): (r: int)
    requires IsStoredObject(e)
  {
    e.id.n
  }

  /**
   * Opening a record saved in the object format and submitting at once gives
   * back the same IDs in the same order and the same truthy custom values;
   * falsy ones (`0`, `''`, `null`) come back as `null`.
   */
  lemma RoundTrip(raw: seq<JsEntry>)
    requires forall i :: 0 <= i < |raw| ==> IsStoredObject(raw[i])
    requires forall i, j :: 0 <= i < j < |raw| ==> StoredId(raw[i]) != StoredId(raw[j])
    ensures ParseForm(raw).Success?
    ensures var form := ParseForm(raw).value;
      var s := Submit(Some(form.componentIds), Some(form.componentOverrides));
      && |s.components| == |raw|
      && forall i :: 0 <= i < |raw| ==>
           && s.components[i].id == Integer(StoredId(raw[i]))
           && s.components[i].customAmount == Or(raw[i].customAmount, Null)
           && s.components[i].customPercentage == Or(raw[i].customPercentage, Null)
  {
    ParseFailsIffNull(raw);
    ParseIds(raw);
    ParseKeys(raw);
    var form := ParseForm(raw).value;
    var ids := form.componentIds;
    var s := Submit(Some(ids), Some(form.componentOverrides));
    forall i | 0 <= i < |raw|
      ensures s.components[i].id == Integer(StoredId(raw[i]))
      ensures s.components[i].customAmount == Or(raw[i].customAmount, Null)
      ensures s.components[i].customPercentage == Or(raw[i].customPercentage, Null)
    {
      assert s.components[i] == SubmitEntry(ids[i], form.componentOverrides);
      RoundTripAt(raw, i);
    }
  }

  /** One stored entry through the parse and the submit map. */
  lemma RoundTripAt(raw: seq<JsEntry>, i: int)
    requires forall k :: 0 <= k < |raw| ==> IsStoredObject(raw[k])
    requires forall k, j :: 0 <= k < j < |raw| ==> StoredId(raw[k]) != StoredId(raw[j])
    requires 0 <= i < |raw|
    ensures ParseForm(raw).Success? && i < |ParseForm(raw).value.componentIds|
    ensures var form := ParseForm(raw).value;
      var e := SubmitEntry(form.componentIds[i], form.componentOverrides);
      && e.id == Integer(StoredId(raw[i]))
      && e.customAmount == Or(raw[i].customAmount, Null)
      && e.customPercentage == Or(raw[i].customPercentage, Null)
  {
    ParseFailsIffNull(raw);
    ParseIds(raw);
    ParseKeys(raw);
    var ids := ParseForm(raw).value.componentIds;
    assert ids[i] == IntToString(StoredId(raw[i]));
    forall j | i < j < |raw| ensures ids[j] != ids[i] {
      IntToStringInjective(StoredId(raw[i]), StoredId(raw[j]));
    }
    ParseLastWins(raw, i);
    ParseIntRoundTrip(StoredId(raw[i]));
  }

  /** Distinct integers have distinct decimal forms. */
  lemma IntToStringInjective(a: int, b: int)
    requires a != b
    ensures IntToString(a) != IntToString(b)
  {
    ParseIntRoundTrip(a);
    ParseIntRoundTrip(b);
  }
}
