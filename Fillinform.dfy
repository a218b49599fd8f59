/**
 * The monthly attendance grid (src/app/components/workersform/Fillinform.js):
 * four weeks of five days, each day with seven dropdown slots (slot 0 names
 * the worker, slots 1..6 are Yes/No), a text field, a checkbox and a social
 * channel; plus the list of custom names a worker can add and delete. Every
 * handler builds a new state from the old one.
 */
module Fillinform {
  import opened Wrappers
  import opened Text

  datatype Day = Day(
    id: int, name: string, dropdowns: seq<string>, textInput: string, checkbox: bool, socialStatus: string)

  datatype Week = Week(id: int, name: string, days: seq<Day>)

  /** The fields an `updateDay` call overwrites (`{ ...day, ...changes }`); absent fields are kept. */
  datatype Changes = Changes(
    dropdowns: Option<seq<string>>, textInput: Option<string>, checkbox: Option<bool>, socialStatus: Option<string>)

  /** The day whose add-name box is open. */
  datatype Slot = Slot(weekId: int, dayId: int)

  datatype FormState = FormState(
    weeks: seq<Week>, customNames: seq<string>, newCustomName: string, active: Option<Slot>)

  const DayNames: seq<string> := ["Monday", "Tuesday", "Wednesday", "Thursday", "Friday"]

  /** `["", ...Array(6).fill("Yes")]` */
  const InitialDropdowns: seq<string> := ["", "Yes", "Yes", "Yes", "Yes", "Yes", "Yes"]

  // ------------------------------------------------------- initial grid

  /** `initialDays(startId)`: Monday..Friday with consecutive ids from `startId`. */
  function InitialDays(startId: int): (days: seq<Day>)
    ensures |days| == 5
    ensures forall i :: 0 <= i < 5 ==>
      days[i] == Day(startId + i, DayNames[i], InitialDropdowns, "NONE", false, "Whatsapp")
  {
    seq(5, i requires 0 <= i < 5 => Day(startId + i, DayNames[i], InitialDropdowns, "NONE", false, "Whatsapp"))
  }

  /** `weeks`: "WEEK 1".."WEEK 4", week `w` holding days `5w-4 .. 5w`. */
  function InitialWeeks(): (weeks: seq<Week>)
    ensures |weeks| == 4
    ensures forall i :: 0 <= i < 4 ==>
      weeks[i].id == i + 1 && weeks[i].name == "WEEK " + DecimalString(i + 1) && weeks[i].days == InitialDays(i * 5 + 1)
  {
    seq(4, i requires 0 <= i < 4 => Week(i + 1, "WEEK " + DecimalString(i + 1), InitialDays(i * 5 + 1)))
  }

  lemma SlotNumberInjective(i1: nat, j1: nat, i2: nat, j2: nat)
    requires j1 < 5 && j2 < 5 && i1 * 5 + j1 == i2 * 5 + j2
    ensures i1 == i2 && j1 == j2
  {
  }

  /** The twenty days of the initial grid carry the ids 1..20, each once. */
  lemma InitialDayIds()
    ensures forall i, j :: 0 <= i < 4 && 0 <= j < 5 ==> InitialWeeks()[i].days[j].id == i * 5 + j + 1
    ensures forall i1, j1, i2, j2 ::
      (0 <= i1 < 4 && 0 <= j1 < 5 && 0 <= i2 < 4 && 0 <= j2 < 5 &&
       InitialWeeks()[i1].days[j1].id == InitialWeeks()[i2].days[j2].id) ==> i1 == i2 && j1 == j2
  {
    var w := InitialWeeks();
    forall i1, j1, i2, j2 | 0 <= i1 < 4 && 0 <= j1 < 5 && 0 <= i2 < 4 && 0 <= j2 < 5 && w[i1].days[j1].id == w[i2].days[j2].id
      ensures i1 == i2 && j1 == j2
    {
      SlotNumberInjective(i1, j1, i2, j2);
    }
  }

  // ----------------------------------------------------------- lookups

  function WeekId(w: Week): int { w.id }

  function DayId(d: Day): int { d.id }

  /**
   * `Array.prototype.find` by id, as an index: `weeksData.find((w) => w.id === weekId)`
   * with `WeekId`, `days.find((d) => d.id === dayId)` with `DayId`.
   */
  function FindFirst<T>(xs: seq<T>, id: int, idOf: T -> int): (r: Option<nat>)
    ensures r.Some? ==> r.value < |xs| && idOf(xs[r.value]) == id
    ensures r.Some? ==> forall k :: 0 <= k < r.value ==> idOf(xs[k]) != id
    ensures r.None? ==> forall k :: 0 <= k < |xs| ==> idOf(xs[k]) != id
  {
    if xs == [] then None
    else if idOf(xs[0]) == id then Some(0)
    else match FindFirst(xs[1..], id, idOf)
      case None => None
      case Some(k) => Some(k + 1)
  }

  /** The day the handlers read: the first day `dayId` of the first week `weekId`. */
  predicate HasDay(weeks: seq<Week>, weekId: int, dayId: int) {
    FindFirst(weeks, weekId, WeekId).Some? && FindFirst(weeks[FindFirst(weeks, weekId, WeekId).value].days, dayId, DayId).Some?
  }

  function DayAt(weeks: seq<Week>, weekId: int, dayId: int): (d: Day)
    requires HasDay(weeks, weekId, dayId)
    ensures d.id == dayId
  {
    var w := FindFirst(weeks, weekId, WeekId).value;
    weeks[w].days[FindFirst(weeks[w].days, dayId, DayId).value]
  }

  /** Two grids with the same week and day ids at the same places. */
  predicate SameIds(a: seq<Week>, b: seq<Week>) {
    && |a| == |b|
    && forall i :: 0 <= i < |a| ==>
         && a[i].id == b[i].id && a[i].name == b[i].name && |a[i].days| == |b[i].days|
         && forall j :: 0 <= j < |a[i].days| ==> a[i].days[j].id == b[i].days[j].id && a[i].days[j].name == b[i].days[j].name
  }

  /** Lookups depend on the ids alone. */
  lemma SameIdsSameLookups(a: seq<Week>, b: seq<Week>, weekId: int, dayId: int)
    requires SameIds(a, b)
    ensures FindFirst(a, weekId, WeekId) == FindFirst(b, weekId, WeekId)
    ensures HasDay(a, weekId, dayId) <==> HasDay(b, weekId, dayId)
  {
  }

  // ------------------------------------------------------------- invariants

  /** Every day of the grid has exactly seven dropdown slots. */
  predicate SevenSlots(weeks: seq<Week>) {
    forall i, j :: 0 <= i < |weeks| && 0 <= j < |weeks[i].days| ==> |weeks[i].days[j].dropdowns| == 7
  }

  predicate NoDuplicates(names: seq<string>) {
    forall i, j :: 0 <= i < j < |names| ==> names[i] != names[j]
  }

  /** What every handler keeps: seven slots per day, distinct non-empty custom names, an open box on a real day. */
  predicate FormInvariant(st: FormState) {
    && SevenSlots(st.weeks)
    && NoDuplicates(st.customNames)
    && "" !in st.customNames
    && (st.active.Some? ==> HasDay(st.weeks, st.active.value.weekId, st.active.value.dayId))
  }

  function InitialState(): (st: FormState)
    ensures FormInvariant(st) && st.customNames == [] && st.active == None
  {
    FormState(InitialWeeks(), [], "", None)
  }

  // ------------------------------------------------------------- updateDay

  /** `{ ...day, ...changes }` */
  function Merge(day: Day, changes: Changes): (d: Day)
    ensures d.id == day.id && d.name == day.name
    ensures d.dropdowns == changes.dropdowns.GetOr(day.dropdowns)
    ensures d.textInput == changes.textInput.GetOr(day.textInput)
    ensures d.checkbox == changes.checkbox.GetOr(day.checkbox)
    ensures d.socialStatus == changes.socialStatus.GetOr(day.socialStatus)
  {
    day.(dropdowns := changes.dropdowns.GetOr(day.dropdowns),
         textInput := changes.textInput.GetOr(day.textInput),
         checkbox := changes.checkbox.GetOr(day.checkbox),
         socialStatus := changes.socialStatus.GetOr(day.socialStatus))
  }

  /**
   * `updateDay(weekId, dayId, changes)`: the changes are merged into the day
   * with id `dayId` of the week with id `weekId`; every other day and week is
   * left as it was.
   */
  function UpdateDay(weeks: seq<Week>, weekId: int, dayId: int, changes: Changes): (r: seq<Week>)
    ensures SameIds(weeks, r)
    ensures forall i, j :: 0 <= i < |r| && 0 <= j < |r[i].days| ==>
      r[i].days[j] == if weeks[i].id == weekId && weeks[i].days[j].id == dayId
                      then Merge(weeks[i].days[j], changes) else weeks[i].days[j]
  {
    seq(|weeks|, i requires 0 <= i < |weeks| =>
      if weeks[i].id == weekId then
        weeks[i].(days := seq(|weeks[i].days|, j requires 0 <= j < |weeks[i].days| =>
          if weeks[i].days[j].id == dayId then Merge(weeks[i].days[j], changes) else weeks[i].days[j]))
      else weeks[i])
  }

  /** A change that keeps seven slots (or leaves the slots alone) keeps every day at seven slots. */
  lemma UpdateDayKeepsSevenSlots(weeks: seq<Week>, weekId: int, dayId: int, changes: Changes)
    requires SevenSlots(weeks)
    requires changes.dropdowns.Some? ==> |changes.dropdowns.value| == 7
    ensures SevenSlots(UpdateDay(weeks, weekId, dayId, changes))
  {
  }

  /** `dropdowns.map((v, i) => (i === index ? value : v))` */
  function SetSlot(slots: seq<string>, index: int, value: string): (r: seq<string>)
    ensures |r| == |slots|
    ensures forall i :: 0 <= i < |slots| ==> r[i] == if i == index then value else slots[i]
  {
    seq(|slots|, i requires 0 <= i < |slots| => if i == index then value else slots[i])
  }

  /** The grid with slot `index` of one day set to `value` (the dropdowns read from that day). */
  function SetDaySlot(weeks: seq<Week>, weekId: int, dayId: int, index: int, value: string): (r: seq<Week>)
    requires SevenSlots(weeks) && HasDay(weeks, weekId, dayId)
    ensures SevenSlots(r) && SameIds(weeks, r)
  {
    var d := DayAt(weeks, weekId, dayId);
    var changes := Changes(Some(SetSlot(d.dropdowns, index, value)), None, None, None);
    UpdateDayKeepsSevenSlots(weeks, weekId, dayId, changes);
    UpdateDay(weeks, weekId, dayId, changes)
  }

  // ------------------------------------------------------ dropdown change

  /**
   * `handleDropdownChange`: choosing "add-name" in slot 0 empties that slot
   * and opens the add-name box on the day; any other choice writes the value
   * into its slot and closes the box.
   */
  function HandleDropdownChange(st: FormState, weekId: int, dayId: int, index: int, value: string): (r: FormState)
    requires FormInvariant(st) && HasDay(st.weeks, weekId, dayId)
    ensures FormInvariant(r)
    ensures r.customNames == st.customNames && r.newCustomName == st.newCustomName
    ensures index == 0 && value == "add-name" ==>
      r.active == Some(Slot(weekId, dayId)) && r.weeks == SetDaySlot(st.weeks, weekId, dayId, 0, "")
    ensures !(index == 0 && value == "add-name") ==>
      r.active == None && r.weeks == SetDaySlot(st.weeks, weekId, dayId, index, value)
  {
    if index == 0 && value == "add-name" then
      var weeks := SetDaySlot(st.weeks, weekId, dayId, index, "");
      SameIdsSameLookups(st.weeks, weeks, weekId, dayId);
      st.(active := Some(Slot(weekId, dayId)), weeks := weeks)
    else
      st.(active := None, weeks := SetDaySlot(st.weeks, weekId, dayId, index, value))
  }

  /** The chosen slot of the chosen day takes the value; all other slots of all days are kept. */
  lemma DropdownChangeFrame(st: FormState, weekId: int, dayId: int, index: int, value: string)
    requires FormInvariant(st) && HasDay(st.weeks, weekId, dayId)
    ensures var r := HandleDropdownChange(st, weekId, dayId, index, value);
      forall i, j, k :: 0 <= i < |r.weeks| && 0 <= j < |r.weeks[i].days| && 0 <= k < 7 ==>
        r.weeks[i].days[j].dropdowns[k] ==
          if st.weeks[i].id == weekId && st.weeks[i].days[j].id == dayId && k == index
          then (if index == 0 && value == "add-name" then "" else value)
          else if st.weeks[i].id == weekId && st.weeks[i].days[j].id == dayId
          then DayAt(st.weeks, weekId, dayId).dropdowns[k]
          else st.weeks[i].days[j].dropdowns[k]
  {
  }

  // -------------------------------------------------------- custom names

  /**
   * `addNewName`: a name that is blank after trimming, or already listed,
   * changes nothing; otherwise the trimmed name is appended, the input is
   * cleared, the box is closed, and the day whose box was open gets the name
   * in slot 0.
   */
  function AddNewName(st: FormState): (r: FormState)
    requires FormInvariant(st)
    ensures FormInvariant(r)
    ensures Trim(st.newCustomName) == "" || Trim(st.newCustomName) in st.customNames ==> r == st
    ensures Trim(st.newCustomName) != "" && Trim(st.newCustomName) !in st.customNames ==>
      && r.customNames == st.customNames + [Trim(st.newCustomName)]
      && r.newCustomName == "" && r.active == None
      && r.weeks == (match st.active
                     case None => st.weeks
                     case Some(slot) => SetDaySlot(st.weeks, slot.weekId, slot.dayId, 0, Trim(st.newCustomName)))
  {
    var trimmed := Trim(st.newCustomName);
    if trimmed == "" || trimmed in st.customNames then st
    else
      var weeks := match st.active
                   case None => st.weeks
                   case Some(slot) => SetDaySlot(st.weeks, slot.weekId, slot.dayId, 0, trimmed);
      FormState(weeks, st.customNames + [trimmed], "", None)
  }

  /** `customNames.filter((n) => n !== name)` */
  function RemoveName(names: seq<string>, name: string): (r: seq<string>)
    ensures forall x :: x in r <==> x in names && x != name
    ensures NoDuplicates(names) ==> NoDuplicates(r)
    ensures IsSubsequence(r, names)
  {
    if names == [] then []
    else
      var rest := RemoveName(names[1..], name);
      if names[0] == name then
        assert IsSubsequence(rest, names) by {
          if rest != [] { assert rest[0] in names[1..]; assert rest[0] != names[0]; }
        }
        rest
      else
        assert ([names[0]] + rest)[1..] == rest;
        assert NoDuplicates(names) ==> names[0] !in names[1..];
        [names[0]] + rest
  }

  /** Slot 0 of every day reset to "" where it held `name`. */
  function ClearName(weeks: seq<Week>, name: string): (r: seq<Week>)
    ensures SameIds(weeks, r)
    ensures forall i, j :: 0 <= i < |r| && 0 <= j < |r[i].days| ==>
      var before := weeks[i].days[j];
      r[i].days[j] == before.(dropdowns := SetSlot(before.dropdowns, if |before.dropdowns| > 0 && before.dropdowns[0] == name then 0 else -1, ""))
  {
    seq(|weeks|, i requires 0 <= i < |weeks| =>
      weeks[i].(days := seq(|weeks[i].days|, j requires 0 <= j < |weeks[i].days| =>
        var before := weeks[i].days[j];
        before.(dropdowns := SetSlot(before.dropdowns, if |before.dropdowns| > 0 && before.dropdowns[0] == name then 0 else -1, "")))))
  }

  /**
   * `deleteCustomName(name)`: the name leaves the list, and every day that
   * had it in slot 0 has that slot emptied; nothing else changes.
   */
  function DeleteCustomName(st: FormState, name: string): (r: FormState)
    requires FormInvariant(st)
    ensures FormInvariant(r)
    ensures r.newCustomName == st.newCustomName && r.active == st.active
    ensures forall x :: x in r.customNames <==> x in st.customNames && x != name
    ensures SameIds(st.weeks, r.weeks)
    ensures forall i, j, k :: 0 <= i < |r.weeks| && 0 <= j < |r.weeks[i].days| && 0 <= k < 7 ==>
      r.weeks[i].days[j].dropdowns[k] ==
        if k == 0 && st.weeks[i].days[j].dropdowns[0] == name then "" else st.weeks[i].days[j].dropdowns[k]
    ensures forall i, j :: 0 <= i < |r.weeks| && 0 <= j < |r.weeks[i].days| ==>
      r.weeks[i].days[j].(dropdowns := st.weeks[i].days[j].dropdowns) == st.weeks[i].days[j]
  {
    var weeks := ClearName(st.weeks, name);
    assert st.active.Some? ==> HasDay(weeks, st.active.value.weekId, st.active.value.dayId) by {
      if st.active.Some? {
        SameIdsSameLookups(st.weeks, weeks, st.active.value.weekId, st.active.value.dayId);
      }
    }
    st.(customNames := RemoveName(st.customNames, name), weeks := weeks)
  }

  /** Adding a fresh name and deleting it again leaves the list of custom names as it was. */
  lemma AddThenDeleteRestoresNames(st: FormState)
    requires FormInvariant(st)
    requires Trim(st.newCustomName) != "" && Trim(st.newCustomName) !in st.customNames
    ensures DeleteCustomName(AddNewName(st), Trim(st.newCustomName)).customNames == st.customNames
  {
    var name := Trim(st.newCustomName);
    RemoveAbsentAppended(st.customNames, name);
  }

  lemma {:induction false} RemoveAbsentAppended(names: seq<string>, name: string)
    requires name !in names
    ensures RemoveName(names + [name], name) == names
  {
    if names != [] {
      assert (names + [name])[1..] == names[1..] + [name];
      RemoveAbsentAppended(names[1..], name);
    } else {
      assert [name][1..] == [];
    }
  }
}
