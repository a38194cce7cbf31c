/** The symptoms log page: its list of records with the add, delete and update handlers, the
    date-and-severity filter, the symptom card's style and related-allergy lookups, and the
    add-symptom form with its selection toggle, its submit fan-out and its category groups. */
module SymptomsLog {

  import opened Wrappers
  import opened Seqs
  import opened JsObject
  import opened Records
  import SeverityCounts
  import Calendar

  // ---------------------------------------------------------------- catalogues

  /** An entry of the `commonSymptoms` catalogue. */
  datatype CommonSymptom = CommonSymptom(name: string, icon: string, category: string)

  const CommonSymptoms: seq<CommonSymptom> := [
    CommonSymptom("Sneezing", "🤧", "Respiratory"),
    CommonSymptom("Runny Nose", "👃", "Respiratory"),
    CommonSymptom("Stuffy Nose", "😤", "Respiratory"),
    CommonSymptom("Coughing", "😷", "Respiratory"),
    CommonSymptom("Wheezing", "🫁", "Respiratory"),
    CommonSymptom("Shortness of Breath", "💨", "Respiratory"),
    CommonSymptom("Itchy Eyes", "👁️", "Eyes"),
    CommonSymptom("Watery Eyes", "😭", "Eyes"),
    CommonSymptom("Red Eyes", "🔴", "Eyes"),
    CommonSymptom("Swollen Eyes", "😵", "Eyes"),
    CommonSymptom("Skin Rash", "🔴", "Skin"),
    CommonSymptom("Hives", "🟥", "Skin"),
    CommonSymptom("Itchy Skin", "🤲", "Skin"),
    CommonSymptom("Eczema", "🔴", "Skin"),
    CommonSymptom("Headache", "🤕", "General"),
    CommonSymptom("Fatigue", "😴", "General"),
    CommonSymptom("Nausea", "🤢", "Digestive"),
    CommonSymptom("Stomach Pain", "🤮", "Digestive"),
    CommonSymptom("Diarrhea", "💩", "Digestive"),
    CommonSymptom("Throat Swelling", "🗣️", "Severe")
  ]

  /** An entry of the `severityLevels` table. */
  datatype SeverityLevel = SeverityLevel(value: string, caption: string, color: string)

  const SeverityLevels: seq<SeverityLevel> := [
    SeverityLevel("mild", "Mild", "bg-green-100 text-green-800"),
    SeverityLevel("moderate", "Moderate", "bg-yellow-100 text-yellow-800"),
    SeverityLevel("severe", "Severe", "bg-red-100 text-red-800"),
    SeverityLevel("emergency", "Emergency", "bg-red-600 text-white")
  ]

  const Gray := "bg-gray-100 text-gray-800"

  // ---------------------------------------------------------------- the symptom card

  /** `getSeverityStyle`: the colour of the level with that value, or gray when none has it. */
  function SeverityStyle(severity: string): (c: string)
    ensures severity == "mild" ==> c == "bg-green-100 text-green-800"
    ensures severity == "moderate" ==> c == "bg-yellow-100 text-yellow-800"
    ensures severity == "severe" ==> c == "bg-red-100 text-red-800"
    ensures severity == "emergency" ==> c == "bg-red-600 text-white"
    ensures c == Gray <==> severity !in SeverityCounts.Known
  {
    match Find(SeverityLevels, (l: SeverityLevel) => l.value == severity)
    case Some(level) => level.color
    case None => Gray
  }

  /** The label shown beside the style: that of the level with the value, and nothing at all
      for a value outside the table. */
  function SeverityLabel(severity: string): (caption: Option<string>)
    ensures caption.None? <==> severity !in SeverityCounts.Known
  {
    match Find(SeverityLevels, (l: SeverityLevel) => l.value == severity)
    case Some(level) => Some(level.caption)
    case None => None
  }

  /** `allergies.find(a => a.id === symptom.relatedAllergyId)`: the first allergy with that id.
      A `null` id and an id no allergy has both give no "Related to" row. */
  function RelatedAllergy(allergies: seq<Allergy>, relatedAllergyId: Option<string>): (r: Option<Allergy>)
    ensures r.None? <==> relatedAllergyId.None? || forall a :: a in allergies ==> a.id != relatedAllergyId.value
    ensures r.Some? ==> r.value in allergies && relatedAllergyId == Some(r.value.id)
  {
    var r := Find(allergies, (a: Allergy) => Some(a.id) == relatedAllergyId);
    assert r.None? <==> relatedAllergyId.None? || forall a :: a in allergies ==> a.id != relatedAllergyId.value by {
      if relatedAllergyId.Some? && r.Some? {
        var i :| 0 <= i < |allergies| && allergies[i] == r.value && Some(allergies[i].id) == relatedAllergyId;
      }
    }
    r
  }

  // ---------------------------------------------------------------- the list operations

  /** The fields `{ ...symptom, ...updates }` may replace: each present one wins. */
  datatype Patch = Patch(
    id: Option<string>,
    userId: Option<string>,
    name: Option<string>,
    icon: Option<string>,
    category: Option<string>,
    severity: Option<string>,
    date: Option<int>,
    relatedAllergyId: Option<Option<string>>,
    notes: Option<string>,
    weather: Option<string>,
    location: Option<string>)

  const NoChanges := Patch(None, None, None, None, None, None, None, None, None, None, None)

  /** `{ severity: editSeverity }`, what the card's Save button sends. */
  function SeverityPatch(severity: string): Patch
  {
    NoChanges.(severity := Some(severity))
  }

  /** `{ ...symptom, ...updates }`. */
  function Merge(s: Symptom, u: Patch): Symptom
  {
    Symptom(
      u.id.GetOr(s.id), u.userId.GetOr(s.userId), u.name.GetOr(s.name), u.icon.GetOr(s.icon),
      u.category.GetOr(s.category), u.severity.GetOr(s.severity), u.date.GetOr(s.date),
      u.relatedAllergyId.GetOr(s.relatedAllergyId), u.notes.GetOr(s.notes),
      u.weather.GetOr(s.weather), u.location.GetOr(s.location))
  }

  /** An empty patch changes nothing, and the card's patch changes the severity alone. */
  lemma MergeFacts(s: Symptom, severity: string)
    ensures Merge(s, NoChanges) == s
    ensures Merge(s, SeverityPatch(severity)) == s.(severity := severity)
  {
  }

  /** The form's fields for one new record, as `addSymptom` receives them. */
  datatype SymptomData = SymptomData(
    name: string, icon: string, category: string, severity: string, date: int,
    relatedAllergyId: Option<string>, notes: string, weather: string, location: string)

  /** `{ id: docRef.id, ...symptomData, userId: user.uid, date }`. */
  function NewRecord(data: SymptomData, id: string, userId: string): (r: Symptom)
    ensures r.id == id && r.userId == userId && r.name == data.name && r.severity == data.severity
  {
    Symptom(id, userId, data.name, data.icon, data.category, data.severity, data.date,
            data.relatedAllergyId, data.notes, data.weather, data.location)
  }

  /** `symptoms.filter(symptom => symptom.id !== symptomId)`. */
  function Removed(symptoms: seq<Symptom>, id: string): (r: seq<Symptom>)
  {
    Filter(symptoms, (x: Symptom) => x.id != id)
  }

  /** Deleting removes every record with the id, keeps every other record as often as it was
      there, and keeps their relative order: deleting from two halves is deleting from each. */
  lemma RemovedFacts(a: seq<Symptom>, b: seq<Symptom>, id: string)
    ensures forall x :: x in Removed(a, id) ==> x.id != id
    ensures forall x :: multiset(Removed(a, id))[x] == if x.id == id then 0 else multiset(a)[x]
    ensures Removed(a + b, id) == Removed(a, id) + Removed(b, id)
    ensures (forall i :: 0 <= i < |a| ==> a[i].id != id) ==> Removed(a, id) == a
  {
    var p := (x: Symptom) => x.id != id;
    forall x ensures multiset(Removed(a, id))[x] == if x.id == id then 0 else multiset(a)[x] {
      FilterMultiset(a, p, x);
    }
    FilterAppend(a, b, p);
    FilterIdentity(a, p);
  }

  /** `symptoms.map(s => s.id === symptomId ? { ...s, ...updates } : s)`. */
  function Updated(symptoms: seq<Symptom>, id: string, u: Patch): (r: seq<Symptom>)
    ensures |r| == |symptoms|
    ensures forall i :: 0 <= i < |r| ==> r[i] == if symptoms[i].id == id then Merge(symptoms[i], u) else symptoms[i]
  {
    if symptoms == [] then []
    else [if symptoms[0].id == id then Merge(symptoms[0], u) else symptoms[0]] + Updated(symptoms[1..], id, u)
  }

  /** Updating an id no record has, or with an empty patch, changes nothing; a patch that
      leaves the id alone keeps every record's id, so a second update reaches the same
      records; and the card's patch changes severities only. */
  lemma UpdatedFacts(s: seq<Symptom>, id: string, u: Patch, severity: string)
    ensures (forall i :: 0 <= i < |s| ==> s[i].id != id) ==> Updated(s, id, u) == s
    ensures Updated(s, id, NoChanges) == s
    ensures u.id.None? ==> forall i :: 0 <= i < |s| ==> Updated(s, id, u)[i].id == s[i].id
    ensures forall i :: 0 <= i < |s| ==>
              Updated(s, id, SeverityPatch(severity))[i] == if s[i].id == id then s[i].(severity := severity) else s[i]
  {
    UpdatedUnchanged(s, id, u);
    UpdatedSeverity(s, id, severity);
  }

  /** An update that matches no record, or patches nothing, gives back the list itself. */
  lemma UpdatedUnchanged(s: seq<Symptom>, id: string, u: Patch)
    ensures (forall i :: 0 <= i < |s| ==> s[i].id != id) ==> Updated(s, id, u) == s
    ensures Updated(s, id, NoChanges) == s
  {
    var r := Updated(s, id, NoChanges);
    forall i | 0 <= i < |s| ensures r[i] == s[i] {
      MergeFacts(s[i], "");
    }
    SeqExt(r, s);
    if forall i :: 0 <= i < |s| ==> s[i].id != id {
      var q := Updated(s, id, u);
      assert forall i :: 0 <= i < |s| ==> q[i] == s[i];
      SeqExt(q, s);
    }
  }

  /** The card's patch sets the severity of the matching records and of no other. */
  lemma UpdatedSeverity(s: seq<Symptom>, id: string, severity: string)
    ensures forall i :: 0 <= i < |s| ==>
              Updated(s, id, SeverityPatch(severity))[i] == if s[i].id == id then s[i].(severity := severity) else s[i]
  {
    var t := Updated(s, id, SeverityPatch(severity));
    forall i | 0 <= i < |s| ensures t[i] == if s[i].id == id then s[i].(severity := severity) else s[i] {
      MergeFacts(s[i], severity);
    }
  }

  // ---------------------------------------------------------------- the filter

  /** `symptom.date.toISOString().split('T')[0]`: the UTC calendar day as `YYYY-MM-DD`. */
  function DatePart(x: Symptom): string
  {
    Calendar.IsoDate(Calendar.DayNumber(x.date))
  }

  /** An empty filter matches everything; a set one must equal the record's value. */
  predicate Matches(x: Symptom, filterDate: string, filterSeverity: string)
  {
    (filterDate == "" || DatePart(x) == filterDate) && (filterSeverity == "" || x.severity == filterSeverity)
  }

  /** `filteredSymptoms`. */
  function FilteredSymptoms(symptoms: seq<Symptom>, filterDate: string, filterSeverity: string): (r: seq<Symptom>)
    ensures forall x :: x in r <==> x in symptoms && Matches(x, filterDate, filterSeverity)
  {
    Filter(symptoms, (x: Symptom) => Matches(x, filterDate, filterSeverity))
  }

  /** With both filters empty the list is shown whole; in every case the filter keeps the
      records' relative order; and a record kept under a date filter lies on that UTC day. */
  lemma FilteredFacts(a: seq<Symptom>, b: seq<Symptom>, filterDate: string, filterSeverity: string)
    ensures FilteredSymptoms(a, "", "") == a
    ensures FilteredSymptoms(a + b, filterDate, filterSeverity)
              == FilteredSymptoms(a, filterDate, filterSeverity) + FilteredSymptoms(b, filterDate, filterSeverity)
    ensures filterDate != "" ==> forall x :: x in FilteredSymptoms(a, filterDate, filterSeverity) ==>
              Calendar.ParseIsoDate(filterDate) == Some(Calendar.DayNumber(x.date))
  {
    FilterIdentity(a, (x: Symptom) => Matches(x, "", ""));
    FilterAppend(a, b, (x: Symptom) => Matches(x, filterDate, filterSeverity));
    forall x | filterDate != "" && x in FilteredSymptoms(a, filterDate, filterSeverity)
      ensures Calendar.ParseIsoDate(filterDate) == Some(Calendar.DayNumber(x.date))
    {
      Calendar.IsoDateRoundTrip(Calendar.DayNumber(x.date));
    }
  }

  // ---------------------------------------------------------------- the add-symptom form

  /** Whether a symptom of that name is selected (`prev.some(s => s.name === name)`). */
  predicate HasName(selected: seq<CommonSymptom>, name: string)
  {
    exists x :: x in selected && x.name == name
  }

  /** `handleSymptomToggle`: removes every selected symptom of that name, or appends it. */
  function Toggle(selected: seq<CommonSymptom>, symptom: CommonSymptom): (r: seq<CommonSymptom>)
  {
    if HasName(selected, symptom.name) then Filter(selected, (x: CommonSymptom) => x.name != symptom.name)
    else selected + [symptom]
  }

  /** Toggling a selected name drops it and nothing else; toggling another appends exactly that
      symptom, and toggling it again gives back the selection it started from. */
  lemma ToggleFacts(selected: seq<CommonSymptom>, symptom: CommonSymptom)
    ensures HasName(selected, symptom.name) ==>
              !HasName(Toggle(selected, symptom), symptom.name)
              && forall x :: x in selected && x.name != symptom.name ==> x in Toggle(selected, symptom)
    ensures !HasName(selected, symptom.name) ==>
              Toggle(selected, symptom) == selected + [symptom]
              && Toggle(Toggle(selected, symptom), symptom) == selected
  {
    var p := (x: CommonSymptom) => x.name != symptom.name;
    if !HasName(selected, symptom.name) {
      assert symptom in selected + [symptom];
      FilterAppend(selected, [symptom], p);
      FilterIdentity(selected, p);
      assert Filter([symptom], p) == [];
    }
  }

  /** Names in the form's selection never repeat, since a toggle only ever adds a name
      that is absent. */
  predicate DistinctNames(selected: seq<CommonSymptom>)
  {
    forall i, j :: 0 <= i < j < |selected| ==> selected[i].name != selected[j].name
  }

  lemma ToggleKeepsDistinct(selected: seq<CommonSymptom>, symptom: CommonSymptom)
    requires DistinctNames(selected)
    ensures DistinctNames(Toggle(selected, symptom))
  {
    var r := Toggle(selected, symptom);
    if HasName(selected, symptom.name) {
      SubsequenceDistinct(selected, (x: CommonSymptom) => x.name != symptom.name);
    } else {
      forall i, j | 0 <= i < j < |r| ensures r[i].name != r[j].name {
        if j == |selected| {
          assert r[i] in selected;
        }
      }
    }
  }

  lemma {:induction false} SubsequenceDistinct(s: seq<CommonSymptom>, p: CommonSymptom -> bool)
    requires DistinctNames(s)
    ensures DistinctNames(Filter(s, p))
  {
    if s != [] {
      assert DistinctNames(s[1..]) by {
        forall i, j | 0 <= i < j < |s[1..]| ensures s[1..][i].name != s[1..][j].name {
          assert s[1..][i] == s[i + 1] && s[1..][j] == s[j + 1];
        }
      }
      SubsequenceDistinct(s[1..], p);
      var t := Filter(s[1..], p);
      if p(s[0]) {
        forall j | 0 <= j < |t| ensures s[0].name != t[j].name {
          assert t[j] in s[1..];
        }
        assert Filter(s, p) == [s[0]] + t;
      }
    }
  }

  /** The form's state when it is submitted. */
  datatype Form = Form(
    selected: seq<CommonSymptom>, severity: string, date: int, relatedAllergyId: string,
    notes: string, weather: string, location: string)

  /** The payloads `handleSubmit` hands to `onAdd`: one per selected symptom, in selection
      order, with the shared fields of the form; an empty related-allergy choice becomes
      `null`. */
  function Payloads(form: Form): (r: seq<SymptomData>)
    ensures |r| == |form.selected|
    ensures forall i :: 0 <= i < |r| ==>
              r[i].name == form.selected[i].name && r[i].icon == form.selected[i].icon
              && r[i].category == form.selected[i].category && r[i].severity == form.severity
              && r[i].date == form.date && r[i].notes == form.notes
              && r[i].weather == form.weather && r[i].location == form.location
              && (r[i].relatedAllergyId.None? <==> form.relatedAllergyId == "")
    decreases |form.selected|
  {
    if form.selected == [] then []
    else
      var s := form.selected[0];
      [SymptomData(s.name, s.icon, s.category, form.severity, form.date,
                   if form.relatedAllergyId == "" then None else Some(form.relatedAllergyId),
                   form.notes, form.weather, form.location)]
      + Payloads(form.(selected := form.selected[1..]))
  }

  /** The list after `addSymptom(data)`. */
  function AddOne(symptoms: seq<Symptom>, user: Option<string>, data: SymptomData, outcome: AddOutcome): seq<Symptom>
  {
    if user.None? || outcome.Failed? then symptoms else [NewRecord(data, outcome.id, user.value)] + symptoms
  }

  /** The list after `addSymptom` on each payload in turn, each prepending to the list the
      previous one left. */
  function AddAll(symptoms: seq<Symptom>, user: Option<string>, payloads: seq<SymptomData>, outcomes: seq<AddOutcome>): seq<Symptom>
    requires |outcomes| == |payloads|
  {
    if payloads == [] then symptoms
    else
      var n := |payloads| - 1;
      AddOne(AddAll(symptoms, user, payloads[..n], outcomes[..n]), user, payloads[n], outcomes[n])
  }

  /** One more payload adds on top of what the earlier ones left. */
  lemma AddAllStep(symptoms: seq<Symptom>, user: Option<string>, payloads: seq<SymptomData>, outcomes: seq<AddOutcome>, i: nat)
    requires |outcomes| == |payloads| && i < |payloads|
    ensures AddAll(symptoms, user, payloads[..i + 1], outcomes[..i + 1])
         == AddOne(AddAll(symptoms, user, payloads[..i], outcomes[..i]), user, payloads[i], outcomes[i])
  {
    PrefixSnoc(payloads, i);
    PrefixSnoc(outcomes, i);
  }

  /** At least one of the adds succeeded. */
  predicate AnyAdded(outcomes: seq<AddOutcome>)
  {
    exists j :: 0 <= j < |outcomes| && outcomes[j].Added?
  }

  /** One more outcome: some add succeeded exactly when an earlier one did or this one does. */
  lemma AnyAddedSnoc(outcomes: seq<AddOutcome>, o: AddOutcome)
    ensures AnyAdded(outcomes + [o]) <==> AnyAdded(outcomes) || o.Added?
  {
    var t := outcomes + [o];
    if AnyAdded(outcomes) {
      var j :| 0 <= j < |outcomes| && outcomes[j].Added?;
      assert t[j] == outcomes[j];
    }
    if AnyAdded(t) && !o.Added? {
      var j :| 0 <= j < |t| && t[j].Added?;
      assert j < |outcomes| && t[j] == outcomes[j];
    }
    assert t[|outcomes|] == o;
  }

  function Successes(outcomes: seq<AddOutcome>): nat
  {
    if outcomes == [] then 0 else (if outcomes[|outcomes| - 1].Added? then 1 else 0) + Successes(outcomes[..|outcomes| - 1])
  }

  /** Adding never touches the records already there: they stay, in order, behind the new
      ones; signed in, every successful add puts one record of that user in front. */
  lemma {:induction false} AddAllFacts(symptoms: seq<Symptom>, user: Option<string>, payloads: seq<SymptomData>, outcomes: seq<AddOutcome>)
    requires |outcomes| == |payloads|
    ensures var r := AddAll(symptoms, user, payloads, outcomes);
      && |r| == |symptoms| + (if user.Some? then Successes(outcomes) else 0)
      && r[|r| - |symptoms|..] == symptoms
      && (user.Some? ==> forall i :: 0 <= i < |r| - |symptoms| ==> r[i].userId == user.value)
  {
    if payloads != [] {
      var n := |payloads| - 1;
      AddAllFacts(symptoms, user, payloads[..n], outcomes[..n]);
      var t := AddAll(symptoms, user, payloads[..n], outcomes[..n]);
      var r := AddAll(symptoms, user, payloads, outcomes);
      if user.Some? && outcomes[n].Added? {
        assert r == [NewRecord(payloads[n], outcomes[n].id, user.value)] + t;
        assert r[|r| - |symptoms|..] == t[|t| - |symptoms|..];
      }
    }
  }

  // ---------------------------------------------------------------- category groups

  /** `groups[category].push(symptom)`, creating `groups[category] = []` when it is missing. */
  function Push(groups: Dict<seq<CommonSymptom>>, x: CommonSymptom): (r: Dict<seq<CommonSymptom>>)
    ensures Keys(r) == if x.category in Keys(groups) then Keys(groups) else Keys(groups) + [x.category]
    ensures |r| == |groups| + (if x.category in Keys(groups) then 0 else 1)
  {
    if groups == [] then [(x.category, [x])]
    else if groups[0].0 == x.category then [(x.category, groups[0].1 + [x])] + groups[1..]
    else [groups[0]] + Push(groups[1..], x)
  }

  /** The catalogue symptoms of one category, in catalogue order. */
  function InCategory(catalogue: seq<CommonSymptom>, category: string): seq<CommonSymptom>
  {
    Filter(catalogue, (x: CommonSymptom) => x.category == category)
  }

  lemma InCategorySnoc(p: seq<CommonSymptom>, x: CommonSymptom, category: string)
    ensures InCategory(p + [x], category) == InCategory(p, category) + (if x.category == category then [x] else [])
  {
    FilterAppend(p, [x], (y: CommonSymptom) => y.category == category);
  }

  /** `groupedSymptoms`: the `reduce` over the catalogue. */
  function Grouped(catalogue: seq<CommonSymptom>): Dict<seq<CommonSymptom>>
  {
    if catalogue == [] then [] else Push(Grouped(catalogue[..|catalogue| - 1]), catalogue[|catalogue| - 1])
  }

  function Categories(catalogue: seq<CommonSymptom>): (r: seq<string>)
    ensures |r| == |catalogue| && forall i :: 0 <= i < |r| ==> r[i] == catalogue[i].category
  {
    if catalogue == [] then [] else Categories(catalogue[..|catalogue| - 1]) + [catalogue[|catalogue| - 1].category]
  }

  /** The groups' sizes added up. */
  function Size(groups: Dict<seq<CommonSymptom>>): nat
  {
    if groups == [] then 0 else |groups[0].1| + Size(groups[1..])
  }

  /** The entry of `groups` after the push, for one entry before it. */
  function Grow(e: (string, seq<CommonSymptom>), x: CommonSymptom): (string, seq<CommonSymptom>)
  {
    if e.0 == x.category then (e.0, e.1 + [x]) else e
  }

  /** Pushing grows exactly the group of the symptom's category, or adds it at the end. */
  lemma {:induction false} PushValues(groups: Dict<seq<CommonSymptom>>, x: CommonSymptom)
    requires DistinctKeys(groups)
    ensures forall i :: 0 <= i < |groups| ==> Push(groups, x)[i] == Grow(groups[i], x)
    ensures x.category !in Keys(groups) ==> Push(groups, x)[|groups|] == (x.category, [x])
  {
    if groups == [] {
    } else if groups[0].0 == x.category {
      PushHit(groups, x);
    } else {
      DistinctKeysTail(groups);
      PushValues(groups[1..], x);
      PushMiss(groups, x);
    }
  }

  /** The first group is the symptom's: it grows, and the later ones are other categories. */
  lemma {:induction false} PushHit(groups: Dict<seq<CommonSymptom>>, x: CommonSymptom)
    requires DistinctKeys(groups) && groups != [] && groups[0].0 == x.category
    ensures forall i :: 0 <= i < |groups| ==> Push(groups, x)[i] == Grow(groups[i], x)
  {
    var r := Push(groups, x);
    assert r == [Grow(groups[0], x)] + groups[1..];
    forall i | 0 <= i < |groups| ensures r[i] == Grow(groups[i], x) {
      if i > 0 {
        assert r[i] == groups[1..][i - 1] == groups[i];
        assert groups[0].0 != groups[i].0;
      }
    }
  }

  /** The first group is another category's: it stays, and the rest is pushed into. */
  lemma {:induction false} PushMiss(groups: Dict<seq<CommonSymptom>>, x: CommonSymptom)
    requires groups != [] && groups[0].0 != x.category
    requires forall i :: 0 <= i < |groups[1..]| ==> Push(groups[1..], x)[i] == Grow(groups[1..][i], x)
    requires x.category !in Keys(groups[1..]) ==> Push(groups[1..], x)[|groups[1..]|] == (x.category, [x])
    ensures forall i :: 0 <= i < |groups| ==> Push(groups, x)[i] == Grow(groups[i], x)
    ensures x.category !in Keys(groups) ==> Push(groups, x)[|groups|] == (x.category, [x])
  {
    PushMissKept(groups, x);
    PushMissNew(groups, x);
  }

  /** Past another category's first group, each group grows as it does in the rest. */
  lemma {:induction false} PushMissKept(groups: Dict<seq<CommonSymptom>>, x: CommonSymptom)
    requires groups != [] && groups[0].0 != x.category
    requires forall i :: 0 <= i < |groups[1..]| ==> Push(groups[1..], x)[i] == Grow(groups[1..][i], x)
    ensures forall i :: 0 <= i < |groups| ==> Push(groups, x)[i] == Grow(groups[i], x)
  {
    var t := Push(groups[1..], x);
    var r := Push(groups, x);
    assert r == [groups[0]] + t;
    forall i | 0 <= i < |groups| ensures r[i] == Grow(groups[i], x) {
      if i > 0 {
        assert r[i] == t[i - 1] && groups[i] == groups[1..][i - 1];
      }
    }
  }

  /** Past another category's first group, a new category is opened where the rest opens it. */
  lemma {:induction false} PushMissNew(groups: Dict<seq<CommonSymptom>>, x: CommonSymptom)
    requires groups != [] && groups[0].0 != x.category
    requires x.category !in Keys(groups[1..]) ==> Push(groups[1..], x)[|groups[1..]|] == (x.category, [x])
    ensures x.category !in Keys(groups) ==> Push(groups, x)[|groups|] == (x.category, [x])
  {
    var t := Push(groups[1..], x);
    var r := Push(groups, x);
    assert r == [groups[0]] + t;
    if x.category !in Keys(groups) {
      assert Keys(groups) == [groups[0].0] + Keys(groups[1..]);
      assert x.category !in Keys(groups[1..]);
      assert r[|groups|] == t[|groups[1..]|];
    }
  }

  lemma {:induction false} PushSize(groups: Dict<seq<CommonSymptom>>, x: CommonSymptom)
    ensures Size(Push(groups, x)) == Size(groups) + 1
  {
    if groups != [] && groups[0].0 != x.category {
      PushSize(groups[1..], x);
    } else if groups != [] {
      assert Push(groups, x)[1..] == groups[1..];
    }
  }

  lemma PushDistinct(groups: Dict<seq<CommonSymptom>>, x: CommonSymptom)
    requires DistinctKeys(groups)
    ensures DistinctKeys(Push(groups, x))
  {
    var r := Push(groups, x);
    var ks := Keys(r);
    forall i, j | 0 <= i < j < |r| ensures r[i].0 != r[j].0 {
      assert ks[i] == r[i].0 && ks[j] == r[j].0;
      if x.category !in Keys(groups) && j == |groups| {
        assert ks[i] == Keys(groups)[i];
      } else {
        assert ks[i] == Keys(groups)[i] && ks[j] == Keys(groups)[j];
      }
    }
  }

  /** The groups partition the catalogue: one group per category in order of first
      appearance, each holding exactly that category's symptoms in catalogue order, and the
      sizes adding up to the catalogue's. */
  lemma {:induction false} GroupedFacts(catalogue: seq<CommonSymptom>)
    ensures Keys(Grouped(catalogue)) == AddKeys([], Categories(catalogue))
    ensures DistinctKeys(Grouped(catalogue))
    ensures forall i :: 0 <= i < |Grouped(catalogue)| ==>
              Grouped(catalogue)[i].1 == InCategory(catalogue, Grouped(catalogue)[i].0)
    ensures Size(Grouped(catalogue)) == |catalogue|
  {
    if catalogue != [] {
      var p, x := catalogue[..|catalogue| - 1], catalogue[|catalogue| - 1];
      SnocSplit(catalogue);
      GroupedFacts(p);
      var t := Grouped(p);
      var r := Grouped(catalogue);
      assert Categories(catalogue) == Categories(p) + [x.category];
      PushDistinct(t, x);
      PushSize(t, x);
      forall i | 0 <= i < |r| ensures r[i].1 == InCategory(catalogue, r[i].0) {
        GroupStep(p, x, t, r, i);
      }
    }
  }

  lemma {:induction false} GroupStep(p: seq<CommonSymptom>, x: CommonSymptom, t: Dict<seq<CommonSymptom>>, r: Dict<seq<CommonSymptom>>, i: nat)
    requires r == Push(t, x)
    requires Keys(t) == AddKeys([], Categories(p)) && DistinctKeys(t)
    requires forall i :: 0 <= i < |t| ==> t[i].1 == InCategory(p, t[i].0)
    requires i < |r|
    ensures r[i].1 == InCategory(p + [x], r[i].0)
  {
    if i < |t| {
      PushValues(t, x);
      assert r[i] == Grow(t[i], x);
      InCategorySnoc(p, x, t[i].0);
    } else {
      assert x.category !in Keys(t) && i == |t|;
      AddedGroup(p, x, t, r);
    }
  }

  /** The category `x` opens is appended last and holds `x` alone. */
  lemma AddedGroup(p: seq<CommonSymptom>, x: CommonSymptom, t: Dict<seq<CommonSymptom>>, r: Dict<seq<CommonSymptom>>)
    requires r == Push(t, x)
    requires Keys(t) == AddKeys([], Categories(p)) && DistinctKeys(t)
    requires x.category !in Keys(t)
    ensures |r| == |t| + 1
    ensures r[|t|].1 == InCategory(p + [x], r[|t|].0)
  {
    PushValues(t, x);
    assert r[|t|] == (x.category, [x]);
    InCategorySnoc(p, x, x.category);
    AddKeysFacts([], Categories(p));
    forall j | 0 <= j < |p| ensures p[j].category != x.category {
      assert Categories(p)[j] == p[j].category;
    }
    FilterNone(p, (y: CommonSymptom) => y.category == x.category);
    assert InCategory(p + [x], x.category) == [] + [x] == [x];
  }

  /** The `reduce` written as the loop it performs. */
  method GroupSymptoms(catalogue: seq<CommonSymptom>) returns (groups: Dict<seq<CommonSymptom>>)
    ensures groups == Grouped(catalogue)
    ensures DistinctKeys(groups) && Keys(groups) == AddKeys([], Categories(catalogue))
    ensures forall i :: 0 <= i < |groups| ==> groups[i].1 == InCategory(catalogue, groups[i].0)
    ensures Size(groups) == |catalogue|
  {
    groups := [];
    var i := 0;
    while i < |catalogue|
      invariant 0 <= i <= |catalogue|
      invariant groups == Grouped(catalogue[..i])
    {
      PrefixSnoc(catalogue, i);
      groups := Push(groups, catalogue[i]);
      i := i + 1;
    }
    PrefixAll(catalogue);
    GroupedFacts(catalogue);
  }

  /** No category of the catalogue is an array index, so the form renders the groups in
      first-appearance order; together they hold all twenty symptoms. */
  lemma CatalogueGroups()
    ensures OwnEntries(Grouped(CommonSymptoms)) == Grouped(CommonSymptoms)
    ensures Size(Grouped(CommonSymptoms)) == 20
  {
    forall j | 0 <= j < |CommonSymptoms| ensures !IsArrayIndex(CommonSymptoms[j].category) {
      assert CommonSymptoms[j].category[0] in "RESGDV";
    }
    GroupsInInsertionOrder(CommonSymptoms);
  }

  /** Groups keyed by categories that are not array indices come out of `Object.entries` in
      the order they were created. */
  lemma {:induction false} GroupsInInsertionOrder(catalogue: seq<CommonSymptom>)
    requires forall j :: 0 <= j < |catalogue| ==> !IsArrayIndex(catalogue[j].category)
    ensures OwnEntries(Grouped(catalogue)) == Grouped(catalogue)
    ensures Size(Grouped(catalogue)) == |catalogue|
  {
    GroupedFacts(catalogue);
    var cats := Categories(catalogue);
    AddKeysFacts([], cats);
    var g := Grouped(catalogue);
    forall i | 0 <= i < |g| ensures !IsArrayIndex(g[i].0) {
      assert g[i].0 == Keys(g)[i];
      assert g[i].0 in cats;
      var j :| 0 <= j < |cats| && cats[j] == g[i].0;
      assert catalogue[j].category == g[i].0;
    }
    OwnEntriesInsertionOrder(g);
  }

  // ---------------------------------------------------------------- the page state

  /** The state `SymptomsLog` keeps: the user, the list, the allergies for the card lookups,
      the modal flag, the error and the two filters. */
  class SymptomsLogPage {
    var user: Option<string>
    var symptoms: seq<Symptom>
    var allergies: seq<Allergy>
    var showAddModal: bool
    var error: string
    var filterDate: string
    var filterSeverity: string

    constructor()
      ensures user == None && symptoms == [] && allergies == [] && !showAddModal
      ensures error == "" && filterDate == "" && filterSeverity == ""
    {
      user := None;
      symptoms := [];
      allergies := [];
      showAddModal := false;
      error := "";
      filterDate := "";
      filterSeverity := "";
    }

    /** The list the page renders. */
    function Visible(): seq<Symptom>
      reads this
    {
      FilteredSymptoms(symptoms, filterDate, filterSeverity)
    }

    /** "Clear Filters": the whole list is shown again. */
    method ClearFilters()
      modifies this
      ensures filterDate == "" && filterSeverity == ""
      ensures symptoms == old(symptoms) && Visible() == symptoms
      ensures user == old(user) && allergies == old(allergies) && error == old(error) && showAddModal == old(showAddModal)
    {
      filterDate := "";
      filterSeverity := "";
      FilteredFacts(symptoms, [], "", "");
    }

    /** `addSymptom`: nothing without a user; otherwise the new record goes in front and the
        modal closes, or on a failed write the error is set and the list stays. */
    method AddSymptom(data: SymptomData, outcome: AddOutcome)
      modifies this
      ensures symptoms == AddOne(old(symptoms), user, data, outcome)
      ensures user == old(user) && allergies == old(allergies)
      ensures filterDate == old(filterDate) && filterSeverity == old(filterSeverity)
      ensures showAddModal == (if user.Some? && outcome.Added? then false else old(showAddModal))
      ensures error == (if user.Some? && outcome.Failed? then "Failed to add symptom" else old(error))
    {
      if user.None? {
        return;
      }
      if outcome.Added? {
        symptoms := [NewRecord(data, outcome.id, user.value)] + symptoms;
        showAddModal := false;
      } else {
        error := "Failed to add symptom";
      }
    }

    /** `deleteSymptom`: on success every record with the id goes. */
    method DeleteSymptom(id: string, ok: bool)
      modifies this
      ensures symptoms == (if ok then Removed(old(symptoms), id) else old(symptoms))
      ensures error == (if ok then old(error) else "Failed to delete symptom")
      ensures user == old(user) && allergies == old(allergies) && showAddModal == old(showAddModal)
      ensures filterDate == old(filterDate) && filterSeverity == old(filterSeverity)
    {
      if ok {
        symptoms := Removed(symptoms, id);
      } else {
        error := "Failed to delete symptom";
      }
    }

    /** `updateSymptom`: on success the patch is merged into the records with the id. */
    method UpdateSymptom(id: string, u: Patch, ok: bool)
      modifies this
      ensures symptoms == (if ok then Updated(old(symptoms), id, u) else old(symptoms))
      ensures error == (if ok then old(error) else "Failed to update symptom")
      ensures user == old(user) && allergies == old(allergies) && showAddModal == old(showAddModal)
      ensures filterDate == old(filterDate) && filterSeverity == old(filterSeverity)
    {
      if ok {
        symptoms := Updated(symptoms, id, u);
      } else {
        error := "Failed to update symptom";
      }
    }

    /** `handleSubmit` of the add-symptom form: an empty selection only raises the alert;
        otherwise `addSymptom` runs once per selected symptom, in selection order, and the
        modal closes as soon as one of them is stored. */
    method HandleSubmit(form: Form, outcomes: seq<AddOutcome>) returns (alert: Option<string>)
      requires |outcomes| == |form.selected|
      modifies this
      ensures form.selected == [] ==> alert == Some("Please select at least one symptom") && symptoms == old(symptoms)
      ensures form.selected != [] ==> alert == None
      ensures symptoms == AddAll(old(symptoms), user, Payloads(form), outcomes)
      ensures user == old(user) && allergies == old(allergies)
      ensures filterDate == old(filterDate) && filterSeverity == old(filterSeverity)
      ensures error == (if user.Some? && Failed in outcomes then "Failed to add symptom" else old(error))
      ensures showAddModal == (if user.Some? && AnyAdded(outcomes) then false else old(showAddModal))
    {
      if |form.selected| == 0 {
        return Some("Please select at least one symptom");
      }
      AddEach(Payloads(form), outcomes);
      return None;
    }

    /** The `forEach` of `handleSubmit`: `addSymptom` on each payload in turn. */
    method AddEach(payloads: seq<SymptomData>, outcomes: seq<AddOutcome>)
      requires |outcomes| == |payloads|
      modifies this
      ensures symptoms == AddAll(old(symptoms), user, payloads, outcomes)
      ensures user == old(user) && allergies == old(allergies)
      ensures filterDate == old(filterDate) && filterSeverity == old(filterSeverity)
      ensures error == (if user.Some? && Failed in outcomes then "Failed to add symptom" else old(error))
      ensures showAddModal == (if user.Some? && AnyAdded(outcomes) then false else old(showAddModal))
    {
      var i := 0;
      while i < |payloads|
        invariant 0 <= i <= |payloads|
        invariant symptoms == AddAll(old(symptoms), user, payloads[..i], outcomes[..i])
        invariant user == old(user) && allergies == old(allergies)
        invariant filterDate == old(filterDate) && filterSeverity == old(filterSeverity)
        invariant error == (if user.Some? && Failed in outcomes[..i] then "Failed to add symptom" else old(error))
        invariant showAddModal == (if user.Some? && AnyAdded(outcomes[..i]) then false else old(showAddModal))
      {
        AddAllStep(old(symptoms), user, payloads, outcomes, i);
        PrefixSnoc(outcomes, i);
        AnyAddedSnoc(outcomes[..i], outcomes[i]);
        AddSymptom(payloads[i], outcomes[i]);
        i := i + 1;
      }
      PrefixAll(payloads);
      PrefixAll(outcomes);
    }
  }
}
