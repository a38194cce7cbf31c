/** The "My Allergies" page: the user's allergy records, adding one from a fixed catalogue of
    allergens (duplicates allowed, with a notice) and deleting one. */
module MyAllergies {

  import opened Wrappers
  import opened Seqs
  import opened Records

  // ---------------------------------------------------------------- the catalogue

  /** One option of the "Select Allergen" list: the stored name, the shown caption and the
      allergen's category. */
  datatype Allergen = Allergen(value: string, caption: string, category: string)

  const Allergens: seq<Allergen> := [
    Allergen("Ash", "🌳 Ash", "Tree"),
    Allergen("Birch", "🌳 Birch", "Tree"),
    Allergen("Cypress/Juniper/Cedar", "🌳 Cypress / Juniper / Cedar", "Tree"),
    Allergen("Elm", "🌳 Elm", "Tree"),
    Allergen("Maple", "🌳 Maple", "Tree"),
    Allergen("Mulberry", "🌳 Mulberry", "Tree"),
    Allergen("Oak", "🌳 Oak", "Tree"),
    Allergen("Pine", "🌳 Pine", "Tree"),
    Allergen("Poplar/Cottonwood", "🌳 Poplar / Cottonwood", "Tree"),
    Allergen("Grass/Poaceae", "🌱 Grasses / Poaceae", "Grass"),
    Allergen("Ragweed", "🌿 Ragweed", "Weed")
  ]

  /** The icon a new allergy gets from its category: a tree for trees, a herb for weeds and a
      seedling for anything else. */
  function CategoryIcon(category: string): (icon: string)
    ensures icon == "🌳" <==> category == "Tree"
    ensures icon == "🌿" <==> category == "Weed"
    ensures icon == "🌱" <==> category != "Tree" && category != "Weed"
  {
    if category == "Tree" then "🌳" else if category == "Weed" then "🌿" else "🌱"
  }

  predicate InCatalogue(value: string)
  {
    exists i :: 0 <= i < |Allergens| && Allergens[i].value == value
  }

  /** Eleven options, none with an empty value. */
  lemma CatalogueSize()
    ensures |Allergens| == 11 && !InCatalogue("")
  {
    assert forall i :: 0 <= i < |Allergens| ==> |Allergens[i].value| > 0;
  }

  /** No two options share a value. */
  lemma CatalogueDistinct()
    ensures forall i, j :: 0 <= i < j < |Allergens| ==> Allergens[i].value != Allergens[j].value
  {
  }

  /** Nine trees, then one grass, then one weed, and every caption opens with the icon the
      option's category gives. */
  lemma CatalogueCategories()
    ensures forall i :: 0 <= i < 9 ==> Allergens[i].category == "Tree"
    ensures Allergens[9].category == "Grass" && Allergens[10].category == "Weed"
    ensures forall i :: 0 <= i < |Allergens| ==>
              Allergens[i].caption[..2] == CategoryIcon(Allergens[i].category) + " "
  {
  }

  // ---------------------------------------------------------------- the add modal

  /** What the modal hands to `onAdd`: the allergen's name, category and icon. */
  datatype AllergyData = AllergyData(name: string, category: string, icon: string)

  /** `handleSubmit` on a selection: nothing for the empty placeholder, otherwise the catalogue
      entry with that value, turned into a record with its category's icon. A value outside the
      catalogue makes `selected.category` throw before anything is emitted. */
  function SubmitData(selected: string): (r: Option<AllergyData>)
    ensures r.Some? <==> InCatalogue(selected)
    ensures r.Some? ==> r.value.name == selected && r.value.icon == CategoryIcon(r.value.category)
    ensures r.Some? ==> exists i :: 0 <= i < |Allergens| && Allergens[i].value == selected && Allergens[i].category == r.value.category
  {
    if selected == "" then
      CatalogueSize();
      None
    else
      match Find(Allergens, (a: Allergen) => a.value == selected)
      case None => None
      case Some(a) => Some(AllergyData(a.value, a.category, CategoryIcon(a.category)))
  }

  /** `getAllergenCount(name)`: how many of the existing allergies carry that name. */
  function AllergenCount(existing: seq<Allergy>, name: string): (n: nat)
    ensures n <= |existing|
  {
    |Filter(existing, (a: Allergy) => a.name == name)|
  }

  /** The count is the number of positions holding that name, so it is zero exactly when no
      existing allergy has the name, and it adds up over two halves of the list. */
  lemma {:induction false} AllergenCountFacts(a: seq<Allergy>, b: seq<Allergy>, name: string)
    ensures AllergenCount(a, name) == CountKey(a, (x: Allergy) => x.name, name)
    ensures AllergenCount(a, name) == 0 <==> forall i :: 0 <= i < |a| ==> a[i].name != name
    ensures AllergenCount(a + b, name) == AllergenCount(a, name) + AllergenCount(b, name)
  {
    CountIsCountKey(a, name);
    FilterAppend(a, b, (x: Allergy) => x.name == name);
  }

  lemma {:induction false} CountIsCountKey(a: seq<Allergy>, name: string)
    ensures AllergenCount(a, name) == CountKey(a, (x: Allergy) => x.name, name)
  {
    if a != [] {
      CountIsCountKey(a[1..], name);
    }
  }

  /** The amber "You already have N instance(s)" notice: shown only for a chosen allergen that
      is already on the list, with its count. The selection still submits. */
  function DuplicateNotice(existing: seq<Allergy>, selected: string): (r: Option<nat>)
    ensures r.Some? <==> selected != "" && exists i :: 0 <= i < |existing| && existing[i].name == selected
    ensures r.Some? ==> r.value == AllergenCount(existing, selected) && r.value > 0
  {
    AllergenCountFacts(existing, [], selected);
    if selected != "" && AllergenCount(existing, selected) > 0 then Some(AllergenCount(existing, selected)) else None
  }

  /** The modal's state: the list it was given and the current selection. */
  class AddAllergyModal {
    var existing: seq<Allergy>
    var selectedAllergen: string

    constructor(existing: seq<Allergy>)
      ensures this.existing == existing && selectedAllergen == ""
    {
      this.existing := existing;
      selectedAllergen := "";
    }

    /** The select's `onChange`. */
    method Choose(value: string)
      modifies this
      ensures selectedAllergen == value && existing == old(existing)
    {
      selectedAllergen := value;
    }

    function Notice(): Option<nat>
      reads this
    {
      DuplicateNotice(existing, selectedAllergen)
    }

    /** `handleSubmit`: emits the record for a catalogue selection and resets the selection;
        the placeholder, or a value the catalogue lacks, emits nothing and keeps it. */
    method HandleSubmit() returns (emitted: Option<AllergyData>)
      modifies this
      ensures emitted == SubmitData(old(selectedAllergen))
      ensures selectedAllergen == (if emitted.Some? then "" else old(selectedAllergen))
      ensures existing == old(existing)
    {
      emitted := SubmitData(selectedAllergen);
      if emitted.Some? {
        selectedAllergen := "";
      }
    }
  }

  // ---------------------------------------------------------------- the list

  /** The list after `addAllergy(data)`: nothing without a user or when the write fails;
      otherwise the new document, with its id and the user's id, at the end. */
  function WithAllergy(allergies: seq<Allergy>, user: Option<string>, data: AllergyData, outcome: AddOutcome): seq<Allergy>
  {
    if user.None? || outcome.Failed? then allergies
    else allergies + [Allergy(outcome.id, user.value, data.name, data.category, data.icon)]
  }

  /** Adding keeps the old list as a prefix and puts at most one record after it, in which case
      that allergen's count grows by one and every other count stays. */
  lemma WithAllergyFacts(allergies: seq<Allergy>, user: Option<string>, data: AllergyData, outcome: AddOutcome, name: string)
    ensures var r := WithAllergy(allergies, user, data, outcome);
      var added := user.Some? && outcome.Added?;
      && |r| == |allergies| + (if added then 1 else 0)
      && r[..|allergies|] == allergies
      && (added ==> r[|allergies|] == Allergy(outcome.id, user.value, data.name, data.category, data.icon))
      && AllergenCount(r, name) == AllergenCount(allergies, name) + (if added && name == data.name then 1 else 0)
  {
    if user.Some? && outcome.Added? {
      var x := Allergy(outcome.id, user.value, data.name, data.category, data.icon);
      AllergenCountFacts(allergies, [x], name);
      assert Filter([x], (a: Allergy) => a.name == name) == (if x.name == name then [x] else []);
    }
  }

  /** `allergies.filter(allergy => allergy.id !== allergyId)`. */
  function Without(allergies: seq<Allergy>, id: string): seq<Allergy>
  {
    Filter(allergies, (x: Allergy) => x.id != id)
  }

  /** Deleting removes every record with the id, keeps every other record as often as it was
      there, and undoes an add whose new id was not on the list. */
  lemma WithoutFacts(allergies: seq<Allergy>, id: string, user: string, data: AllergyData)
    ensures forall x :: x in Without(allergies, id) ==> x.id != id
    ensures forall x :: multiset(Without(allergies, id))[x] == if x.id == id then 0 else multiset(allergies)[x]
    ensures (forall i :: 0 <= i < |allergies| ==> allergies[i].id != id) ==>
              Without(WithAllergy(allergies, Some(user), data, Added(id)), id) == allergies
  {
    WithoutCounts(allergies, id);
    if forall i :: 0 <= i < |allergies| ==> allergies[i].id != id {
      WithoutUndoesAdd(allergies, id, user, data);
    }
  }

  lemma WithoutCounts(allergies: seq<Allergy>, id: string)
    ensures forall x :: multiset(Without(allergies, id))[x] == if x.id == id then 0 else multiset(allergies)[x]
  {
    var p := (x: Allergy) => x.id != id;
    forall x ensures multiset(Without(allergies, id))[x] == if x.id == id then 0 else multiset(allergies)[x] {
      FilterMultiset(allergies, p, x);
    }
  }

  lemma WithoutUndoesAdd(allergies: seq<Allergy>, id: string, user: string, data: AllergyData)
    requires forall i :: 0 <= i < |allergies| ==> allergies[i].id != id
    ensures Without(WithAllergy(allergies, Some(user), data, Added(id)), id) == allergies
  {
    var p := (x: Allergy) => x.id != id;
    var x := Allergy(id, user, data.name, data.category, data.icon);
    assert WithAllergy(allergies, Some(user), data, Added(id)) == allergies + [x];
    FilterAppend(allergies, [x], p);
    assert Filter([x], p) == [];
    FilterIdentity(allergies, p);
  }

  // ---------------------------------------------------------------- the page

  class MyAllergiesPage {
    var user: Option<string>
    var allergies: seq<Allergy>
    var showAddModal: bool
    var loading: bool
    var error: string

    constructor()
      ensures user == None && allergies == [] && !showAddModal && loading && error == ""
    {
      user := None;
      allergies := [];
      showAddModal := false;
      loading := true;
      error := "";
    }

    /** `fetchAllergies`: the user's documents, or the load error; loading ends either way. */
    method FetchAllergies(userId: string, docs: Result<seq<Allergy>>)
      modifies this
      ensures !loading && user == old(user) && showAddModal == old(showAddModal)
      ensures docs.Ok? ==> allergies == UserAllergies(docs.value, userId) && error == old(error)
      ensures docs.Err? ==> allergies == old(allergies) && error == "Failed to load allergies"
    {
      if docs.Ok? {
        allergies := UserAllergies(docs.value, userId);
      } else {
        error := "Failed to load allergies";
      }
      loading := false;
    }

    /** The `onAuthStateChanged` callback. */
    method AuthChanged(u: Option<string>, docs: Result<seq<Allergy>>)
      modifies this
      ensures user == u && !loading && showAddModal == old(showAddModal)
      ensures u.None? ==> allergies == old(allergies) && error == old(error)
      ensures u.Some? && docs.Ok? ==> allergies == UserAllergies(docs.value, u.value)
      ensures u.Some? && docs.Err? ==> allergies == old(allergies) && error == "Failed to load allergies"
    {
      user := u;
      if u.Some? {
        FetchAllergies(u.value, docs);
      } else {
        loading := false;
      }
    }

    /** `addAllergy`: without a user nothing happens; otherwise the new record is appended and
        the modal closes, or on a failed write the error is set. */
    method AddAllergy(data: AllergyData, outcome: AddOutcome)
      modifies this
      ensures allergies == WithAllergy(old(allergies), user, data, outcome)
      ensures user == old(user) && loading == old(loading)
      ensures showAddModal == (if user.Some? && outcome.Added? then false else old(showAddModal))
      ensures error == (if user.Some? && outcome.Failed? then "Failed to add allergy" else old(error))
    {
      if user.None? {
        return;
      }
      if outcome.Added? {
        allergies := allergies + [Allergy(outcome.id, user.value, data.name, data.category, data.icon)];
        showAddModal := false;
      } else {
        error := "Failed to add allergy";
      }
    }

    /** `deleteAllergy`: on success every record with the id goes; otherwise the error is set. */
    method DeleteAllergy(id: string, ok: bool)
      modifies this
      ensures allergies == (if ok then Without(old(allergies), id) else old(allergies))
      ensures error == (if ok then old(error) else "Failed to delete allergy")
      ensures user == old(user) && loading == old(loading) && showAddModal == old(showAddModal)
    {
      if ok {
        allergies := Without(allergies, id);
      } else {
        error := "Failed to delete allergy";
      }
    }
  }
}
