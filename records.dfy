/** The two Firestore record kinds the pages work on. Dates are milliseconds since the Unix
    epoch (a JavaScript `Date`'s time value). */
module Records {

  import opened Wrappers
  import opened Seqs

  /** A document of the `symptoms` collection, as the pages hold it after a fetch. */
  datatype Symptom = Symptom(
    id: string,
    userId: string,
    name: string,
    icon: string,
    category: string,
    severity: string,
    date: int,
    relatedAllergyId: Option<string>,
    notes: string,
    weather: string,
    location: string)

  /** A document of the `allergies` collection. */
  datatype Allergy = Allergy(id: string, userId: string, name: string, category: string, icon: string)

  /** What the database answers to one `addDoc`: the new document's id, or an error. */
  datatype AddOutcome = Added(id: string) | Failed

  /** `where("userId", "==", userId)` on the symptoms collection. */
  function UserSymptoms(all: seq<Symptom>, userId: string): (r: seq<Symptom>)
    ensures forall x :: x in r <==> x in all && x.userId == userId
  {
    Filter(all, (x: Symptom) => x.userId == userId)
  }

  /** `where("userId", "==", userId)` on the allergies collection. */
  function UserAllergies(all: seq<Allergy>, userId: string): (r: seq<Allergy>)
    ensures forall x :: x in r <==> x in all && x.userId == userId
  {
    Filter(all, (x: Allergy) => x.userId == userId)
  }

  function DateOf(s: Symptom): int { s.date }

  /** `symptoms.sort((a, b) => b.date - a.date)`: newest first, ties in fetch order. */
  function NewestFirst(s: seq<Symptom>): (r: seq<Symptom>)
    ensures SortedDesc(r, DateOf)
    ensures multiset(r) == multiset(s) && |r| == |s|
    ensures forall t :: WithKey(r, DateOf, t) == WithKey(s, DateOf, t)
  {
    SortDescFacts(s, DateOf);
    SortDesc(s, DateOf)
  }

  /** The severity of each record, in order. */
  function Severities(s: seq<Symptom>): (r: seq<string>)
    ensures |r| == |s|
    ensures forall i :: 0 <= i < |s| ==> r[i] == s[i].severity
  {
    if s == [] then [] else [s[0].severity] + Severities(s[1..])
  }

  /** The name of each record, in order. */
  function Names(s: seq<Symptom>): (r: seq<string>)
    ensures |r| == |s|
    ensures forall i :: 0 <= i < |s| ==> r[i] == s[i].name
  {
    if s == [] then [] else [s[0].name] + Names(s[1..])
  }

  lemma SeveritiesSnoc(s: seq<Symptom>, x: Symptom)
    ensures Severities(s + [x]) == Severities(s) + [x.severity]
  {
  }

  lemma NamesSnoc(s: seq<Symptom>, x: Symptom)
    ensures Names(s + [x]) == Names(s) + [x.name]
  {
  }
}
