/** The severity counter shared by the reports page and the dashboard: a dictionary that
    starts with the four known severities at zero and counts each record's severity with
    `stats[severity] = (stats[severity] || 0) + 1`. */
module SeverityCounts {

  import opened Seqs
  import opened JsObject
  import opened Records

  const Known: seq<string> := ["mild", "moderate", "severe", "emergency"]

  /** `{ mild: 0, moderate: 0, severe: 0, emergency: 0 }` */
  const ZeroStats: Dict<nat> := [("mild", 0), ("moderate", 0), ("severe", 0), ("emergency", 0)]

  lemma ZeroStatsFacts()
    ensures Keys(ZeroStats) == Known
    ensures DistinctKeys(ZeroStats) && AllZero(ZeroStats)
  {
  }

  /** The severity statistics of `records`. The four known severities come first, in that
      order, whatever the records hold; every key is distinct and holds exactly the number of
      records with that severity; a severity outside the four adds a key of its own after them,
      so the counts add up to the number of records. */
  method CountSeverities(records: seq<Symptom>) returns (stats: Dict<nat>)
    ensures stats == Tally(ZeroStats, Severities(records))
    ensures |stats| >= 4 && Keys(stats)[..4] == Known
    ensures DistinctKeys(stats)
    ensures forall i :: 0 <= i < |stats| ==> stats[i].1 == multiset(Severities(records))[stats[i].0]
    ensures forall i :: 0 <= i < |records| ==> records[i].severity in Keys(stats)
    ensures Total(stats) == |records|
  {
    stats := ZeroStats;
    var i := 0;
    while i < |records|
      invariant 0 <= i <= |records|
      invariant stats == Tally(ZeroStats, Severities(records[..i]))
    {
      var sev := records[i].severity;
      SeveritiesSnoc(records[..i], records[i]);
      PrefixSnoc(records, i);
      TallySnoc(ZeroStats, Severities(records[..i]), sev);
      stats := Increment(stats, sev);
      i := i + 1;
    }
    PrefixAll(records);
    StatsFacts(records);
  }

  /** What any tally of severities started from the four zeroed keys looks like. */
  lemma StatsFacts(records: seq<Symptom>)
    ensures var stats := Tally(ZeroStats, Severities(records));
      && |stats| >= 4 && Keys(stats)[..4] == Known
      && DistinctKeys(stats)
      && (forall i :: 0 <= i < |stats| ==> stats[i].1 == multiset(Severities(records))[stats[i].0])
      && (forall i :: 0 <= i < |records| ==> records[i].severity in Keys(stats))
      && Total(stats) == |records|
  {
    var sevs := Severities(records);
    ZeroStatsFacts();
    TallyFacts(ZeroStats, sevs);
    AddKeysFacts(Known, sevs);
    var stats := Tally(ZeroStats, sevs);
    forall i | 0 <= i < |records| ensures records[i].severity in Keys(stats) {
      assert sevs[i] in sevs;
    }
  }

  /** The count stored under a key, or 0 when it is absent (`stats[key] || 0`). */
  function CountOf(stats: Dict<nat>, key: string): nat
  {
    match Lookup(stats, key)
    case Some(n) => n
    case None => 0
  }

  /** Reading a known severity off the statistics gives the number of records with it. */
  lemma CountOfKnown(records: seq<Symptom>, key: string)
    ensures CountOf(Tally(ZeroStats, Severities(records)), key) == multiset(Severities(records))[key]
  {
    var stats := Tally(ZeroStats, Severities(records));
    StatsFacts(records);
    match Lookup(stats, key)
    case Some(n) =>
      var i :| 0 <= i < |stats| && stats[i] == (key, n);
    case None =>
  }

  /** A severity's share of the total, in percent: `total > 0 ? (count / total) * 100 : 0`. */
  function Percentage(count: nat, total: nat): (p: real)
    ensures total == 0 ==> p == 0.0
    ensures total > 0 && count <= total ==> 0.0 <= p <= 100.0
  {
    if total > 0 then (count as real / total as real) * 100.0 else 0.0
  }

  /** The share times the total gives back a hundred times the count. */
  lemma PercentageShare(count: nat, total: nat)
    requires total > 0
    ensures Percentage(count, total) * (total as real) == 100.0 * (count as real)
  {
    var q := count as real / total as real;
    assert q * (total as real) == count as real;
    assert (q * 100.0) * (total as real) == 100.0 * (q * (total as real));
  }
}
