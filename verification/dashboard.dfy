/** The figures of `src/pages/dashboard/DashboardHome.tsx`: four stat cards,
    the five most recent complaints with a detail preview, and the
    resolution rate. */
module Dashboard {
  import opened Types
  import opened StatusFlow
  import opened Percent
  import opened JsValues
  import Seqs

  /** The "In Progress" card's statuses: In Progress, Assigned and Sent to Directorate. */
  predicate IsWorking(c: Complaint)
  {
    c.status in [InProgress, Assigned, SentToDirectorate]
  }

  /** The statuses no card counts: Categorized, Assessment Completed, Closed, Rejected. */
  predicate InNoCard(c: Complaint)
  {
    c.status in [Categorized, AssessmentCompleted, Closed, Rejected]
  }

  datatype StatCards = StatCards(total: nat, newCount: nat, inProgress: nat, responded: nat)

  /** The four cards: all complaints, then those New, in progress and Responded. */
  function Cards(cs: seq<Complaint>): (k: StatCards)
    ensures k.total == |cs|
    ensures k.newCount == Seqs.Count(HasStatus(New), cs)
    ensures k.inProgress == Seqs.Count(IsWorking, cs)
    ensures k.responded == Seqs.Count(HasStatus(Responded), cs)
    ensures k.newCount + k.inProgress + k.responded + Seqs.Count(InNoCard, cs) == k.total
  {
    var k := StatCards(|cs|, Seqs.Count(HasStatus(New), cs), Seqs.Count(IsWorking, cs),
      Seqs.Count(HasStatus(Responded), cs));
    CardsPartition(cs);
    k
  }

  predicate IsNewOrWorking(c: Complaint)
  {
    c.status == New || IsWorking(c)
  }

  predicate IsCounted(c: Complaint)
  {
    IsNewOrWorking(c) || c.status == Responded
  }

  /** New, in-progress and responded complaints together with those in no
      card make up all complaints: the four groups are disjoint and cover
      every status. */
  lemma CardsPartition(cs: seq<Complaint>)
    ensures Seqs.Count(HasStatus(New), cs) + Seqs.Count(IsWorking, cs) + Seqs.Count(HasStatus(Responded), cs)
      + Seqs.Count(InNoCard, cs) == |cs|
  {
    Seqs.CountDisjointUnion(HasStatus(New), IsWorking, IsNewOrWorking, cs);
    Seqs.CountDisjointUnion(IsNewOrWorking, HasStatus(Responded), IsCounted, cs);
    Seqs.CountComplement(IsCounted, InNoCard, cs);
  }

  /** The recent list: the first five complaints, or all when fewer. */
  function Recent(cs: seq<Complaint>): (r: seq<Complaint>)
    ensures |r| == if |cs| < 5 then |cs| else 5
    ensures r == cs[..|r|]
  {
    Seqs.Take(cs, 5)
  }

  /** The detail preview: the first 60 characters of the details, then "...". */
  function Preview(details: string): (r: string)
    ensures |r| == (if |details| < 60 then |details| else 60) + 3
    ensures r[..|r| - 3] == details[..|r| - 3]
    ensures r[|r| - 3..] == "..."
  {
    Seqs.Take(details, 60) + "..."
  }

  /** The resolution rate: the rounded percentage of responded complaints,
      or nothing when there are no complaints (the page prints `NaN%`). */
  function ResolutionRate(cs: seq<Complaint>): (r: Option<nat>)
    ensures r.None? <==> |cs| == 0
    ensures r.Some? ==> r.value <= 100
    ensures r.Some? ==> 2 * r.value * |cs| <= 200 * Seqs.Count(HasStatus(Responded), cs) + |cs|
                                          < 2 * (r.value + 1) * |cs|
    ensures r.Some? && Cards(cs).responded == |cs| ==> r.value == 100
    ensures r.Some? && Cards(cs).responded == 0 ==> r.value == 0
  {
    if |cs| == 0 then None
    else
      var k := Cards(cs);
      RoundPercentRange(k.responded, k.total);
      Some(RoundPercent(k.responded, k.total))
  }
}
