/** `src/pages/dashboard/reports/FeedbackReportPage.tsx`: the page's own two
    feedback rows, their star ratings and the satisfied share. */
module FeedbackReport {
  import opened JsValues
  import opened Percent
  import Seqs

  datatype Feedback = Feedback(id: string, complaint: string, name: string, rating: int, comment: string, date: string)

  const FEEDBACK: seq<Feedback> := [
    Feedback("FB-001", "CMP-2026-005", "Michael Tesfaye", 4, "Issue resolved satisfactorily.", "2026-02-12"),
    Feedback("FB-002", "CMP-2026-001", "John Doe", 3, "Still waiting for final resolution.", "2026-02-10")
  ]

  /** The five stars of a row: star `i` is filled when `i < rating`. */
  function Stars(rating: int): (r: seq<bool>)
    ensures |r| == 5
    ensures forall i :: 0 <= i < 5 ==> (r[i] <==> i < rating)
  {
    seq(5, i requires 0 <= i < 5 => i < rating)
  }

  function IsFilled(b: bool): bool
  {
    b
  }

  /** A rating of 0..5 fills exactly that many stars, and the filled stars come first. */
  lemma FilledStars(rating: int)
    requires 0 <= rating <= 5
    ensures Seqs.Count(IsFilled, Stars(rating)) == rating
  {
    var r := Stars(rating);
    assert r == r[..rating] + r[rating..];
    Seqs.FilterAppend(IsFilled, r[..rating], r[rating..]);
    Seqs.FilterKeepsAll(IsFilled, r[..rating]);
    Seqs.FilterDropsAll(IsFilled, r[rating..]);
  }

  predicate IsSatisfied(f: Feedback)
  {
    f.rating >= 4
  }

  /** The satisfied figure: feedback rated 4 or more. */
  function Satisfied(fb: seq<Feedback>): (n: nat)
    ensures n == Seqs.Count(IsSatisfied, fb) <= |fb|
    ensures n + Seqs.Count(IsUnsatisfied, fb) == |fb|
  {
    Seqs.CountComplement(IsSatisfied, IsUnsatisfied, fb);
    Seqs.Count(IsSatisfied, fb)
  }

  predicate IsUnsatisfied(f: Feedback)
  {
    f.rating < 4
  }

  /** The satisfied share, rounded; nothing when there is no feedback (the page
      prints `NaN%`). */
  function SatisfiedPercent(fb: seq<Feedback>): (r: Option<nat>)
    ensures r.None? <==> |fb| == 0
    ensures r.Some? ==> r.value <= 100
    ensures r.Some? ==> 2 * r.value * |fb| <= 200 * Seqs.Count(IsSatisfied, fb) + |fb| < 2 * (r.value + 1) * |fb|
    ensures r.Some? && Satisfied(fb) == |fb| ==> r.value == 100
    ensures r.Some? && Satisfied(fb) == 0 ==> r.value == 0
  {
    if |fb| == 0 then None
    else
      RoundPercentRange(Satisfied(fb), |fb|);
      Some(RoundPercent(Satisfied(fb), |fb|))
  }

  /** On the page's own rows: two feedback entries, one satisfied, 50%. */
  lemma SeedFigures()
    ensures |FEEDBACK| == 2
    ensures Satisfied(FEEDBACK) == 1
    ensures SatisfiedPercent(FEEDBACK) == Some(50)
  {
    assert Seqs.Filter(IsSatisfied, FEEDBACK) == [FEEDBACK[0]] by {
      Seqs.CountCons(IsSatisfied, FEEDBACK[0], [FEEDBACK[1]]);
      assert FEEDBACK == [FEEDBACK[0]] + [FEEDBACK[1]];
      assert FEEDBACK[1..] == [FEEDBACK[1]];
    }
  }
}
