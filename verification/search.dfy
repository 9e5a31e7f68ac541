/** The search boxes of `src/pages/dashboard/ComplaintsList.tsx` and
    `src/pages/dashboard/AssessmentsList.tsx`: keep the records in which the
    query occurs, ignoring letter case except in the TIN. */
module Search {
  import opened JsValues
  import opened Types
  import opened Records
  import opened Text
  import Seqs

  /** A complaint is kept when the lower-cased query occurs in its lower-cased
      id or name, or the query as typed occurs in its TIN. */
  predicate ComplaintMatches(q: string, c: Complaint)
  {
    || Contains(Lower(c.id), Lower(q))
    || Contains(Lower(c.fullName), Lower(q))
    || Contains(c.tin, q)
  }

  function ComplaintMatcher(q: string): Complaint -> bool
  {
    c => ComplaintMatches(q, c)
  }

  /** The complaints list for query `q`: exactly the matching complaints, in order. */
  function SearchComplaints(cs: seq<Complaint>, q: string): (r: seq<Complaint>)
    ensures Seqs.IsSubsequence(r, cs)
    ensures forall i :: 0 <= i < |r| ==> ComplaintMatches(q, r[i])
    ensures forall i :: 0 <= i < |cs| && ComplaintMatches(q, cs[i]) ==> cs[i] in r
    ensures forall x :: Seqs.Occurrences(r, x) == if ComplaintMatches(q, x) then Seqs.Occurrences(cs, x) else 0
  {
    Seqs.FilterOccurrencesAll(ComplaintMatcher(q), cs);
    Seqs.FilterIsSubsequence(ComplaintMatcher(q), cs);
    Seqs.Filter(ComplaintMatcher(q), cs)
  }

  /** An empty query lists every complaint, in order. */
  lemma SearchComplaintsEmptyQuery(cs: seq<Complaint>)
    ensures SearchComplaints(cs, "") == cs
  {
    forall i | 0 <= i < |cs|
      ensures ComplaintMatcher("")(cs[i])
    {
      ContainsEmpty(cs[i].tin);
    }
    Seqs.FilterKeepsAll(ComplaintMatcher(""), cs);
  }

  /** If `q1` occurs in `hay` (ignoring case) whenever the longer `q2` does. */
  lemma LowerNarrow(hay: string, q1: string, q2: string)
    requires Contains(q2, q1)
    ensures Contains(Lower(hay), Lower(q2)) ==> Contains(Lower(hay), Lower(q1))
  {
    if Contains(Lower(hay), Lower(q2)) {
      LowerContains(q2, q1);
      ContainsTransitive(Lower(q1), Lower(q2), Lower(hay));
    }
  }

  /** Typing more (the old query occurs in the new one) never adds a result:
      the new list is a subsequence of the old one. */
  lemma SearchComplaintsNarrows(cs: seq<Complaint>, q1: string, q2: string)
    requires Contains(q2, q1)
    ensures Seqs.IsSubsequence(SearchComplaints(cs, q2), SearchComplaints(cs, q1))
    ensures |SearchComplaints(cs, q2)| <= |SearchComplaints(cs, q1)|
  {
    forall c: Complaint
      ensures ComplaintMatcher(q2)(c) ==> ComplaintMatcher(q1)(c)
    {
      LowerNarrow(c.id, q1, q2);
      LowerNarrow(c.fullName, q1, q2);
      if Contains(c.tin, q2) {
        ContainsTransitive(q1, q2, c.tin);
      }
    }
    Seqs.FilterMonotone(ComplaintMatcher(q2), ComplaintMatcher(q1), cs);
  }

  /** Id and name matching ignore case: a query that differs from another
      only in letter case finds the same complaints through id or name. */
  lemma IdAndNameIgnoreCase(c: Complaint, q1: string, q2: string)
    requires Lower(q1) == Lower(q2)
    requires ComplaintMatches(q1, c) && !Contains(c.tin, q1)
    ensures ComplaintMatches(q2, c)
  {
  }

  /** The TIN comparison keeps case: "AB" finds a complaint with TIN "AB12"
      while "ab" does not. */
  lemma TinKeepsCase()
    ensures ComplaintMatches("AB", Complaint("1", "AB12", "x", "", "", None, None, New, None, None, "", ""))
    ensures !ComplaintMatches("ab", Complaint("1", "AB12", "x", "", "", None, None, New, None, None, "", ""))
  {
    assert IsPrefix("AB", "AB12");
    assert Lower("ab") == "ab";
    assert Lower("1") == "1";
    assert Lower("x") == "x";
    assert !Contains("AB12"[3..], "ab");
    assert !Contains("AB12"[2..], "ab");
    assert !Contains("AB12"[1..], "ab");
  }

  /** An assessment is kept when the lower-cased query occurs in the lower-cased
      assess number, complaint id, topic, recipient or sender. */
  predicate AssessmentMatches(q: string, a: AssessmentRecord)
  {
    || Contains(Lower(a.assessNo), Lower(q))
    || Contains(Lower(a.complaintId), Lower(q))
    || Contains(Lower(a.explanationTopic), Lower(q))
    || Contains(Lower(a.sentTo), Lower(q))
    || Contains(Lower(a.sentBy), Lower(q))
  }

  function AssessmentMatcher(q: string): AssessmentRecord -> bool
  {
    a => AssessmentMatches(q, a)
  }

  /** The assessments list for query `q`: exactly the matching records, in order. */
  function SearchAssessments(assessments: seq<AssessmentRecord>, q: string): (r: seq<AssessmentRecord>)
    ensures Seqs.IsSubsequence(r, assessments)
    ensures forall i :: 0 <= i < |r| ==> AssessmentMatches(q, r[i])
    ensures forall i :: 0 <= i < |assessments| && AssessmentMatches(q, assessments[i]) ==> assessments[i] in r
    ensures forall x :: Seqs.Occurrences(r, x) == if AssessmentMatches(q, x) then Seqs.Occurrences(assessments, x) else 0
  {
    Seqs.FilterOccurrencesAll(AssessmentMatcher(q), assessments);
    Seqs.FilterIsSubsequence(AssessmentMatcher(q), assessments);
    Seqs.Filter(AssessmentMatcher(q), assessments)
  }

  /** An empty query lists every assessment, in order. */
  lemma SearchAssessmentsEmptyQuery(assessments: seq<AssessmentRecord>)
    ensures SearchAssessments(assessments, "") == assessments
  {
    forall i | 0 <= i < |assessments|
      ensures AssessmentMatcher("")(assessments[i])
    {
      ContainsEmpty(Lower(assessments[i].assessNo));
    }
    Seqs.FilterKeepsAll(AssessmentMatcher(""), assessments);
  }

  /** Typing more never adds an assessment to the list. */
  lemma SearchAssessmentsNarrows(assessments: seq<AssessmentRecord>, q1: string, q2: string)
    requires Contains(q2, q1)
    ensures Seqs.IsSubsequence(SearchAssessments(assessments, q2), SearchAssessments(assessments, q1))
    ensures |SearchAssessments(assessments, q2)| <= |SearchAssessments(assessments, q1)|
  {
    forall a: AssessmentRecord
      ensures AssessmentMatcher(q2)(a) ==> AssessmentMatcher(q1)(a)
    {
      LowerNarrow(a.assessNo, q1, q2);
      LowerNarrow(a.complaintId, q1, q2);
      LowerNarrow(a.explanationTopic, q1, q2);
      LowerNarrow(a.sentTo, q1, q2);
      LowerNarrow(a.sentBy, q1, q2);
    }
    Seqs.FilterMonotone(AssessmentMatcher(q2), AssessmentMatcher(q1), assessments);
  }

  /** The explanation-date cell as the page writes it: `??` with the garbled
      dash, so only a missing date falls back, to the wrong text. */
  function ExplanationDateCellAsWritten(a: AssessmentRecord): (r: string)
    ensures a.explanationDate.Some? ==> r == a.explanationDate.value
    ensures a.explanationDate.None? ==> r == GarbledPlaceholder
  {
    Coalesce(a.explanationDate, GarbledPlaceholder)
  }

  /** A missing explanation date shows text other than the em dash. */
  lemma ExplanationDateGarbled(a: AssessmentRecord)
    requires a.explanationDate.None?
    ensures ExplanationDateCellAsWritten(a) != Placeholder
  {
    GarbledIsNotPlaceholder();
  }

  /** The explanation-date cell as intended: the date, or the em dash when missing. */
  function ExplanationDateCell(a: AssessmentRecord): (r: string)
    ensures a.explanationDate.Some? ==> r == a.explanationDate.value
    ensures a.explanationDate.None? ==> r == Placeholder && r != ""
  {
    Coalesce(a.explanationDate, Placeholder)
  }
}
