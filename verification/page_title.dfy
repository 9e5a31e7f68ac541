/** `src/pages/dashboard/PlaceholderPage.tsx`: the heading of a page that is
    not built yet, taken from the last part of its path. */
module PageTitle {
  import opened Text
  import Seqs

  /** `filter(Boolean)` on strings keeps the non-empty ones. */
  predicate NonEmpty(segment: string)
  {
    segment != ""
  }

  /** `pathname.split('/').filter(Boolean)`: the path's non-empty segments, in order. */
  function Segments(path: string): (segs: seq<string>)
    ensures forall i :: 0 <= i < |segs| ==> segs[i] != "" && '/' !in segs[i]
  {
    Seqs.Filter(NonEmpty, Split(path, '/'))
  }

  /** The heading when a path has no non-empty segment. */
  const DEFAULT_NAME: string := "Page"

  /** `segments.pop()?.replace(/-/g, ' ') || 'Page'`: the last non-empty
      segment with its hyphens turned into spaces, or "Page" when there is no
      segment. */
  function PageName(path: string): (r: string)
    ensures |Segments(path)| == 0 ==> r == DEFAULT_NAME
    ensures |Segments(path)| > 0 ==>
      var last := Segments(path)[|Segments(path)| - 1];
      && |r| == |last|
      && forall i :: 0 <= i < |last| ==> r[i] == if last[i] == '-' then ' ' else last[i]
    ensures r != ""
    ensures '/' !in r && '-' !in r
  {
    var segs := Segments(path);
    if |segs| == 0 then DEFAULT_NAME
    else
      var r := ReplaceAll(segs[|segs| - 1], '-', ' ');
      assert forall i :: 0 <= i < |r| ==> r[i] != '/' && r[i] != '-';
      r
  }

  /** The heading reads "Page" only for a path with no segment, or one whose
      last segment is itself "Page". */
  lemma DefaultOnlyWithoutSegments(path: string)
    requires PageName(path) == DEFAULT_NAME
    ensures |Segments(path)| == 0 || Segments(path)[|Segments(path)| - 1] == DEFAULT_NAME
  {
    var segs := Segments(path);
    if |segs| > 0 {
      var last := segs[|segs| - 1];
      assert forall i :: 0 <= i < |last| ==> last[i] == DEFAULT_NAME[i];
    }
  }

  /** A string without the separator is a single piece. */
  lemma {:induction false} SplitWithoutSeparator(s: string, c: char)
    requires c !in s
    ensures Split(s, c) == [s]
    decreases |s|
  {
    if |s| > 0 {
      SplitWithoutSeparator(s[1..], c);
      assert [s[0]] + s[1..] == s;
    }
  }

  /** A trailing slash changes nothing. */
  lemma TrailingSlashIgnored(path: string)
    ensures PageName(path + "/") == PageName(path)
  {
    assert path + "/" == path + ['/'] + "";
    SplitAround(path, "", '/');
    Seqs.FilterAppend(NonEmpty, Split(path, '/'), [""]);
  }

  /** Doubling a slash changes nothing. */
  lemma RepeatedSlashIgnored(a: string, b: string)
    ensures PageName(a + "//" + b) == PageName(a + "/" + b)
  {
    RepeatedSlashSegments(a, b);
  }

  /** Doubling a slash only adds an empty piece, which the filter drops. */
  lemma RepeatedSlashSegments(a: string, b: string)
    ensures Segments(a + "//" + b) == Segments(a + "/" + b)
  {
    var sa := Split(a, '/');
    var sb := Split(b, '/');
    var tail := "/" + b;
    assert a + "//" + b == a + ['/'] + tail;
    assert a + "/" + b == a + ['/'] + b;
    SplitAround(a, tail, '/');
    SplitAround(a, b, '/');
    assert tail[1..] == b;
    assert Split(tail, '/') == [""] + sb;
    Seqs.FilterAppend(NonEmpty, sa, [""] + sb);
    Seqs.FilterAppend(NonEmpty, sa, sb);
    assert ([""] + sb)[1..] == sb;
    assert Seqs.Filter(NonEmpty, [""] + sb) == Seqs.Filter(NonEmpty, sb);
  }

  /** A heading taken as a path names itself: the function is idempotent. */
  lemma PageNameIdempotent(path: string)
    ensures PageName(PageName(path)) == PageName(path)
  {
    var r := PageName(path);
    SplitWithoutSeparator(r, '/');
    assert Segments(r) == [r];
    var r2 := PageName(r);
    assert forall i :: 0 <= i < |r| ==> r2[i] == r[i];
  }
}
