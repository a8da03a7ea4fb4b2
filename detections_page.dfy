/**
 * The dashboard's detection list filter: a free-text search over plate and
 * owner name, ignoring case, and an exact verification-status filter, both
 * applied to the loaded detections without reordering them.
 */
module DetectionsPage {
  import opened Wrappers
  import opened Seqs
  import opened AsciiText
  import opened SupabaseRecords

  /** The status filter's value that disables it. */
  const AllStatuses: string := "all"

  /** The plate, or the owner name when there is one, contains the term, ignoring case. */
  predicate MatchesSearch(d: DetectionRecord, term: string) {
    Includes(Lower(d.plateNumber), Lower(term))
    || (d.ownerName.Some? && Includes(Lower(d.ownerName.value), Lower(term)))
  }

  /** A detection passes both filters; an empty term and "all" pass everything. */
  predicate Shown(d: DetectionRecord, searchTerm: string, statusFilter: string) {
    (searchTerm == "" || MatchesSearch(d, searchTerm))
    && (statusFilter == AllStatuses || d.verificationStatus == statusFilter)
  }

  /** The list shown for the current search term and status filter. */
  function FilterDetections(ds: seq<DetectionRecord>, searchTerm: string, statusFilter: string): (r: seq<DetectionRecord>)
    ensures |r| <= |ds|
    ensures searchTerm == "" && statusFilter == AllStatuses ==> r == ds
    ensures forall d :: d in r <==> d in ds && Shown(d, searchTerm, statusFilter)
    // without an owner name, only the plate can match the search
    ensures forall d :: d in r && d.ownerName.None? && searchTerm != "" ==>
              Includes(Lower(d.plateNumber), Lower(searchTerm))
  {
    var bySearch := if searchTerm != "" then Filter(ds, d => MatchesSearch(d, searchTerm)) else ds;
    if statusFilter != AllStatuses then Filter(bySearch, (d: DetectionRecord) => d.verificationStatus == statusFilter) else bySearch
  }

  /** The filter is one pass keeping exactly the detections `Shown` accepts, in their order. */
  lemma {:induction false} FilterIsOnePass(ds: seq<DetectionRecord>, searchTerm: string, statusFilter: string)
    ensures FilterDetections(ds, searchTerm, statusFilter) == Filter(ds, d => Shown(d, searchTerm, statusFilter))
  {
    var shown := (d: DetectionRecord) => Shown(d, searchTerm, statusFilter);
    var search := (d: DetectionRecord) => MatchesSearch(d, searchTerm);
    var status := (d: DetectionRecord) => d.verificationStatus == statusFilter;
    if searchTerm != "" && statusFilter != AllStatuses {
      FilterFilter(ds, search, status, shown);
    } else if searchTerm != "" {
      FilterCongruent(ds, search, shown);
    } else if statusFilter != AllStatuses {
      FilterCongruent(ds, status, shown);
    } else {
      FilterAll(ds, shown);
    }
  }

  /** The shown list keeps the loaded order (newest first). */
  lemma {:induction false} FilterKeepsOrder(ds: seq<DetectionRecord>, searchTerm: string, statusFilter: string)
    ensures IsSubsequence(FilterDetections(ds, searchTerm, statusFilter), ds)
  {
    FilterIsOnePass(ds, searchTerm, statusFilter);
    FilterIsSubsequence(ds, d => Shown(d, searchTerm, statusFilter));
  }

  /** The search ignores case: terms that agree once lower-cased select the same list. */
  lemma {:induction false} SearchIgnoresCase(ds: seq<DetectionRecord>, t1: string, t2: string, statusFilter: string)
    requires Lower(t1) == Lower(t2)
    ensures FilterDetections(ds, t1, statusFilter) == FilterDetections(ds, t2, statusFilter)
  {
    assert |t1| == |Lower(t1)| == |Lower(t2)| == |t2|;
    FilterIsOnePass(ds, t1, statusFilter);
    FilterIsOnePass(ds, t2, statusFilter);
    FilterCongruent(ds, d => Shown(d, t1, statusFilter), d => Shown(d, t2, statusFilter));
  }

  /** Typing more characters only narrows the list. */
  lemma {:induction false} LongerTermNarrows(ds: seq<DetectionRecord>, term: string, more: string, statusFilter: string)
    ensures forall d :: d in FilterDetections(ds, term + more, statusFilter) ==> d in FilterDetections(ds, term, statusFilter)
  {
    LowerConcat(term, more);
    forall d | d in FilterDetections(ds, term + more, statusFilter)
      ensures d in FilterDetections(ds, term, statusFilter)
    {
      if term != "" {
        assert MatchesSearch(d, term + more);
        IncludesPrefix(Lower(d.plateNumber), Lower(term), Lower(more));
        if d.ownerName.Some? {
          IncludesPrefix(Lower(d.ownerName.value), Lower(term), Lower(more));
        }
      }
    }
  }

  /** Text containing `a + b` contains `a`. */
  lemma {:induction false} IncludesPrefix(hay: string, a: string, b: string)
    ensures Includes(hay, a + b) ==> Includes(hay, a)
  {
    if Includes(hay, a + b) {
      var i :| 0 <= i <= |hay| && OccursAt(hay, a + b, i);
      assert hay[i..i + |a|] == (a + b)[..|a|] == a;
      assert OccursAt(hay, a, i);
    }
  }
}
