/** The officials' complaint list (OfficialComplaintsPage): a three-way
    conjunctive filter over the complaints, the split of the filtered list into
    a "High Priority" group and the rest, and the per-status tab badges. */
module OfficialComplaints {
  import opened Seqs
  import opened Text
  import opened Records

  predicate StatusMatch(c: Complaint, filterStatus: string)
  {
    filterStatus == "all" || c.status.Id() == filterStatus
  }

  predicate UrgencyMatch(c: Complaint, filterUrgency: string)
  {
    filterUrgency == "all" || c.urgency.Id() == filterUrgency
  }

  /** Case-insensitive substring search over the title and the location. */
  predicate SearchMatch(c: Complaint, searchQuery: string)
  {
    searchQuery == "" ||
    Includes(Lower(c.title), Lower(searchQuery)) ||
    Includes(Lower(c.location), Lower(searchQuery))
  }

  predicate Matches(c: Complaint, filterStatus: string, filterUrgency: string, searchQuery: string)
  {
    StatusMatch(c, filterStatus) && UrgencyMatch(c, filterUrgency) && SearchMatch(c, searchQuery)
  }

  /** `filteredComplaints`: the complaints passing all three filters, as an
      order-preserving subsequence of the input. */
  function FilteredComplaints(complaints: seq<Complaint>, filterStatus: string,
                              filterUrgency: string, searchQuery: string): (r: seq<Complaint>)
    ensures IsSubsequence(r, complaints)
    ensures forall i :: 0 <= i < |r| ==> Matches(r[i], filterStatus, filterUrgency, searchQuery)
    ensures forall i :: 0 <= i < |complaints| ==>
                          (Matches(complaints[i], filterStatus, filterUrgency, searchQuery) ==> complaints[i] in r)
    ensures forall c :: multiset(r)[c] == if Matches(c, filterStatus, filterUrgency, searchQuery) then multiset(complaints)[c] else 0
  {
    var keep := (c: Complaint) => Matches(c, filterStatus, filterUrgency, searchQuery);
    FilterIsSubsequence(keep, complaints);
    FilterCounts(keep, complaints);
    Filter(keep, complaints)
  }

  /** With every filter at its default, the list is shown whole and in order. */
  lemma DefaultFiltersShowAll(complaints: seq<Complaint>)
    ensures FilteredComplaints(complaints, "all", "all", "") == complaints
  {
    FilterKeepsAll((c: Complaint) => Matches(c, "all", "all", ""), complaints);
  }

  /** A status tab alone keeps exactly the complaints with that status, in order. */
  lemma StatusTabSelectsStatus(complaints: seq<Complaint>, status: ComplaintStatus)
    ensures FilteredComplaints(complaints, status.Id(), "all", "") == Filter((c: Complaint) => c.status == status, complaints)
  {
    IdsAreDistinct();
    FilterAgree((c: Complaint) => Matches(c, status.Id(), "all", ""), (c: Complaint) => c.status == status, complaints);
  }

  /** The urgency select alone keeps exactly the complaints with that urgency, in order. */
  lemma UrgencySelectSelectsUrgency(complaints: seq<Complaint>, urgency: Urgency)
    ensures FilteredComplaints(complaints, "all", urgency.Id(), "") == Filter((c: Complaint) => c.urgency == urgency, complaints)
  {
    IdsAreDistinct();
    FilterAgree((c: Complaint) => Matches(c, "all", urgency.Id(), ""), (c: Complaint) => c.urgency == urgency, complaints);
  }

  /** A search keeps a complaint iff the lower-cased query occurs in its
      lower-cased title or location. The `searchQuery === ''` guard is
      redundant: every string includes the empty string. */
  lemma SearchSelectsTitleOrLocation(complaints: seq<Complaint>, searchQuery: string)
    ensures FilteredComplaints(complaints, "all", "all", searchQuery)
         == Filter((c: Complaint) => Includes(Lower(c.title), Lower(searchQuery)) || Includes(Lower(c.location), Lower(searchQuery)),
                   complaints)
  {
    if searchQuery == "" {
      forall c: Complaint { IncludesEmpty(Lower(c.title)); }
    }
    FilterAgree((c: Complaint) => Matches(c, "all", "all", searchQuery),
                (c: Complaint) => Includes(Lower(c.title), Lower(searchQuery)) || Includes(Lower(c.location), Lower(searchQuery)),
                complaints);
  }

  /** The status filter is independent of the other two: applying it before
      or after the urgency filter and the search gives the same list as
      applying all three together. */
  lemma FiltersCompose(complaints: seq<Complaint>, filterStatus: string, filterUrgency: string, searchQuery: string)
    ensures FilteredComplaints(complaints, filterStatus, filterUrgency, searchQuery)
         == FilteredComplaints(FilteredComplaints(complaints, filterStatus, "all", ""), "all", filterUrgency, searchQuery)
    ensures FilteredComplaints(complaints, filterStatus, filterUrgency, searchQuery)
         == FilteredComplaints(FilteredComplaints(complaints, "all", filterUrgency, searchQuery), filterStatus, "all", "")
  {
    var all3 := (c: Complaint) => Matches(c, filterStatus, filterUrgency, searchQuery);
    var first := (c: Complaint) => Matches(c, filterStatus, "all", "");
    var second := (c: Complaint) => Matches(c, "all", filterUrgency, searchQuery);
    var mid := Filter(first, complaints);
    assert FilteredComplaints(complaints, filterStatus, "all", "") == mid;
    assert FilteredComplaints(mid, "all", filterUrgency, searchQuery) == Filter(second, mid);
    FilterFilter(second, first, all3, complaints);
    var mid2 := Filter(second, complaints);
    assert FilteredComplaints(complaints, "all", filterUrgency, searchQuery) == mid2;
    assert FilteredComplaints(mid2, filterStatus, "all", "") == Filter(first, mid2);
    FilterFilter(first, second, all3, complaints);
  }

  predicate IsHighPriority(c: Complaint)
  {
    c.urgency == High && c.status != Resolved
  }

  /** `highUrgency`: the unresolved high-urgency complaints of the filtered
      list, in order. */
  function HighUrgency(filtered: seq<Complaint>): (r: seq<Complaint>)
    ensures IsSubsequence(r, filtered)
    ensures forall c :: c in r <==> c in filtered && IsHighPriority(c)
  {
    var high := (c: Complaint) => c.urgency == High && c.status != Resolved;
    FilterIsSubsequence(high, filtered);
    assert forall c :: c in Filter(high, filtered) <==> c in filtered && high(c) by {
      forall c: Complaint { FilterMember(high, filtered, c); }
    }
    Filter(high, filtered)
  }

  /** `otherComplaints`: everything else of the filtered list, in order. */
  function OtherComplaints(filtered: seq<Complaint>): (r: seq<Complaint>)
    ensures IsSubsequence(r, filtered)
    ensures forall c :: c in r <==> c in filtered && !IsHighPriority(c)
  {
    var other := (c: Complaint) => c.urgency != High || c.status == Resolved;
    FilterIsSubsequence(other, filtered);
    assert forall c :: c in Filter(other, filtered) <==> c in filtered && other(c) by {
      forall c: Complaint { FilterMember(other, filtered, c); }
    }
    Filter(other, filtered)
  }

  /** The two groups split the filtered list: a complaint is in exactly one of
      them, high priority iff it is high urgency and not resolved, each group keeps
      the list's order, and together they hold every entry once. */
  lemma PriorityGroupsPartition(filtered: seq<Complaint>)
    ensures |HighUrgency(filtered)| + |OtherComplaints(filtered)| == |filtered|
    ensures forall c :: c in filtered ==> (c in HighUrgency(filtered) <==> IsHighPriority(c))
    ensures forall c :: c in filtered ==> (c in OtherComplaints(filtered) <==> !IsHighPriority(c))
    ensures forall c :: !(c in HighUrgency(filtered) && c in OtherComplaints(filtered))
    ensures IsSubsequence(HighUrgency(filtered), filtered) && IsSubsequence(OtherComplaints(filtered), filtered)
  {
    var high := (c: Complaint) => c.urgency == High && c.status != Resolved;
    var other := (c: Complaint) => c.urgency != High || c.status == Resolved;
    FilterSplit(high, other, filtered);
    forall c | true
      ensures c in HighUrgency(filtered) <==> c in filtered && IsHighPriority(c)
      ensures c in OtherComplaints(filtered) <==> c in filtered && !IsHighPriority(c)
    {
      FilterMember(high, filtered, c);
      FilterMember(other, filtered, c);
    }
    FilterIsSubsequence(high, filtered);
    FilterIsSubsequence(other, filtered);
  }

  /** The tab badges of the status bar (`assigned` is a Dafny keyword, hence `assignedCount`). */
  datatype StatusCounts = StatusCounts(all: nat, submitted: nat, underReview: nat,
                                       verified: nat, assignedCount: nat, resolved: nat)

  /** One status badge: the number of positions of the list holding a
      complaint with that status. */
  function CountWithStatus(complaints: seq<Complaint>, status: ComplaintStatus): (n: nat)
    ensures n == |set i | 0 <= i < |complaints| && complaints[i].status == status|
  {
    var has := (c: Complaint) => c.status == status;
    FilterLengthCountsPositions(has, complaints);
    assert Positions(has, complaints) == set i | 0 <= i < |complaints| && complaints[i].status == status;
    |Filter(has, complaints)|
  }

  /** `statusCounts`, over the unfiltered list (it takes no filter input, so
      changing the filters cannot change it). The five status badges add up to
      the "All" badge, because every complaint has one of the five statuses. */
  function StatusCountsOf(complaints: seq<Complaint>): (r: StatusCounts)
    ensures r.all == |complaints|
    ensures r.submitted == |FilteredComplaints(complaints, Submitted.Id(), "all", "")|
    ensures r.underReview == |FilteredComplaints(complaints, UnderReview.Id(), "all", "")|
    ensures r.verified == |FilteredComplaints(complaints, Verified.Id(), "all", "")|
    ensures r.assignedCount == |FilteredComplaints(complaints, Assigned.Id(), "all", "")|
    ensures r.resolved == |FilteredComplaints(complaints, Resolved.Id(), "all", "")|
    ensures r.submitted + r.underReview + r.verified + r.assignedCount + r.resolved == r.all
  {
    StatusCountsAddUp(complaints);
    BadgeMatchesTab(complaints, Submitted);
    BadgeMatchesTab(complaints, UnderReview);
    BadgeMatchesTab(complaints, Verified);
    BadgeMatchesTab(complaints, Assigned);
    BadgeMatchesTab(complaints, Resolved);
    StatusCounts(|complaints|,
                 CountWithStatus(complaints, Submitted),
                 CountWithStatus(complaints, UnderReview),
                 CountWithStatus(complaints, Verified),
                 CountWithStatus(complaints, Assigned),
                 CountWithStatus(complaints, Resolved))
  }

  lemma {:induction false} StatusCountsAddUp(complaints: seq<Complaint>)
    ensures CountWithStatus(complaints, Submitted) + CountWithStatus(complaints, UnderReview)
          + CountWithStatus(complaints, Verified) + CountWithStatus(complaints, Assigned)
          + CountWithStatus(complaints, Resolved) == |complaints|
  {
    if complaints != [] {
      StatusCountsAddUp(complaints[1..]);
    }
  }

  /** Each status badge equals the length of the list shown when that tab is
      selected with no urgency filter and no search. */
  lemma BadgeMatchesTab(complaints: seq<Complaint>, status: ComplaintStatus)
    ensures CountWithStatus(complaints, status) == |FilteredComplaints(complaints, status.Id(), "all", "")|
  {
    StatusTabSelectsStatus(complaints, status);
  }

  /** The page's own state. Every handler replaces one part wholesale. */
  datatype PageState = PageState(filterStatus: string, filterUrgency: string,
                                 searchQuery: string, selected: Option<Complaint>)

  const InitialPage := PageState("all", "all", "", None)

  /** What the page lists for its state: an order-preserving selection of
      the complaints, the whole list while the filters are at their defaults. */
  function Shown(s: PageState, complaints: seq<Complaint>): (r: seq<Complaint>)
    ensures IsSubsequence(r, complaints)
    ensures s.filterStatus == "all" && s.filterUrgency == "all" && s.searchQuery == "" ==> r == complaints
  {
    DefaultFiltersShowAll(complaints);
    FilteredComplaints(complaints, s.filterStatus, s.filterUrgency, s.searchQuery)
  }

  /** `handleComplaintClick`: opens the detail modal for `c`. */
  function ClickComplaint(s: PageState, c: Complaint): (r: PageState)
    ensures r.selected == Some(c)
    ensures r.(selected := s.selected) == s
  {
    s.(selected := Some(c))
  }

  /** `handleVerify`, `handleAssign`, `handleChangeStatus` and the modal's
      close button: apart from logging, each only clears the selection. */
  function CloseDetail(s: PageState): (r: PageState)
    ensures r.selected == None
    ensures r.(selected := s.selected) == s
  {
    s.(selected := None)
  }

  /** Opening or closing a complaint never changes what is listed, and the
      page starts out listing every complaint. */
  lemma SelectionLeavesListAlone(s: PageState, c: Complaint, complaints: seq<Complaint>)
    ensures Shown(ClickComplaint(s, c), complaints) == Shown(s, complaints)
    ensures Shown(CloseDetail(s), complaints) == Shown(s, complaints)
    ensures Shown(InitialPage, complaints) == complaints
  {
    DefaultFiltersShowAll(complaints);
  }
}
