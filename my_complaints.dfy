/** The citizen's "My Complaints" page (MyComplaintsPage): the split of the
    citizen's complaints into an active and a resolved group, and the status
    timeline of the complaint opened in the detail view. */
module MyComplaints {
  import opened Seqs
  import Records

  datatype CitizenStatus = Submitted | UnderReview | Resolved

  /** One entry of a complaint's `statusHistory`; the status is free text. */
  datatype HistoryEntry = HistoryEntry(status: string, date: string, note: Records.Option<string>)

  datatype MyComplaint = MyComplaint(
    id: string,
    category: Records.Category,
    title: string,
    description: string,
    location: string,
    date: string,
    time: string,
    status: CitizenStatus,
    urgency: Records.Urgency,
    images: seq<string>,
    statusHistory: seq<HistoryEntry>)

  predicate IsActive(c: MyComplaint)
  {
    c.status == Submitted || c.status == UnderReview
  }

  /** `groupedComplaints.active`: the submitted and under-review complaints, in order. */
  function ActiveGroup(complaints: seq<MyComplaint>): (r: seq<MyComplaint>)
    ensures IsSubsequence(r, complaints)
    ensures forall c :: c in r <==> c in complaints && IsActive(c)
  {
    var active := (c: MyComplaint) => c.status == Submitted || c.status == UnderReview;
    FilterIsSubsequence(active, complaints);
    assert forall c :: c in Filter(active, complaints) <==> c in complaints && active(c) by {
      forall c: MyComplaint { FilterMember(active, complaints, c); }
    }
    Filter(active, complaints)
  }

  /** `groupedComplaints.resolved`: the resolved complaints, in order. */
  function ResolvedGroup(complaints: seq<MyComplaint>): (r: seq<MyComplaint>)
    ensures IsSubsequence(r, complaints)
    ensures forall c :: c in r <==> c in complaints && c.status == Resolved
  {
    var resolved := (c: MyComplaint) => c.status == Resolved;
    FilterIsSubsequence(resolved, complaints);
    assert forall c :: c in Filter(resolved, complaints) <==> c in complaints && resolved(c) by {
      forall c: MyComplaint { FilterMember(resolved, complaints, c); }
    }
    Filter(resolved, complaints)
  }

  /** The two groups partition the list: a complaint is active iff it is
      submitted or under review, resolved iff resolved, never both, both
      groups keep the list's order, and since there are only three statuses
      every complaint is in one of them. */
  lemma GroupsPartition(complaints: seq<MyComplaint>)
    ensures |ActiveGroup(complaints)| + |ResolvedGroup(complaints)| == |complaints|
    ensures forall c :: c in ActiveGroup(complaints) <==> c in complaints && IsActive(c)
    ensures forall c :: c in ResolvedGroup(complaints) <==> c in complaints && c.status == Resolved
    ensures forall c :: !(c in ActiveGroup(complaints) && c in ResolvedGroup(complaints))
    ensures IsSubsequence(ActiveGroup(complaints), complaints) && IsSubsequence(ResolvedGroup(complaints), complaints)
  {
    var active := (c: MyComplaint) => c.status == Submitted || c.status == UnderReview;
    var resolved := (c: MyComplaint) => c.status == Resolved;
    FilterSplit(active, resolved, complaints);
    forall c: MyComplaint
      ensures c in ActiveGroup(complaints) <==> c in complaints && IsActive(c)
      ensures c in ResolvedGroup(complaints) <==> c in complaints && c.status == Resolved
    {
      FilterMember(active, complaints, c);
      FilterMember(resolved, complaints, c);
    }
    FilterIsSubsequence(active, complaints);
    FilterIsSubsequence(resolved, complaints);
  }

  /** How the timeline draws one history entry: a highlighted dot for the
      current entry, and a connector line down to the next entry. */
  datatype TimelineDot = TimelineDot(entry: HistoryEntry, current: bool, connector: bool)

  /** The timeline of `statusHistory.map((item, idx) => …)`: entry `idx` is
      current iff `idx === length - 1`, and has a connector iff `idx < length - 1`. */
  function Timeline(history: seq<HistoryEntry>): (dots: seq<TimelineDot>)
    ensures |dots| == |history|
    ensures forall i :: 0 <= i < |dots| ==> dots[i].entry == history[i]
    ensures forall i :: 0 <= i < |dots| ==> (dots[i].connector <==> !dots[i].current)
    ensures history != [] ==> dots[|dots| - 1].current
  {
    seq(|history|, i requires 0 <= i < |history| =>
      TimelineDot(history[i], i == |history| - 1, i < |history| - 1))
  }

  /** The current marker sits on at most one entry, the last one: a
      non-empty history has exactly one current entry and an empty one none. */
  lemma OnlyLastIsCurrent(history: seq<HistoryEntry>)
    ensures forall i :: 0 <= i < |history| && Timeline(history)[i].current ==> i == |history| - 1
    ensures |set i | 0 <= i < |history| && Timeline(history)[i].current| == if history == [] then 0 else 1
  {
    var dots := Timeline(history);
    if history != [] {
      assert (set i | 0 <= i < |history| && dots[i].current) == {|history| - 1};
    }
  }
}
