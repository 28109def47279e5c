/** The citizen home page (CitizenDashboard): the citizen's own complaints
    filtered by a category select. Its complaint records carry free-text,
    capitalised categories ("Streetlights", "Roads"), which are lower-cased
    before being compared with the select's value. */
module CitizenDashboard {
  import opened Seqs
  import opened Text
  import opened Records

  datatype DashboardStatus = Pending | InProgress | Resolved

  /** A complaint as the citizen's dashboard lists it. */
  datatype DashboardComplaint = DashboardComplaint(
    id: string,
    title: string,
    description: string,
    location: string,
    category: string,
    status: DashboardStatus,
    timestamp: string,
    image: Option<string>)

  predicate InCategory(c: DashboardComplaint, selectedCategory: string)
  {
    Lower(c.category) == selectedCategory
  }

  /** `filteredComplaints`: the whole list for `'all'`; otherwise exactly the
      complaints whose lower-cased category equals the selection, in order. */
  function FilteredComplaints(complaints: seq<DashboardComplaint>, selectedCategory: string): (r: seq<DashboardComplaint>)
    ensures selectedCategory == "all" ==> r == complaints
    ensures IsSubsequence(r, complaints)
    ensures selectedCategory != "all" ==> forall i :: 0 <= i < |r| ==> InCategory(r[i], selectedCategory)
    ensures selectedCategory != "all" ==>
              forall i :: 0 <= i < |complaints| ==> (InCategory(complaints[i], selectedCategory) ==> complaints[i] in r)
    ensures selectedCategory != "all" ==>
              forall c :: multiset(r)[c] == if InCategory(c, selectedCategory) then multiset(complaints)[c] else 0
  {
    if selectedCategory == "all" then
      assert IsSubsequence(complaints, complaints) by { SubsequenceReflexive(complaints); }
      complaints
    else
      var keep := (c: DashboardComplaint) => InCategory(c, selectedCategory);
      FilterIsSubsequence(keep, complaints);
      FilterCounts(keep, complaints);
      Filter(keep, complaints)
  }

  /** A selection that no lower-cased category equals shows nothing. */
  lemma NoMatchYieldsEmpty(complaints: seq<DashboardComplaint>, selectedCategory: string)
    requires selectedCategory != "all"
    requires forall c :: c in complaints ==> Lower(c.category) != selectedCategory
    ensures FilteredComplaints(complaints, selectedCategory) == []
  {
    FilterKeepsNone((c: DashboardComplaint) => InCategory(c, selectedCategory), complaints);
  }

  /** Only the left-hand side of the comparison, the complaint's category, is lower-cased, so a
      selection with an upper-case letter matches no complaint at all. The
      select only offers lower-case values. */
  lemma UpperCaseSelectionMatchesNothing(complaints: seq<DashboardComplaint>, selectedCategory: string, k: int)
    requires 0 <= k < |selectedCategory| && IsUpper(selectedCategory[k])
    ensures FilteredComplaints(complaints, selectedCategory) == []
  {
    forall c | c in complaints ensures Lower(c.category) != selectedCategory {
      if |Lower(c.category)| == |selectedCategory| {
        assert !IsUpper(Lower(c.category)[k]);
      }
    }
    NoMatchYieldsEmpty(complaints, selectedCategory);
  }
}
