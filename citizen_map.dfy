/** The infrastructure map (CitizenMapPage, and the same filter in App's
    official dashboard): nodes filtered by a category selection and a status
    selection, each of which may be the `'all'` sentinel, plus per-status and
    per-type tallies over the unfiltered node list. */
module CitizenMap {
  import opened Seqs

  datatype NodeType = Streetlights | Traffic | Water | Waste
  {
    function Id(): string
    {
      match this
      case Streetlights => "streetlights"
      case Traffic => "traffic"
      case Water => "water"
      case Waste => "waste"
    }
  }

  datatype NodeStatus = Operational | Warning | Critical | Maintenance
  {
    function Id(): string
    {
      match this
      case Operational => "operational"
      case Warning => "warning"
      case Critical => "critical"
      case Maintenance => "maintenance"
    }
  }

  datatype Node = Node(
    id: string,
    nodeType: NodeType,
    status: NodeStatus,
    latitude: real,
    longitude: real,
    name: string,
    details: string)

  lemma NodeIdsAreDistinct()
    ensures forall a: NodeType, b: NodeType :: a.Id() == b.Id() ==> a == b
    ensures forall a: NodeStatus, b: NodeStatus :: a.Id() == b.Id() ==> a == b
    ensures forall t: NodeType :: t.Id() != "all"
    ensures forall st: NodeStatus :: st.Id() != "all"
  {
  }

  predicate CategoryMatch(n: Node, selectedCategory: string)
  {
    selectedCategory == "all" || n.nodeType.Id() == selectedCategory
  }

  predicate StatusMatch(n: Node, selectedStatus: string)
  {
    selectedStatus == "all" || n.status.Id() == selectedStatus
  }

  /** `filteredNodes`: the nodes meeting both constraints, in their original
      order; never more than the whole list ("Showing X of Y"). */
  function FilterNodes(nodes: seq<Node>, selectedCategory: string, selectedStatus: string): (r: seq<Node>)
    ensures |r| <= |nodes|
    ensures IsSubsequence(r, nodes)
    ensures forall i :: 0 <= i < |r| ==> CategoryMatch(r[i], selectedCategory) && StatusMatch(r[i], selectedStatus)
    ensures forall i :: 0 <= i < |nodes| ==>
                          (CategoryMatch(nodes[i], selectedCategory) && StatusMatch(nodes[i], selectedStatus) ==> nodes[i] in r)
    ensures forall n :: multiset(r)[n] == if CategoryMatch(n, selectedCategory) && StatusMatch(n, selectedStatus)
                                         then multiset(nodes)[n] else 0
  {
    var keep := (n: Node) => CategoryMatch(n, selectedCategory) && StatusMatch(n, selectedStatus);
    FilterIsSubsequence(keep, nodes);
    FilterCounts(keep, nodes);
    Filter(keep, nodes)
  }

  /** With both selections at `'all'` every node is shown, in order. */
  lemma AllSelectionsShowEverything(nodes: seq<Node>)
    ensures FilterNodes(nodes, "all", "all") == nodes
  {
    FilterKeepsAll((n: Node) => CategoryMatch(n, "all") && StatusMatch(n, "all"), nodes);
  }

  /** A category selection alone keeps exactly the nodes of that type, and a
      status selection alone exactly the nodes in that status. */
  lemma SingleSelectionKeepsExactlyThat(nodes: seq<Node>, t: NodeType, st: NodeStatus)
    ensures FilterNodes(nodes, t.Id(), "all") == Filter((n: Node) => n.nodeType == t, nodes)
    ensures FilterNodes(nodes, "all", st.Id()) == Filter((n: Node) => n.status == st, nodes)
  {
    NodeIdsAreDistinct();
    FilterAgree((n: Node) => CategoryMatch(n, t.Id()) && StatusMatch(n, "all"), (n: Node) => n.nodeType == t, nodes);
    FilterAgree((n: Node) => CategoryMatch(n, "all") && StatusMatch(n, st.Id()), (n: Node) => n.status == st, nodes);
  }

  /** The two constraints are independent: filtering by one and then the
      other, in either order, is the combined filter. */
  lemma ConstraintsCommute(nodes: seq<Node>, selectedCategory: string, selectedStatus: string)
    ensures FilterNodes(FilterNodes(nodes, selectedCategory, "all"), "all", selectedStatus)
         == FilterNodes(nodes, selectedCategory, selectedStatus)
    ensures FilterNodes(FilterNodes(nodes, "all", selectedStatus), selectedCategory, "all")
         == FilterNodes(nodes, selectedCategory, selectedStatus)
  {
    var both := (n: Node) => CategoryMatch(n, selectedCategory) && StatusMatch(n, selectedStatus);
    var byCategory := (n: Node) => CategoryMatch(n, selectedCategory) && StatusMatch(n, "all");
    var byStatus := (n: Node) => CategoryMatch(n, "all") && StatusMatch(n, selectedStatus);
    assert FilterNodes(nodes, selectedCategory, "all") == Filter(byCategory, nodes);
    assert FilterNodes(nodes, "all", selectedStatus) == Filter(byStatus, nodes);
    FilterFilter(byStatus, byCategory, both, nodes);
    FilterFilter(byCategory, byStatus, both, nodes);
  }

  /** A status count: the number of positions holding a node in that status. */
  function CountWithStatus(nodes: seq<Node>, st: NodeStatus): (k: nat)
    ensures k == |set i | 0 <= i < |nodes| && nodes[i].status == st|
  {
    var has := (n: Node) => n.status == st;
    FilterLengthCountsPositions(has, nodes);
    assert Positions(has, nodes) == set i | 0 <= i < |nodes| && nodes[i].status == st;
    |Filter(has, nodes)|
  }

  /** A category button's count: the number of positions holding a node of that type. */
  function CountOfType(nodes: seq<Node>, t: NodeType): (k: nat)
    ensures k == |set i | 0 <= i < |nodes| && nodes[i].nodeType == t|
  {
    var has := (n: Node) => n.nodeType == t;
    FilterLengthCountsPositions(has, nodes);
    assert Positions(has, nodes) == set i | 0 <= i < |nodes| && nodes[i].nodeType == t;
    |Filter(has, nodes)|
  }

  datatype NodeStatusCounts = NodeStatusCounts(operational: nat, warning: nat, critical: nat, maintenance: nat)

  /** `statusCounts`: computed over the unfiltered list, so the selections do
      not affect it. Every node has one of the four statuses, so the counts
      add up to the number of nodes. */
  function StatusCountsOf(nodes: seq<Node>): (r: NodeStatusCounts)
    ensures r.operational == |FilterNodes(nodes, "all", Operational.Id())|
    ensures r.warning == |FilterNodes(nodes, "all", Warning.Id())|
    ensures r.critical == |FilterNodes(nodes, "all", Critical.Id())|
    ensures r.maintenance == |FilterNodes(nodes, "all", Maintenance.Id())|
    ensures r.operational + r.warning + r.critical + r.maintenance == |nodes|
  {
    StatusCountsAddUp(nodes);
    CountsMatchButtons(nodes, Streetlights, Operational);
    CountsMatchButtons(nodes, Streetlights, Warning);
    CountsMatchButtons(nodes, Streetlights, Critical);
    CountsMatchButtons(nodes, Streetlights, Maintenance);
    NodeStatusCounts(CountWithStatus(nodes, Operational), CountWithStatus(nodes, Warning),
                     CountWithStatus(nodes, Critical), CountWithStatus(nodes, Maintenance))
  }

  lemma {:induction false} StatusCountsAddUp(nodes: seq<Node>)
    ensures CountWithStatus(nodes, Operational) + CountWithStatus(nodes, Warning)
          + CountWithStatus(nodes, Critical) + CountWithStatus(nodes, Maintenance) == |nodes|
  {
    if nodes != [] {
      StatusCountsAddUp(nodes[1..]);
    }
  }

  /** The counts beside the four category buttons add up to the count beside
      "All Infrastructure". */
  lemma {:induction false} TypeCountsAddUp(nodes: seq<Node>)
    ensures CountOfType(nodes, Streetlights) + CountOfType(nodes, Traffic)
          + CountOfType(nodes, Water) + CountOfType(nodes, Waste) == |nodes|
  {
    if nodes != [] {
      TypeCountsAddUp(nodes[1..]);
    }
  }

  /** Each button's count is the number of nodes the map shows once that
      button is chosen and the other selection is `'all'`. */
  lemma CountsMatchButtons(nodes: seq<Node>, t: NodeType, st: NodeStatus)
    ensures CountOfType(nodes, t) == |FilterNodes(nodes, t.Id(), "all")|
    ensures CountWithStatus(nodes, st) == |FilterNodes(nodes, "all", st.Id())|
  {
    SingleSelectionKeepsExactlyThat(nodes, t, st);
  }

  /** The page's two selections, set by the filter buttons and the chips. */
  class MapFilters {
    var selectedCategory: string
    var selectedStatus: string

    constructor ()
      ensures selectedCategory == "all" && selectedStatus == "all"
    {
      selectedCategory := "all";
      selectedStatus := "all";
    }

    /** What the map shows for the current selections. */
    function Shown(nodes: seq<Node>): (r: seq<Node>)
      reads this
      ensures |r| <= |nodes| && IsSubsequence(r, nodes)
    {
      FilterNodes(nodes, selectedCategory, selectedStatus)
    }

    /** Whether the "Active Filters" row is displayed. While it is hidden the
        map shows every node. */
    function HasActiveFilters(): (active: bool)
      reads this
      ensures !active ==> forall nodes :: Shown(nodes) == nodes
    {
      assert selectedCategory == "all" && selectedStatus == "all" ==> forall nodes :: Shown(nodes) == nodes by {
        forall nodes: seq<Node> | selectedCategory == "all" && selectedStatus == "all" ensures Shown(nodes) == nodes {
          AllSelectionsShowEverything(nodes);
        }
      }
      selectedCategory != "all" || selectedStatus != "all"
    }

    /** A category button, or (with `"all"`) the category chip's clear. */
    method SelectCategory(category: string)
      modifies this
      ensures selectedCategory == category && selectedStatus == old(selectedStatus)
    {
      selectedCategory := category;
    }

    /** A status button, or (with `"all"`) the status chip's clear. */
    method SelectStatus(status: string)
      modifies this
      ensures selectedStatus == status && selectedCategory == old(selectedCategory)
    {
      selectedStatus := status;
    }

    /** "Clear all": both selections back to `'all'`, after which the whole
        list is shown and the "Active Filters" row disappears. */
    method ClearAll()
      modifies this
      ensures selectedCategory == "all" && selectedStatus == "all"
      ensures !HasActiveFilters()
      ensures forall nodes :: Shown(nodes) == nodes
    {
      selectedCategory := "all";
      selectedStatus := "all";
    }
  }
}
