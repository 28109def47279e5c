/** The officials' real-time alerts panel (AlertsPanel): a grow-only set of
    dismissed alert ids and the list of alerts not yet dismissed. */
module AlertsPanel {
  import opened Seqs

  datatype AlertType = Critical | Warning | Info

  datatype Alert = Alert(
    id: string,
    alertType: AlertType,
    title: string,
    message: string,
    location: string,
    timestamp: string,
    category: string)

  /** `visibleAlerts`: the alerts whose id has not been dismissed, in order. */
  function VisibleAlerts(alerts: seq<Alert>, dismissed: set<string>): (r: seq<Alert>)
    ensures IsSubsequence(r, alerts)
    ensures forall a :: a in r <==> a in alerts && a.id !in dismissed
    ensures forall a :: multiset(r)[a] == if a.id in dismissed then 0 else multiset(alerts)[a]
  {
    var keep := (a: Alert) => a.id !in dismissed;
    FilterIsSubsequence(keep, alerts);
    FilterCounts(keep, alerts);
    assert forall a :: a in Filter(keep, alerts) <==> a in alerts && keep(a) by {
      forall a: Alert { FilterMember(keep, alerts, a); }
    }
    Filter(keep, alerts)
  }

  /** Dismissing `id` removes exactly the visible alerts with that id (every
      one of them, should ids repeat) and keeps all others in their order. */
  lemma DismissRemovesExactlyThatId(alerts: seq<Alert>, dismissed: set<string>, id: string)
    ensures VisibleAlerts(alerts, dismissed + {id})
         == Filter((a: Alert) => a.id != id, VisibleAlerts(alerts, dismissed))
  {
    FilterFilter((a: Alert) => a.id != id, (a: Alert) => a.id !in dismissed,
                 (a: Alert) => a.id !in dismissed + {id}, alerts);
  }

  /** Dismissing an id that is already dismissed changes nothing. */
  lemma DismissAgainChangesNothing(alerts: seq<Alert>, dismissed: set<string>, id: string)
    requires id in dismissed
    ensures VisibleAlerts(alerts, dismissed + {id}) == VisibleAlerts(alerts, dismissed)
  {
    assert dismissed + {id} == dismissed;
  }

  /** A larger dismissed set shows a sub-list of what a smaller one shows,
      so the "Active" count never goes up as alerts are dismissed. */
  lemma MoreDismissedShowsLess(alerts: seq<Alert>, d1: set<string>, d2: set<string>)
    requires d1 <= d2
    ensures IsSubsequence(VisibleAlerts(alerts, d2), VisibleAlerts(alerts, d1))
    ensures |VisibleAlerts(alerts, d2)| <= |VisibleAlerts(alerts, d1)|
  {
    var in1 := (a: Alert) => a.id !in d1;
    var in2 := (a: Alert) => a.id !in d2;
    FilterFilter(in2, in1, in2, alerts);
    FilterIsSubsequence(in2, Filter(in1, alerts));
  }

  /** The empty state ("No active alerts") appears exactly when every alert
      has been dismissed. */
  lemma EmptyStateIffAllDismissed(alerts: seq<Alert>, dismissed: set<string>)
    ensures |VisibleAlerts(alerts, dismissed)| == 0 <==> forall a :: a in alerts ==> a.id in dismissed
  {
    var r := VisibleAlerts(alerts, dismissed);
    if r != [] {
      assert r[0] in r;
    }
  }

  class Panel {
    var dismissedAlerts: set<string>

    constructor ()
      ensures dismissedAlerts == {}
    {
      dismissedAlerts := {};
    }

    /** The alerts the panel lists. */
    function Visible(alerts: seq<Alert>): seq<Alert>
      reads this
    {
      VisibleAlerts(alerts, dismissedAlerts)
    }

    /** The "N Active" badge. */
    function ActiveCount(alerts: seq<Alert>): (n: nat)
      reads this
      ensures n <= |alerts|
    {
      SubsequenceLength(Visible(alerts), alerts);
      |Visible(alerts)|
    }

    /** `handleDismiss`: adds the id; the set only grows. */
    method Dismiss(id: string, ghost alerts: seq<Alert>)
      modifies this
      ensures dismissedAlerts == old(dismissedAlerts) + {id}
      ensures old(dismissedAlerts) <= dismissedAlerts
      ensures Visible(alerts) == Filter((a: Alert) => a.id != id, old(Visible(alerts)))
      ensures ActiveCount(alerts) <= old(ActiveCount(alerts))
    {
      DismissRemovesExactlyThatId(alerts, dismissedAlerts, id);
      MoreDismissedShowsLess(alerts, dismissedAlerts, dismissedAlerts + {id});
      dismissedAlerts := dismissedAlerts + {id};
    }
  }
}
