/** The officials' notification panel (OfficialNotificationPanel): a tab
    filter followed by `Array.prototype.sort` with the comparator
    `(a, b) => bScore - aScore`, where a notification's score is
    `urgencyWeight * 100 + trustScore`. Since ECMAScript 2019 (section
    23.1.3.30 of the 2023 edition) `sort` is stable, so the sorted result is
    determined: `Rank` below computes it by stable insertion, and
    `StableSortIsUnique` shows that any non-increasing, order-preserving
    arrangement of the same items is that result. */
module NotificationPanel {
  import opened Seqs
  import opened Records

  /** A notification's category: four of the six complaint categories. */
  datatype NotificationCategory = NStreetlights | NTraffic | NWater | NWaste
  {
    /** The TypeScript literal. */
    function Id(): string
    {
      match this
      case NStreetlights => "streetlights"
      case NTraffic => "traffic"
      case NWater => "water"
      case NWaste => "waste"
    }

    /** The complaint category carrying the same string literal. */
    function AsCategory(): (c: Category)
      ensures c.Id() == this.Id()
      ensures c != Roads && c != Other
    {
      match this
      case NStreetlights => Streetlights
      case NTraffic => Traffic
      case NWater => Water
      case NWaste => Waste
    }
  }

  datatype Notification = Notification(
    id: string,
    category: NotificationCategory,
    title: string,
    location: string,
    urgency: Urgency,
    trustScore: int,
    timestamp: string,
    unread: bool)

  /** The panel's three tabs (`useState<'all' | 'high' | 'unread'>`). */
  datatype Tab = AllTab | HighTab | UnreadTab

  /** `urgencyWeight`: high 3, medium 2, low 1, so a higher urgency weighs more. */
  function UrgencyWeight(u: Urgency): (w: int)
    ensures 1 <= w <= 3
    ensures w == 3 <==> u == High
    ensures w == 1 <==> u == Low
  {
    match u
    case High => 3
    case Medium => 2
    case Low => 1
  }

  /** The comparator's score. With a trust score in 0..99 the hundreds digit
      is the urgency weight and the rest is the trust score. */
  function Score(n: Notification): (k: int)
    ensures 0 <= n.trustScore <= 99 ==> k / 100 == UrgencyWeight(n.urgency) && k % 100 == n.trustScore
  {
    UrgencyWeight(n.urgency) * 100 + n.trustScore
  }

  predicate OnTab(tab: Tab, n: Notification)
  {
    match tab
    case HighTab => n.urgency == High
    case UnreadTab => n.unread
    case AllTab => true
  }

  /** Scores never increase from left to right. */
  ghost predicate NonIncreasing(s: seq<Notification>)
  {
    forall i, j :: 0 <= i < j < |s| ==> Score(s[i]) >= Score(s[j])
  }

  /** The items of `s` whose score is `k`, in their order in `s`. */
  function ScoreClass(s: seq<Notification>, k: int): seq<Notification>
  {
    Filter((n: Notification) => Score(n) == k, s)
  }

  /** `b` keeps the relative order of every group of equal-score items of `a`. */
  ghost predicate SameScoreOrder(a: seq<Notification>, b: seq<Notification>)
  {
    forall k :: ScoreClass(a, k) == ScoreClass(b, k)
  }

  /** Places `x` in front of the first item that does not outscore it. */
  function Insert(x: Notification, r: seq<Notification>): (res: seq<Notification>)
    ensures multiset(res) == multiset(r) + multiset{x}
  {
    if r == [] then [x]
    else if Score(r[0]) <= Score(x) then [x] + r
    else
      assert r == [r[0]] + r[1..];
      [r[0]] + Insert(x, r[1..])
  }

  /** The stable descending sort by score. */
  function Rank(s: seq<Notification>): (r: seq<Notification>)
    ensures multiset(r) == multiset(s)
  {
    if s == [] then []
    else
      assert s == [s[0]] + s[1..];
      Insert(s[0], Rank(s[1..]))
  }

  /** A non-increasing list stays so when an item at least as high as its head is put in front. */
  lemma ConsNonIncreasing(h: Notification, t: seq<Notification>)
    requires NonIncreasing(t)
    requires t != [] ==> Score(h) >= Score(t[0])
    ensures NonIncreasing([h] + t)
  {
    var res := [h] + t;
    forall i, j | 0 <= i < j < |res| ensures Score(res[i]) >= Score(res[j]) {
      assert res[j] == t[j - 1];
      if i == 0 {
        if j > 1 {
          assert Score(t[0]) >= Score(t[j - 1]);
        }
      } else {
        assert res[i] == t[i - 1];
      }
    }
  }

  lemma TailNonIncreasing(r: seq<Notification>)
    requires NonIncreasing(r) && r != []
    ensures NonIncreasing(r[1..])
  {
    forall i, j | 0 <= i < j < |r[1..]| ensures Score(r[1..][i]) >= Score(r[1..][j]) {
      assert r[1..][i] == r[i + 1] && r[1..][j] == r[j + 1];
    }
  }

  lemma {:induction false} InsertNonIncreasing(x: Notification, r: seq<Notification>)
    requires NonIncreasing(r)
    ensures NonIncreasing(Insert(x, r))
    ensures Insert(x, r)[0] == if r == [] || Score(r[0]) <= Score(x) then x else r[0]
  {
    if r == [] {
    } else if Score(r[0]) <= Score(x) {
      ConsNonIncreasing(x, r);
    } else {
      TailNonIncreasing(r);
      InsertNonIncreasing(x, r[1..]);
      var tail := Insert(x, r[1..]);
      if |r| > 1 {
        assert Score(r[0]) >= Score(r[1]);
      }
      ConsNonIncreasing(r[0], tail);
    }
  }

  lemma {:induction false} RankNonIncreasing(s: seq<Notification>)
    ensures NonIncreasing(Rank(s))
  {
    if s != [] {
      RankNonIncreasing(s[1..]);
      InsertNonIncreasing(s[0], Rank(s[1..]));
    }
  }

  /** Inserting `x` adds it at the front of its own score group and leaves
      every other group as it was. */
  lemma {:induction false} InsertScoreClass(x: Notification, r: seq<Notification>, k: int)
    ensures ScoreClass(Insert(x, r), k) == if Score(x) == k then [x] + ScoreClass(r, k) else ScoreClass(r, k)
  {
    if r == [] {
    } else if Score(r[0]) <= Score(x) {
      assert ([x] + r)[0] == x && ([x] + r)[1..] == r;
    } else {
      InsertScoreClass(x, r[1..], k);
      var res := [r[0]] + Insert(x, r[1..]);
      assert res[0] == r[0] && res[1..] == Insert(x, r[1..]);
    }
  }

  lemma {:induction false} RankScoreOrder(s: seq<Notification>, k: int)
    ensures ScoreClass(Rank(s), k) == ScoreClass(s, k)
  {
    if s != [] {
      RankScoreOrder(s[1..], k);
      InsertScoreClass(s[0], Rank(s[1..]), k);
    }
  }

  /** `Rank` is a stable sort: the result is a permutation of the input, is
      non-increasing in score, and keeps equal-score items in input order. */
  lemma RankIsStableSort(s: seq<Notification>)
    ensures multiset(Rank(s)) == multiset(s)
    ensures NonIncreasing(Rank(s))
    ensures SameScoreOrder(s, Rank(s))
  {
    RankNonIncreasing(s);
    forall k ensures ScoreClass(s, k) == ScoreClass(Rank(s), k) {
      RankScoreOrder(s, k);
    }
  }

  /** In a non-increasing list the first item has the top score. */
  lemma HeadIsMaximal(s: seq<Notification>, y: Notification)
    requires NonIncreasing(s) && y in s
    ensures Score(y) <= Score(s[0])
  {
    var j :| 0 <= j < |s| && s[j] == y;
    if j > 0 {
      assert Score(s[0]) >= Score(s[j]);
    }
  }

  lemma ScoreClassUnfold(s: seq<Notification>, k: int)
    requires s != []
    ensures ScoreClass(s, k) == if Score(s[0]) == k then [s[0]] + ScoreClass(s[1..], k) else ScoreClass(s[1..], k)
  {
  }

  lemma NonEmptyHasClass(s: seq<Notification>)
    requires s != []
    ensures s[0] in ScoreClass(s, Score(s[0]))
  {
    ScoreClassUnfold(s, Score(s[0]));
  }

  /** Two non-increasing arrangements that keep every equal-score group in the
      same order are the same list. So whatever algorithm the engine's stable
      `sort` uses, its result is `Rank` of the input. */
  lemma {:induction false} StableSortIsUnique(a: seq<Notification>, b: seq<Notification>)
    requires NonIncreasing(a) && NonIncreasing(b) && SameScoreOrder(a, b)
    ensures a == b
    decreases |a|
  {
    if a == [] {
      if b != [] {
        NonEmptyHasClass(b);
      }
    } else if b == [] {
      NonEmptyHasClass(a);
    } else {
      var ka, kb := Score(a[0]), Score(b[0]);
      NonEmptyHasClass(a);
      NonEmptyHasClass(b);
      FilterMember((n: Notification) => Score(n) == ka, b, a[0]);
      FilterMember((n: Notification) => Score(n) == kb, a, b[0]);
      HeadIsMaximal(b, a[0]);
      HeadIsMaximal(a, b[0]);
      assert ka == kb;
      ScoreClassUnfold(a, ka);
      ScoreClassUnfold(b, ka);
      assert ScoreClass(a, ka)[0] == a[0] && ScoreClass(b, ka)[0] == b[0];
      forall k ensures ScoreClass(a[1..], k) == ScoreClass(b[1..], k) {
        ScoreClassUnfold(a, k);
        ScoreClassUnfold(b, k);
        assert ScoreClass(a, k) == ScoreClass(b, k);
        if k == ka {
          assert ScoreClass(a[1..], k) == ScoreClass(a, k)[1..];
        }
      }
      TailNonIncreasing(a);
      TailNonIncreasing(b);
      StableSortIsUnique(a[1..], b[1..]);
      assert a == [a[0]] + a[1..] && b == [b[0]] + b[1..];
    }
  }

  /** `filteredNotifications`: the items on the chosen tab, ranked. */
  function FilteredNotifications(notifications: seq<Notification>, tab: Tab): (r: seq<Notification>)
    ensures |r| <= |notifications|
    ensures forall n :: n in r <==> n in notifications && OnTab(tab, n)
  {
    var onTab := (n: Notification) => OnTab(tab, n);
    var kept := Filter(onTab, notifications);
    assert forall n :: n in Rank(kept) <==> n in multiset(Rank(kept));
    assert forall n :: n in kept <==> n in notifications && OnTab(tab, n) by {
      forall n: Notification { FilterMember(onTab, notifications, n); }
    }
    assert |Rank(kept)| == |multiset(Rank(kept))| == |kept|;
    Rank(kept)
  }

  /** The panel lists exactly the items on the tab (each as often as in the
      input), highest score first, ties in input order; and any output with
      those properties is this one. */
  lemma FilteredNotificationsSpec(notifications: seq<Notification>, tab: Tab, out: seq<Notification>)
    ensures var r := FilteredNotifications(notifications, tab);
            var onTab := Filter((n: Notification) => OnTab(tab, n), notifications);
            && multiset(r) == multiset(onTab)
            && NonIncreasing(r)
            && SameScoreOrder(onTab, r)
            && (NonIncreasing(out) && SameScoreOrder(onTab, out) ==> out == r)
  {
    var onTab := Filter((n: Notification) => OnTab(tab, n), notifications);
    var r := Rank(onTab);
    RankIsStableSort(onTab);
    if NonIncreasing(out) && SameScoreOrder(onTab, out) {
      StableSortIsUnique(out, r);
    }
  }

  /** Each tab keeps what its name says: "High Priority" exactly the
      high-urgency items, "Unread" exactly the unread ones, "All" everything. */
  lemma TabsKeepWhatTheySay(notifications: seq<Notification>, n: Notification)
    ensures n in FilteredNotifications(notifications, HighTab) <==> n in notifications && n.urgency == High
    ensures n in FilteredNotifications(notifications, UnreadTab) <==> n in notifications && n.unread
    ensures multiset(FilteredNotifications(notifications, AllTab)) == multiset(notifications)
  {
    forall tab: Tab ensures n in FilteredNotifications(notifications, tab) <==> n in notifications && OnTab(tab, n) {
      var onTab := Filter((m: Notification) => OnTab(tab, m), notifications);
      assert n in Rank(onTab) <==> n in multiset(Rank(onTab));
      FilterMember((m: Notification) => OnTab(tab, m), notifications, n);
    }
    FilterKeepsAll((m: Notification) => OnTab(AllTab, m), notifications);
  }

  /** With trust scores in 0..99 the urgency weight dominates: every item
      ranked above another has at least its urgency. */
  lemma UrgencyDominatesBelowFullTrust(s: seq<Notification>)
    requires NonIncreasing(s)
    requires forall n :: n in s ==> 0 <= n.trustScore <= 99
    ensures forall i, j :: 0 <= i < j < |s| ==> UrgencyWeight(s[i].urgency) >= UrgencyWeight(s[j].urgency)
  {
    forall i, j | 0 <= i < j < |s| ensures UrgencyWeight(s[i].urgency) >= UrgencyWeight(s[j].urgency) {
      assert s[i] in s && s[j] in s;
      assert Score(s[i]) >= Score(s[j]);
    }
  }

  /** At trust 100 the weights no longer dominate: a medium item at trust 100
      ties a high item at trust 0, and the stable sort then keeps whichever came
      first, so a medium item can be listed above a high one. */
  lemma MediumAtFullTrustCanPrecedeHigh()
    ensures var medium := Notification("m", NWater, "", "", Medium, 100, "", true);
            var high := Notification("h", NWater, "", "", High, 0, "", true);
            Score(medium) == Score(high) && Rank([medium, high]) == [medium, high]
  {
  }

  /** `unreadCount`: the number of positions of the unfiltered list holding
      an unread notification. */
  function UnreadCount(notifications: seq<Notification>): (r: nat)
    ensures r == |set i | 0 <= i < |notifications| && notifications[i].unread|
  {
    var unread := (n: Notification) => n.unread;
    FilterLengthCountsPositions(unread, notifications);
    assert Positions(unread, notifications) == set i | 0 <= i < |notifications| && notifications[i].unread;
    |Filter(unread, notifications)|
  }

  /** The unread badge counts exactly the items the "Unread" tab lists, and
      the "All" tab lists as many items as its label shows. */
  lemma TabLengths(notifications: seq<Notification>)
    ensures |FilteredNotifications(notifications, UnreadTab)| == UnreadCount(notifications)
    ensures |FilteredNotifications(notifications, AllTab)| == |notifications|
  {
    var unread := (n: Notification) => n.unread;
    var onTab := (n: Notification) => OnTab(UnreadTab, n);
    FilterAgree(unread, onTab, notifications);
    var shown := Filter(onTab, notifications);
    assert |Rank(shown)| == |multiset(Rank(shown))| == |shown|;
    FilterKeepsAll((n: Notification) => OnTab(AllTab, n), notifications);
    assert |Rank(notifications)| == |multiset(Rank(notifications))| == |notifications|;
  }
}
