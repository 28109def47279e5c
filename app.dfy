/** The top-level component (App): session, theme and page state, the
    screen it chooses from that state, the notification click handler, and the
    two derived values it computes inline (the official map's node filter and
    the header's notification badge). */
module App {
  import opened Seqs
  import opened Records
  import NotificationPanel
  import CitizenMap

  datatype Theme = Light | Dark

  datatype Role = Official | Citizen

  /** Which of the three top-level renderings App returns. */
  datatype Screen = LoginScreen | CitizenScreen | OfficialScreen

  /** `toggleTheme`'s updater `prev => prev === 'light' ? 'dark' : 'light'`. */
  function Toggled(t: Theme): (r: Theme)
    ensures r != t
  {
    if t == Light then Dark else Light
  }

  lemma ToggleTwiceRestores(t: Theme)
    ensures Toggled(Toggled(t)) == t
  {
  }

  /** The page `handleLogin` opens for a role. */
  function LandingPage(role: Role): (page: string)
    ensures page == "overview" <==> role == Official
    ensures page == "home" <==> role == Citizen
  {
    match role
    case Official => "overview"
    case Citizen => "home"
  }

  /** `handleNotificationClick`'s conversion into the complaint shown in the
      detail modal: the notification's own fields are carried over, the rest
      are fixed placeholders, and the new complaint has no photos. */
  function ComplaintFromNotification(n: NotificationPanel.Notification): (c: Complaint)
    ensures c.id == n.id && c.title == n.title && c.location == n.location
    ensures c.category.Id() == n.category.Id()
    ensures c.urgency == n.urgency && c.trustScore == n.trustScore && c.timestamp == n.timestamp
    ensures c.status == Submitted && c.reportedBy == "John Doe" && c.photos == []
    ensures c.description == "Detailed description of the issue will appear here..."
  {
    Complaint(n.id, n.category.AsCategory(), n.title,
              "Detailed description of the issue will appear here...",
              n.location, n.urgency, n.trustScore, n.timestamp, Submitted, "John Doe", [])
  }

  /** `notificationCount`, the header badge: the panel's unread count, and
      so the length of the list the panel's "Unread" tab shows. */
  function NotificationCount(notifications: seq<NotificationPanel.Notification>): (r: nat)
    ensures r == |NotificationPanel.FilteredNotifications(notifications, NotificationPanel.UnreadTab)|
  {
    NotificationPanel.TabLengths(notifications);
    NotificationPanel.UnreadCount(notifications)
  }

  /** A snapshot of App's nine `useState` hooks. */
  datatype AppState = AppState(
    theme: Theme,
    isAuthenticated: bool,
    userRole: Option<Role>,
    selectedCategory: string,
    selectedStatus: string,
    sidebarOpen: bool,
    currentPage: string,
    notificationPanelOpen: bool,
    selectedComplaint: Option<Complaint>)

  const InitialState := AppState(Light, false, None, "all", "all", false, "overview", false, None)

  class Shell {
    var theme: Theme
    var isAuthenticated: bool
    var userRole: Option<Role>
    var selectedCategory: string
    var selectedStatus: string
    var sidebarOpen: bool
    var currentPage: string
    var notificationPanelOpen: bool
    var selectedComplaint: Option<Complaint>

    function State(): AppState
      reads this
    {
      AppState(theme, isAuthenticated, userRole, selectedCategory, selectedStatus,
               sidebarOpen, currentPage, notificationPanelOpen, selectedComplaint)
    }

    /** A user is authenticated exactly when a role is recorded. */
    predicate SessionConsistent()
      reads this
    {
      isAuthenticated <==> userRole.Some?
    }

    constructor ()
      ensures State() == InitialState
      ensures SessionConsistent()
    {
      theme := Light;
      isAuthenticated := false;
      userRole := None;
      selectedCategory := "all";
      selectedStatus := "all";
      sidebarOpen := false;
      currentPage := "overview";
      notificationPanelOpen := false;
      selectedComplaint := None;
    }

    /** The rendering App returns: the login page until authenticated, then
        the citizen pages for a citizen and the official dashboard otherwise. */
    function CurrentScreen(): (s: Screen)
      reads this
      ensures s == LoginScreen <==> !isAuthenticated
      ensures SessionConsistent() ==> (s == OfficialScreen <==> userRole == Some(Official))
      ensures SessionConsistent() ==> (s == CitizenScreen <==> userRole == Some(Citizen))
    {
      if !isAuthenticated then LoginScreen
      else match userRole
        case Some(Citizen) => CitizenScreen
        case Some(Official) => OfficialScreen
        case None => OfficialScreen
    }

    method ToggleTheme()
      modifies this
      ensures State() == old(State()).(theme := Toggled(old(theme)))
    {
      theme := Toggled(theme);
    }

    /** `handleLogin`: records the role, authenticates, and opens the role's landing page. */
    method Login(role: Role)
      modifies this
      ensures State() == old(State()).(userRole := Some(role), isAuthenticated := true,
                                       currentPage := LandingPage(role))
      ensures SessionConsistent()
      ensures CurrentScreen() == if role == Official then OfficialScreen else CitizenScreen
    {
      userRole := Some(role);
      isAuthenticated := true;
      currentPage := LandingPage(role);
    }

    /** `handleLogout`: back to the login page; theme, filters and panels are kept. */
    method Logout()
      modifies this
      ensures State() == old(State()).(isAuthenticated := false, userRole := None,
                                       currentPage := "overview")
      ensures SessionConsistent()
      ensures CurrentScreen() == LoginScreen
    {
      isAuthenticated := false;
      userRole := None;
      currentPage := "overview";
    }

    /** `handleNavigate`, used by the header, both sidebars and the form's cancel button. */
    method Navigate(page: string)
      modifies this
      ensures State() == old(State()).(currentPage := page)
    {
      currentPage := page;
    }

    /** `handleNotificationClick`: opens the converted complaint and closes the panel. */
    method ClickNotification(n: NotificationPanel.Notification)
      modifies this
      ensures State() == old(State()).(selectedComplaint := Some(ComplaintFromNotification(n)),
                                       notificationPanelOpen := false)
    {
      selectedComplaint := Some(ComplaintFromNotification(n));
      notificationPanelOpen := false;
    }

    /** The header's bell: `setNotificationPanelOpen(!notificationPanelOpen)`. */
    method ToggleNotificationPanel()
      modifies this
      ensures State() == old(State()).(notificationPanelOpen := !old(notificationPanelOpen))
    {
      notificationPanelOpen := !notificationPanelOpen;
    }

    /** The panel's own close button. */
    method CloseNotificationPanel()
      modifies this
      ensures State() == old(State()).(notificationPanelOpen := false)
    {
      notificationPanelOpen := false;
    }

    /** The detail modal's close button. */
    method CloseComplaint()
      modifies this
      ensures State() == old(State()).(selectedComplaint := None)
    {
      selectedComplaint := None;
    }

    /** The header's menu button: `setSidebarOpen(!sidebarOpen)`. */
    method ToggleSidebar()
      modifies this
      ensures State() == old(State()).(sidebarOpen := !old(sidebarOpen))
    {
      sidebarOpen := !sidebarOpen;
    }

    /** The sidebars' close action. */
    method CloseSidebar()
      modifies this
      ensures State() == old(State()).(sidebarOpen := false)
    {
      sidebarOpen := false;
    }

    /** The official sidebar's category selector. */
    method SetCategory(category: string)
      modifies this
      ensures State() == old(State()).(selectedCategory := category)
    {
      selectedCategory := category;
    }

    /** The official sidebar's status selector. */
    method SetStatus(status: string)
      modifies this
      ensures State() == old(State()).(selectedStatus := status)
    {
      selectedStatus := status;
    }

    /** `filteredNodes` on the official dashboard: a node is kept iff it meets
        both sidebar selections, and the kept nodes keep their order. */
    function FilteredNodes(nodes: seq<CitizenMap.Node>): (r: seq<CitizenMap.Node>)
      reads this
      ensures IsSubsequence(r, nodes)
      ensures forall n :: n in r <==> n in nodes && CitizenMap.CategoryMatch(n, selectedCategory)
                                               && CitizenMap.StatusMatch(n, selectedStatus)
      ensures forall n :: multiset(r)[n] == if CitizenMap.CategoryMatch(n, selectedCategory) && CitizenMap.StatusMatch(n, selectedStatus)
                                           then multiset(nodes)[n] else 0
    {
      var category, status := selectedCategory, selectedStatus;
      var keep := (n: CitizenMap.Node) => CitizenMap.CategoryMatch(n, category) && CitizenMap.StatusMatch(n, status);
      assert forall n :: n in Filter(keep, nodes) <==> n in nodes && keep(n) by {
        forall n: CitizenMap.Node { FilterMember(keep, nodes, n); }
      }
      CitizenMap.FilterNodes(nodes, selectedCategory, selectedStatus)
    }
  }
}
