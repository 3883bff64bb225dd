/** The dashboard shell: the notification bell's unread count, the header
    search box that broadcasts `dashboard-search`, and the mobile menu and
    notification panel flags. */
module Layout {
  import opened Wrappers
  import opened Seqs

  /** One entry of the bell's sample list. */
  datatype Notification = Notification(id: int, title: string, message: string, time: string, kind: string, read: bool)

  const SampleNotifications := [
    Notification(1, "New user registered", "John Smith has joined your platform", "2 minutes ago", "info", false),
    Notification(2, "Campaign completed", "Summer Sale campaign has ended successfully", "1 hour ago", "success", false),
    Notification(3, "Low budget alert", "Google Ads campaign is running low on budget", "3 hours ago", "warning", true),
    Notification(4, "Monthly report ready", "Your analytics report for January is ready", "1 day ago", "info", true)
  ]

  predicate IsUnread(n: Notification) { !n.read }

  predicate IsRead(n: Notification) { n.read }

  /** `notifications.filter(n => !n.read).length`. */
  function UnreadCount(ns: seq<Notification>): (c: nat)
    ensures c == |Filter(ns, IsUnread)| && c <= |ns|
  {
    CountIf(ns, IsUnread)
  }

  /** Unread and read notifications together make up the list. */
  lemma {:induction false} UnreadAndReadPartition(ns: seq<Notification>)
    ensures UnreadCount(ns) + CountIf(ns, IsRead) == |ns|
    ensures UnreadCount(ns) == |ns| <==> forall i :: 0 <= i < |ns| ==> !ns[i].read
    decreases |ns|
  {
    if |ns| > 0 {
      UnreadAndReadPartition(ns[1..]);
      if forall i :: 0 <= i < |ns| ==> !ns[i].read {
        assert forall i :: 0 <= i < |ns[1..]| ==> !ns[1..][i].read by {
          forall i | 0 <= i < |ns[1..]| ensures !ns[1..][i].read {
            assert ns[1..][i] == ns[i + 1];
          }
        }
      } else if UnreadCount(ns) == |ns| {
        var k :| 0 <= k < |ns| && ns[k].read;
        if k > 0 {
          assert ns[1..][k - 1] == ns[k];
        }
      }
    }
  }

  /** The red count on the bell shows only when something is unread. */
  predicate BellBadge(ns: seq<Notification>) { UnreadCount(ns) > 0 }

  /** The sample list has two unread entries, so the badge shows. */
  lemma SampleUnread()
    ensures UnreadCount(SampleNotifications) == 2 && BellBadge(SampleNotifications)
  {
  }

  datatype LayoutState = LayoutState(isMobileMenuOpen: bool, searchTerm: string, showNotifications: bool)

  const InitialLayout := LayoutState(false, "", false)

  /** Whether a page listens for the search broadcast. */
  predicate Broadcasts(pathname: string) { pathname == "/" || pathname == "/reports" }

  /** `handleSearchChange`: the box keeps exactly what was typed, and on the
      dashboard and reports pages the same raw text is broadcast. The second
      component is the broadcast detail, if any. */
  function HandleSearchChange(st: LayoutState, pathname: string, query: string): (r: (LayoutState, Option<string>))
    ensures r.0 == st.(searchTerm := query)
    ensures r.1.Some? <==> pathname == "/" || pathname == "/reports"
    ensures r.1.Some? ==> r.1.value == query
  {
    (st.(searchTerm := query), if Broadcasts(pathname) then Some(query) else None)
  }

  function ToggleMobileMenu(st: LayoutState): (r: LayoutState)
    ensures r.isMobileMenuOpen == !st.isMobileMenuOpen
  {
    st.(isMobileMenuOpen := !st.isMobileMenuOpen)
  }

  /** Following a navigation link closes the mobile menu. */
  function NavClick(st: LayoutState): (r: LayoutState)
    ensures !r.isMobileMenuOpen
  {
    st.(isMobileMenuOpen := false)
  }

  /** The bell button opens or closes the panel. */
  function ToggleNotifications(st: LayoutState): (r: LayoutState)
    ensures r.showNotifications == !st.showNotifications
  {
    st.(showNotifications := !st.showNotifications)
  }

  /** A click outside the open panel closes it. */
  function ClickOutside(st: LayoutState): (r: LayoutState)
    ensures !r.showNotifications
  {
    st.(showNotifications := false)
  }

  /** Toggling twice changes nothing; each flag's handlers leave the other
      flag and the search box alone; a nav click after any toggle closes the
      menu. */
  lemma LayoutFlags(st: LayoutState)
    ensures ToggleMobileMenu(ToggleMobileMenu(st)) == st
    ensures ToggleNotifications(ToggleNotifications(st)) == st
    ensures ToggleMobileMenu(st).(isMobileMenuOpen := st.isMobileMenuOpen) == st
    ensures ToggleNotifications(st).(showNotifications := st.showNotifications) == st
    ensures NavClick(st).(isMobileMenuOpen := st.isMobileMenuOpen) == st
    ensures ClickOutside(st).(showNotifications := st.showNotifications) == st
    ensures NavClick(ToggleMobileMenu(st)) == NavClick(st)
  {
  }
}
