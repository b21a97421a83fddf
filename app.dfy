/**
 * The application shell: the navigation each role sees, the page shown
 * for the current page id, and the reaction to a revoked session.
 */
module App {
  import opened Common
  import opened Types
  import Alerts

  /** A navigation entry: page id, caption and the roles that see it. */
  datatype NavItem = NavItem(id: string, name: string, roles: set<string>)

  /** The page the shell starts on. */
  const InitialPage := "collection"

  const AllNavigation: seq<NavItem> := [
    NavItem("collection", "Milk Collection", {"admin", "user", "helper"}),
    NavItem("users", "Users", {"admin", "user"}),
    NavItem("reports", "Reports", {"admin", "user"}),
    NavItem("advances", "Advances", {"admin", "user"}),
    NavItem("fatrates", "Fat Rates", {"admin", "user"})
  ]

  /** `currentUser?.role`, "" when nobody is signed in. */
  function RoleOf(current: Option<AuthUser>): string
  {
    if current.Some? then current.value.role else ""
  }

  /** `currentUser?.role && item.roles.includes(currentUser.role)`. */
  predicate Offered(role: string, item: NavItem)
  {
    role != "" && role in item.roles
  }

  /** The entries of `items` offered to `role`, in order. */
  function VisibleTo(items: seq<NavItem>, role: string): seq<NavItem>
  {
    if items == [] then []
    else (if Offered(role, items[0]) then [items[0]] else []) + VisibleTo(items[1..], role)
  }

  /** The filter keeps exactly the offered entries, in their order. */
  lemma {:induction false} VisibleToFilters(items: seq<NavItem>, role: string)
    ensures IsSubseq(VisibleTo(items, role), items)
    ensures forall item :: item in VisibleTo(items, role) <==> item in items && Offered(role, item)
  {
    if items != [] {
      var rest := VisibleTo(items[1..], role);
      VisibleToFilters(items[1..], role);
      assert items == [items[0]] + items[1..];
      if Offered(role, items[0]) {
        assert ([items[0]] + rest)[1..] == rest;
      } else {
        assert VisibleTo(items, role) == rest;
        IsSubseqSkip(rest, items[1..], items[0]);
      }
    }
  }

  /** The navigation shown to the signed-in user: the offered entries, in menu order. */
  function Navigation(current: Option<AuthUser>): (r: seq<NavItem>)
    ensures IsSubseq(r, AllNavigation)
    ensures forall item :: item in r <==> item in AllNavigation && Offered(RoleOf(current), item)
  {
    VisibleToFilters(AllNavigation, RoleOf(current));
    VisibleTo(AllNavigation, RoleOf(current))
  }

  function Ids(items: seq<NavItem>): (r: seq<string>)
    ensures |r| == |items| && forall i :: 0 <= i < |items| ==> r[i] == items[i].id
  {
    seq(|items|, i requires 0 <= i < |items| => items[i].id)
  }

  /** Which entries a role sees, entry by entry. */
  lemma NavigationUnfolds(role: string)
    ensures var n := AllNavigation;
      VisibleTo(n, role) ==
        (if Offered(role, n[0]) then [n[0]] else []) + (if Offered(role, n[1]) then [n[1]] else []) +
        (if Offered(role, n[2]) then [n[2]] else []) + (if Offered(role, n[3]) then [n[3]] else []) +
        (if Offered(role, n[4]) then [n[4]] else [])
  {
    var n := AllNavigation;
    assert n[1..][1..] == n[2..];
    assert n[2..][1..] == n[3..];
    assert n[3..][1..] == n[4..];
    assert n[4..][1..] == [];
    assert VisibleTo(n[4..], role) == if Offered(role, n[4]) then [n[4]] else [];
    assert VisibleTo(n[3..], role) == (if Offered(role, n[3]) then [n[3]] else []) + VisibleTo(n[4..], role);
    assert VisibleTo(n[2..], role) == (if Offered(role, n[2]) then [n[2]] else []) + VisibleTo(n[3..], role);
    assert VisibleTo(n[1..], role) == (if Offered(role, n[1]) then [n[1]] else []) + VisibleTo(n[2..], role);
  }

  /** A helper sees only the collection page; an admin or user sees every page in the listed order; anyone else sees none. */
  lemma NavigationByRole(current: Option<AuthUser>)
    ensures RoleOf(current) == "helper" ==> Ids(Navigation(current)) == ["collection"]
    ensures RoleOf(current) in {"admin", "user"} ==> Navigation(current) == AllNavigation
    ensures RoleOf(current) !in {"admin", "user", "helper"} ==> Navigation(current) == []
  {
    var role := RoleOf(current);
    NavigationUnfolds(role);
    var n := AllNavigation;
    if role == "helper" {
      assert !Offered(role, n[1]) && !Offered(role, n[2]) && !Offered(role, n[3]) && !Offered(role, n[4]);
      assert Navigation(current) == [n[0]];
    } else if role in {"admin", "user"} {
      assert Offered(role, n[0]) && Offered(role, n[1]) && Offered(role, n[2]) && Offered(role, n[3]) && Offered(role, n[4]);
      assert n == [n[0]] + [n[1]] + [n[2]] + [n[3]] + [n[4]];
    } else {
      assert !Offered(role, n[0]) && !Offered(role, n[1]);
    }
  }

  /** The full navigation lists the pages in this order. */
  lemma AllNavigationIds()
    ensures Ids(AllNavigation) == ["collection", "users", "reports", "advances", "fatrates"]
  {
  }

  /** The starting page is offered to every role that sees anything. */
  lemma InitialPageOffered(current: Option<AuthUser>)
    requires current.Some? && current.value.role in {"admin", "user", "helper"}
    ensures InitialPage in Ids(Navigation(current))
  {
    NavigationByRole(current);
  }

  /** The screens `renderPage` can show. */
  datatype Screen = UsersScreen | MilkCollectionScreen | ReportsScreen | AdvancesScreen | FatRatesScreen

  /** `renderPage`: the screen for a page id, the milk collection for anything unknown. */
  function RenderPage(page: string): (s: Screen)
    ensures page !in {"users", "reports", "advances", "fatrates"} ==> s == MilkCollectionScreen
    ensures s == UsersScreen <==> page == "users"
    ensures s == ReportsScreen <==> page == "reports"
    ensures s == AdvancesScreen <==> page == "advances"
    ensures s == FatRatesScreen <==> page == "fatrates"
  {
    if page == "users" then UsersScreen
    else if page == "collection" then MilkCollectionScreen
    else if page == "reports" then ReportsScreen
    else if page == "advances" then AdvancesScreen
    else if page == "fatrates" then FatRatesScreen
    else MilkCollectionScreen
  }

  /** Every page the navigation offers has its own screen; only "collection" shows the milk collection. */
  lemma NavigationPagesRender(current: Option<AuthUser>, i: nat)
    requires i < |Navigation(current)|
    ensures (RenderPage(Navigation(current)[i].id) == MilkCollectionScreen) <==> Navigation(current)[i].id == "collection"
  {
    VisibleToFilters(AllNavigation, RoleOf(current));
    assert Navigation(current)[i] in AllNavigation;
  }

  // ------------------------------------------------------------------
  // The access-denied reaction
  // ------------------------------------------------------------------

  const RevokedNotice := "Your access has been revoked due to insufficient permissions. You will be logged out automatically."
  /** Milliseconds between the access-denied alert and the forced logout. */
  const LogoutDelay: nat := 3000

  /** What the shell does on `USER_ACCESS_DENIED`, in order. */
  datatype Step = ShowAlert(draft: Alerts.Draft) | ForceLogoutAfter(delay: nat)

  /** The persistent error alert, offering to contact the administrator. */
  function DeniedAlert(): Alerts.Draft
  {
    Alerts.Typed(Alerts.Error, RevokedNotice, Some("Access Denied"),
      Alerts.NoPatch.(persistent := Some(true), actions := Some([Alerts.AlertAction("Contact Administrator", Some(Alerts.Primary))])))
  }

  function AccessDeniedSteps(): (r: seq<Step>)
    ensures |r| == 2 && r[0].ShowAlert? && r[1] == ForceLogoutAfter(LogoutDelay)
    ensures r[0].draft.kind == Alerts.Error && r[0].draft.title == Some("Access Denied") && r[0].draft.persistent == Some(true)
  {
    [ShowAlert(DeniedAlert()), ForceLogoutAfter(LogoutDelay)]
  }

  /** The access-denied alert stays up until dismissed: showing it schedules no removal. */
  lemma DeniedAlertStays(id: string)
    ensures Alerts.ShownTimers(Alerts.WithDefaults(id, AccessDeniedSteps()[0].draft)) == []
    ensures Alerts.WithDefaults(id, AccessDeniedSteps()[0].draft).body.message == RevokedNotice
  {
  }
}
