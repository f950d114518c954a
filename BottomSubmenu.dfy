/** The bottom menu: five tabs, two of which need a session, the route
    guard that sends a signed-out visitor away from them, and the two
    modals it opens. */
module BottomSubmenu {
  import opened Wrappers
  import opened Session

  datatype MenuItem = MenuItem(id: string, path: string, requiresLogin: bool)

  const MenuItems: seq<MenuItem> := [
    MenuItem("explore", "/", false),
    MenuItem("images", "/images", false),
    MenuItem("create", "/create", true),
    MenuItem("videos", "/videos", false),
    MenuItem("favorites", "/favourites", true)
  ]

  /** The routes that need a session. */
  const ProtectedRoutes: set<string> := {"/create", "/favourites"}

  /** The protected routes are exactly the paths of the tabs that need a
      session. */
  lemma ProtectedRoutesAreLoginTabs()
    ensures forall p :: p in ProtectedRoutes <==> exists i :: 0 <= i < |MenuItems| && MenuItems[i].path == p && MenuItems[i].requiresLogin
  {
    assert MenuItems[2].path == "/create" && MenuItems[4].path == "/favourites";
  }

  /** `menuItems.find(item => item.path === path)`, from position `from`. */
  function FindByPath(path: string, from: nat): (r: Option<nat>)
    requires from <= |MenuItems|
    ensures r.Some? ==> from <= r.value < |MenuItems| && MenuItems[r.value].path == path
    ensures r.Some? ==> forall j :: from <= j < r.value ==> MenuItems[j].path != path
    ensures r.None? ==> forall j :: from <= j < |MenuItems| ==> MenuItems[j].path != path
    decreases |MenuItems| - from
  {
    if from == |MenuItems| then None
    else if MenuItems[from].path == path then Some(from)
    else FindByPath(path, from + 1)
  }

  /** `getActiveTab`: no tab on the home page; otherwise the tab whose path
      is the current path exactly, if any. */
  function ActiveTab(path: string): (r: Option<string>)
    ensures path == "/" ==> r.None?
    ensures r.Some? ==> exists i :: 0 <= i < |MenuItems| && MenuItems[i].path == path && MenuItems[i].id == r.value
    ensures path != "/" && (exists i :: 0 <= i < |MenuItems| && MenuItems[i].path == path) ==> r.Some?
  {
    if path == "/" then None
    else
      var found := FindByPath(path, 0);
      if found.Some? then Some(MenuItems[found.value].id) else None
  }

  /** The explore tab is never marked active, and a path below a tab's path
      marks none. */
  lemma ActiveTabExamples()
    ensures ActiveTab("/") == None && ActiveTab("/images") == Some("images")
    ensures ActiveTab("/favourites") == Some("favorites") && ActiveTab("/images/7") == None
  {
    assert MenuItems[1].path == "/images";
    assert MenuItems[4].path == "/favourites";
  }

  /** What one commit of the two session effects navigates to, as written:
      both run with the signed-in flag of the render (`rendered`), the
      first after reading storage (`stored`). */
  function CommitRedirectsAsWritten(rendered: bool, stored: bool, path: string): (r: seq<string>)
    ensures forall i :: 0 <= i < |r| ==> r[i] == "/"
  {
    var first := if stored != rendered && !stored && path in ProtectedRoutes then ["/"] else [];
    var second := if !rendered && path in ProtectedRoutes then ["/"] else [];
    first + second
  }

  /** The menu mounts signed out, so a signed-in visitor arriving on the
      favourites page (a reload, or coming back from the create page, where
      the menu is hidden) is sent home although storage holds a session. */
  lemma SignedInVisitorSentHome()
    ensures CommitRedirectsAsWritten(false, true, "/favourites") == ["/"]
  {
  }

  /** The guard the comments describe: home exactly when storage holds no
      session on a protected route. */
  function Redirect(stored: bool, path: string): (r: Option<string>)
    ensures r.Some? <==> !stored && path in ProtectedRoutes
    ensures r.Some? ==> r.value == "/"
  {
    if !stored && path in ProtectedRoutes then Some("/") else None
  }

  /** Whenever storage holds no session on a protected route the code as
      written sends the visitor home too; it differs only by also sending
      home a visitor the menu has not yet seen signed in. */
  lemma RedirectAgrees(rendered: bool, stored: bool, path: string)
    ensures Redirect(stored, path).Some? ==> "/" in CommitRedirectsAsWritten(rendered, stored, path)
    ensures rendered ==> (|CommitRedirectsAsWritten(rendered, stored, path)| > 0 <==> Redirect(stored, path).Some?)
  {
  }

  class BottomMenu {
    var isLoggedIn: bool
    var showSearchModal: bool
    var showLoginRequired: bool

    constructor()
      ensures !isLoggedIn && !showSearchModal && !showLoginRequired
    {
      isLoggedIn := false;
      showSearchModal := false;
      showLoginRequired := false;
    }

    /** `checkLoginStatus` (on mount, on a storage event and every second):
        the flag follows storage, and a change to signed out on a protected
        route sends the visitor home. */
    method CheckLoginStatus(storage: map<string, Stored>, path: string) returns (navigateTo: Option<string>)
      modifies this
      ensures isLoggedIn == HasSession(storage)
      ensures navigateTo.Some? <==> old(isLoggedIn) && !HasSession(storage) && path in ProtectedRoutes
      ensures navigateTo.Some? ==> navigateTo.value == "/"
      ensures showSearchModal == old(showSearchModal) && showLoginRequired == old(showLoginRequired)
    {
      navigateTo := None;
      var current := HasSession(storage);
      if current != isLoggedIn {
        isLoggedIn := current;
        if !current && path in ProtectedRoutes {
          navigateTo := Some("/");
        }
      }
    }

    /** The route guard, after a commit in which the flag and the path
        settled; it uses the guard stated by `Redirect`. */
    method GuardRoute(path: string) returns (navigateTo: Option<string>)
      ensures navigateTo == Redirect(isLoggedIn, path)
    {
      navigateTo := Redirect(isLoggedIn, path);
    }

    /** `handleTabClick`: a tab that needs a session, clicked without one,
        opens the sign-in prompt and nothing else; explore opens the search
        modal; every other tab navigates to its path. */
    method HandleTabClick(item: MenuItem) returns (navigateTo: Option<string>)
      requires item in MenuItems
      modifies this
      ensures item.requiresLogin && !isLoggedIn ==>
        showLoginRequired && navigateTo.None? && showSearchModal == old(showSearchModal)
      ensures !(item.requiresLogin && !isLoggedIn) && item.id == "explore" ==>
        showSearchModal && navigateTo.None? && showLoginRequired == old(showLoginRequired)
      ensures !(item.requiresLogin && !isLoggedIn) && item.id != "explore" ==>
        navigateTo == Some(item.path) && showSearchModal == old(showSearchModal) && showLoginRequired == old(showLoginRequired)
      ensures isLoggedIn == old(isLoggedIn)
    {
      navigateTo := None;
      if item.requiresLogin && !isLoggedIn {
        showLoginRequired := true;
        return;
      }
      if item.id == "explore" {
        showSearchModal := true;
      } else {
        navigateTo := Some(item.path);
      }
    }

    /** The search modal's close. */
    method HandleSearchClose()
      modifies this
      ensures !showSearchModal && isLoggedIn == old(isLoggedIn) && showLoginRequired == old(showLoginRequired)
    {
      showSearchModal := false;
    }

    /** The sign-in prompt's close. */
    method HandleLoginRequiredClose()
      modifies this
      ensures !showLoginRequired && isLoggedIn == old(isLoggedIn) && showSearchModal == old(showSearchModal)
    {
      showLoginRequired := false;
    }

    /** `handleOpenAuthModal`: the header's sign-in modal opens when the
        header has published its hook, and the prompt closes in any case. */
    method HandleOpenAuthModal(hookPublished: bool) returns (openedAuthModal: bool)
      modifies this
      ensures openedAuthModal == hookPublished
      ensures !showLoginRequired && isLoggedIn == old(isLoggedIn) && showSearchModal == old(showSearchModal)
    {
      openedAuthModal := hookPublished;
      showLoginRequired := false;
    }
  }

  /** A visitor without a session never reaches a protected page from the
      menu: clicking its tab navigates nowhere. */
  lemma ProtectedTabsNeedSession(item: MenuItem)
    requires item in MenuItems && item.path in ProtectedRoutes
    ensures item.requiresLogin
  {
  }
}
