/** The page frame: the header, the routed page, and the bottom menu on the
    pages that have one. */
module Layout {
  import opened Text
  import opened BottomSubmenu

  /** The paths that show the bottom menu by exact match. */
  const AllowedPaths: set<string> := {"/", "/images", "/videos", "/favourites"}

  /** `showBottomSubmenu`: an allowed path, or any path under `/similar`. */
  predicate ShowBottomSubmenu(path: string) {
    path in AllowedPaths || StartsWith(path, "/similar")
  }

  /** The menu, and with it the route guard it carries, is mounted on every
      tab's path but `/create`: of the two protected routes the guard
      watches only `/favourites`, and `/create` relies on its own page. */
  lemma MenuShowsOnTabPaths()
    ensures forall i :: 0 <= i < |MenuItems| ==> (ShowBottomSubmenu(MenuItems[i].path) <==> MenuItems[i].path != "/create")
    ensures forall p :: p in ProtectedRoutes ==> (ShowBottomSubmenu(p) <==> p == "/favourites")
  {
  }

  /** Every similar page shows it, whatever follows the prefix. */
  lemma SimilarPagesShow(rest: string)
    ensures ShowBottomSubmenu("/similar" + rest)
  {
    assert ("/similar" + rest)[..8] == "/similar";
  }

  /** The other pages of the site hide it, and the match is exact: a path
      below an allowed one hides it too. */
  lemma OtherPagesHide()
    ensures !ShowBottomSubmenu("/search") && !ShowBottomSubmenu("/create") && !ShowBottomSubmenu("/faq")
    ensures !ShowBottomSubmenu("/contact") && !ShowBottomSubmenu("/about") && !ShowBottomSubmenu("/images/x")
  {
    assert "/images/x"[1] != "/similar"[1];
  }
}
