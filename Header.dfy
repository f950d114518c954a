/** The page header: the session it reads from browser storage, the
    signed-in user's profile it keeps, the mobile menu and the two modals
    it opens. */
module Header {
  import opened Wrappers
  import opened Session
  import Auth

  /** `{ username: "", email: "", bio: "", avatar: null }`, with null read
      as "". */
  const EmptyProfile: map<string, string> := map["username" := "", "email" := "", "bio" := "", "avatar" := ""]

  /** `{ ...base, ...update }`: the update's fields win, the others stay. */
  function Merged(base: map<string, string>, update: map<string, string>): (r: map<string, string>)
    ensures r.Keys == base.Keys + update.Keys
    ensures forall k :: k in update ==> r[k] == update[k]
    ensures forall k :: k in base && k !in update ==> r[k] == base[k]
  {
    base + update
  }

  /** Merging the same update twice is merging it once. */
  lemma MergedIdempotent(base: map<string, string>, update: map<string, string>)
    ensures Merged(Merged(base, update), update) == Merged(base, update)
  {
    var once := Merged(base, update);
    assert Merged(once, update).Keys == once.Keys;
  }

  /** The name on the profile button: the username, or "User". */
  function ButtonName(userData: map<string, string>): (r: string)
    ensures r != ""
    ensures "username" in userData && userData["username"] != "" ==> r == userData["username"]
  {
    if "username" in userData && userData["username"] != "" then userData["username"] else "User"
  }

  class Header {
    const store: Store
    var isOpen: bool
    var isLoggedIn: bool
    var showAuthModal: bool
    var showProfileModal: bool
    var userData: map<string, string>

    /** The first render, over the browser's storage; the mount effect is
        `CheckStoredAuth`. */
    constructor(store: Store)
      ensures this.store == store
      ensures !isOpen && !isLoggedIn && !showAuthModal && !showProfileModal && userData == EmptyProfile
    {
      this.store := store;
      isOpen := false;
      isLoggedIn := false;
      showAuthModal := false;
      showProfileModal := false;
      userData := EmptyProfile;
    }

    /** `checkStoredAuth` (on mount, on a storage event and every second):
        with both entries present the stored user is loaded, and a user
        entry that does not parse is removed together with the token;
        afterwards the header is signed in exactly when storage holds a
        session. */
    method CheckStoredAuth()
      modifies this, store
      ensures isLoggedIn <==> HasSession(store.entries)
      ensures HasSession(old(store.entries)) && old(store.entries)[UserKey].Object? ==>
        isLoggedIn && store.entries == old(store.entries) && userData == old(store.entries)[UserKey].fields
      ensures HasSession(old(store.entries)) && old(store.entries)[UserKey].Text? ==>
        store.entries == Cleared(old(store.entries)) && userData == EmptyProfile
      ensures !HasSession(old(store.entries)) ==> store.entries == old(store.entries) && userData == EmptyProfile
      ensures isOpen == old(isOpen) && showAuthModal == old(showAuthModal) && showProfileModal == old(showProfileModal)
    {
      if HasSession(store.entries) {
        match store.entries[UserKey] {
          case Object(fields) =>
            userData := fields;
            isLoggedIn := true;
          case Text(_) =>
            store.entries := Cleared(store.entries);
            isLoggedIn := false;
            userData := EmptyProfile;
        }
      } else {
        isLoggedIn := false;
        userData := EmptyProfile;
      }
    }

    /** The hamburger button. */
    method ToggleMenu()
      modifies this
      ensures isOpen == !old(isOpen)
      ensures isLoggedIn == old(isLoggedIn) && userData == old(userData)
      ensures showAuthModal == old(showAuthModal) && showProfileModal == old(showProfileModal)
    {
      isOpen := !isOpen;
    }

    /** A navigation link or the logo: the menu closes. */
    method CloseMenu()
      modifies this
      ensures !isOpen
      ensures isLoggedIn == old(isLoggedIn) && userData == old(userData)
      ensures showAuthModal == old(showAuthModal) && showProfileModal == old(showProfileModal)
    {
      isOpen := false;
    }

    /** `openAuthModal`: the sign-in modal opens and the menu closes. */
    method OpenAuthModal()
      modifies this
      ensures showAuthModal && !isOpen
      ensures isLoggedIn == old(isLoggedIn) && userData == old(userData)
      ensures showProfileModal == old(showProfileModal)
    {
      showAuthModal := true;
      isOpen := false;
    }

    /** `window.openAuthModal`, the hook the bottom menu calls: the sign-in
        modal opens and the menu stays as it is. */
    method OpenAuthModalFromOutside()
      modifies this
      ensures showAuthModal
      ensures isOpen == old(isOpen) && isLoggedIn == old(isLoggedIn)
      ensures userData == old(userData) && showProfileModal == old(showProfileModal)
    {
      showAuthModal := true;
    }

    /** `openProfileModal`: the profile modal opens and the menu closes. */
    method OpenProfileModal()
      modifies this
      ensures showProfileModal && !isOpen
      ensures isLoggedIn == old(isLoggedIn) && userData == old(userData)
      ensures showAuthModal == old(showAuthModal)
    {
      showProfileModal := true;
      isOpen := false;
    }

    /** `handleLogin`: a payload with a username is merged into the profile
        and signs in; the sign-in modal and the menu close in any case. */
    method HandleLogin(loginData: Option<map<string, string>>)
      modifies this
      ensures !showAuthModal && !isOpen
      ensures (loginData.Some? && "username" in loginData.value && loginData.value["username"] != "") ==>
        isLoggedIn && userData == Merged(old(userData), loginData.value)
      ensures !(loginData.Some? && "username" in loginData.value && loginData.value["username"] != "") ==>
        isLoggedIn == old(isLoggedIn) && userData == old(userData)
      ensures showProfileModal == old(showProfileModal)
    {
      if loginData.Some? && "username" in loginData.value && loginData.value["username"] != "" {
        userData := Merged(userData, loginData.value);
        isLoggedIn := true;
      }
      showAuthModal := false;
      isOpen := false;
    }

    /** `handleLogout`: both entries leave storage, and the header is signed
        out with an empty profile and no modal or menu open. */
    method HandleLogout()
      modifies this, store
      ensures store.entries == Cleared(old(store.entries)) && !HasSession(store.entries)
      ensures !isLoggedIn && !showProfileModal && !isOpen && userData == EmptyProfile
      ensures showAuthModal == old(showAuthModal)
    {
      store.entries := Cleared(store.entries);
      isLoggedIn := false;
      showProfileModal := false;
      isOpen := false;
      userData := EmptyProfile;
    }

    /** `handleUpdateProfile`: the profile becomes the old one overridden by
        the update, and that same value is stored as the user entry. */
    method HandleUpdateProfile(update: map<string, string>)
      modifies this, store
      ensures userData == Merged(old(userData), update)
      ensures store.entries == old(store.entries)[UserKey := Object(userData)]
      ensures isOpen == old(isOpen) && isLoggedIn == old(isLoggedIn)
      ensures showAuthModal == old(showAuthModal) && showProfileModal == old(showProfileModal)
    {
      var updated := Merged(userData, update);
      userData := updated;
      store.entries := store.entries[UserKey := Object(updated)];
    }
  }

  /** A stored profile update survives the next storage check: with the
      token still there, checking loads exactly the merged profile. */
  lemma UpdateSurvivesCheck(storage: map<string, Stored>, userData: map<string, string>, update: map<string, string>)
    requires Present(storage, TokenKey)
    ensures var after := storage[UserKey := Object(Merged(userData, update))];
      HasSession(after) && after[UserKey].fields == Merged(userData, update)
  {
  }

  /** After the sign-in modal saves a session with a non-empty token, the
      next storage check signs the header in with exactly the saved user. */
  lemma SavedSessionLoads(storage: map<string, Stored>, user: map<string, string>, token: string)
    requires token != ""
    ensures var after := Saved(storage, user, token);
      HasSession(after) && after[UserKey].Object? && after[UserKey].fields == user
  {
  }

  /** A sign-in as the two components run it over one browser storage that
      holds no session: the header mounts signed out, the sign-in modal
      logs in and saves the session, the header takes the payload, and the
      next one-second check keeps the visitor signed in with the user the
      server returned. */
  method SignInSurvivesPoll(store: Store, reply: Auth.Reply) returns (header: Header)
    requires !HasSession(store.entries) && reply.token != ""
    modifies store
    ensures header.store == store && header.isLoggedIn && header.userData == reply.user
    ensures HasSession(store.entries) && store.entries[UserKey] == Object(reply.user)
  {
    header := new Header(store);
    header.CheckStoredAuth();
    header.OpenAuthModal();
    var modal := new Auth.AuthModal(store);
    var request, payload := modal.HandleSubmit(Ok(reply));
    header.HandleLogin(payload);
    header.CheckStoredAuth();
  }
}
