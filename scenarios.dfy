/** End-to-end runs over a fresh store, written as methods whose
    postconditions fix what each step leaves behind. */
module Scenarios {
  import opened AuthTypes
  import opened ThemeTypes
  import opened Storage
  import opened Queries
  import opened AuthContext
  import opened ThemeContext
  import opened CorrespondencesList
  import opened CorrespondenceView

  /** The unit of the second default resident. */
  const Unit102 := "102"

  /** A package is registered for unit 102 and then handed over: the unit
      has one item waiting in between and none afterwards, and the item then
      shows its delivery date. */
  method DeliveryScenario(date: int, now: nat, at: int) returns (waitingBefore: nat, waitingAfter: nat, cell: DeliveryCell)
    ensures waitingBefore == 1 && waitingAfter == 0
    ensures cell == DeliveredOn(at)
  {
    var store := new Store();
    var desk := new CorrespondencesList(store);
    var c := desk.HandleSubmit(Unit102, Package, "Encomenda X", date, now);
    assert desk.correspondences == [c];
    waitingBefore := PendingCount(CorrespondencesOf(desk.correspondences, Some(Unit102)));
    assert CorrespondencesOf(desk.correspondences, Some(Unit102)) == [c];
    assert PendingCorrespondences([c]) == [c];
    desk.HandleDelivery(c.id, at);
    var delivered := Deliver(c, at);
    assert desk.correspondences == [delivered];
    assert CorrespondencesOf(desk.correspondences, Some(Unit102)) == [delivered];
    assert PendingCorrespondences([delivered]) == [];
    waitingAfter := PendingCount(CorrespondencesOf(desk.correspondences, Some(Unit102)));
    cell := Cell(store.correspondences.value[0]);
  }

  /** On a fresh store the default administrator can log in with the default
      password and not with another one. */
  method LoginScenario(now: int, wrong: string) returns (accepted: bool, rejected: bool, session: Slot<User>)
    requires wrong != "admin123"
    ensures accepted && !rejected
    ensures session == Stored(DefaultUsers()[0])
  {
    var store := new Store();
    var auth := new AuthProvider(store);
    AuthenticateFirstMatch(DefaultUsers(), 0, "admin", wrong);
    rejected := auth.Login("admin", wrong, now);
    AuthenticateFirstMatch(DefaultUsers(), 0, "admin", "admin123");
    accepted := auth.Login("admin", "admin123", now);
    session := store.currentUser;
  }

  /** The first half of the theme run: on a fresh store a provider mounts
      with no session, the resident of unit 101 logs in, picks the sunset
      theme and logs out. */
  method ResidentPicksTheme(now: int) returns (store: Store, auth: AuthProvider, themes: ThemeProvider)
    ensures fresh(store) && fresh(auth) && fresh(themes)
    ensures auth.store == store && themes.store == store && auth.Valid()
    ensures store.Snapshot() == Seeded(EmptyCollections, now)
    ensures store.currentUser == Absent
    ensures store.themes == map[ThemeKey("res-001") := Sunset]
    ensures themes.theme == Sunset
  {
    store := new Store();
    auth := new AuthProvider(store);
    themes := new ThemeProvider(store);
    themes.LoadUserTheme();
    assert SeededUsers(store.Snapshot(), now) == DefaultUsers();
    AuthenticateFirstMatch(DefaultUsers(), 1, "apt101", "123456");
    var ok := auth.Login("apt101", "123456", now);
    assert store.currentUser == Stored(DefaultUsers()[1]);
    themes.SetUserTheme(Sunset);
    assert store.themes == map[][ThemeKey("res-001") := Sunset];
    auth.Logout();
  }

  /** The theme is loaded from the store only when the provider mounts. After
      the resident's run the administrator logs in on the same page: the
      resident's theme stays active, and only the resident's key was
      written. A provider mounted afresh for the administrator finds no key
      of theirs and keeps the default theme. */
  method ThemeScenario(now: int) returns (active: Theme, stored: map<string, Theme>, remounted: Theme)
    ensures active == Sunset
    ensures remounted == DefaultTheme
    ensures stored == map[ThemeKey("res-001") := Sunset]
  {
    var store, auth, themes := ResidentPicksTheme(now);
    SeedingEmptyStore(now);
    AuthenticateFirstMatch(DefaultUsers(), 0, "admin", "admin123");
    var ok := auth.Login("admin", "admin123", now);
    assert store.currentUser == Stored(DefaultUsers()[0]);
    active := themes.theme;
    stored := store.themes;
    assert ThemeKey("admin-001")[6] != ThemeKey("res-001")[6];
    var again := new ThemeProvider(store);
    again.LoadUserTheme();
    remounted := again.theme;
  }
}
