# Condominium management: a Dafny model of the store, the sessions and the components' rules

This project models the core of a small condominium web application
(repository Feliposooo/teste, written in TypeScript with React). The
application keeps everything in the browser's localStorage:

- users, visitors, correspondence and communications, one JSON array per key;
- the logged-in user, under `condominium_current_user`;
- each user's colour theme, under `theme_<user id>`.

The administrator registers visitors and their exits, registers
correspondence and its delivery, and publishes, edits and deletes
communications. A resident sees the visitors and correspondence of their own
unit and all communications, and can register a visitor for that unit.

The model follows the program's structure, one module per source file:

- `Storage` models `src/utils/storage.ts`.
  - `Store` is a class with one field per localStorage key.
  - Each collection key is a `Slot`: `Absent`, `Blank` (the empty string,
    which the source treats like a missing key) or `Stored(sequence)`.
  - Seeding (`Seeded`) fills only keys that are not `Stored`, so a key
    holding `[]` is kept.
- `Ids` models the `"<kind>-<timestamp>"` ids given by `add*`, including
  the decimal rendering of the timestamp. It proves that distinct inputs give
  distinct ids.
- `AuthTypes` and `ThemeTypes` are the records and enumerations of
  `src/types/auth.ts` and `src/types/theme.ts`.
- `AuthContext` and `ThemeContext` are the two React providers, as classes
  whose fields are the React state. They share the `Store`.
- Each component with handlers is a class:
  - `VisitorsList`, `CorrespondencesList` and `CommunicationsManagement` for
    the administrator;
  - `VisitorManagement` for the resident.

  Its fields are the component's state. Its methods are the handlers. Each
  handler's contract gives the new state and the new store as pure functions
  (`CheckoutById`, `DeliverById`, `ApplyEdit`, `RemoveById`) of the old ones.
  Lemmas prove what those functions keep and change.
- `CommunicationsView` and `CorrespondenceView` sort their state array in
  place, as the source does. Each has a `Render` method built on an in-place
  insertion sort (`Seqs.SortBy`). Render is proved to produce the
  comparator's order and a permutation of the array.
- `AdminDashboard` and `ResidentDashboard` are pure functions over a
  snapshot of the store. A lemma ties them together: the resident's lists are
  the administrator's lists restricted to the resident's unit.
- `Queries` holds the filters the views share. `Seqs` holds the array
  operations they are built from: `filter`, a selective `map`,
  `slice(0, n)` and `sort`.
- `Scenarios` holds end-to-end runs on a fresh store:
  - a delivery (`DeliveryScenario`);
  - a login (`LoginScenario`);
  - a theme change across two sessions, in two steps: the resident's
    session (`ResidentPicksTheme`) and the administrator's login after it
    (`ThemeScenario`).

Dates of correspondence and communications are integer timestamps in
milliseconds. A visit's date is the calendar day of entry, an integer day
number, so two visits on the same day have equal dates. Visitors' entry and exit
times (`"HH:MM"`) are opaque strings. Clock readings are parameters:

- `now` stands for `Date.now()`;
- `date`, `at` and `exitTime` stand for the formatted current time;
- `weekAgo` is the moment seven days ago, on the scale of the visit dates it is compared with.

The theme is loaded once, when `ThemeProvider` mounts, and is not
reloaded when the session changes. `Scenarios.ThemeScenario` shows the
consequence: after a resident picks a theme and logs out, the administrator
who logs in next keeps seeing that theme.

## Model

| member | source | states |
|---|---|---|
| AuthTypes.VisitorDraft.WithId | src/utils/storage.ts:108-111 | `{...visitor, id}` copies every field of the draft and adds only the id |
| AuthTypes.CorrespondenceDraft.WithId | src/utils/storage.ts:129-132 | the new correspondence is the draft plus the id, nothing else changed |
| AuthTypes.CommunicationDraft.WithId | src/utils/storage.ts:150-153 | the new communication is the draft plus the id, nothing else changed |
| ThemeTypes.ThemeOptions | src/types/theme.ts:10-35 | four options with pairwise distinct ids, the default `campos-jordao` first, each theme's entry at its own position |
| ThemeTypes.EveryThemeFound | src/components/ThemeSelector.tsx:19 | the selector's lookup of any theme finds that theme's entry in the table |
| ThemeTypes.FindOption | src/components/ThemeSelector.tsx:19 | the lookup returns an option with the theme's id, and fails only when no option has it |
| ThemeTypes.IdInjective | src/types/theme.ts:1 | the four theme ids are distinct strings |
| Ids.Decimal | src/utils/storage.ts:110 | a timestamp renders as a non-empty digit string without a leading zero |
| Ids.ParseDecimalOfDecimal | src/utils/storage.ts:110 | reading the rendered digits back gives the timestamp (round trip) |
| Ids.DecimalInjective | src/utils/storage.ts:110 | different timestamps render differently |
| Ids.RecordId | src/utils/storage.ts:110 | an id is the kind word, a hyphen, then the decimal digits of the timestamp |
| Ids.RecordIdInjective | src/utils/storage.ts:110 | an id `<kind>-<timestamp>` determines its kind and its timestamp when kinds have no hyphen |
| Storage.Contents | src/utils/storage.ts:97-100 | an absent or empty-string key reads as the empty collection; a stored one reads as its value |
| Storage.Seed | src/utils/storage.ts:63-65 | after the guard the key always holds a value: its own when present, the defaults otherwise |
| Storage.DefaultUsers | src/utils/storage.ts:13-42 | three users with distinct logins; the only administrator is `admin`/`admin123`; residents of units 101 and 102 |
| Storage.DefaultCommunications | src/utils/storage.ts:44-61 | two communications with distinct ids: a high-priority one dated now and a medium one dated a day earlier |
| Storage.Seeded | src/utils/storage.ts:63-77 | after seeding all four collection keys hold a value |
| Storage.SeedingKeepsPresentKeys | src/utils/storage.ts:63-77 | a present key, even one holding `[]`, is never overwritten; absent users and communications get the defaults |
| Storage.SeedingIdempotent | src/utils/storage.ts:63-77 | seeding twice, at any two times, equals seeding once |
| Storage.SeedingEmptyStore | src/utils/storage.ts:11-77 | seeding an empty store gives the default users, no visitors, no correspondence and the two default communications |
| Storage.FindByLogin | src/utils/storage.ts:91-94 | a found user is in the collection with exactly that login, and none is found only when no user has that login |
| Storage.FindByLoginFirst | src/utils/storage.ts:93 | with several users sharing a login, the lookup returns the first of them |
| Storage.Store.constructor | src/utils/storage.ts:3-8 | a fresh localStorage has none of the application's keys and no theme keys |
| Storage.Store.InitializeDefaultData | src/utils/storage.ts:11-78 | the store afterwards is the seeded store; the session and theme keys are untouched |
| Storage.Store.GetUsers | src/utils/storage.ts:81-85 | seeds first, then returns the stored users, which are the defaults if the key was missing |
| Storage.Store.SaveUsers | src/utils/storage.ts:87-89 | the users key holds exactly the saved sequence |
| Storage.Store.GetUserByLogin | src/utils/storage.ts:91-94 | seeds, then returns the first user with that login among the stored users |
| Storage.Store.GetVisitors | src/utils/storage.ts:97-100 | returns the stored visitors, or none for an absent or blank key, without seeding |
| Storage.Store.SaveVisitors | src/utils/storage.ts:102-104 | the visitors key holds exactly the saved sequence |
| Storage.Store.AddVisitor | src/utils/storage.ts:106-115 | the returned visitor is the draft with id `visitor-<now>`, and the stored list is the old one with it appended |
| Storage.Store.GetCorrespondences | src/utils/storage.ts:118-121 | returns the stored correspondence, or none, without seeding |
| Storage.Store.SaveCorrespondences | src/utils/storage.ts:123-125 | the correspondence key holds exactly the saved sequence |
| Storage.Store.AddCorrespondence | src/utils/storage.ts:127-136 | the returned item is the draft with id `correspondence-<now>`, appended to the stored list |
| Storage.Store.GetCommunications | src/utils/storage.ts:139-142 | returns the stored communications, or none, without seeding |
| Storage.Store.SaveCommunications | src/utils/storage.ts:144-146 | the communications key holds exactly the saved sequence |
| Storage.Store.AddCommunication | src/utils/storage.ts:148-157 | the returned item has id `communication-<now>` and is put first, before the old list in its old order |
| Storage.RecordIdsDistinct | src/utils/storage.ts:106-157 | ids of one kind differ for different timestamps, and ids of different kinds never coincide |
| Storage.SaveThenGet | src/utils/storage.ts:87-146 | for each collection, save followed by get returns what was saved |
| AuthContext.Authenticate | src/contexts/AuthContext.tsx:40-43 | an accepted user is in the collection with exactly that login and password; an unknown login is rejected |
| AuthContext.AuthenticateFirstMatch | src/contexts/AuthContext.tsx:41-43 | with duplicate logins only the first matching user's password is compared: accepted iff it matches |
| AuthContext.SessionState | src/contexts/AuthContext.tsx:28-38 | the state a session key stands for is consistent, authenticated iff the key is stored, and holds the stored user |
| AuthContext.SeededUsers | src/utils/storage.ts:81-85 | the users a login searches are the stored ones, or the defaults when the key was missing |
| AuthContext.AuthProvider.constructor | src/contexts/AuthContext.tsx:22-25 | the initial state holds no user and is not authenticated |
| AuthContext.AuthProvider.RestoreSession | src/contexts/AuthContext.tsx:28-38 | a stored session is taken over verbatim as an authenticated state; without one the state stays; from the initial state the result agrees with the session key |
| AuthContext.AuthProvider.Login | src/contexts/AuthContext.tsx:40-62 | returns true iff `Authenticate` accepts; then state and session key hold the found user; otherwise neither changes; the store is seeded; agreement of state and session key is kept |
| AuthContext.AuthProvider.Logout | src/contexts/AuthContext.tsx:64-69 | the state holds no user and is not authenticated; the session key is removed, so state and key agree |
| ThemeContext.ThemeKeyInjective | src/contexts/ThemeContext.tsx:56 | different users have different `theme_<id>` keys |
| ThemeContext.ThemeKey | src/contexts/ThemeContext.tsx:56 | the key is `theme_` followed by the user id, which can be read back from it |
| ThemeContext.DataTheme | src/contexts/ThemeContext.tsx:41-45 | the attribute is removed iff the theme is `campos-jordao`, and otherwise is the theme's id |
| ThemeContext.DataThemeDeterminesTheme | src/contexts/ThemeContext.tsx:41-45 | the attribute value determines the active theme |
| ThemeContext.SaveUserTheme | src/contexts/ThemeContext.tsx:53-57 | with a session the session user's key holds the new theme; without one the keys are unchanged; no other key is added |
| ThemeContext.SaveUserThemeKeepsOthers | src/contexts/ThemeContext.tsx:53-57 | every other user's theme key keeps its value, or stays absent |
| ThemeContext.ThemeProvider.constructor | src/contexts/ThemeContext.tsx:22-23 | the initial state is theme `campos-jordao` and no user theme |
| ThemeContext.ThemeProvider.LoadUserTheme | src/contexts/ThemeContext.tsx:25-37 | with a session and a stored key, theme and user theme become the stored theme; otherwise both stay |
| ThemeContext.ThemeProvider.SetUserTheme | src/contexts/ThemeContext.tsx:48-58 | theme and user theme become the new theme, and the keys become `SaveUserTheme` of the old keys |
| ThemeContext.ThemeProvider.SetTheme | src/contexts/ThemeContext.tsx:60-62 | only the active theme changes |
| Queries.ResidenceOf | src/components/ResidentDashboard.tsx:30 | `user?.residenceNumber` is present only for a user who has a residence number |
| Queries.VisitorsOf | src/components/ResidentDashboard.tsx:31 | exactly the visitors of the given unit; none when the unit is absent |
| AuthTypes.Visitor.AtResidence | src/components/ResidentDashboard.tsx:31 | `v.residenceNumber === user?.residenceNumber`: never true without a residence number |
| Queries.ActiveVisitors | src/components/ResidentDashboard.tsx:35 | exactly the visitors with status inside |
| Queries.CorrespondencesOf | src/components/ResidentDashboard.tsx:32 | exactly the items addressed to the given unit; none when the unit is absent |
| AuthTypes.Correspondence.AtResidence | src/components/ResidentDashboard.tsx:32 | `c.residenceNumber === user?.residenceNumber`: never true without a residence number |
| Queries.PendingCorrespondences | src/components/ResidentDashboard.tsx:36 | exactly the items with status waiting |
| Queries.HighPriority | src/components/ResidentDashboard.tsx:37 | exactly the communications with priority high |
| Queries.Residents | src/components/AdminDashboard.tsx:34 | exactly the users whose type is resident |
| Queries.ActiveVisitorsOfResidence | src/components/ResidentDashboard.tsx:31-35 | filtering by unit then by status equals filtering by status then by unit |
| Queries.PendingOfResidence | src/components/ResidentDashboard.tsx:32-36 | the same for items waiting at the desk |
| Queries.PendingOfResidenceBounded | src/components/ResidentDashboard.tsx:32-36 | a unit never has more waiting items than the whole desk |
| VisitorsList.FilteredVisitors | src/components/admin/VisitorsList.tsx:27-30 | filter `all` shows the whole log; a status filter shows exactly the visitors with that status |
| VisitorsList.StatusFiltersPartition | src/components/admin/VisitorsList.tsx:27-30 | the rows under `inside` and under `left` add up to the whole log |
| VisitorsList.Checkout | src/components/admin/VisitorsList.tsx:58-66 | a checked-out visitor has status left and the exit time; every other field is kept |
| VisitorsList.ExitOffered | src/components/admin/VisitorsList.tsx:220 | the exit button is shown exactly for visitors inside |
| VisitorsList.CheckoutById | src/components/admin/VisitorsList.tsx:58-66 | length and positions are kept; records with the id are checked out and all others unchanged |
| VisitorsList.CheckoutUnknownId | src/components/admin/VisitorsList.tsx:58-66 | registering the exit of an unknown id changes nothing |
| VisitorsList.CheckoutTwice | src/components/admin/VisitorsList.tsx:58-66 | the handler ignores the status, so a repeated exit overwrites the first exit time |
| VisitorsList.CheckoutLeavesActive | src/components/admin/VisitorsList.tsx:220 | after the exit the visitors inside are the old ones minus that id, in order, and none with that id is offered an exit |
| VisitorsList.CheckoutLowersActiveCount | src/components/AdminDashboard.tsx:38 | checking out a visitor who is inside lowers the count of visitors inside |
| VisitorsList.CheckoutOfResidence | src/components/resident/VisitorManagement.tsx:55-67 | checking out the whole log then restricting to a unit equals checking out the unit's list |
| VisitorsList.EntryDraft | src/components/admin/VisitorsList.tsx:35-41 | a new entry is inside, has no exit time, and carries the typed fields |
| VisitorsList.VisitorsList.constructor | src/components/admin/VisitorsList.tsx:16-17 | the component starts with the stored log and the filter `all` |
| VisitorsList.VisitorsList.Shown | src/components/admin/VisitorsList.tsx:27-30 | under `all` the table shows the component's whole copy |
| VisitorsList.VisitorsList.SetFilter | src/components/admin/VisitorsList.tsx:104 | only the filter changes |
| VisitorsList.VisitorsList.HandleSubmit | src/components/admin/VisitorsList.tsx:32-43 | the new visitor gets id `visitor-<now>` and is appended to the store; the component's list is the re-read store |
| VisitorsList.VisitorsList.HandleExit | src/components/admin/VisitorsList.tsx:57-69 | the list becomes `CheckoutById` of the component's copy, and the store holds exactly that list |
| CorrespondencesList.FilteredCorrespondences | src/components/admin/CorrespondencesList.tsx:28-31 | filter `all` shows everything; a status filter shows exactly the items with that status |
| CorrespondencesList.StatusFiltersPartition | src/components/admin/CorrespondencesList.tsx:28-31 | the rows under `waiting` and under `delivered` add up to the whole list |
| CorrespondencesList.TypeLabel | src/components/admin/CorrespondencesList.tsx:103-114 | every kind of item gets a non-empty label; the resident's `getTypeLabel` (CorrespondenceView.tsx, lines 40-51) is the same table |
| CorrespondencesList.TypeLabelInjective | src/components/admin/CorrespondencesList.tsx:103-114 | the four kinds get four different labels |
| CorrespondencesList.DeliveredDateShown | src/components/admin/CorrespondencesList.tsx:257 | the date is shown iff the item is delivered and records a delivery time |
| CorrespondencesList.Deliver | src/components/admin/CorrespondencesList.tsx:59-67 | a delivered item has status delivered and the delivery time; every other field is kept |
| CorrespondencesList.DeliveryOffered | src/components/admin/CorrespondencesList.tsx:247 | the delivery button is shown exactly for items waiting |
| CorrespondencesList.DeliverShowsDate | src/components/admin/CorrespondencesList.tsx:247-257 | a delivered item shows its delivery date and no longer offers delivery |
| CorrespondencesList.DeliverById | src/components/admin/CorrespondencesList.tsx:59-67 | length and positions are kept; items with the id are delivered and all others unchanged |
| CorrespondencesList.DeliverUnknownId | src/components/admin/CorrespondencesList.tsx:59-67 | confirming the delivery of an unknown id changes nothing |
| CorrespondencesList.DeliverTwice | src/components/admin/CorrespondencesList.tsx:59-67 | the handler ignores the status, so a repeated delivery overwrites the first delivery time |
| CorrespondencesList.DeliverLeavesPending | src/components/admin/CorrespondencesList.tsx:59-67 | after delivery the waiting items are the old ones minus that id, in order |
| CorrespondencesList.DeliverLowersPendingCount | src/components/AdminDashboard.tsx:39 | delivering a waiting item lowers the waiting count |
| CorrespondencesList.DeliverOfResidence | src/components/resident/CorrespondenceView.tsx:12-14 | delivering then restricting to a unit equals delivering in the unit's list |
| CorrespondencesList.ArrivalDraft | src/components/admin/CorrespondencesList.tsx:36-42 | a registered item is waiting, has no delivery time, and carries the typed fields |
| CorrespondencesList.CorrespondencesList.constructor | src/components/admin/CorrespondencesList.tsx:17-18 | the component starts with the stored list and the filter `all` |
| CorrespondencesList.CorrespondencesList.Shown | src/components/admin/CorrespondencesList.tsx:28-31 | under `all` the table shows the component's whole copy |
| CorrespondencesList.CorrespondencesList.SetFilter | src/components/admin/CorrespondencesList.tsx:131 | only the filter changes |
| CorrespondencesList.CorrespondencesList.HandleSubmit | src/components/admin/CorrespondencesList.tsx:33-44 | the new item gets id `correspondence-<now>` and is appended to the store; the component's list is the re-read store |
| CorrespondencesList.CorrespondencesList.HandleDelivery | src/components/admin/CorrespondencesList.tsx:58-70 | the list becomes `DeliverById` of the component's copy, and the store holds exactly that list |
| CommunicationsManagement.EmptyForm | src/components/admin/CommunicationsManagement.tsx:28-34 | the reset form has empty texts, priority medium and author `Administração` |
| CommunicationsManagement.FormOf | src/components/admin/CommunicationsManagement.tsx:76-81 | the edit form carries the communication's title, content, priority and author |
| CommunicationsManagement.PublicationDraft | src/components/admin/CommunicationsManagement.tsx:56-62 | a new communication carries the form's fields and the current date |
| CommunicationsManagement.Edited | src/components/admin/CommunicationsManagement.tsx:45 | an edited item keeps its id, takes the form's four fields and the given date |
| CommunicationsManagement.EditedWithOwnForm | src/components/admin/CommunicationsManagement.tsx:45 | editing with the item's own form and date gives the item back |
| CommunicationsManagement.ApplyEdit | src/components/admin/CommunicationsManagement.tsx:43-47 | length, order and every id are kept; items with the target's id take the form and the target's date; others are unchanged |
| CommunicationsManagement.ApplyUnchangedEdit | src/components/admin/CommunicationsManagement.tsx:43-47 | submitting an untouched edit dialog changes nothing when the target's id is unique |
| CommunicationsManagement.ApplyEditTwice | src/components/admin/CommunicationsManagement.tsx:43-47 | a second edit of the same target replaces the first entirely |
| CommunicationsManagement.RemoveById | src/components/admin/CommunicationsManagement.tsx:86 | exactly the items with another id remain |
| CommunicationsManagement.RemoveByIdAppend | src/components/admin/CommunicationsManagement.tsx:86 | deleting distributes over any split of the board, so the remaining items keep their order |
| CommunicationsManagement.RemoveByIdMultiset | src/components/admin/CommunicationsManagement.tsx:86 | every item with another id remains as often as it occurred, and none with the id |
| CommunicationsManagement.RemoveUnknownId | src/components/admin/CommunicationsManagement.tsx:86 | deleting an unknown id changes nothing |
| CommunicationsManagement.RemoveIdempotent | src/components/admin/CommunicationsManagement.tsx:86 | deleting twice equals deleting once |
| CommunicationsManagement.RemoveShortens | src/components/admin/CommunicationsManagement.tsx:86 | deleting an id that is on the board shortens the board |
| CommunicationsManagement.CommunicationsManagement.constructor | src/components/admin/CommunicationsManagement.tsx:16-26 | the component starts with the stored list, nothing being edited and the empty form |
| CommunicationsManagement.CommunicationsManagement.ResetForm | src/components/admin/CommunicationsManagement.tsx:28-36 | the form is the empty form and nothing is being edited |
| CommunicationsManagement.CommunicationsManagement.HandleEdit | src/components/admin/CommunicationsManagement.tsx:74-83 | the target is being edited and the form holds its fields |
| CommunicationsManagement.CommunicationsManagement.HandleSubmit | src/components/admin/CommunicationsManagement.tsx:38-72 | an edit applies `ApplyEdit` and saves it; a creation puts the new item first in the store and the list; either way the form is reset |
| CommunicationsManagement.CommunicationsManagement.HandleDelete | src/components/admin/CommunicationsManagement.tsx:85-88 | the list becomes `RemoveById` of the component's copy, and the store holds exactly that list |
| VisitorManagement.NewerFirstTotalPreorder | src/components/resident/VisitorManagement.tsx:93 | the comparator `b.date - a.date` induces a total preorder |
| VisitorManagement.CanRegister | src/components/resident/VisitorManagement.tsx:31 | `!user?.residenceNumber` is false exactly when the user has a non-empty residence number |
| VisitorManagement.NewerFirst | src/components/resident/VisitorManagement.tsx:93 | a visitor may stand before another when the comparator `b.date - a.date` is not positive |
| VisitorManagement.NewerFirstRows | src/components/resident/VisitorManagement.tsx:93 | in the sorted table no row is newer than a row above it |
| VisitorManagement.Recent | src/components/resident/VisitorManagement.tsx:88-92 | exactly the visitors dated no earlier than a week ago |
| VisitorManagement.RecentVisitors | src/components/resident/VisitorManagement.tsx:88-93 | the table is a permutation of the recent visitors, newest first |
| VisitorManagement.VisitorManagement.constructor | src/components/resident/VisitorManagement.tsx:17-19 | the component starts with exactly the stored visitors of the user's unit |
| VisitorManagement.VisitorManagement.HandleSubmit | src/components/resident/VisitorManagement.tsx:28-41 | without a residence number, or with an empty one, nothing changes; otherwise a visitor inside for the user's unit is appended and shown |
| VisitorManagement.VisitorManagement.HandleExit | src/components/resident/VisitorManagement.tsx:54-67 | the whole stored log is checked out and saved; the screen shows the unit's part, which is its old list with the exit applied |
| CommunicationsView.Rank | src/components/resident/CommunicationsView.tsx:39 | ranks lie between 1 and 3, and rank 3 is exactly priority high |
| CommunicationsView.RankInjective | src/components/resident/CommunicationsView.tsx:39 | different priorities have different ranks |
| CommunicationsView.Compare | src/components/resident/CommunicationsView.tsx:38-43 | negative iff `a` has higher priority, or equal priority and a later date; zero iff both are equal |
| CommunicationsView.CompareAntisymmetric | src/components/resident/CommunicationsView.tsx:38-43 | swapping the arguments negates the comparator |
| CommunicationsView.MayPrecedeTotalPreorder | src/components/resident/CommunicationsView.tsx:38-43 | the comparator induces a total preorder |
| CommunicationsView.MayPrecede | src/components/resident/CommunicationsView.tsx:38-43 | a communication may stand before another when the comparator is not positive |
| CommunicationsView.SortedBoard | src/components/resident/CommunicationsView.tsx:37-43 | on the sorted board high comes before medium before low, and equal priorities go newest first |
| CommunicationsView.HighPriorityCount | src/components/resident/CommunicationsView.tsx:45 | the count is zero exactly when no communication has priority high |
| CommunicationsView.HighPriorityCountPermutation | src/components/resident/CommunicationsView.tsx:38-45 | reordering the board does not change the count |
| CommunicationsView.CommunicationsView.constructor | src/components/resident/CommunicationsView.tsx:9 | the state array holds exactly the stored communications, in stored order |
| CommunicationsView.CommunicationsView.Render | src/components/resident/CommunicationsView.tsx:38-45 | the state array is sorted in place by the comparator, is a permutation of itself before, and the count is that of high items |
| CorrespondenceView.Cell | src/components/resident/CorrespondenceView.tsx:111-121 | the delivery date iff delivered with a date; "available at the desk" iff waiting; a dash otherwise |
| CorrespondenceView.CellAgreesWithDesk | src/components/resident/CorrespondenceView.tsx:111-114 | the resident's column shows a date exactly when the administrator's does, and the same date |
| CorrespondenceView.DeliveredCell | src/components/resident/CorrespondenceView.tsx:111-114 | an item delivered at the desk shows its delivery date to the resident |
| CorrespondenceView.NewerFirstTotalPreorder | src/components/resident/CorrespondenceView.tsx:54-56 | the date comparator induces a total preorder |
| CorrespondenceView.NewerFirst | src/components/resident/CorrespondenceView.tsx:54-56 | an item may stand before another when the comparator `b.date - a.date` is not positive |
| CorrespondenceView.PendingCount | src/components/resident/CorrespondenceView.tsx:58 | the count is zero exactly when no item is waiting |
| CorrespondenceView.PendingCountPermutation | src/components/resident/CorrespondenceView.tsx:54-58 | reordering the list does not change the count |
| CorrespondenceView.CorrespondenceView.constructor | src/components/resident/CorrespondenceView.tsx:12-14 | the state array holds exactly the stored items of the user's unit |
| CorrespondenceView.CorrespondenceView.Render | src/components/resident/CorrespondenceView.tsx:54-58 | the state array is sorted newest first in place, is a permutation of itself before, and the count is that of waiting items |
| AdminDashboard.Overview | src/components/AdminDashboard.tsx:34-39 | residents are the users of type resident; active visitors those inside across all units; pending items those waiting; all communications |
| AdminDashboard.VisitorPreview | src/components/AdminDashboard.tsx:155 | a prefix of the visitors inside, of length at most five |
| AdminDashboard.CorrespondencePreview | src/components/AdminDashboard.tsx:182 | a prefix of the waiting items, of length at most five |
| AdminDashboard.FirstRunOverview | src/components/AdminDashboard.tsx:34-39 | on a freshly seeded store the overview counts two residents, nobody inside, nothing waiting and two communications |
| AdminDashboard.Render | src/components/AdminDashboard.tsx:34-39 | rendering seeds the store through `getUsers` and shows the overview of the seeded store |
| ResidentDashboard.Overview | src/components/ResidentDashboard.tsx:30-37 | the unit's visitors inside and items waiting; all communications, and the high-priority ones among them without a unit filter |
| ResidentDashboard.NoResidenceSeesNothing | src/components/ResidentDashboard.tsx:30-32 | a user without a residence number sees no visitors and no items |
| ResidentDashboard.ResidentViewRestrictsAdminView | src/components/ResidentDashboard.tsx:31-36 | the resident's lists are the administrator's lists restricted to the unit, in order |
| ResidentDashboard.VisitorPreview | src/components/ResidentDashboard.tsx:139 | a prefix of the unit's visitors inside, of length at most three |
| ResidentDashboard.CorrespondencePreview | src/components/ResidentDashboard.tsx:169 | a prefix of the unit's waiting items, of length at most three |
| ResidentDashboard.HighPriorityPreview | src/components/ResidentDashboard.tsx:200 | a prefix of the high-priority communications, of length at most two |
| ResidentDashboard.Render | src/components/ResidentDashboard.tsx:30-37 | rendering reads the store without changing it and shows the overview of the snapshot |
| Seqs.Filter | src/components/ResidentDashboard.tsx:35 | `filter` keeps exactly the elements that pass, and never lengthens |
| Seqs.FilterAppend | src/components/ResidentDashboard.tsx:35-36 | filtering distributes over concatenation, so the kept elements stay in their order |
| Seqs.FilterFilter | src/components/ResidentDashboard.tsx:31-37 | two filters in a row are one filter by the conjunction |
| Seqs.FilterLengthPermutation | src/components/resident/CommunicationsView.tsx:45 | a filtered count depends only on the multiset of the input |
| Seqs.FilterSplit | src/components/admin/VisitorsList.tsx:27-30 | a filter and its negation split a sequence: their lengths add up to its length |
| Seqs.FilterUpdateCommute | src/components/resident/VisitorManagement.tsx:55-67 | a rewrite that keeps a filter's verdict commutes with that filter |
| Seqs.FilterUpdateDrops | src/components/admin/VisitorsList.tsx:58-66 | a rewrite that moves its elements out of a filter leaves the unselected elements that passed it |
| Seqs.Update | src/components/admin/VisitorsList.tsx:58-66 | the selective `map` keeps length and positions and rewrites exactly the selected elements |
| Seqs.UpdateOverride | src/components/admin/VisitorsList.tsx:58-66 | a second rewrite of the same elements replaces the first when it ignores what the first wrote |
| Seqs.Take | src/components/AdminDashboard.tsx:155 | `slice(0, n)` is a prefix of length `min(n, length)` |
| Seqs.SortBy | src/components/resident/CommunicationsView.tsx:38 | for a total preorder, the array is sorted in place and is a permutation of itself before |
| Scenarios.DeliveryScenario | src/components/admin/CorrespondencesList.tsx:33-70 | on a fresh store, a package for unit 102 makes one waiting item; after delivery none waits and the resident sees the date |
| Scenarios.LoginScenario | src/contexts/AuthContext.tsx:40-61 | on a fresh store `admin` is rejected with a wrong password and accepted with `admin123`, and the session holds the default administrator |
| Scenarios.ResidentPicksTheme | src/contexts/ThemeContext.tsx:25-57 | on a fresh store the resident of unit 101 logs in, picks sunset and logs out: only `theme_res-001` is written and sunset stays active |
| Scenarios.ThemeScenario | src/contexts/ThemeContext.tsx:25-57 | a resident's chosen theme stays active after logout and the administrator's login, only the resident's key is written, and a new mount keeps the default |

## Left out

- Rendering is not modelled: JSX, badges, icons, dialogs, the text fields of the forms, and the toast messages.
- JSON is not modelled. Collections are stored as typed sequences. Malformed JSON, which makes `JSON.parse` throw, is outside the model.
- Theme keys are a map from key to `Theme`. An empty or unknown string under `theme_<id>`, which the source would cast to a theme unchecked, is not modelled.
- Clocks and date formatting are parameters: `Date.now()`, `toISOString`, `toTimeString` and `toLocaleDateString`. Visit dates, which the source stores as ISO day strings (`YYYY-MM-DD`), are integer day numbers; correspondence and communication dates, ISO timestamps in the source, are integer milliseconds.
- VisitorManagement.Recent: `weekAgo` is a parameter. The calendar arithmetic that computes it (`setDate(getDate() - 7)`, local time and daylight saving) is not modelled, nor is the comparison of a visit day's UTC midnight with that instant: the model compares the visit date with `weekAgo` directly.
- Seqs.SortBy: does not state that elements the comparator ranks equal keep their input order. `Array.prototype.sort` is stable, and the order is visible: two visitors of the same day compare equal under the newest-first comparator, and so do two communications of one priority dated the same instant.
- VisitorManagement.RecentVisitors: states that the table is newest first and a permutation of the recent visitors, but not the order of visitors of the same day, which the stable sort leaves in stored order.
- The mount effects run once because their dependency lists are empty. That is a React guarantee, so the model simply calls each effect once, in a constructor or in `RestoreSession`/`LoadUserTheme`.
- Concurrency between browser tabs, and two records created in the same millisecond, are outside the model. The timestamp is a parameter, and `Storage.RecordIdsDistinct` covers distinct timestamps.
- Four administrator handlers write back the component's own copy, read at mount or at the last submit: `handleExit` in `VisitorsList`, `handleDelivery` in `CorrespondencesList`, and the edit branch of `handleSubmit` and `handleDelete` in `CommunicationsManagement`. If the store changed in between, the write overwrites that change. The model's contracts state exactly this, but no concurrent writer is modelled.
- `src/utils/storage.tsx` is not part of this model. It is an unused copy of the store with numeric ids; the components import `storage.ts`.
- `src/components/admin/UserManagement.tsx`, `src/App.tsx` and `src/pages/Index.tsx` are not part of this model. They are, respectively, a form that never persists, router wiring, and role-based routing.
- `src/components/ThemeSelector.tsx` is not part of this model. Its one lookup is covered by `ThemeTypes.FindOption` and `ThemeTypes.ThemeOptions`.
- The DOM side effect of the theme, setting `data-theme` on the document element, is not modelled. Only the choice of the attribute value is (`ThemeContext.DataTheme`).
