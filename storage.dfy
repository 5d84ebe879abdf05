/** The localStorage-backed entity store: four collections, each read and
    written whole, a seeder that fills absent keys with default data, and
    `add*` operations that give a record a timestamp id and persist it. */
module Storage {
  import opened AuthTypes
  import opened ThemeTypes
  import opened Ids

  /** What `localStorage.getItem(key)` can return for one key: nothing, the
      empty string, or a stored value. Only `Stored` is truthy. */
  datatype Slot<T> = Absent | Blank | Stored(value: T)

  /** `raw ? JSON.parse(raw) : []`: a collection key that is absent or blank
      reads as the empty collection. */
  function Contents<T>(slot: Slot<seq<T>>): (r: seq<T>)
    ensures slot.Stored? ==> r == slot.value
    ensures !slot.Stored? ==> r == []
  {
    if slot.Stored? then slot.value else []
  }

  /** The four collection keys `condominium_users`, `condominium_visitors`,
      `condominium_correspondences` and `condominium_communications`. */
  datatype Collections = Collections(
    users: Slot<seq<User>>,
    visitors: Slot<seq<Visitor>>,
    correspondences: Slot<seq<Correspondence>>,
    communications: Slot<seq<Communication>>)

  const EmptyCollections := Collections(Absent, Absent, Absent, Absent)

  const VisitorKind := "visitor"
  const CorrespondenceKind := "correspondence"
  const CommunicationKind := "communication"

  /** The texts of the two default announcements. */
  const ElevatorNotice: string := "Informamos que o elevador social passará por manutenção preventiva no dia 25/01/2024 das 8h às 17h. Pedimos a compreensão de todos."
  const VisitorPolicyNotice: string := "A partir do próximo mês, todos os visitantes deverão ser cadastrados no sistema antes da visita. Consulte o regulamento completo na portaria."

  /** One day in milliseconds. */
  const DayMillis := 86400000

  /** The administrator and the two residents written on first run. */
  function DefaultUsers(): (r: seq<User>)
    ensures |r| == 3
    ensures forall i, j :: 0 <= i < j < |r| ==> r[i].login != r[j].login
    ensures forall i :: 0 <= i < |r| && r[i].kind == Admin ==> i == 0
    ensures r[0].kind == Admin && r[0].login == "admin" && r[0].password == "admin123"
    ensures r[1].kind == Resident && r[1].residenceNumber == Some("101")
    ensures r[2].kind == Resident && r[2].residenceNumber == Some("102")
    ensures r[0].id == "admin-001" && r[1].id == "res-001" && r[2].id == "res-002"
    ensures r[1].login == "apt101" && r[1].password == "123456"
  {
    [
      User("admin-001", "admin", "admin123", Admin, None, "Administrador",
        Some("admin@condominio.com"), None),
      User("res-001", "apt101", "123456", Resident, Some("101"), "João Silva",
        Some("joao@email.com"), Some("(11) 99999-9999")),
      User("res-002", "apt102", "123456", Resident, Some("102"), "Maria Santos",
        Some("maria@email.com"), Some("(11) 88888-8888"))
    ]
  }

  /** The two announcements written on first run, dated now and one day
      earlier. */
  function DefaultCommunications(now: int): (r: seq<Communication>)
    ensures |r| == 2 && r[0].id != r[1].id
    ensures r[0].priority == High && r[0].date == now
    ensures r[1].priority == Medium && r[1].date == now - DayMillis
  {
    assert "comm-001"[7] != "comm-002"[7];
    [
      Communication("comm-001", "Manutenção do Elevador",
        ElevatorNotice,
        now, "Administração", High),
      Communication("comm-002", "Nova Política de Visitantes",
        VisitorPolicyNotice,
        now - DayMillis, "Síndico", Medium)
    ]
  }

  /** `if (!localStorage.getItem(key)) localStorage.setItem(key, defaults)`. */
  function Seed<T>(slot: Slot<seq<T>>, defaults: seq<T>): (r: Slot<seq<T>>)
    ensures r.Stored?
    ensures slot.Stored? ==> r == slot
    ensures !slot.Stored? ==> r == Stored(defaults)
  {
    if slot.Stored? then slot else Stored(defaults)
  }

  /** `initializeDefaultData` run at time `now`. */
  function Seeded(c: Collections, now: int): (r: Collections)
    ensures r.users.Stored? && r.visitors.Stored? && r.correspondences.Stored? && r.communications.Stored?
  {
    Collections(
      Seed(c.users, DefaultUsers()),
      Seed(c.visitors, []),
      Seed(c.correspondences, []),
      Seed(c.communications, DefaultCommunications(now)))
  }

  /** A key that is present is never overwritten, even when it holds the
      empty collection; only absent or blank keys receive defaults. */
  lemma SeedingKeepsPresentKeys(c: Collections, now: int)
    ensures c.users.Stored? ==> Seeded(c, now).users == c.users
    ensures c.visitors.Stored? ==> Seeded(c, now).visitors == c.visitors
    ensures c.correspondences.Stored? ==> Seeded(c, now).correspondences == c.correspondences
    ensures c.communications.Stored? ==> Seeded(c, now).communications == c.communications
    ensures !c.users.Stored? ==> Seeded(c, now).users == Stored(DefaultUsers())
    ensures !c.communications.Stored? ==> Seeded(c, now).communications == Stored(DefaultCommunications(now))
  {
  }

  /** Seeding twice, at any two times, is seeding once. */
  lemma SeedingIdempotent(c: Collections, first: int, second: int)
    ensures Seeded(Seeded(c, first), second) == Seeded(c, first)
  {
  }

  /** On an empty store seeding writes the three default users, no visitors,
      no correspondences and the two default announcements. */
  lemma SeedingEmptyStore(now: int)
    ensures var r := Seeded(EmptyCollections, now);
      && Contents(r.users) == DefaultUsers()
      && Contents(r.visitors) == []
      && Contents(r.correspondences) == []
      && Contents(r.communications) == DefaultCommunications(now)
  {
  }

  /** `users.find(user => user.login === login) || null`: the first user whose
      login equals `login` exactly. */
  function FindByLogin(users: seq<User>, login: string): (r: Option<User>)
    ensures r.Some? ==> r.value in users && r.value.login == login
    ensures r.None? <==> forall u :: u in users ==> u.login != login
  {
    if users == [] then None
    else if users[0].login == login then Some(users[0])
    else FindByLogin(users[1..], login)
  }

  /** The lookup returns the first user with the login, whatever the later
      users hold. */
  lemma {:induction false} FindByLoginFirst(users: seq<User>, i: nat, login: string)
    requires i < |users| && users[i].login == login
    requires forall j :: 0 <= j < i ==> users[j].login != login
    ensures FindByLogin(users, login) == Some(users[i])
  {
    if i > 0 {
      assert users[0].login != login;
      forall j | 0 <= j < i - 1
        ensures users[1..][j].login != login
      {
        assert users[1..][j] == users[j + 1];
      }
      FindByLoginFirst(users[1..], i - 1, login);
    }
  }

  /** The browser's localStorage, one field per key the application uses. */
  class Store {
    /** `condominium_users` */
    var users: Slot<seq<User>>
    /** `condominium_visitors` */
    var visitors: Slot<seq<Visitor>>
    /** `condominium_correspondences` */
    var correspondences: Slot<seq<Correspondence>>
    /** `condominium_communications`, newest announcement first */
    var communications: Slot<seq<Communication>>
    /** `condominium_current_user`: the logged-in user, password included */
    var currentUser: Slot<User>
    /** `theme_<user id>`, keyed by the whole key string */
    var themes: map<string, Theme>

    /** An empty localStorage. */
    constructor ()
      ensures Snapshot() == EmptyCollections
      ensures currentUser == Absent && themes == map[]
    {
      users, visitors, correspondences, communications := Absent, Absent, Absent, Absent;
      currentUser := Absent;
      themes := map[];
    }

    /** The four collection keys. */
    function Snapshot(): Collections
      reads this
    {
      Collections(users, visitors, correspondences, communications)
    }

    /** `initializeDefaultData`: gives each absent or blank collection key its
        default content and leaves every present key alone. */
    method InitializeDefaultData(now: int)
      modifies this`users, this`visitors, this`correspondences, this`communications
      ensures Snapshot() == Seeded(old(Snapshot()), now)
    {
      if !users.Stored? {
        users := Stored(DefaultUsers());
      }
      if !visitors.Stored? {
        visitors := Stored([]);
      }
      if !correspondences.Stored? {
        correspondences := Stored([]);
      }
      if !communications.Stored? {
        communications := Stored(DefaultCommunications(now));
      }
    }

    /** `getUsers`: seeds, then reads the users. */
    method GetUsers(now: int) returns (r: seq<User>)
      modifies this`users, this`visitors, this`correspondences, this`communications
      ensures Snapshot() == Seeded(old(Snapshot()), now)
      ensures users == Stored(r)
      ensures old(users).Stored? ==> r == old(users).value
      ensures !old(users).Stored? ==> r == DefaultUsers()
    {
      InitializeDefaultData(now);
      r := Contents(users);
    }

    method SaveUsers(s: seq<User>)
      modifies this`users
      ensures users == Stored(s)
    {
      users := Stored(s);
    }

    /** `getUserByLogin`: seeds, then finds the first user with that login. */
    method GetUserByLogin(login: string, now: int) returns (r: Option<User>)
      modifies this`users, this`visitors, this`correspondences, this`communications
      ensures Snapshot() == Seeded(old(Snapshot()), now)
      ensures r == FindByLogin(Contents(users), login)
    {
      var all := GetUsers(now);
      r := FindByLogin(all, login);
    }

    /** `getVisitors`: reads without seeding. */
    method GetVisitors() returns (r: seq<Visitor>)
      ensures visitors.Stored? ==> r == visitors.value
      ensures !visitors.Stored? ==> r == []
    {
      r := Contents(visitors);
    }

    method SaveVisitors(s: seq<Visitor>)
      modifies this`visitors
      ensures visitors == Stored(s)
    {
      visitors := Stored(s);
    }

    /** `addVisitor`: appends the draft under a `visitor-<now>` id and returns
        the stored record. */
    method AddVisitor(draft: VisitorDraft, now: nat) returns (v: Visitor)
      modifies this`visitors
      ensures v == draft.WithId(RecordId(VisitorKind, now))
      ensures visitors == Stored(Contents(old(visitors)) + [v])
    {
      var all := GetVisitors();
      v := draft.WithId(RecordId(VisitorKind, now));
      all := all + [v];
      SaveVisitors(all);
    }

    /** `getCorrespondences`: reads without seeding. */
    method GetCorrespondences() returns (r: seq<Correspondence>)
      ensures correspondences.Stored? ==> r == correspondences.value
      ensures !correspondences.Stored? ==> r == []
    {
      r := Contents(correspondences);
    }

    method SaveCorrespondences(s: seq<Correspondence>)
      modifies this`correspondences
      ensures correspondences == Stored(s)
    {
      correspondences := Stored(s);
    }

    /** `addCorrespondence`: appends the draft under a `correspondence-<now>` id. */
    method AddCorrespondence(draft: CorrespondenceDraft, now: nat) returns (c: Correspondence)
      modifies this`correspondences
      ensures c == draft.WithId(RecordId(CorrespondenceKind, now))
      ensures correspondences == Stored(Contents(old(correspondences)) + [c])
    {
      var all := GetCorrespondences();
      c := draft.WithId(RecordId(CorrespondenceKind, now));
      all := all + [c];
      SaveCorrespondences(all);
    }

    /** `getCommunications`: reads without seeding. */
    method GetCommunications() returns (r: seq<Communication>)
      ensures communications.Stored? ==> r == communications.value
      ensures !communications.Stored? ==> r == []
    {
      r := Contents(communications);
    }

    method SaveCommunications(s: seq<Communication>)
      modifies this`communications
      ensures communications == Stored(s)
    {
      communications := Stored(s);
    }

    /** `addCommunication`: puts the draft, under a `communication-<now>` id,
        in front of the existing announcements. */
    method AddCommunication(draft: CommunicationDraft, now: nat) returns (c: Communication)
      modifies this`communications
      ensures c == draft.WithId(RecordId(CommunicationKind, now))
      ensures communications == Stored([c] + Contents(old(communications)))
    {
      var all := GetCommunications();
      c := draft.WithId(RecordId(CommunicationKind, now));
      all := [c] + all;
      SaveCommunications(all);
    }
  }

  /** Within one kind, records created at different timestamps get different
      ids, and ids of different kinds never coincide. */
  lemma RecordIdsDistinct(t1: nat, t2: nat)
    ensures t1 != t2 ==> RecordId(VisitorKind, t1) != RecordId(VisitorKind, t2)
    ensures t1 != t2 ==> RecordId(CorrespondenceKind, t1) != RecordId(CorrespondenceKind, t2)
    ensures t1 != t2 ==> RecordId(CommunicationKind, t1) != RecordId(CommunicationKind, t2)
    ensures RecordId(VisitorKind, t1) != RecordId(CorrespondenceKind, t2)
    ensures RecordId(VisitorKind, t1) != RecordId(CommunicationKind, t2)
    ensures RecordId(CorrespondenceKind, t1) != RecordId(CommunicationKind, t2)
  {
    assert '-' !in VisitorKind && '-' !in CorrespondenceKind && '-' !in CommunicationKind;
    var kinds := [VisitorKind, CorrespondenceKind, CommunicationKind];
    forall k1, k2 | k1 in kinds && k2 in kinds && RecordId(k1, t1) == RecordId(k2, t2)
      ensures k1 == k2 && t1 == t2
    {
      RecordIdInjective(k1, t1, k2, t2);
    }
  }

  /** Saving a collection and reading it back gives exactly what was saved,
      for each of the four collections. */
  method SaveThenGet(store: Store, us: seq<User>, vs: seq<Visitor>, cs: seq<Correspondence>, ms: seq<Communication>, now: int)
    returns (us': seq<User>, vs': seq<Visitor>, cs': seq<Correspondence>, ms': seq<Communication>)
    modifies store
    ensures us' == us && vs' == vs && cs' == cs && ms' == ms
  {
    store.SaveUsers(us);
    us' := store.GetUsers(now);
    store.SaveVisitors(vs);
    vs' := store.GetVisitors();
    store.SaveCorrespondences(cs);
    cs' := store.GetCorrespondences();
    store.SaveCommunications(ms);
    ms' := store.GetCommunications();
  }
}
