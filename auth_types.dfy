/** The record types every component shares. Optional fields (`name?: T`)
    and nullable values (`T | null`) are `Option`s; the string-literal unions
    are datatypes with exactly the listed constructors; dates are integer
    timestamps in milliseconds. */
module AuthTypes {

  datatype Option<T> = None | Some(value: T)

  datatype UserType = Admin | Resident

  /** An account. `kind` is the source's `type` field. */
  datatype User = User(
    id: string,
    login: string,
    password: string,
    kind: UserType,
    residenceNumber: Option<string>,
    name: string,
    email: Option<string>,
    phone: Option<string>)

  /** The session as the components see it. */
  datatype AuthState = AuthState(user: Option<User>, isAuthenticated: bool)
  {
    /** A state is consistent when it is authenticated exactly when it holds a user. */
    predicate Consistent()
    {
      isAuthenticated <==> user.Some?
    }
  }

  datatype VisitorStatus = Inside | Left

  /** `date` is the calendar day of entry; `entryTime` and `exitTime` are the
      "HH:MM" clock readings, kept as opaque strings. */
  datatype Visitor = Visitor(
    id: string,
    name: string,
    residenceNumber: string,
    entryTime: string,
    exitTime: Option<string>,
    date: int,
    status: VisitorStatus)
  {
    /** `v.residenceNumber === user?.residenceNumber`: never true when there is
        no user or the user has no residence number. */
    predicate AtResidence(residence: Option<string>)
    {
      residence.Some? && residenceNumber == residence.value
    }

    /** The record without its id (`Omit<Visitor, 'id'>`). */
    function Draft(): VisitorDraft
    {
      VisitorDraft(name, residenceNumber, entryTime, exitTime, date, status)
    }
  }

  /** What `addVisitor` is given. */
  datatype VisitorDraft = VisitorDraft(
    name: string,
    residenceNumber: string,
    entryTime: string,
    exitTime: Option<string>,
    date: int,
    status: VisitorStatus)
  {
    /** `{...visitor, id}`: every field copied, the id added. */
    function WithId(id: string): (v: Visitor)
      ensures v.id == id && v.Draft() == this
    {
      Visitor(id, name, residenceNumber, entryTime, exitTime, date, status)
    }
  }

  datatype CorrespondenceType = Package | Letter | FoodDelivery | Other

  datatype CorrespondenceStatus = Waiting | Delivered

  datatype Correspondence = Correspondence(
    id: string,
    residenceNumber: string,
    kind: CorrespondenceType,
    description: string,
    date: int,
    status: CorrespondenceStatus,
    deliveredAt: Option<int>)
  {
    /** `c.residenceNumber === user?.residenceNumber`. */
    predicate AtResidence(residence: Option<string>)
    {
      residence.Some? && residenceNumber == residence.value
    }

    function Draft(): CorrespondenceDraft
    {
      CorrespondenceDraft(residenceNumber, kind, description, date, status, deliveredAt)
    }
  }

  /** What `addCorrespondence` is given (`Omit<Correspondence, 'id'>`). */
  datatype CorrespondenceDraft = CorrespondenceDraft(
    residenceNumber: string,
    kind: CorrespondenceType,
    description: string,
    date: int,
    status: CorrespondenceStatus,
    deliveredAt: Option<int>)
  {
    function WithId(id: string): (c: Correspondence)
      ensures c.id == id && c.Draft() == this
    {
      Correspondence(id, residenceNumber, kind, description, date, status, deliveredAt)
    }
  }

  datatype Priority = Low | Medium | High

  datatype Communication = Communication(
    id: string,
    title: string,
    content: string,
    date: int,
    author: string,
    priority: Priority)
  {
    function Draft(): CommunicationDraft
    {
      CommunicationDraft(title, content, date, author, priority)
    }
  }

  /** What `addCommunication` is given (`Omit<Communication, 'id'>`). */
  datatype CommunicationDraft = CommunicationDraft(
    title: string,
    content: string,
    date: int,
    author: string,
    priority: Priority)
  {
    function WithId(id: string): (c: Communication)
      ensures c.id == id && c.Draft() == this
    {
      Communication(id, title, content, date, author, priority)
    }
  }
}
