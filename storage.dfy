/**
 * The page's `localStorage` slots: what the ticket list is restored from
 * and what the current user is read from. Serialisation is taken to be the
 * identity, so a slot holds the value that was written to it.
 */
module Storage {
  import opened Wrappers
  import opened Tickets

  datatype User = User(name: string, email: string, id: int)

  /**
   * The value of a slot: the ticket list written by `saveTickets`, a user
   * record written by `setCurrentUser`, or text written by other code
   * (such as the session token).
   */
  datatype Slot = TicketList(tickets: seq<TicketData>) | UserRecord(user: User) | Text(text: string)

  type Store = map<string, Slot>

  const TicketsKey: string := "supportTickets"
  const UserKey: string := "currentUser"
  const TokenKey: string := "userToken"

  /** A slot whose content is not the shape the reader expects; the page does not handle this. */
  datatype LoadError = Unreadable(key: string)

  /** `getItem` returns the slot's text, and the empty text counts as absent. */
  predicate Present(store: Store, key: string): (b: bool)
    ensures key !in store ==> !b
    ensures key in store && store[key] == Text("") ==> !b
    ensures key in store && store[key] != Text("") ==> b
  {
    key in store && store[key] != Text("")
  }

  /** The two sample tickets shown on a first visit, dated one day and half a day back. */
  function SampleTickets(dayAgo: string, halfDayAgo: string): (r: seq<TicketData>)
    ensures |r| == 2
    ensures r[0].id == 1 && r[0].status == Resolved && r[0].date == dayAgo
    ensures r[1].id == 2 && r[1].status == InProgress && r[1].date == halfDayAgo
    ensures r[0].screenshot.None? && r[1].screenshot.None?
  {
    [
      TicketData(1, "مشكلة في تسجيل الدخول", "لا أستطيع تسجيل الدخول إلى حسابي", Resolved, dayAgo,
                 "تم إعادة تعيين كلمة المرور وحل المشكلة", None, Some("high"), Some("account")),
      TicketData(2, "بطء في تحميل الصفحات", "الموقع يحمل ببطء شديد", InProgress, halfDayAgo,
                 "جاري فحص المشكلة مع فريق التقنية", None, Some("medium"), Some("technical"))
    ]
  }

  /** `loadTickets`: the stored list when the slot is present, the sample tickets when it is not. */
  function LoadTickets(store: Store, dayAgo: string, halfDayAgo: string): (r: Result<seq<TicketData>, LoadError>)
    ensures !Present(store, TicketsKey) ==> r == Success(SampleTickets(dayAgo, halfDayAgo))
    ensures TicketsKey in store && store[TicketsKey].TicketList? ==> r == Success(store[TicketsKey].tickets)
    ensures r.Failure? <==> Present(store, TicketsKey) && !store[TicketsKey].TicketList?
  {
    if !Present(store, TicketsKey) then Success(SampleTickets(dayAgo, halfDayAgo))
    else if store[TicketsKey].TicketList? then Success(store[TicketsKey].tickets)
    else Failure(Unreadable(TicketsKey))
  }

  /** The identity used when no user is stored. */
  const DefaultUser: User := User("أحمد محمد", "ahmed@example.com", 1)

  /** `getCurrentUser`: the stored user when the slot is present, the default identity when it is not. */
  function GetCurrentUser(store: Store): (r: Result<User, LoadError>)
    ensures !Present(store, UserKey) ==> r == Success(User("أحمد محمد", "ahmed@example.com", 1))
    ensures UserKey in store && store[UserKey].UserRecord? ==> r == Success(store[UserKey].user)
    ensures r.Failure? <==> Present(store, UserKey) && !store[UserKey].UserRecord?
  {
    if !Present(store, UserKey) then Success(DefaultUser)
    else if store[UserKey].UserRecord? then Success(store[UserKey].user)
    else Failure(Unreadable(UserKey))
  }

  /** What `saveTickets` writes is what `loadTickets` restores. */
  lemma SaveThenLoad(store: Store, ds: seq<TicketData>, dayAgo: string, halfDayAgo: string)
    ensures LoadTickets(store[TicketsKey := TicketList(ds)], dayAgo, halfDayAgo) == Success(ds)
  {
  }

  /** What `setCurrentUser` writes is what `getCurrentUser` reads back. */
  lemma SetThenGetUser(store: Store, user: User)
    ensures GetCurrentUser(store[UserKey := UserRecord(user)]) == Success(user)
  {
  }

  /** After the logout removals the page is back to the default identity, and the ticket list is unaffected. */
  lemma LogoutEffects(store: Store, dayAgo: string, halfDayAgo: string)
    ensures GetCurrentUser(store - {UserKey, TokenKey}) == Success(DefaultUser)
    ensures LoadTickets(store - {UserKey, TokenKey}, dayAgo, halfDayAgo) == LoadTickets(store, dayAgo, halfDayAgo)
  {
    assert TicketsKey != UserKey && TicketsKey != TokenKey;
  }

  /** Writing the ticket slot leaves the current user as it was, and writing the user slot leaves the tickets. */
  lemma SlotsIndependent(store: Store, ds: seq<TicketData>, user: User, dayAgo: string, halfDayAgo: string)
    ensures GetCurrentUser(store[TicketsKey := TicketList(ds)]) == GetCurrentUser(store)
    ensures LoadTickets(store[UserKey := UserRecord(user)], dayAgo, halfDayAgo) == LoadTickets(store, dayAgo, halfDayAgo)
  {
    assert TicketsKey != UserKey;
  }
}
