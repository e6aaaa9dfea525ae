/**
 * `TicketManager`: the page's ticket list held in memory, mirrored to the
 * `supportTickets` slot after every change, and the session slots it edits.
 */
module Manager {
  import opened Wrappers
  import opened Form
  import opened Tickets
  import opened JsText
  import opened Storage

  /** `JSON.parse` of a stored list: one new ticket object per record, in order. */
  method Revive(ds: seq<TicketData>) returns (ts: seq<Ticket>)
    ensures Snapshot(ts) == ds
    ensures Distinct(ts)
    ensures forall i :: 0 <= i < |ts| ==> fresh(ts[i])
  {
    ts := [];
    for i := 0 to |ds|
      invariant |ts| == i
      invariant forall k :: 0 <= k < i ==> ts[k].Data() == ds[k] && fresh(ts[k])
      invariant Distinct(ts)
    {
      var t := new Ticket(ds[i]);
      ts := ts + [t];
    }
  }

  const LogoutNotice: string := "تم تسجيل الخروج بنجاح"
  const LoginPage: string := "login.html"

  /** The method `handleLogout` calls to show its notice; `TicketManager` does not define it. */
  const LogoutNotifier: string := "showNotification"

  /**
   * How `handleLogout` ends: declined at the prompt, stopped by the
   * TypeError that calling an undefined method raises (naming that method),
   * or signed out with a notice shown and a redirect scheduled.
   */
  datatype LogoutOutcome = Declined | Threw(notAFunction: string) | SignedOut(notice: string, redirect: string)

  class TicketManager {
    var tickets: seq<Ticket>
    var storage: Store

    /** Each ticket object is in the list once, so an update to one object changes one row of the saved list. */
    ghost predicate Valid()
      reads this
    {
      Distinct(tickets)
    }

    /**
     * Page start: the list is whatever `loadTickets` returns; nothing is
     * written yet. A slot that does not hold a ticket list makes the page
     * fail here, which the precondition rules out.
     */
    constructor (initial: Store, dayAgo: string, halfDayAgo: string)
      requires LoadTickets(initial, dayAgo, halfDayAgo).Success?
      ensures Valid()
      ensures Snapshot(tickets) == LoadTickets(initial, dayAgo, halfDayAgo).value
      ensures forall i :: 0 <= i < |tickets| ==> fresh(tickets[i])
      ensures storage == initial
    {
      var ts := Revive(LoadTickets(initial, dayAgo, halfDayAgo).value);
      tickets := ts;
      storage := initial;
    }

    /** `saveTickets`: the `supportTickets` slot now holds the list as it is; no other slot changes. */
    method SaveTickets()
      modifies this`storage
      ensures storage == old(storage)[TicketsKey := TicketList(Snapshot(tickets))]
      ensures forall dayAgo, halfDayAgo :: LoadTickets(storage, dayAgo, halfDayAgo) == Success(Snapshot(tickets))
    {
      storage := storage[TicketsKey := TicketList(Snapshot(tickets))];
    }

    /**
     * `simulateTicketProgress`'s lookup: the ticket its two callbacks will
     * update, found once when they are scheduled; none means nothing is scheduled.
     */
    method SimulateTicketProgress(id: int) returns (target: Option<Ticket>)
      ensures target == FindById(tickets, id)
      ensures target.Some? ==> target.value in tickets && target.value.id == id
      ensures target.None? ==> forall k :: 0 <= k < |tickets| ==> tickets[k].id != id
    {
      target := FindById(tickets, id);
    }

    /**
     * `addTicket`: the ticket goes to the head of the list, the list is
     * saved, and the progress of the new ticket is scheduled.
     */
    method AddTicket(ticket: Ticket) returns (scheduled: Option<Ticket>)
      requires Valid() && ticket !in tickets
      modifies this
      ensures Valid()
      ensures tickets == [ticket] + old(tickets)
      ensures storage == old(storage)[TicketsKey := TicketList(Snapshot(tickets))]
      ensures scheduled == Some(ticket)
    {
      tickets := [ticket] + tickets;
      SaveTickets();
      FindHead(ticket, tickets[1..]);
      assert [ticket] + tickets[1..] == tickets;
      scheduled := SimulateTicketProgress(ticket.id);
    }

    /**
     * `submitTicket`: an invalid form shows one message and changes
     * nothing; a valid one adds a new pending ticket built from it. The
     * screenshot's data URL is taken as already read.
     */
    method SubmitTicket(form: FormData, now: int, today: string) returns (errors: seq<string>, scheduled: Option<Ticket>)
      requires Valid()
      modifies this
      ensures Valid()
      ensures !FormValid(form) ==>
                errors == [MissingFieldsMessage] && scheduled == None &&
                tickets == old(tickets) && storage == old(storage)
      ensures FormValid(form) ==>
                errors == [] && |tickets| == |old(tickets)| + 1 &&
                fresh(tickets[0]) && tickets[0].Data() == NewTicketData(form, now, today) &&
                tickets[1..] == old(tickets) && Snapshot(tickets[1..]) == old(Snapshot(tickets)) &&
                storage == old(storage)[TicketsKey := TicketList(Snapshot(tickets))] &&
                scheduled == Some(tickets[0])
    {
      var ok;
      ok, errors := ValidateForm(form);
      if !ok {
        scheduled := None;
        return;
      }
      var ticket := new Ticket(NewTicketData(form, now, today));
      scheduled := AddTicket(ticket);
    }

    /**
     * `filterTickets`: the empty filter shows the whole list, any other
     * value the tickets with that status in list order. The store is only read.
     */
    method FilterTickets(status: string) returns (shown: seq<Ticket>)
      ensures status == "" ==> shown == tickets
      ensures status != "" ==> forall i :: 0 <= i < |shown| ==> shown[i] in tickets && shown[i].status == status
      ensures status != "" ==> forall i :: 0 <= i < |tickets| && tickets[i].status == status ==> tickets[i] in shown
      ensures IsSubsequence(shown, tickets)
      ensures status != "" ==> shown == FilterByStatus(tickets, status)
    {
      if status != "" {
        shown := FilterByStatus(tickets, status);
      } else {
        shown := tickets;
        SubsequenceOfItself(tickets);
      }
    }

    /** The first progress callback: the ticket is in progress with its working message, and the list is saved. */
    method MarkInProgress(ticket: Ticket)
      requires Valid()
      modifies this`storage, ticket
      ensures Valid() && tickets == old(tickets)
      ensures ticket.Data() == WithInProgress(old(ticket.Data()))
      ensures forall k :: 0 <= k < |tickets| && tickets[k] == ticket ==>
                Snapshot(tickets) == old(Snapshot(tickets))[k := WithInProgress(old(ticket.Data()))]
      ensures forall k :: 0 <= k < |tickets| && tickets[k] != ticket ==> tickets[k].Data() == old(tickets[k].Data())
      ensures storage == old(storage)[TicketsKey := TicketList(Snapshot(tickets))]
    {
      ticket.status := InProgress;
      ticket.response := InProgressResponse;
      SaveTickets();
    }

    /** The second progress callback: the ticket is resolved with its closing message, and the list is saved. */
    method MarkResolved(ticket: Ticket)
      requires Valid()
      modifies this`storage, ticket
      ensures Valid() && tickets == old(tickets)
      ensures ticket.Data() == WithResolved(old(ticket.Data()))
      ensures forall k :: 0 <= k < |tickets| && tickets[k] == ticket ==>
                Snapshot(tickets) == old(Snapshot(tickets))[k := WithResolved(old(ticket.Data()))]
      ensures forall k :: 0 <= k < |tickets| && tickets[k] != ticket ==> tickets[k].Data() == old(tickets[k].Data())
      ensures storage == old(storage)[TicketsKey := TicketList(Snapshot(tickets))]
    {
      ticket.status := Resolved;
      ticket.response := ResolvedResponse;
      SaveTickets();
    }

    /** `setCurrentUser`: the `currentUser` slot now holds the user. */
    method SetCurrentUser(user: User)
      modifies this`storage
      ensures storage == old(storage)[UserKey := UserRecord(user)]
      ensures GetCurrentUser(storage) == Success(user)
    {
      storage := storage[UserKey := UserRecord(user)];
    }

    /**
     * `handleLogout` as written: once confirmed, the user and token slots
     * are removed, and then the call of `showNotification`, a method the
     * class does not have, throws; so no notice is shown and the redirect
     * is never scheduled. Not confirmed: nothing happens.
     */
    method HandleLogout(confirmed: bool) returns (outcome: LogoutOutcome)
      modifies this`storage
      ensures confirmed ==> storage == old(storage) - {UserKey, TokenKey} && outcome == Threw(LogoutNotifier)
      ensures confirmed ==> GetCurrentUser(storage) == Success(DefaultUser)
      ensures !confirmed ==> storage == old(storage) && outcome == Declined
    {
      if confirmed {
        storage := storage - {UserKey, TokenKey};
        outcome := Threw(LogoutNotifier);
      } else {
        outcome := Declined;
      }
    }

    /**
     * `handleLogout` as its comments describe it: after the two removals
     * the logout notice is shown and the redirect to the login page is
     * scheduled.
     */
    method HandleLogoutIntended(confirmed: bool) returns (outcome: LogoutOutcome)
      modifies this`storage
      ensures confirmed ==> storage == old(storage) - {UserKey, TokenKey} && outcome == SignedOut(LogoutNotice, LoginPage)
      ensures confirmed ==> GetCurrentUser(storage) == Success(DefaultUser)
      ensures !confirmed ==> storage == old(storage) && outcome == Declined
    {
      if confirmed {
        storage := storage - {UserKey, TokenKey};
        outcome := SignedOut(LogoutNotice, LoginPage);
      } else {
        outcome := Declined;
      }
    }
  }

  /**
   * A confirmed logout on a freshly started page: as written it removes
   * the session slots and ends in the TypeError, with no notice and no
   * redirect; the intended version ends signed out with both.
   */
  method ConfirmedLogout(initial: Store, dayAgo: string, halfDayAgo: string)
    returns (asWritten: LogoutOutcome, intended: LogoutOutcome, after: Store)
    requires LoadTickets(initial, dayAgo, halfDayAgo).Success?
    ensures asWritten == Threw(LogoutNotifier) && !asWritten.SignedOut?
    ensures intended == SignedOut(LogoutNotice, LoginPage)
    ensures asWritten != intended
    ensures UserKey !in after && TokenKey !in after
    ensures after == initial - {UserKey, TokenKey}
  {
    var m := new TicketManager(initial, dayAgo, halfDayAgo);
    asWritten := m.HandleLogout(true);
    after := m.storage;
    var n := new TicketManager(initial, dayAgo, halfDayAgo);
    intended := n.HandleLogoutIntended(true);
  }

  /** The demonstration form: a title and a description, no screenshot. */
  const LoginIssueForm: FormData := FormData(map["title" := "Login issue", "description" := "Cannot log in"], None)

  /** Both fields of the demonstration form start with a kept character, so it is valid. */
  lemma LoginIssueFormValid()
    ensures FormValid(LoginIssueForm)
  {
    assert !IsTrimmable('L') && !IsTrimmable('C');
    assert LoginIssueForm.text["title"][0] == 'L' && LoginIssueForm.text["description"][0] == 'C';
  }

  /**
   * Both progress callbacks on the head ticket, in order: it ends resolved,
   * every later ticket keeps its properties, and the list is saved.
   */
  method RunProgress(m: TicketManager, t: Ticket)
    requires m.Valid() && |m.tickets| > 0 && m.tickets[0] == t
    modifies m`storage, t
    ensures m.Valid() && m.tickets == old(m.tickets)
    ensures Snapshot(m.tickets) == [WithResolved(WithInProgress(old(t.Data())))] + old(Snapshot(m.tickets[1..]))
    ensures m.storage == old(m.storage)[TicketsKey := TicketList(Snapshot(m.tickets))]
  {
    ghost var rest := Snapshot(m.tickets[1..]);
    ghost var s0 := m.storage;
    m.MarkInProgress(t);
    ghost var s1 := m.storage;
    m.MarkResolved(t);
    ghost var now := Snapshot(m.tickets);
    assert s1 == s0[TicketsKey := s1[TicketsKey]];
    assert m.storage == s1[TicketsKey := TicketList(now)];
    assert s0[TicketsKey := s1[TicketsKey]][TicketsKey := TicketList(now)] == s0[TicketsKey := TicketList(now)];
    assert forall k :: 1 <= k < |now| ==> now[k] == rest[k - 1];
    assert now == [now[0]] + rest;
  }

  /**
   * The demonstration timeline seen from outside: submit "Login issue",
   * then call the two callbacks on the scheduled ticket. The saved list is
   * the resolved ticket followed by the list the page started with.
   */
  method LoginIssueScenario(initial: Store, dayAgo: string, halfDayAgo: string, now: int, today: string)
    returns (saved: seq<TicketData>)
    requires LoadTickets(initial, dayAgo, halfDayAgo).Success?
    ensures FormValid(LoginIssueForm)
    ensures saved == [WithResolved(WithInProgress(NewTicketData(LoginIssueForm, now, today)))] +
                     LoadTickets(initial, dayAgo, halfDayAgo).value
    ensures saved[0].id == now && saved[0].title == "Login issue" && saved[0].date == today
    ensures saved[0].status == Resolved && saved[0].response == ResolvedResponse
  {
    var m := new TicketManager(initial, dayAgo, halfDayAgo);
    LoginIssueFormValid();
    var errors, scheduled := m.SubmitTicket(LoginIssueForm, now, today);
    var t := scheduled.value;
    ghost var s := m.storage;
    RunProgress(m, t);
    SaveThenLoad(s, Snapshot(m.tickets), dayAgo, halfDayAgo);
    saved := LoadTickets(m.storage, dayAgo, halfDayAgo).value;
  }
}
