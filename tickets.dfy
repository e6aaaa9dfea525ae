/**
 * Tickets: the record a submission creates, the object the page keeps for
 * it, and the pure operations on the ticket list (snapshot for storage,
 * status filter, lookup by id, the two lifecycle updates).
 */
module Tickets {
  import opened Wrappers
  import opened Form

  const Pending: string := "pending"
  const InProgress: string := "in-progress"
  const Resolved: string := "resolved"
  const Closed: string := "closed"

  const PendingResponse: string := "قيد المراجعة..."
  const InProgressResponse: string := "جاري العمل على حل المشكلة..."
  const ResolvedResponse: string := "تم حل المشكلة بنجاح. شكراً لتواصلك معنا."

  /**
   * A ticket as a value, the way it is written to storage. `screenshot` is
   * the data URL of the attached image; `priority` and `category` appear only
   * on the sample tickets.
   */
  datatype TicketData = TicketData(
    id: int,
    title: string,
    description: string,
    status: string,
    date: string,
    response: string,
    screenshot: Option<string>,
    priority: Option<string>,
    category: Option<string>)

  /**
   * A ticket object in the page's list. The lifecycle callbacks assign its
   * `status` and `response`; nothing assigns its other properties once it
   * is in the list. The `screenshot` assignment of `submitTicket` happens
   * before `addTicket` and is part of the record it is built from.
   */
  class Ticket {
    const id: int
    const title: string
    const description: string
    const date: string
    const screenshot: Option<string>
    const priority: Option<string>
    const category: Option<string>
    var status: string
    var response: string

    constructor (d: TicketData)
      ensures Data() == d
    {
      id, title, description, date := d.id, d.title, d.description, d.date;
      screenshot, priority, category := d.screenshot, d.priority, d.category;
      status, response := d.status, d.response;
    }

    /** The object's current properties as a value. */
    function Data(): TicketData
      reads this
    {
      TicketData(id, title, description, status, date, response, screenshot, priority, category)
    }
  }

  /** No object occurs twice in the list. */
  ghost predicate Distinct(ts: seq<Ticket>) {
    forall i, j :: 0 <= i < j < |ts| ==> ts[i] != ts[j]
  }

  /** `r` is `s` with some elements left out and the rest in their order. */
  ghost predicate IsSubsequence<T>(r: seq<T>, s: seq<T>)
    decreases |s|
  {
    if r == [] then true
    else if s == [] then false
    else (r[0] == s[0] && IsSubsequence(r[1..], s[1..])) || IsSubsequence(r, s[1..])
  }

  lemma {:induction false} SubsequenceOfItself<T>(s: seq<T>)
    ensures IsSubsequence(s, s)
  {
    if s != [] {
      SubsequenceOfItself(s[1..]);
    }
  }

  /** What `JSON.stringify` records of the list at this moment, ticket by ticket. */
  function Snapshot(ts: seq<Ticket>): (r: seq<TicketData>)
    reads ts
    ensures |r| == |ts|
    ensures forall i :: 0 <= i < |ts| ==> r[i] == ts[i].Data()
  {
    if ts == [] then [] else [ts[0].Data()] + Snapshot(ts[1..])
  }

  /** `tickets.filter(ticket => ticket.status === status)`. */
  function FilterByStatus(ts: seq<Ticket>, status: string): (r: seq<Ticket>)
    reads ts
    ensures forall i :: 0 <= i < |r| ==> r[i] in ts && r[i].status == status
    ensures forall i :: 0 <= i < |ts| && ts[i].status == status ==> ts[i] in r
    ensures IsSubsequence(r, ts)
    ensures forall t :: t in ts ==> multiset(r)[t] == if t.status == status then multiset(ts)[t] else 0
  {
    if ts == [] then []
    else
      assert ts == [ts[0]] + ts[1..];
      if ts[0].status == status then [ts[0]] + FilterByStatus(ts[1..], status)
      else FilterByStatus(ts[1..], status)
  }

  /** Filtering a second time by the same status changes nothing. */
  lemma {:induction false} FilterIdempotent(ts: seq<Ticket>, status: string)
    ensures FilterByStatus(FilterByStatus(ts, status), status) == FilterByStatus(ts, status)
  {
    if ts != [] {
      FilterIdempotent(ts[1..], status);
      if ts[0].status == status {
        var rest := FilterByStatus(ts[1..], status);
        assert ([ts[0]] + rest)[1..] == rest;
      }
    }
  }

  /** Filtering by one status keeps every ticket when all have it, and none when none has it. */
  lemma {:induction false} FilterExtremes(ts: seq<Ticket>, status: string)
    ensures (forall i :: 0 <= i < |ts| ==> ts[i].status == status) ==> FilterByStatus(ts, status) == ts
    ensures (forall i :: 0 <= i < |ts| ==> ts[i].status != status) ==> FilterByStatus(ts, status) == []
  {
    if ts != [] {
      FilterExtremes(ts[1..], status);
      assert forall i :: 1 <= i < |ts| ==> ts[1..][i - 1] == ts[i];
      if forall i :: 0 <= i < |ts| ==> ts[i].status == status {
        assert [ts[0]] + ts[1..] == ts;
      }
    }
  }

  /** A store holding one resolved and one pending ticket, filtered by `resolved`, shows exactly the resolved one. */
  lemma FilterResolvedExample(a: Ticket, b: Ticket)
    requires a.status == Resolved && b.status == Pending
    ensures FilterByStatus([a, b], Resolved) == [a]
  {
  }

  /**
   * `tickets.find(t => t.id === id)`: the first ticket with that id, if any.
   * Ids are not promised to be unique, so a later ticket with the same id
   * is never found.
   */
  function FindById(ts: seq<Ticket>, id: int): (r: Option<Ticket>)
    ensures r.None? <==> forall k :: 0 <= k < |ts| ==> ts[k].id != id
    ensures r.Some? ==> exists k :: 0 <= k < |ts| && ts[k] == r.value && r.value.id == id &&
                          forall j :: 0 <= j < k ==> ts[j].id != id
  {
    if ts == [] then None
    else if ts[0].id == id then Some(ts[0])
    else
      var r := FindById(ts[1..], id);
      assert r.Some? ==> exists k :: 1 <= k < |ts| && ts[k] == r.value && r.value.id == id &&
                          forall j :: 0 <= j < k ==> ts[j].id != id by {
        if r.Some? {
          var k :| 0 <= k < |ts[1..]| && ts[1..][k] == r.value && r.value.id == id &&
                   forall j :: 0 <= j < k ==> ts[1..][j].id != id;
          assert ts[k + 1] == r.value;
          assert forall j :: 0 <= j < k + 1 ==> ts[j].id != id by {
            forall j | 0 <= j < k + 1 ensures ts[j].id != id {
              if j > 0 { assert ts[j] == ts[1..][j - 1]; }
            }
          }
        }
      }
      r
  }

  /** A ticket put at the head of the list is what a lookup of its id finds, whatever follows it. */
  lemma FindHead(t: Ticket, ts: seq<Ticket>)
    ensures FindById([t] + ts, t.id) == Some(t)
  {
  }

  /** The record `submitTicket` builds from a validated form, its `Date.now()` and its date text. */
  function NewTicketData(form: FormData, id: int, date: string): (d: TicketData)
    requires FormValid(form)
    ensures d.status == Pending && d.response == PendingResponse
  {
    TicketData(
      id, form.text["title"], form.text["description"], Pending, date, PendingResponse,
      if HasAttachment(form) then Some(form.screenshot.value.dataUrl) else None,
      None, None)
  }

  /** A new ticket carries the form's text as entered and a screenshot only when a non-empty file came with it. */
  lemma NewTicketFields(form: FormData, id: int, date: string)
    requires FormValid(form)
    ensures NewTicketData(form, id, date).id == id && NewTicketData(form, id, date).date == date
    ensures NewTicketData(form, id, date).title == form.text["title"]
    ensures NewTicketData(form, id, date).description == form.text["description"]
    ensures NewTicketData(form, id, date).screenshot.Some? <==>
              form.screenshot.Some? && form.screenshot.value.size > 0
  {
  }

  /**
   * The size check of the image picker does not reach submission:
   * a valid form with a 15 MiB image still carries it. Saving a list that
   * holds its data URL would exceed a browser's storage quota, which this
   * model does not represent: here every save succeeds.
   */
  lemma OversizedScreenshotIsAttached(text: map<string, string>, mimeType: string, dataUrl: string, id: int, date: string)
    requires FormValid(FormData(text, Some(File(15 * 1024 * 1024, mimeType, dataUrl))))
    ensures CheckImageUpload(Some(File(15 * 1024 * 1024, mimeType, dataUrl))) == TooLarge
    ensures NewTicketData(FormData(text, Some(File(15 * 1024 * 1024, mimeType, dataUrl))), id, date).screenshot == Some(dataUrl)
  {
  }

  /** The first lifecycle callback's effect on a ticket: in progress, with its working message. */
  function WithInProgress(d: TicketData): (r: TicketData)
    ensures r.status == InProgress && r.response == InProgressResponse
    ensures r.(status := d.status, response := d.response) == d
  {
    d.(status := InProgress, response := InProgressResponse)
  }

  /** The second lifecycle callback's effect on a ticket: resolved, with its closing message. */
  function WithResolved(d: TicketData): (r: TicketData)
    ensures r.status == Resolved && r.response == ResolvedResponse
    ensures r.(status := d.status, response := d.response) == d
  {
    d.(status := Resolved, response := ResolvedResponse)
  }

  /**
   * The demonstration timeline of a new ticket: pending, then in progress,
   * then resolved, with its id, text, date and screenshot kept throughout.
   * The callbacks are not chained, so the later one decides the outcome.
   */
  lemma Lifecycle(form: FormData, id: int, date: string)
    requires FormValid(form)
    ensures NewTicketData(form, id, date).status == Pending
    ensures WithInProgress(NewTicketData(form, id, date)).status == InProgress
    ensures WithResolved(WithInProgress(NewTicketData(form, id, date))).status == Resolved
    ensures WithResolved(WithInProgress(NewTicketData(form, id, date))).(status := Pending, response := PendingResponse)
              == NewTicketData(form, id, date)
    ensures WithInProgress(WithResolved(NewTicketData(form, id, date))).status == InProgress
  {
  }
}
