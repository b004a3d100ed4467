/** The support tickets page: the local ticket list with save and delete,
    its statistics and the user-name lookup. */
module Tickets {
  import opened Collections
  import opened Lists
  import opened TicketDialog

  function TicketId(ticket: Ticket): string { ticket.id }

  /** A row of the users file: only the id and name are read. */
  datatype Person = Person(id: string, name: string)

  function PersonHasId(userId: string): Person -> bool
  {
    (p: Person) => p.id == userId
  }

  /** `getUserName(userId)`: the first matching user's name, otherwise the
      id itself (also while the users are not loaded). */
  function UserName(users: Option<seq<Person>>, userId: string): (name: string)
    ensures users.None? ==> name == userId
    ensures users.Some? && (forall i :: 0 <= i < |users.value| ==> users.value[i].id != userId) ==> name == userId
    ensures users.Some? && (exists i :: 0 <= i < |users.value| && users.value[i].id == userId) ==>
      exists i :: 0 <= i < |users.value| && users.value[i].id == userId && name == users.value[i].name &&
        forall j :: 0 <= j < i ==> users.value[j].id != userId
  {
    if users.None? then userId
    else
      match Find(PersonHasId(userId), users.value)
      case Some(person) => person.name
      case None => userId
  }

  /** The four figures above the table. */
  datatype Stats = Stats(total: nat, open: nat, inProgress: nat, resolved: nat)

  function HasStatus(status: string): Ticket -> bool
  {
    (t: Ticket) => t.status == status
  }

  function TicketStats(tickets: seq<Ticket>): (s: Stats)
    ensures s.total == |tickets|
    ensures s.open + s.inProgress + s.resolved <= s.total
  {
    DisjointCountsBounded(HasStatus("open"), HasStatus("in_progress"), HasStatus("resolved"), tickets);
    Stats(|tickets|, Count(HasStatus("open"), tickets), Count(HasStatus("in_progress"), tickets),
          Count(HasStatus("resolved"), tickets))
  }

  /** A reply moves a ticket to in progress: the in-progress figure counts
      it once the replied ticket is saved over the open one. */
  lemma ReplyMovesOpenToInProgress(ticket: Ticket, from: string, message: string, timestamp: string)
    requires ticket.status == "open"
    ensures TicketStats([WithReply(ticket, from, message, timestamp)]) == Stats(1, 0, 1, 0)
    ensures TicketStats([ticket]) == Stats(1, 1, 0, 0)
  {
  }

  /** The page state. */
  class TicketsPage {
    var localTickets: seq<Ticket>
    var dialogOpen: bool
    var selected: Option<Ticket>

    /** The list is captured from the tickets visible to the user when the
        page first renders. */
    constructor (visible: seq<Ticket>)
      ensures localTickets == visible && !dialogOpen && selected == None
    {
      localTickets := visible;
      dialogOpen := false;
      selected := None;
    }

    method HandleAdd()
      modifies this
      ensures selected == None && dialogOpen && localTickets == old(localTickets)
    {
      selected := None;
      dialogOpen := true;
    }

    method HandleEdit(ticket: Ticket)
      modifies this
      ensures selected == Some(ticket) && dialogOpen && localTickets == old(localTickets)
    {
      selected := Some(ticket);
      dialogOpen := true;
    }

    /** `handleSave`: while a ticket is selected the tickets with the saved
        id are replaced, otherwise the ticket is appended; then the dialog
        closes and the selection is cleared. */
    method HandleSave(ticket: Ticket)
      modifies this
      ensures old(selected).Some? ==> localTickets == ReplaceById(old(localTickets), ticket, TicketId)
      ensures old(selected).None? ==> localTickets == old(localTickets) + [ticket]
      ensures !dialogOpen && selected == None
    {
      if selected.Some? {
        localTickets := ReplaceById(localTickets, ticket, TicketId);
      } else {
        localTickets := localTickets + [ticket];
      }
      dialogOpen := false;
      selected := None;
    }

    /** `handleDelete(ticket)`: removes the tickets with its id at once. */
    method HandleDelete(ticket: Ticket)
      modifies this
      ensures localTickets == WithoutId(old(localTickets), TicketId, ticket.id)
      ensures !Listed(localTickets, TicketId, ticket.id)
      ensures dialogOpen == old(dialogOpen) && selected == old(selected)
    {
      WithoutIdExactly(localTickets, TicketId, ticket.id);
      localTickets := WithoutId(localTickets, TicketId, ticket.id);
    }
  }
}
