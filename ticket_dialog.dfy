/** The support ticket dialog: in reply mode a reply is appended to the
    edited ticket, in create mode a blank ticket is set up. Timestamps and
    `Date.now()` ids are inputs. */
module TicketDialog {
  import opened Collections
  import opened AuthContext

  datatype Reply = Reply(from: string, message: string, timestamp: string)

  /** A ticket; `replies` is optional. */
  datatype Ticket = Ticket(id: string, userId: string, subject: string, category: string, priority: string,
                           status: string, description: string, createdAt: string, replies: Option<seq<Reply>>)

  datatype Mode = Create | ReplyTo

  /** `ticket.replies || []`. */
  function RepliesOf(ticket: Ticket): seq<Reply>
  {
    if ticket.replies.Some? then ticket.replies.value else []
  }

  /** `user?.name || 'Support'`. */
  function ReplyAuthor(user: Option<User>): (from: string)
    ensures from == "Support" <==> user.None? || user.value.name == "" || user.value.name == "Support"
    ensures user.Some? && user.value.name != "" ==> from == user.value.name
  {
    if user.Some? && user.value.name != "" then user.value.name else "Support"
  }

  /** The ticket saved in reply mode. */
  function WithReply(ticket: Ticket, from: string, message: string, timestamp: string): (t: Ticket)
    ensures t.replies.Some? && RepliesOf(t) == RepliesOf(ticket) + [Reply(from, message, timestamp)]
    ensures |RepliesOf(t)| == |RepliesOf(ticket)| + 1
    ensures t.status == "in_progress"
    ensures t.(replies := ticket.replies, status := ticket.status) == ticket
  {
    ticket.(replies := Some(RepliesOf(ticket) + [Reply(from, message, timestamp)]), status := "in_progress")
  }

  /** Replying twice keeps both replies, in order, after the old ones. */
  lemma TwoRepliesAccumulate(ticket: Ticket, first: Reply, second: Reply)
    ensures RepliesOf(WithReply(WithReply(ticket, first.from, first.message, first.timestamp),
                                second.from, second.message, second.timestamp)) ==
            RepliesOf(ticket) + [first, second]
  {
    var once := WithReply(ticket, first.from, first.message, first.timestamp);
    assert RepliesOf(once) == RepliesOf(ticket) + [first];
    assert RepliesOf(ticket) + [first] + [second] == RepliesOf(ticket) + [first, second];
  }

  /** The ticket a create-mode dialog starts from. */
  function NewTicket(user: Option<User>, stamp: string, now: string): (t: Ticket)
    ensures t.id == "ticket_" + stamp && t.status == "open" && t.category == "order" && t.priority == "medium"
    ensures t.replies == Some([]) && t.subject == "" && t.description == "" && t.createdAt == now
    ensures t.userId == if user.Some? then user.value.id else ""
  {
    Ticket("ticket_" + stamp, if user.Some? then user.value.id else "", "", "order", "medium", "open", "", now, Some([]))
  }

  /** The dialog's `formData` and `replyMessage` state. */
  class TicketForm {
    var formData: Ticket
    var replyMessage: string

    /** The form before the effect has run, with the fields of the type. */
    constructor (now: string)
      ensures formData == Ticket("", "", "", "order", "medium", "open", "", now, Some([])) && replyMessage == ""
    {
      formData := Ticket("", "", "", "order", "medium", "open", "", now, Some([]));
      replyMessage := "";
    }

    /** The effect on `[ticket, open, mode, user]`. A ticket in create
        mode, or reply mode without one, leaves the form as it is. */
    method Reset(ticket: Option<Ticket>, mode: Mode, user: Option<User>, stamp: string, now: string)
      modifies this
      ensures ticket.Some? && mode == ReplyTo ==> formData == ticket.value && replyMessage == ""
      ensures ticket.None? && mode == Create ==> formData == NewTicket(user, stamp, now) && replyMessage == old(replyMessage)
      ensures (ticket.Some? <==> mode == Create) ==> formData == old(formData) && replyMessage == old(replyMessage)
    {
      if ticket.Some? && mode == ReplyTo {
        formData := ticket.value;
        replyMessage := "";
      } else if ticket.None? && mode == Create {
        formData := NewTicket(user, stamp, now);
      }
    }

    method SetReplyMessage(message: string)
      modifies this
      ensures replyMessage == message && formData == old(formData)
    {
      replyMessage := message;
    }

    /** `handleSubmit`: the one ticket passed to `onSave`; the dialog then
        asks to close. */
    method HandleSubmit(ticket: Option<Ticket>, mode: Mode, user: Option<User>, now: string) returns (saved: Ticket, keepOpen: bool)
      ensures mode == ReplyTo && ticket.Some? ==>
        saved == WithReply(ticket.value, ReplyAuthor(user), replyMessage, now)
      ensures !(mode == ReplyTo && ticket.Some?) ==> saved == formData
      ensures !keepOpen
    {
      if mode == ReplyTo && ticket.Some? {
        saved := WithReply(ticket.value, ReplyAuthor(user), replyMessage, now);
      } else {
        saved := formData;
      }
      keepOpen := false;
    }
  }
}
