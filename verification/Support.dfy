/** Support tickets: sequence counters on the ticket that must agree with the log of its messages. */
module Support {
  import opened Calendar
  import opened Results

  datatype Side = Customer | Staff

  datatype Status = New | InProgress | Completed | Cancelled

  datatype Message = Message(author: Side, text: string)

  /** `managed`: the status belongs to an external CRM. The log is the ticket's message collection. */
  datatype Doc = Doc(
    status: Status, revision: int, messageSeq: nat, lastCustomer: nat, lastStaff: nat,
    customerRead: nat, staffRead: nat, managed: bool, log: seq<Message>)

  predicate Closed(s: Status) {
    s in {Completed, Cancelled}
  }

  // ---------------------------------------------------------------- what the log says

  /** The sequence number of the last message of one side; 0 when there is none. */
  function LastOf(log: seq<Message>, side: Side): (n: nat)
    ensures n <= |log|
  {
    if log == [] then 0
    else if log[|log| - 1].author == side then |log|
    else LastOf(log[..|log| - 1], side)
  }

  predicate LastWord(log: seq<Message>, side: Side) {
    log != [] && log[|log| - 1].author == side
  }

  lemma {:induction false} LastOfIs(log: seq<Message>, side: Side)
    ensures LastOf(log, side) > 0 ==> log[LastOf(log, side) - 1].author == side
    ensures forall i :: LastOf(log, side) <= i < |log| ==> log[i].author != side
  {
    if log != [] && log[|log| - 1].author != side {
      LastOfIs(log[..|log| - 1], side);
    }
  }

  /** Message number `i + 1` is from the other side and above the read mark. */
  ghost predicate UnreadMessage(d: Doc, reader: Side, i: int) {
    && 0 <= i < |d.log| && d.log[i].author != reader
    && i + 1 > if reader == Customer then d.customerRead else d.staffRead
  }

  // ---------------------------------------------------------------- the flags shown

  predicate UnreadFor(d: Doc, reader: Side) {
    if reader == Customer then d.lastStaff > d.customerRead else d.lastCustomer > d.staffRead
  }

  predicate NeedsAction(d: Doc) {
    !Closed(d.status) && (d.status == New || d.lastCustomer > d.lastStaff)
  }

  // ---------------------------------------------------------------- the operations

  function Opened(text: string, crm: bool): Doc {
    Doc(New, 1, 1, 1, 0, 1, 0, crm, [Message(Customer, text)])
  }

  function CheckVersion(d: Doc, revision: int): Result<()> {
    Need(revision >= 1 && revision == d.revision, RevisionConflict)
  }

  /** A first answer of the staff takes a new ticket into work, unless the CRM manages it already. */
  function ReplyTo(d: Doc, author: Side, text: string, revision: Option<int>, crm: bool): Result<Doc> {
    var _ :- Need(!Closed(d.status), TicketClosed);
    var _ :- if revision.Some? then CheckVersion(d, revision.value) else Ok(());
    var n := d.messageSeq + 1;
    Ok(Doc(if author == Staff && d.status == New && !d.managed then InProgress else d.status,
           d.revision + 1, n,
           if author == Customer then n else d.lastCustomer, if author == Staff then n else d.lastStaff,
           if author == Customer then n else d.customerRead, if author == Staff then n else d.staffRead,
           d.managed || crm, d.log + [Message(author, text)]))
  }

  function ChangeStatus(d: Doc, status: Status, revision: int): Result<Doc> {
    var _ :- Need(!d.managed, InvalidState);
    var _ :- CheckVersion(d, revision);
    Ok(d.(status := status, revision := d.revision + 1))
  }

  function ReadUpTo(d: Doc, reader: Side, seen: Option<int>): Result<Doc> {
    var upTo := match seen case None => d.messageSeq case Some(n) => n;
    var _ :- Need(upTo >= 0, ValidationError);
    var mark := if upTo < d.messageSeq then upTo else d.messageSeq;
    Ok(if reader == Customer then d.(customerRead := Max(d.customerRead, mark))
       else d.(staffRead := Max(d.staffRead, mark)))
  }

  // ---------------------------------------------------------------- how they answer

  /**
   A reply is refused on a closed ticket and under a revision that is not the current one. It is filed as the
   last message of its side, which has then read everything; the staff's answer takes a new ticket into work,
   unless the CRM manages it, and nothing else changes a status.
   */
  lemma ReplyAnswers(d: Doc, author: Side, text: string, revision: Option<int>, crm: bool)
    ensures var answer := ReplyTo(d, author, text, revision, crm);
      if d.status in {Completed, Cancelled} then answer == Err(TicketClosed)
      else if revision.Some? && (revision.value < 1 || revision.value != d.revision) then answer == Err(RevisionConflict)
      else
        && answer.Ok?
        && var after := answer.value;
           && after.log == d.log + [Message(author, text)] && after.messageSeq == d.messageSeq + 1
           && after.revision == d.revision + 1 && (after.managed <==> d.managed || crm)
           && after.status == (if author == Staff && d.status == New && !d.managed then InProgress else d.status)
           && (author == Customer ==> after.lastCustomer == after.customerRead == after.messageSeq
                                      && after.lastStaff == d.lastStaff && after.staffRead == d.staffRead)
           && (author == Staff ==> after.lastStaff == after.staffRead == after.messageSeq
                                   && after.lastCustomer == d.lastCustomer && after.customerRead == d.customerRead)
  {
  }

  /** A status is set under the current revision, and not when the CRM manages the ticket. */
  lemma StatusAnswers(d: Doc, status: Status, revision: int)
    ensures var answer := ChangeStatus(d, status, revision);
      if d.managed then answer == Err(InvalidState)
      else if revision < 1 || revision != d.revision then answer == Err(RevisionConflict)
      else answer == Ok(d.(status := status, revision := d.revision + 1))
  {
  }

  /** Reading raises the reader's mark to what was seen, at most to the last message, and never lowers it. */
  lemma ReadAnswers(d: Doc, reader: Side, seen: Option<int>)
    requires d.customerRead <= d.messageSeq && d.staffRead <= d.messageSeq
    ensures var answer := ReadUpTo(d, reader, seen);
      if seen.Some? && seen.value < 0 then answer == Err(ValidationError)
      else
        && answer.Ok?
        && var before, after := if reader == Customer then d.customerRead else d.staffRead,
                                if reader == Customer then answer.value.customerRead else answer.value.staffRead;
           && answer.value == (if reader == Customer then d.(customerRead := after) else d.(staffRead := after))
           && before <= after <= d.messageSeq
           && (seen == None ==> after == d.messageSeq)
           && (seen.Some? && before <= seen.value <= d.messageSeq ==> after == seen.value)
           && (seen.Some? && seen.value <= before ==> after == before)
           && (seen.Some? && seen.value >= d.messageSeq ==> after == d.messageSeq)
  {
  }

  /** A new ticket has the customer's message, which only the staff has not read. */
  lemma OpenedUnread(text: string, crm: bool)
    ensures var d := Opened(text, crm);
      && d.log == [Message(Customer, text)] && d.status == New && d.revision == 1 && d.managed == crm
      && UnreadFor(d, Staff) && !UnreadFor(d, Customer) && NeedsAction(d)
  {
  }

  // ---------------------------------------------------------------- the ticket and its messages

  class Ticket {
    var status: Status
    var revision: int
    var messageSeq: nat
    var lastCustomer: nat
    var lastStaff: nat
    var customerRead: nat
    var staffRead: nat
    var managed: bool
    var messages: seq<Message>

    function State(): Doc
      reads this
    {
      Doc(status, revision, messageSeq, lastCustomer, lastStaff, customerRead, staffRead, managed, messages)
    }

    constructor (text: string, crm: bool)
      ensures State() == Opened(text, crm) && Agrees(State())
    {
      status, revision, messageSeq, lastCustomer, lastStaff := New, 1, 1, 1, 0;
      customerRead, staffRead, managed := 1, 0, crm;
      messages := [Message(Customer, text)];
    }

    /** Files a message, and hands the ticket to the CRM when that is on. */
    method AddMessage(author: Side, text: string, crm: bool)
      modifies this
      ensures State() == old(State()).(log := messages, managed := managed)
      ensures messages == old(messages) + [Message(author, text)] && managed == (old(managed) || crm)
    {
      messages := messages + [Message(author, text)];
      if crm || managed {
        managed := true;
      }
    }

    method Reply(author: Side, text: string, seen: Option<int>, crm: bool) returns (r: Result<()>)
      modifies this
      ensures ReplyTo(old(State()), author, text, seen, crm) == if r.Ok? then Ok(State()) else Err(r.error)
      ensures r.Err? ==> State() == old(State())
    {
      if Closed(status) {
        return Err(TicketClosed);
      }
      if seen.Some? && !(seen.value >= 1 && seen.value == revision) {
        return Err(RevisionConflict);
      }
      var wasNew, wasManaged := status == New, managed;
      AddMessage(author, text, crm);
      var n := messageSeq + 1;
      if author == Staff && wasNew && !wasManaged {
        status := InProgress;
      }
      if author == Staff {
        lastStaff, staffRead := n, n;
      } else {
        lastCustomer, customerRead := n, n;
      }
      messageSeq := n;
      revision := revision + 1;
      return Ok(());
    }

    method SetStatus(next: Status, seen: int) returns (r: Result<()>)
      modifies this
      ensures ChangeStatus(old(State()), next, seen) == if r.Ok? then Ok(State()) else Err(r.error)
      ensures r.Err? ==> State() == old(State())
    {
      if managed {
        return Err(InvalidState);
      }
      if !(seen >= 1 && seen == revision) {
        return Err(RevisionConflict);
      }
      status, revision := next, revision + 1;
      return Ok(());
    }

    /** Reading moves a mark up to what was seen, never down, and changes nothing else. */
    method MarkRead(reader: Side, seen: Option<int>) returns (r: Result<()>)
      modifies this`customerRead, this`staffRead
      ensures ReadUpTo(old(State()), reader, seen) == if r.Ok? then Ok(State()) else Err(r.error)
      ensures r.Err? ==> State() == old(State())
    {
      var upTo := messageSeq as int;
      if seen.Some? {
        upTo := seen.value;
      }
      if upTo < 0 {
        return Err(ValidationError);
      }
      var mark := if upTo < messageSeq then upTo else messageSeq;
      if reader == Customer {
        customerRead := Max(customerRead, mark);
      } else {
        staffRead := Max(staffRead, mark);
      }
      return Ok(());
    }
  }

  // ---------------------------------------------------------------- every run

  datatype Event =
    | Replied(author: Side, text: string, shown: Option<int>, crm: bool)
    | StatusSet(status: Status, revision: int)
    | Read(reader: Side, seen: Option<int>)

  function Execute(d: Doc, e: Event): Result<Doc> {
    match e
    case Replied(author, text, shown, crm) => ReplyTo(d, author, text, shown, crm)
    case StatusSet(status, revision) => ChangeStatus(d, status, revision)
    case Read(reader, seen) => ReadUpTo(d, reader, seen)
  }

  /** A refused operation changes nothing. */
  function Step(d: Doc, e: Event): Doc {
    match Execute(d, e)
    case Ok(after) => after
    case Err(_) => d
  }

  function After(d: Doc, events: seq<Event>): Doc {
    if events == [] then d else Step(After(d, events[..|events| - 1]), events[|events| - 1])
  }

  /** The counters are those of the log, and each side has read what it wrote itself. */
  ghost predicate Agrees(d: Doc) {
    && d.messageSeq == |d.log| > 0
    && d.lastCustomer == LastOf(d.log, Customer) && d.lastStaff == LastOf(d.log, Staff)
    && d.lastCustomer <= d.customerRead <= d.messageSeq && d.lastStaff <= d.staffRead <= d.messageSeq
  }

  ghost predicate Grows(d: Doc, after: Doc) {
    && d.log <= after.log && d.customerRead <= after.customerRead && d.staffRead <= after.staffRead
    && d.revision <= after.revision && (d.managed ==> after.managed && after.status == d.status)
  }

  lemma StepAgrees(d: Doc, e: Event)
    requires Agrees(d)
    ensures Agrees(Step(d, e)) && Grows(d, Step(d, e))
  {
    if e.Replied? && Execute(d, e).Ok? {
      assert Step(d, e).log[..|d.log|] == d.log;
    }
  }

  /**
   Over every run the counters agree with the log, the log and the read marks only grow, and a ticket that
   the CRM manages keeps its status.
   */
  lemma {:induction false} CountersAgree(d: Doc, events: seq<Event>)
    requires Agrees(d)
    ensures Agrees(After(d, events)) && Grows(d, After(d, events))
  {
    if events != [] {
      CountersAgree(d, events[..|events| - 1]);
      hide Step, Agrees;
      StepAgrees(After(d, events[..|events| - 1]), events[|events| - 1]);
    }
  }

  /** The flag "unread" is up exactly when the log holds a message of the other side above the read mark. */
  lemma UnreadIff(text: string, crm: bool, events: seq<Event>, reader: Side)
    ensures var d := After(Opened(text, crm), events);
      UnreadFor(d, reader) <==> exists i :: UnreadMessage(d, reader, i)
  {
    CountersAgree(Opened(text, crm), events);
    hide After;
    var d := After(Opened(text, crm), events);
    var other := if reader == Customer then Staff else Customer;
    LastOfIs(d.log, other);
    if UnreadFor(d, reader) {
      assert UnreadMessage(d, reader, LastOf(d.log, other) - 1);
    }
  }

  /** An open ticket needs action exactly when it is new or the customer has the last word. */
  lemma NeedsActionIff(text: string, crm: bool, events: seq<Event>)
    ensures var d := After(Opened(text, crm), events);
      NeedsAction(d) <==> !Closed(d.status) && (d.status == New || LastWord(d.log, Customer))
  {
    CountersAgree(Opened(text, crm), events);
    hide After;
    var d := After(Opened(text, crm), events);
    LastOfIs(d.log, Customer);
    LastOfIs(d.log, Staff);
  }

  /** A closed ticket takes no message until its status is changed. */
  lemma {:induction false} ClosedKeepsLog(d: Doc, events: seq<Event>)
    requires Closed(d.status) && forall i :: 0 <= i < |events| ==> !events[i].StatusSet?
    ensures After(d, events).log == d.log && After(d, events).status == d.status
  {
    if events != [] {
      ClosedKeepsLog(d, events[..|events| - 1]);
    }
  }
}
