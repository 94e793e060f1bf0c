/** A Ticket: its descriptive fields, the codes it carries, and the labels of its six states. */
module Tickets {
  import opened Wrappers
  import Commands

  /** Request or Incident. */
  datatype TicketType = Request | Incident

  /** What the ticket is about. */
  datatype Category = Inquiry | Software | Hardware | Network | Database

  /** How urgent the ticket is. */
  datatype Priority = Urgent | High | Medium | Low

  /** The six lifecycle states of a ticket. */
  datatype State = NewState | WorkingState | FeedbackState | ResolvedState | ClosedState | CanceledState

  const NewName: string := "New"
  const WorkingName: string := "Working"
  const FeedbackName: string := "Feedback"
  const ResolvedName: string := "Resolved"
  const ClosedName: string := "Closed"
  const CanceledName: string := "Canceled"

  /** The six labels, one per state. */
  const Labels: set<string> := {NewName, WorkingName, FeedbackName, ResolvedName, ClosedName, CanceledName}

  /** The label a state reports through getStateName: always one of the six labels. */
  function StateName(s: State): (name: string)
    ensures name in Labels
  {
    match s
    case NewState => NewName
    case WorkingState => WorkingName
    case FeedbackState => FeedbackName
    case ResolvedState => ResolvedName
    case ClosedState => ClosedName
    case CanceledState => CanceledName
  }

  /** No two states share a label, so a label names its state. */
  lemma StateNameInjective(s: State, t: State)
    ensures StateName(s) == StateName(t) ==> s == t
  {
  }

  /** The labels are exactly the six strings New, Working, Feedback, Resolved, Closed
      and Canceled: each is the label of some state, and every label is one of them. */
  lemma StateNamesAreTheSixLabels(name: string)
    ensures (exists s :: StateName(s) == name)
            <==> name in {"New", "Working", "Feedback", "Resolved", "Closed", "Canceled"}
  {
    if name == "New" { assert StateName(NewState) == name; }
    else if name == "Working" { assert StateName(WorkingState) == name; }
    else if name == "Feedback" { assert StateName(FeedbackState) == name; }
    else if name == "Resolved" { assert StateName(ResolvedState) == name; }
    else if name == "Closed" { assert StateName(ClosedState) == name; }
    else if name == "Canceled" { assert StateName(CanceledState) == name; }
  }

  /** The documented relation between a ticket's codes and its state: a feedback code
      only in Feedback, a resolution code only in Resolved or Closed, a cancellation
      code only in Canceled. */
  predicate CodesAgreeWith(s: State, feedbackCode: Option<Commands.FeedbackCode>,
                           resolutionCode: Option<Commands.ResolutionCode>,
                           cancellationCode: Option<Commands.CancellationCode>)
  {
    && (feedbackCode.Some? ==> s == FeedbackState)
    && (resolutionCode.Some? ==> s == ResolvedState || s == ClosedState)
    && (cancellationCode.Some? ==> s == CanceledState)
  }

  /** The caller's list of notes, shared by reference with the tickets built from it. */
  class NoteList {
    var items: seq<string>

    constructor (items: seq<string>)
      ensures this.items == items
    {
      this.items := items;
    }
  }

  /** Java's ArrayList.equals answers false for any argument that is not a List, so
      comparing a note list with a string is always false. */
  function ListEqualsString(notes: NoteList, s: string): bool
  {
    false
  }

  class Ticket {
    var ticketId: int
    var ticketType: TicketType
    var subject: Option<string>
    var caller: Option<string>
    var category: Category
    var priority: Priority
    var owner: Option<string>
    var feedbackCode: Option<Commands.FeedbackCode>
    var resolutionCode: Option<Commands.ResolutionCode>
    var cancellationCode: Option<Commands.CancellationCode>
    var notes: NoteList

    /** The field writes of the constructor, run once every check has passed: the
        three codes are cleared, the arguments copied, and the notes list stored by
        reference. The id and the owner keep Java's defaults, 0 and null. */
    constructor Init(ticketType: TicketType, subject: Option<string>, caller: Option<string>,
                     category: Category, priority: Priority, notes: NoteList)
      ensures this.ticketId == 0 && this.owner == None
      ensures this.feedbackCode == None && this.resolutionCode == None && this.cancellationCode == None
      ensures this.ticketType == ticketType && this.subject == subject && this.caller == caller
      ensures this.category == category && this.priority == priority
      ensures this.notes == notes
    {
      this.ticketId := 0;
      this.owner := None;
      this.feedbackCode := None;
      this.resolutionCode := None;
      this.cancellationCode := None;
      this.ticketType := ticketType;
      this.subject := subject;
      this.caller := caller;
      this.category := category;
      this.priority := priority;
      this.notes := notes;
    }

    /** The constructor: IllegalArgument when the type, category, priority or notes is
        null, otherwise a new ticket holding the arguments, with no codes and with the
        caller's own notes list. Subject and caller are not checked. */
    static method Create(ticketType: Option<TicketType>, subject: Option<string>, caller: Option<string>,
                         category: Option<Category>, priority: Option<Priority>,
                         notes: Option<NoteList>)
      returns (r: Result<Ticket, ErrorKind>)
      ensures r.Failure? <==> ticketType.None? || category.None? || priority.None? || notes.None?
      ensures r.Failure? ==> r.error == IllegalArgument
      ensures r.Success? ==> fresh(r.value)
      ensures r.Success? ==>
        && r.value.ticketType == ticketType.value && r.value.subject == subject && r.value.caller == caller
        && r.value.category == category.value && r.value.priority == priority.value
        && r.value.notes == notes.value
      ensures r.Success? ==>
        r.value.feedbackCode == None && r.value.resolutionCode == None && r.value.cancellationCode == None
      ensures r.Success? ==> r.value.ticketId == 0 && r.value.owner == None
      ensures r.Success? ==>
        forall s :: CodesAgreeWith(s, r.value.feedbackCode, r.value.resolutionCode, r.value.cancellationCode)
      ensures notes.Some? ==> unchanged(notes.value)
    {
      if ticketType.None? || category.None? || priority.None? || notes.None? {
        return Failure(IllegalArgument);
      }
      if ListEqualsString(notes.value, "") {
        return Failure(IllegalArgument);
      }
      var t := new Ticket.Init(ticketType.value, subject, caller, category.value, priority.value, notes.value);
      r := Success(t);
    }
  }

  /** The check meant to refuse empty notes compares the list with a string and never
      fires: a ticket built over an empty notes list is accepted and shares that list. */
  method EmptyNotesAccepted(ticketType: TicketType, subject: Option<string>, caller: Option<string>,
                            category: Category, priority: Priority)
    returns (r: Result<Ticket, ErrorKind>)
    ensures r.Success? && r.value.notes.items == []
  {
    var notes := new NoteList([]);
    r := Ticket.Create(Some(ticketType), subject, caller, Some(category), Some(priority), Some(notes));
  }

  /** Subject and caller are stored without any check: a null subject and an empty
      caller are accepted as they are. */
  method UncheckedSubjectAndCallerAccepted(ticketType: TicketType, category: Category, priority: Priority,
                                           notes: NoteList)
    returns (r: Result<Ticket, ErrorKind>)
    ensures r.Success? && r.value.subject == None && r.value.caller == Some("")
  {
    r := Ticket.Create(Some(ticketType), None, Some(""), Some(category), Some(priority), Some(notes));
  }
}
