# Service ticket tracker: commands and tickets

A model of the two pieces of the service-desk ticket tracker that hold decision
logic:

- **Command** (`Commands.dfy`): the immutable request to act on a ticket. It has a
  command value (PROCESS, FEEDBACK, RESOLVE, CONFIRM, REOPEN, CANCEL), an owner id,
  an optional note and at most one of a feedback, resolution or cancellation code.
  The constructor rejects a null command value, a PROCESS without an owner, and a
  FEEDBACK, RESOLVE or CANCEL without its own code. Of the three codes passed in, it
  keeps only the one that matches the command value. Command is a value, so it is a
  datatype. Its six getters are the datatype's field selectors. The subset type
  `ValidCommand` keeps the invariant with the value, as Java's private fields and
  single constructor do. `CommandOf` states
  what construction yields. `NewCommand` is the constructor's switch with early
  failures, and it is proved equal to `CommandOf`.
- **Ticket** (`Tickets.dfy`): a class whose fields the constructor writes one by one.
  The Java constructor both checks and assigns. The model splits it in two:
  `Ticket.Create` runs the checks and returns `IllegalArgument` or a new ticket, and
  the constructor `Ticket.Init` does the field writes. The notes list is an object
  (`NoteList`), so the model can state that the ticket shares the caller's list and
  does not copy it. `Ticket.Create` changes no existing object, so the
  caller's list keeps its contents. The six ticket states and their labels are the datatype `State`
  and the function `StateName` (the `getStateName` of the state interface).
  `CodesAgreeWith` is the documented relation between the three codes and the state.
- `Wrappers.dfy`: `Option` stands for a Java reference that may be null. `Result` is
  an outcome that may be a thrown exception. `ErrorKind` names the two exception kinds.

The model follows the code where the code and its documentation disagree:

- The Ticket constructor's comment promises to reject empty strings. The code checks
  neither subject nor caller, so a null or empty subject or caller is stored
  (`UncheckedSubjectAndCallerAccepted`).
- The check `notes.equals("")` compares a list with a string. It never fires, so an
  empty notes list is accepted (`EmptyNotesAccepted`).
- The comment promises an id taken from a counter, an owner of `""` and the initial
  state New. The constructor does none of these: the id keeps Java's default 0, the
  owner stays null, and no state is stored.
- Ticket.java assigns `feedbackCode`, `resolutionCode` and `cancellationCode`, but
  their declarations are commented out, so the file does not compile as written. The
  model declares them as `Option` fields, which is what the assignments and the
  commented-out declarations intend.

## Model

| member | source | states |
|---|---|---|
| Commands.CommandOf | src/com/jmmarquardt/svcticket/model/command/Command.java:103-136 | every command that construction accepts is `Valid`: a PROCESS has a non-empty owner, and a code is present exactly when the command value calls for it, so at most one code is present |
| Commands.NewCommand | src/com/jmmarquardt/svcticket/model/command/Command.java:103-136 | the constructor (null check, switch with early throws, field stores) yields exactly `CommandOf` of its arguments, and what it hands out is a `ValidCommand` |
| Commands.NullCommandValueRejected | src/com/jmmarquardt/svcticket/model/command/Command.java:105-108 | a null command value gives IllegalArgument, whatever the other arguments are |
| Commands.ProcessRejectedIffNoOwner | src/com/jmmarquardt/svcticket/model/command/Command.java:111-114 | PROCESS is rejected if and only if the owner id is null or `""` |
| Commands.CodeCommandsRejectedIffCodeMissing | src/com/jmmarquardt/svcticket/model/command/Command.java:115-129 | FEEDBACK, RESOLVE and CANCEL are each rejected if and only if their own code is null |
| Commands.ConfirmAndReopenAlwaysAccepted | src/com/jmmarquardt/svcticket/model/command/Command.java:130-135 | CONFIRM and REOPEN are accepted for every owner, code and note, and the result holds no code |
| Commands.OnlyMatchingCodeKept | src/com/jmmarquardt/svcticket/model/command/Command.java:110-132 | an accepted command holds the matching code exactly as passed and no other code; PROCESS, CONFIRM and REOPEN hold none even when codes were passed |
| Commands.FieldsStoredVerbatim | src/com/jmmarquardt/svcticket/model/command/Command.java:133-135 | an accepted command stores the command value, owner id and note as passed (the owner is unchecked outside PROCESS, the note always) |
| Commands.RebuiltFromGettersIffValid | src/com/jmmarquardt/svcticket/model/command/Command.java:138-190 | passing a command's getter values back to the constructor rebuilds that same command if and only if it is `Valid`, so the constructor's results are exactly the valid commands |
| Tickets.StateName | src/com/jmmarquardt/svcticket/model/ticket/Ticket.java:54-65 | each state reports its own label constant, so every label is one of the six |
| Tickets.StateNameInjective | src/com/jmmarquardt/svcticket/model/ticket/Ticket.java:54-65 | two states with the same label are the same state |
| Tickets.StateNamesAreTheSixLabels | src/com/jmmarquardt/svcticket/model/ticket/TicketState.java:28-33 | the labels the states report are exactly "New", "Working", "Feedback", "Resolved", "Closed" and "Canceled" |
| Tickets.Ticket.Init | src/com/jmmarquardt/svcticket/model/ticket/Ticket.java:185-195 | after the field writes the three codes are null, the type, subject, caller, category, priority and notes are the arguments (notes the same object), and the id and owner keep Java's defaults 0 and null |
| Tickets.Ticket.Create | src/com/jmmarquardt/svcticket/model/ticket/Ticket.java:174-196 | IllegalArgument if and only if the type, category, priority or notes is null; the comparison of the notes list with `""` (`ListEqualsString`) is always false and never refuses; otherwise a fresh ticket with the arguments stored, the caller's list shared (the same object) and left unchanged, no codes, and codes that agree with every state |
| Tickets.EmptyNotesAccepted | src/com/jmmarquardt/svcticket/model/ticket/Ticket.java:181-183 | a ticket over an empty notes list is accepted, because the list-against-string comparison never holds |
| Tickets.UncheckedSubjectAndCallerAccepted | src/com/jmmarquardt/svcticket/model/ticket/Ticket.java:190-192 | a null subject and an empty caller are accepted and stored as given |

## Left out

- State transitions (`updateState`): the state interface has no implementation. The
  ticket's state field and its six state objects are commented out. No transition
  table is modelled, and the `UnsupportedOperation` error kind is declared but never
  produced.
- The static id counter: the constructor never reads or increments it. It is also
  process-wide mutable state.
- The display strings for codes, ticket types, categories and priorities, and the
  exception message texts: no code maps enums to or from these strings. The two
  exception kinds are modelled as `ErrorKind` values.
- The user interface mentioned in Ticket.java's comments is not part of this model.
- Null elements inside the notes list are not modelled. No code looks at the
  elements, so `NoteList` holds a sequence of strings.
- Java visibility (the private enums of Ticket) has no counterpart in the model.
