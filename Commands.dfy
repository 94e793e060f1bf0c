/** A Command: the request to move a ticket, with its owner, note and at most one code. */
module Commands {
  import opened Wrappers

  /** The kind of action a command asks for. */
  datatype CommandValue = Process | Feedback | Resolve | Confirm | Reopen | Cancel

  /** Why a ticket waits for feedback. */
  datatype FeedbackCode = AwaitingCaller | AwaitingChange | AwaitingProvider

  /** How a ticket was resolved. */
  datatype ResolutionCode = Completed | NotCompleted | Solved | Workaround | NotSolved | CallerClosed

  /** Why a ticket was canceled. */
  datatype CancellationCode = Duplicate | Inappropriate

  /** An immutable command; each field is what the matching getter returns.
      The owner and the note may be null, and so may each code. */
  datatype Command = Command(
    commandValue: CommandValue,
    ownerId: Option<string>,
    note: Option<string>,
    feedbackCode: Option<FeedbackCode>,
    resolutionCode: Option<ResolutionCode>,
    cancellationCode: Option<CancellationCode>)

  /** The owner id is missing: null or the empty string. */
  predicate NoOwner(ownerId: Option<string>)
  {
    ownerId.None? || ownerId.value == ""
  }

  /** The argument combinations the constructor refuses: no command value, a
      PROCESS without an owner, or a FEEDBACK, RESOLVE or CANCEL without its code. */
  predicate Rejected(c: Option<CommandValue>, ownerId: Option<string>,
                     feedbackCode: Option<FeedbackCode>, resolutionCode: Option<ResolutionCode>,
                     cancellationCode: Option<CancellationCode>)
  {
    || c.None?
    || (c == Some(Process) && NoOwner(ownerId))
    || (c == Some(Feedback) && feedbackCode.None?)
    || (c == Some(Resolve) && resolutionCode.None?)
    || (c == Some(Cancel) && cancellationCode.None?)
  }

  /** The invariant of every command the constructor can produce: a PROCESS has an
      owner, and a code is present exactly when the command value calls for it,
      so at most one code is ever present. */
  predicate Valid(cmd: Command)
  {
    && (cmd.commandValue == Process ==> !NoOwner(cmd.ownerId))
    && (cmd.feedbackCode.Some? <==> cmd.commandValue == Feedback)
    && (cmd.resolutionCode.Some? <==> cmd.commandValue == Resolve)
    && (cmd.cancellationCode.Some? <==> cmd.commandValue == Cancel)
  }

  /** A command as the constructor hands it out: its fields are private and set only
      there, so every Command object the program can hold is valid. */
  type ValidCommand = cmd: Command | Valid(cmd) witness Command(Confirm, None, None, None, None, None)

  /** What the constructor yields for its arguments: IllegalArgument for a rejected
      combination; otherwise the command value, owner and note as given, and of the
      three codes only the one that matches the command value. */
  function CommandOf(c: Option<CommandValue>, ownerId: Option<string>,
                     feedbackCode: Option<FeedbackCode>, resolutionCode: Option<ResolutionCode>,
                     cancellationCode: Option<CancellationCode>, note: Option<string>)
    : (r: Result<Command, ErrorKind>)
    ensures r.Success? ==> Valid(r.value)
  {
    if Rejected(c, ownerId, feedbackCode, resolutionCode, cancellationCode) then
      Failure(IllegalArgument)
    else
      Success(Command(c.value, ownerId, note,
                      if c.value == Feedback then feedbackCode else None,
                      if c.value == Resolve then resolutionCode else None,
                      if c.value == Cancel then cancellationCode else None))
  }

  /** The constructor: the null check, then a switch over the command value that
      throws on a missing owner or code and keeps the matching code, then the
      command value, owner and note are stored. */
  method NewCommand(c: Option<CommandValue>, ownerId: Option<string>,
                    feedbackCode: Option<FeedbackCode>, resolutionCode: Option<ResolutionCode>,
                    cancellationCode: Option<CancellationCode>, note: Option<string>)
    returns (r: Result<ValidCommand, ErrorKind>)
    ensures r == CommandOf(c, ownerId, feedbackCode, resolutionCode, cancellationCode, note)
  {
    if c.None? {
      return Failure(IllegalArgument);
    }
    var keptFeedback: Option<FeedbackCode> := None;
    var keptResolution: Option<ResolutionCode> := None;
    var keptCancellation: Option<CancellationCode> := None;
    match c.value {
      case Process =>
        if ownerId.None? || ownerId.value == "" {
          return Failure(IllegalArgument);
        }
      case Feedback =>
        if feedbackCode.None? {
          return Failure(IllegalArgument);
        }
        keptFeedback := feedbackCode;
      case Resolve =>
        if resolutionCode.None? {
          return Failure(IllegalArgument);
        }
        keptResolution := resolutionCode;
      case Cancel =>
        if cancellationCode.None? {
          return Failure(IllegalArgument);
        }
        keptCancellation := cancellationCode;
      case Confirm | Reopen =>
    }
    r := Success(Command(c.value, ownerId, note, keptFeedback, keptResolution, keptCancellation));
  }

  /** A null command value is refused whatever the other arguments are. */
  lemma NullCommandValueRejected(ownerId: Option<string>, feedbackCode: Option<FeedbackCode>,
                                 resolutionCode: Option<ResolutionCode>,
                                 cancellationCode: Option<CancellationCode>, note: Option<string>)
    ensures CommandOf(None, ownerId, feedbackCode, resolutionCode, cancellationCode, note)
            == Failure(IllegalArgument)
  {
  }

  /** PROCESS is refused exactly when the owner id is null or empty; the codes
      passed along play no part. */
  lemma ProcessRejectedIffNoOwner(ownerId: Option<string>, feedbackCode: Option<FeedbackCode>,
                                  resolutionCode: Option<ResolutionCode>,
                                  cancellationCode: Option<CancellationCode>, note: Option<string>)
    ensures CommandOf(Some(Process), ownerId, feedbackCode, resolutionCode, cancellationCode, note).Failure?
            <==> ownerId == None || ownerId == Some("")
  {
  }

  /** FEEDBACK, RESOLVE and CANCEL are refused exactly when their own code is null;
      the owner id and the other two codes play no part. */
  lemma CodeCommandsRejectedIffCodeMissing(ownerId: Option<string>, feedbackCode: Option<FeedbackCode>,
                                           resolutionCode: Option<ResolutionCode>,
                                           cancellationCode: Option<CancellationCode>, note: Option<string>)
    ensures CommandOf(Some(Feedback), ownerId, feedbackCode, resolutionCode, cancellationCode, note).Failure?
            <==> feedbackCode == None
    ensures CommandOf(Some(Resolve), ownerId, feedbackCode, resolutionCode, cancellationCode, note).Failure?
            <==> resolutionCode == None
    ensures CommandOf(Some(Cancel), ownerId, feedbackCode, resolutionCode, cancellationCode, note).Failure?
            <==> cancellationCode == None
  {
  }

  /** CONFIRM and REOPEN are accepted for every owner, code and note, and carry no code. */
  lemma ConfirmAndReopenAlwaysAccepted(c: CommandValue, ownerId: Option<string>,
                                       feedbackCode: Option<FeedbackCode>,
                                       resolutionCode: Option<ResolutionCode>,
                                       cancellationCode: Option<CancellationCode>, note: Option<string>)
    requires c == Confirm || c == Reopen
    ensures CommandOf(Some(c), ownerId, feedbackCode, resolutionCode, cancellationCode, note)
            == Success(Command(c, ownerId, note, None, None, None))
  {
  }

  /** An accepted command keeps the code that matches its command value exactly as
      given and drops the other two; PROCESS, CONFIRM and REOPEN keep none. */
  lemma OnlyMatchingCodeKept(c: CommandValue, ownerId: Option<string>,
                             feedbackCode: Option<FeedbackCode>, resolutionCode: Option<ResolutionCode>,
                             cancellationCode: Option<CancellationCode>, note: Option<string>)
    requires CommandOf(Some(c), ownerId, feedbackCode, resolutionCode, cancellationCode, note).Success?
    ensures var cmd := CommandOf(Some(c), ownerId, feedbackCode, resolutionCode, cancellationCode, note).value;
      && cmd.feedbackCode == (if c == Feedback then feedbackCode else None)
      && cmd.resolutionCode == (if c == Resolve then resolutionCode else None)
      && cmd.cancellationCode == (if c == Cancel then cancellationCode else None)
      && (c == Feedback ==> cmd.feedbackCode.Some?)
      && (c == Resolve ==> cmd.resolutionCode.Some?)
      && (c == Cancel ==> cmd.cancellationCode.Some?)
  {
  }

  /** An accepted command stores its command value, owner id and note verbatim:
      the owner is unchecked for every value but PROCESS, and the note is never checked. */
  lemma FieldsStoredVerbatim(c: CommandValue, ownerId: Option<string>,
                             feedbackCode: Option<FeedbackCode>, resolutionCode: Option<ResolutionCode>,
                             cancellationCode: Option<CancellationCode>, note: Option<string>)
    requires CommandOf(Some(c), ownerId, feedbackCode, resolutionCode, cancellationCode, note).Success?
    ensures var cmd := CommandOf(Some(c), ownerId, feedbackCode, resolutionCode, cancellationCode, note).value;
      cmd.commandValue == c && cmd.ownerId == ownerId && cmd.note == note
  {
  }

  /** The commands the constructor can produce are exactly the valid ones: feeding a
      command's own getters back to the constructor rebuilds that command precisely
      when it is valid. */
  lemma RebuiltFromGettersIffValid(cmd: Command)
    ensures CommandOf(Some(cmd.commandValue), cmd.ownerId, cmd.feedbackCode, cmd.resolutionCode,
                      cmd.cancellationCode, cmd.note) == Success(cmd)
            <==> Valid(cmd)
  {
  }
}
