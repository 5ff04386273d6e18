/**
 * The four command buttons of the window and the confirmation/rejection
 * line each of them writes (`load_missions_button`, `start_missions_button`,
 * `recallCougs`, `AbortAllMissions`).
 */
module Commands {

  datatype Command = LoadMissions | StartMissions | RecallCougs | AbortAll

  /** What the confirmation/rejection line shows before any button is pressed. */
  const InitialFeedback := "Confirmation/Rejection messages from command buttons will appear here"

  /**
   * The line written after command `c`; `accepted` is the answer to the
   * confirmation dialog, which only the abort command asks for.
   */
  function FeedbackText(c: Command, accepted: bool): (r: string)
    ensures r != InitialFeedback
  {
    match c
    case LoadMissions => "Loading the missions..."
    case StartMissions => "Starting the missions..."
    case RecallCougs => "Recalling the Cougs..."
    case AbortAll => if accepted then "Aborting all missions..." else "Canceling abort missions command..."
  }

  /**
   * The line tells which button was pressed and, for the abort command,
   * whether the dialog was accepted: equal lines mean the same command with
   * the same outcome, and only the abort command's line depends on the answer.
   */
  lemma FeedbackIdentifiesCommand(c1: Command, a1: bool, c2: Command, a2: bool)
    ensures FeedbackText(c1, a1) == FeedbackText(c2, a2) <==>
      c1 == c2 && (c1 == AbortAll ==> a1 == a2)
  {
  }
}
