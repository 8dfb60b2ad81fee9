/**
 * The generation panel of components/ActionPanel.tsx: a two-state machine
 * (modal shown or not) with the recipient's address typed into the modal.
 */
module ActionPanel {
  import opened Types
  import opened Strings

  /** What the panel hands to the application or the browser, in order. */
  datatype Call = AttemptGenerate | Generate(reportType: ReportType, recipientEmail: string) | Alert(message: string)

  const InvalidRecipient: string := "Veuillez saisir une adresse e-mail valide pour le destinataire."

  /** The guard of `handleSelectReportType`: a blank address, or one the pattern `/^\S+@\S+\.\S+$/` rejects. */
  predicate Rejected(email: string)
  {
    Trim(email) == "" || !EmailShape(email)
  }

  /** The blank test adds nothing to the pattern: an address is refused exactly when it is badly shaped. */
  lemma RejectedIffBadShape(email: string)
    ensures Rejected(email) <==> !EmailShape(email)
  {
    if EmailShape(email) {
      EmailShapeIsTrimmed(email);
    }
  }

  class State {
    var showModal: bool
    var recipientEmail: string
    var calls: seq<Call>

    constructor ()
      ensures !showModal && recipientEmail == "" && calls == []
    {
      showModal := false;
      recipientEmail := "";
      calls := [];
    }

    /** The `initialEmail` effect: a non-empty address overwrites the typed one; an empty one leaves it. */
    method SyncInitialEmail(initialEmail: string)
      modifies this
      ensures recipientEmail == (if initialEmail != "" then initialEmail else old(recipientEmail))
      ensures showModal == old(showModal) && calls == old(calls)
    {
      if initialEmail != "" {
        recipientEmail := initialEmail;
      }
    }

    /** `handleGenerateClick`: when ready the modal opens; otherwise the application is asked why not, and the modal stays. */
    method HandleGenerateClick(isReady: bool)
      modifies this
      ensures isReady ==> showModal && calls == old(calls)
      ensures !isReady ==> showModal == old(showModal) && calls == old(calls) + [AttemptGenerate]
      ensures recipientEmail == old(recipientEmail)
    {
      if isReady {
        showModal := true;
      } else {
        calls := calls + [AttemptGenerate];
      }
    }

    /**
     * `handleSelectReportType`: a refused address raises the alert and
     * changes nothing else; an accepted one asks for the report once,
     * then closes the modal and clears the address.
     */
    method HandleSelectReportType(reportType: ReportType)
      modifies this
      ensures !EmailShape(old(recipientEmail)) ==>
        calls == old(calls) + [Alert(InvalidRecipient)] && showModal == old(showModal) && recipientEmail == old(recipientEmail)
      ensures EmailShape(old(recipientEmail)) ==>
        calls == old(calls) + [Generate(reportType, old(recipientEmail))] && !showModal && recipientEmail == ""
    {
      RejectedIffBadShape(recipientEmail);
      if Trim(recipientEmail) == "" || !EmailShape(recipientEmail) {
        calls := calls + [Alert(InvalidRecipient)];
        return;
      }
      calls := calls + [Generate(reportType, recipientEmail)];
      showModal := false;
      recipientEmail := "";
    }

    /** The address field's `onChange`: the typed text replaces the address as it is, untrimmed and unchecked. */
    method HandleEmailChange(value: string)
      modifies this
      ensures recipientEmail == value && showModal == old(showModal) && calls == old(calls)
    {
      recipientEmail := value;
    }

    /** `handleCancel`: the modal closes and the typed address is kept. */
    method HandleCancel()
      modifies this
      ensures !showModal && recipientEmail == old(recipientEmail) && calls == old(calls)
    {
      showModal := false;
    }
  }
}
