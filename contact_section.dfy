/** The contact form of the landing page: an e-mail field, an optional message, and its submit handler. */
module ContactSection {
  import opened Text

  /** The two toasts `handleSubmit` can show. */
  datatype Feedback = EmailMissing | Thanks

  class ContactForm {
    var email: string
    var message: string

    constructor ()
      ensures email == "" && message == ""
    {
      email, message := "", "";
    }

    /**
     * `handleSubmit`: an e-mail that is empty or only whitespace is refused and both fields
     * stay as they were; any other e-mail, whatever the message says, is thanked and both
     * fields are cleared. The e-mail is trimmed for the check only, never in the field.
     */
    method HandleSubmit() returns (feedback: Feedback)
      modifies this
      ensures feedback == EmailMissing <==> AllWhitespace(old(email))
      ensures feedback == EmailMissing ==> email == old(email) && message == old(message)
      ensures feedback == Thanks ==> email == "" && message == ""
    {
      TrimEmptyIff(email);
      if Trim(email) == "" {
        return EmailMissing;
      }
      feedback := Thanks;
      email, message := "", "";
    }
  }
}
