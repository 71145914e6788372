/**
 * The contact section's form: three text fields held as one state object,
 * edited field by field, and cleared only when the POST to
 * /contact-messages succeeds. The POST's outcome is a parameter.
 */
module ContactForm {
  import opened Wrappers

  datatype Form = Form(name: string, email: string, message: string)

  const EmptyForm := Form("", "", "")

  datatype Field = Name | Email | Message

  /** `{...form, <field>: value}` */
  function WithField(f: Form, field: Field, value: string): Form
  {
    match field
    case Name => f.(name := value)
    case Email => f.(email := value)
    case Message => f.(message := value)
  }

  /**
   * The three inputs are `required`: the browser only lets the submit event
   * through when none of them is empty.
   */
  predicate RequiredFilled(f: Form)
  {
    f.name != "" && f.email != "" && f.message != ""
  }

  /** The form after a submit attempt: cleared on a successful POST, kept otherwise. */
  function AfterSubmit(f: Form, postSucceeds: bool): Form
  {
    if RequiredFilled(f) && postSucceeds then EmptyForm else f
  }

  /** Editing one field leaves the other two as they were. */
  lemma EditOnlyTouchesField(f: Form, field: Field, value: string)
    ensures var g := WithField(f, field, value);
      (g.name == if field == Name then value else f.name) &&
      (g.email == if field == Email then value else f.email) &&
      (g.message == if field == Message then value else f.message)
  {
  }

  /** A failed POST loses nothing the visitor typed; a successful one empties every field. */
  lemma SubmitOutcome(f: Form, postSucceeds: bool)
    ensures !postSucceeds ==> AfterSubmit(f, postSucceeds) == f
    ensures RequiredFilled(f) && postSucceeds ==>
      var g := AfterSubmit(f, postSucceeds); g.name == "" && g.email == "" && g.message == ""
    ensures !RequiredFilled(f) ==> AfterSubmit(f, postSucceeds) == f
  {
  }

  class Contact {
    var form: Form

    constructor ()
      ensures form == EmptyForm
    {
      form := EmptyForm;
    }

    /** An input's onChange handler. */
    method Edit(field: Field, value: string)
      modifies this
      ensures form == WithField(old(form), field, value)
    {
      match field
      case Name => form := Form(value, form.email, form.message);
      case Email => form := Form(form.name, value, form.message);
      case Message => form := Form(form.name, form.email, value);
    }

    /**
     * Pressing Send. The payload POSTed is returned in `sent` (None when the
     * browser's required-field check stops the submit event); `postSucceeds`
     * is whether that POST resolved.
     */
    method Submit(postSucceeds: bool) returns (sent: Option<Form>)
      modifies this
      ensures sent == if RequiredFilled(old(form)) then Some(old(form)) else None
      ensures form == AfterSubmit(old(form), postSucceeds)
    {
      if !RequiredFilled(form) {
        return None;
      }
      sent := Some(form);
      if postSucceeds {
        form := Form("", "", "");
      }
    }
  }
}
