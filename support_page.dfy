/** The support page (frontend/src/pages/SupportPage.jsx): a three-field form
    sent through EmailJS. `Submit` runs the handler up to the awaited send;
    `SendSettled` applies the outcome of one send. */
module SupportPage {
  import opened Common

  datatype Form = Form(name: string, email: string, message: string)

  /** The form field an input is bound to (its `name` attribute). */
  datatype Field = Name | Email | Message

  /** The template parameters of one `emailjs.send`. */
  datatype Params = Params(name: string, email: string, subject: string, message: string)

  const EmptyForm := Form("", "", "")
  const Subject := "Support Request"
  const FillAllFields := "Please fill in all fields."
  const Submitting := "Submitting..."
  const SentMessage := "Your message has been sent! We will get back to you soon."
  const SendFailed := "Failed to send message. Please try again later."

  /** `{...prevData, [name]: value}`. */
  function WithField(form: Form, field: Field, value: string): (r: Form)
    ensures field == Name ==> r.name == value
    ensures field == Email ==> r.email == value
    ensures field == Message ==> r.message == value
    ensures field != Name ==> r.name == form.name
    ensures field != Email ==> r.email == form.email
    ensures field != Message ==> r.message == form.message
  {
    match field
    case Name => form.(name := value)
    case Email => form.(email := value)
    case Message => form.(message := value)
  }

  /** The value of one field (`formData[name]`). */
  function FieldValue(form: Form, field: Field): string {
    match field
    case Name => form.name
    case Email => form.email
    case Message => form.message
  }

  /** Writing a field back with the value it has changes nothing. */
  lemma WithFieldSameValue(form: Form, field: Field)
    ensures WithField(form, field, FieldValue(form, field)) == form
  {
  }

  /** The last write to a field wins. */
  lemma WithFieldLastWins(form: Form, field: Field, a: string, b: string)
    ensures WithField(WithField(form, field, a), field, b) == WithField(form, field, b)
  {
  }

  /** The validation of `handleSubmit`: every field non-empty. */
  predicate Complete(form: Form) {
    form.name != "" && form.email != "" && form.message != ""
  }

  /** What is sent for a form: its three fields and the fixed subject. */
  function ParamsOf(form: Form): (p: Params)
    ensures p.name == form.name && p.email == form.email && p.message == form.message
    ensures p.subject == Subject
  {
    Params(form.name, form.email, Subject, form.message)
  }

  class SupportForm {
    var form: Form
    var status: Option<string>
    /** Sends not yet settled. */
    var inFlight: nat
    /** Every send so far, oldest first. */
    var sent: seq<Params>

    constructor()
      ensures form == EmptyForm && status == None && inFlight == 0 && sent == []
    {
      form, status, inFlight, sent := EmptyForm, None, 0, [];
    }

    /** `handleInputChange`: only the named field changes. */
    method InputChange(field: Field, value: string)
      modifies this
      ensures form == WithField(old(form), field, value)
      ensures status == old(status) && inFlight == old(inFlight) && sent == old(sent)
    {
      form := WithField(form, field, value);
    }

    /** `handleSubmit` up to the send: an incomplete form only sets the
        fill-in message; a complete one shows "Submitting..." and sends its
        parameters. The button is not disabled, so sends may overlap. */
    method Submit()
      modifies this
      ensures !Complete(old(form)) ==>
        status == Some(FillAllFields) && sent == old(sent) && inFlight == old(inFlight)
      ensures Complete(old(form)) ==>
        status == Some(Submitting) && sent == old(sent) + [ParamsOf(old(form))] && inFlight == old(inFlight) + 1
      ensures form == old(form)
    {
      if !Complete(form) {
        status := Some(FillAllFields);
        return;
      }
      status := Some(Submitting);
      sent := sent + [ParamsOf(form)];
      inFlight := inFlight + 1;
    }

    /** A send settles: success reports it and empties the form; failure
        reports it and keeps the form. */
    method SendSettled(succeeded: bool)
      requires inFlight > 0
      modifies this
      ensures inFlight == old(inFlight) - 1 && sent == old(sent)
      ensures succeeded ==> status == Some(SentMessage) && form == EmptyForm
      ensures !succeeded ==> status == Some(SendFailed) && form == old(form)
    {
      inFlight := inFlight - 1;
      if succeeded {
        status := Some(SentMessage);
        form := EmptyForm;
      } else {
        status := Some(SendFailed);
      }
    }

    /** The Clear button: the form is emptied, the status kept. */
    method Clear()
      modifies this
      ensures form == EmptyForm
      ensures status == old(status) && inFlight == old(inFlight) && sent == old(sent)
    {
      form := EmptyForm;
    }
  }
}
