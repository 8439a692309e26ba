/** The Contact page's form: four text fields and the flag that marks a
    message on its way to the mail relay. The relay itself is outside the
    model; its answer is a parameter. */
module Contact {
  import opened Text
  import opened Catalog

  /** The four controls, named by their `name` attributes. */
  datatype Field = Name | Email | Subject | Message

  datatype FormData = FormData(name: String, email: String, subject: String, message: String)

  /** Every field empty: the form on mounting and after a message is sent. */
  const EmptyForm: FormData := FormData("", "", "", "")

  /** The value shown by a control. */
  function Get(d: FormData, f: Field): String
  {
    match f
    case Name => d.name
    case Email => d.email
    case Subject => d.subject
    case Message => d.message
  }

  /** `{ ...formData, [name]: value }`: the named field takes the new value and
      the other three keep theirs. */
  function Updated(d: FormData, f: Field, v: String): (r: FormData)
    ensures Get(r, f) == v
    ensures forall g :: g != f ==> Get(r, g) == Get(d, g)
  {
    match f
    case Name => d.(name := v)
    case Email => d.(email := v)
    case Subject => d.(subject := v)
    case Message => d.(message := v)
  }

  /** A record is determined by what its four controls show. */
  lemma FormExtensional(d: FormData, e: FormData)
    requires forall f :: Get(d, f) == Get(e, f)
    ensures d == e
  {
    assert Get(d, Name) == Get(e, Name) && Get(d, Email) == Get(e, Email);
    assert Get(d, Subject) == Get(e, Subject) && Get(d, Message) == Get(e, Message);
  }

  /** Typing the value a control already shows changes nothing. */
  lemma UpdateSameValue(d: FormData, f: Field)
    ensures Updated(d, f, Get(d, f)) == d
  {
    FormExtensional(Updated(d, f, Get(d, f)), d);
  }

  /** Two changes to the same control: the later one wins. */
  lemma UpdateTwice(d: FormData, f: Field, v: String, w: String)
    ensures Updated(Updated(d, f, v), f, w) == Updated(d, f, w)
  {
    FormExtensional(Updated(Updated(d, f, v), f, w), Updated(d, f, w));
  }

  /** Changes to different controls do not interfere: their order does not
      matter. */
  lemma UpdatesCommute(d: FormData, f: Field, g: Field, v: String, w: String)
    requires f != g
    ensures Updated(Updated(d, f, v), g, w) == Updated(Updated(d, g, w), f, v)
  {
    FormExtensional(Updated(Updated(d, f, v), g, w), Updated(Updated(d, g, w), f, v));
  }

  /** The template parameters handed to the relay. */
  const TemplateKeys: set<String> := {"from_name", "from_email", "subject", "message"}

  /** The parameters of the relay call: each field's value, verbatim, under
      its template name. */
  function PayloadOf(d: FormData): (p: map<String, String>)
    ensures p.Keys == TemplateKeys
  {
    map["from_name" := d.name, "from_email" := d.email, "subject" := d.subject, "message" := d.message]
  }

  /** Reading the four fields back out of a parameter map. */
  function FormOf(p: map<String, String>): (d: Option<FormData>)
  {
    if TemplateKeys <= p.Keys
    then Some(FormData(p["from_name"], p["from_email"], p["subject"], p["message"]))
    else None
  }

  /** Nothing is lost or altered on the way to the relay: the fields can be
      read back from the parameters. */
  lemma PayloadRoundTrip(d: FormData)
    ensures FormOf(PayloadOf(d)) == Some(d)
  {
  }

  /** Different forms send different parameters. */
  lemma PayloadInjective(d: FormData, e: FormData)
    requires PayloadOf(d) == PayloadOf(e)
    ensures d == e
  {
    PayloadRoundTrip(d);
    PayloadRoundTrip(e);
  }

  /** How the relay call ended: it resolved with a status, or it threw. */
  datatype Outcome = Resolved(status: int) | Rejected

  /** Only a resolution with status 200 counts as sent. */
  predicate Sent(o: Outcome)
  {
    o.Resolved? && o.status == 200
  }

  /** The fields once the relay has answered: cleared when the message was
      sent, left as they are otherwise. */
  function AfterRelay(d: FormData, o: Outcome): (r: FormData)
    ensures Sent(o) ==> forall f :: Get(r, f) == ""
    ensures !Sent(o) ==> forall f :: Get(r, f) == Get(d, f)
  {
    if Sent(o) then EmptyForm else d
  }

  /** A failure, whether a status other than 200 or a thrown error, keeps
      everything the visitor typed. */
  lemma FailureKeepsForm(d: FormData, o: Outcome)
    requires o == Rejected || (o.Resolved? && o.status != 200)
    ensures AfterRelay(d, o) == d
  {
    FormExtensional(AfterRelay(d, o), d);
  }

  /** Success leaves the form as it was on mounting. */
  lemma SuccessClearsForm(d: FormData, o: Outcome)
    requires o == Resolved(200)
    ensures AfterRelay(d, o) == EmptyForm
  {
    FormExtensional(AfterRelay(d, o), EmptyForm);
  }

  /** Answering the same outcome twice is answering it once. */
  lemma AfterRelayIdempotent(d: FormData, o: Outcome)
    ensures AfterRelay(AfterRelay(d, o), o) == AfterRelay(d, o)
  {
    FormExtensional(AfterRelay(AfterRelay(d, o), o), AfterRelay(d, o));
  }

  /** The browser's check before it lets the form be submitted: every control
      is marked `required`, so none may be empty. */
  predicate Complete(d: FormData)
  {
    forall f :: Get(d, f) != ""
  }

  /** A sent message leaves nothing to resend: the cleared form fails the
      `required` check until it is filled in again. */
  lemma SentFormIncomplete(d: FormData, o: Outcome)
    requires Sent(o)
    ensures !Complete(AfterRelay(d, o))
  {
    assert Get(AfterRelay(d, o), Name) == "";
  }

  /** The state of the form. */
  class ContactForm {
    var formData: FormData
    var isSubmitting: bool

    /** Mounting: every field empty, nothing being sent. */
    constructor ()
      ensures formData == EmptyForm && !isSubmitting
    {
      formData := EmptyForm;
      isSubmitting := false;
    }

    /** The submit button is disabled exactly while a message is being sent. */
    predicate SubmitDisabled()
      reads this
    {
      isSubmitting
    }

    /** `handleChange`: a keystroke in one control. It is also accepted while
        a message is being sent. */
    method HandleChange(f: Field, v: String)
      modifies this
      ensures formData == Updated(old(formData), f, v)
      ensures isSubmitting == old(isSubmitting)
    {
      formData := Updated(formData, f, v);
    }

    /** The first half of `handleSubmit`: mark the form busy and hand the
        current fields to the relay. The submit event only reaches the
        handler while the button is enabled and every field is filled in. */
    method BeginSubmit() returns (payload: map<String, String>)
      requires !SubmitDisabled() && Complete(formData)
      modifies this
      ensures isSubmitting && SubmitDisabled()
      ensures formData == old(formData)
      ensures payload == PayloadOf(formData)
    {
      isSubmitting := true;
      payload := PayloadOf(formData);
    }

    /** The second half of `handleSubmit`, once the relay has answered: clear
        the fields on success, and in every case release the button. The
        fields are the ones shown now, including any typed while waiting. */
    method CompleteSubmit(o: Outcome)
      requires isSubmitting
      modifies this
      ensures !isSubmitting && !SubmitDisabled()
      ensures formData == AfterRelay(old(formData), o)
    {
      if Sent(o) {
        formData := EmptyForm;
      }
      isSubmitting := false;
    }

    /** `handleSubmit` when nothing is typed while the relay works. */
    method HandleSubmit(o: Outcome) returns (payload: map<String, String>)
      requires !SubmitDisabled() && Complete(formData)
      modifies this
      ensures payload == PayloadOf(old(formData))
      ensures formData == AfterRelay(old(formData), o)
      ensures !isSubmitting
    {
      payload := BeginSubmit();
      CompleteSubmit(o);
    }
  }

  /** A full exchange: the visitor fills in the form and sends it. What the
      relay receives is what was typed; a sent message leaves the form empty
      and a failed one leaves it filled in. */
  method FillAndSend(name: String, email: String, subject: String, message: String, o: Outcome)
    returns (form: ContactForm, payload: map<String, String>)
    requires name != "" && email != "" && subject != "" && message != ""
    ensures FormOf(payload) == Some(FormData(name, email, subject, message))
    ensures form.formData == if Sent(o) then EmptyForm else FormData(name, email, subject, message)
    ensures !form.SubmitDisabled()
  {
    form := new ContactForm();
    form.HandleChange(Name, name);
    form.HandleChange(Email, email);
    form.HandleChange(Subject, subject);
    form.HandleChange(Message, message);
    assert form.formData == FormData(name, email, subject, message);
    assert Complete(form.formData);
    payload := form.HandleSubmit(o);
    PayloadRoundTrip(FormData(name, email, subject, message));
  }
}
