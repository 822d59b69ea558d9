/**
 * The portfolio's contact form. Its submission is simulated on the client:
 * after a delay the form is cleared. Nothing is sent to the serverless
 * handler from here.
 */
module ContactForm {
  import opened Strings

  /** The names of the four inputs, used as keys of the form data. */
  const FieldNames: set<string> := {"name", "email", "subject", "message"}

  const EmptyForm: map<string, string> := map["name" := "", "email" := "", "subject" := "", "message" := ""]

  /** All four inputs are `required`: the browser submits only when none is empty. */
  predicate FilledIn(data: map<string, string>) {
    forall k :: k in FieldNames ==> k in data && data[k] != ""
  }

  /** Right after a reset the form cannot be submitted again untouched. */
  lemma EmptyFormIsRefused()
    ensures !FilledIn(EmptyForm)
  {
    assert EmptyForm["name"] == "";
  }

  class Form {
    /** `formData`: an object keyed by input name. */
    var formData: map<string, string>
    var isSubmitting: bool

    /** Every input always has an entry. */
    ghost predicate Valid()
      reads this
    {
      FieldNames <= formData.Keys
    }

    constructor ()
      ensures Valid() && formData == EmptyForm && !isSubmitting
    {
      formData := EmptyForm;
      isSubmitting := false;
    }

    /** `handleInputChange`: `{ ...formData, [e.target.name]: e.target.value }`. */
    method HandleInputChange(inputName: string, value: string)
      requires Valid()
      modifies this
      ensures Valid()
      ensures formData == old(formData)[inputName := value]
      ensures inputName in formData && formData[inputName] == value
      ensures forall k :: k in old(formData) && k != inputName ==> k in formData && formData[k] == old(formData)[k]
      ensures isSubmitting == old(isSubmitting)
    {
      formData := formData[inputName := value];
    }

    /**
     * `handleSubmit`, reached only when the browser lets the form submit: the
     * submission starts and the data stays as typed. Otherwise nothing changes.
     * The send button is disabled while submitting, so no submit happens then.
     */
    method HandleSubmit() returns (started: bool)
      requires Valid() && !isSubmitting
      modifies this
      ensures started <==> FilledIn(old(formData))
      ensures Valid() && formData == old(formData)
      ensures isSubmitting == started
    {
      started := FilledIn(formData);
      if started {
        isSubmitting := true;
      }
    }

    /** The submission timer's callback: all four fields are cleared. */
    method SubmissionCompletes()
      requires Valid()
      modifies this
      ensures Valid() && !isSubmitting
      ensures formData == EmptyForm
      ensures forall k :: k in FieldNames ==> formData[k] == ""
    {
      formData := EmptyForm;
      isSubmitting := false;
    }

    /** The send button. */
    function SubmitButton(): (b: SubmitView)
      reads this
      ensures b.disabled <==> isSubmitting
      ensures b.caption == (if isSubmitting then "Sending..." else "Send Message")
    {
      if isSubmitting then SubmitView(true, "Sending...") else SubmitView(false, "Send Message")
    }
  }

  datatype SubmitView = SubmitView(disabled: bool, caption: string)

  /** How a contact-information link is drawn. */
  datatype LinkView = LinkView(target: string, rel: string, externalIcon: bool)

  /** An `http` link opens in a new tab, with `noopener noreferrer` and the external icon. */
  function ContactLink(href: string): (v: LinkView)
    ensures v.externalIcon <==> StartsWith(href, "http")
    ensures v.target == "_blank" <==> v.externalIcon
    ensures v.rel == "noopener noreferrer" <==> v.externalIcon
    ensures !v.externalIcon ==> v.target == "" && v.rel == ""
  {
    var external := StartsWith(href, "http");
    if external then LinkView("_blank", "noopener noreferrer", true) else LinkView("", "", false)
  }

  /** The hrefs of the four contact-information entries. */
  const EmailHref := "mailto:natnaeldejene19@gmail.com"
  const PhoneHref := "tel:+251901375041"
  const LocationHref := "https://maps.google.com/?q=Addis+Ababa,Ethiopia"
  const AvailabilityHref := "#"

  /** Of the four entries, only the map location opens in a new tab. */
  lemma OnlyLocationIsExternal()
    ensures ContactLink(LocationHref).externalIcon
    ensures !ContactLink(EmailHref).externalIcon && !ContactLink(PhoneHref).externalIcon
    ensures !ContactLink(AvailabilityHref).externalIcon
  {
    assert LocationHref[..4] == "https://maps.google.com/"[..4] == "http";
    assert EmailHref[0] == 'm' && PhoneHref[0] == 't';
  }
}
