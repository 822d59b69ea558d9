/**
 * The `send-contact-email` serverless function: one contact-form submission
 * is answered with one HTTP response, after at most one insert into the
 * `contact_messages` table and at most two sends through the mail service.
 *
 * The database and the mail service are outside the model. Their observable
 * behaviour enters as outcomes given to `Handle`. The side effects the handler
 * causes are returned as a trace, in the order it causes them.
 */
module ContactHandler {
  import opened Options

  // ---------------------------------------------------------------- responses

  /** The cross-origin headers that every response carries. */
  const CorsHeaders: map<string, string> :=
    map["Access-Control-Allow-Origin" := "*",
        "Access-Control-Allow-Headers" := "authorization, x-client-info, apikey, content-type"]

  /** The headers of every JSON response: the CORS headers plus the content type. */
  const JsonHeaders: map<string, string> := CorsHeaders["Content-Type" := "application/json"]

  datatype ResponseBody =
    | NoBody
    | ErrorJson(error: string)
    | SuccessJson(success: bool, message: string, emailSent: bool)

  datatype Response = Response(status: int, headers: map<string, string>, body: ResponseBody)

  /** The answer to a CORS preflight: a null body with status 200 and only the CORS headers. */
  const PreflightResponse := Response(200, CorsHeaders, NoBody)

  const MethodNotAllowed := Response(405, JsonHeaders, ErrorJson("Method not allowed"))

  const MissingFields := Response(400, JsonHeaders, ErrorJson("All fields are required"))

  const StoreFailed := Response(500, JsonHeaders, ErrorJson("Failed to store message"))

  const Delivered := Response(200, JsonHeaders, SuccessJson(true, "Message sent successfully", true))

  const FallbackError := "Internal server error"

  /** `error.message || "Internal server error"`: an absent or empty message falls back. */
  function ThrownText(message: string): (t: string)
    ensures t != ""
    ensures message != "" ==> t == message
    ensures message == "" ==> t == FallbackError
  {
    if message == "" then FallbackError else message
  }

  /** The response built in the `catch` block for a thrown error. */
  function Crashed(message: string): (r: Response)
    ensures r.status == 500 && r.headers == JsonHeaders
    ensures r.body.ErrorJson? && r.body.error != ""
    ensures message != "" ==> r.body.error == message
    ensures message == "" ==> r.body.error == FallbackError
  {
    Response(500, JsonHeaders, ErrorJson(ThrownText(message)))
  }

  // ----------------------------------------------------------------- requests

  /**
   * The decoded JSON body. `req.json()` may throw (malformed JSON, or a `null`
   * body that cannot be destructured); otherwise each of the four fields is
   * either absent (`None`) or a string.
   */
  datatype RequestBody =
    | Unparsable(reason: string)
    | Fields(name: Option<string>, email: Option<string>, subject: Option<string>, message: Option<string>)

  datatype Request = Request(verb: string, body: RequestBody)

  /** JavaScript truthiness of a field: present and not the empty string. */
  predicate Truthy(f: Option<string>) {
    f.Some? && f.value != ""
  }

  /** The validation at the top of the `try` block: all four fields are truthy. */
  predicate AllFieldsPresent(b: RequestBody)
    requires b.Fields?
  {
    Truthy(b.name) && Truthy(b.email) && Truthy(b.subject) && Truthy(b.message)
  }

  // ------------------------------------------------------------------ effects

  /** A row of `contact_messages` as inserted; `id`, `status` and the timestamps are left to the database. */
  datatype ContactRow = ContactRow(name: string, email: string, subject: string, message: string)

  /** An email as handed to the mail service; the HTML body is not modelled. */
  datatype Email = Email(from: string, to: seq<string>, subject: string)

  datatype Effect = Insert(table: string, row: ContactRow) | Send(email: Email)

  const Table := "contact_messages"
  const OwnerAddress := "natnaeldejene19@gmail.com"
  const ConfirmationSender := "Natnael Dejene <onboarding@resend.dev>"
  const NotificationSender := "Portfolio Contact <onboarding@resend.dev>"
  const ConfirmationSubject := "Thank you for contacting me!"
  const NotificationPrefix := "New Contact Form Message: "

  /** The thank-you email to the person who submitted the form. */
  function Confirmation(email: string): (e: Email)
    ensures e.to == [email] && e.subject == ConfirmationSubject
  {
    Email(ConfirmationSender, [email], ConfirmationSubject)
  }

  /** The notification email to the site owner, whose subject carries the submitted subject. */
  function Notification(subject: string): (e: Email)
    ensures e.to == [OwnerAddress]
    ensures |e.subject| == |NotificationPrefix| + |subject| && e.subject[..|NotificationPrefix|] == NotificationPrefix
    ensures e.subject[|NotificationPrefix|..] == subject
  {
    Email(NotificationSender, [OwnerAddress], NotificationPrefix + subject)
  }

  /** What the database does with the insert. */
  datatype StoreOutcome =
    | Stored
      /** the insert returns an `error` */
    | Rejected(dbError: string)
      /** the awaited insert throws */
    | StoreThrew(message: string)
      /** `createClient` throws before any insert is attempted (unusable URL or key) */
    | ClientThrew(message: string)

  /** What one awaited `resend.emails.send` does: it returns a result (only logged) or throws. */
  datatype SendOutcome = Returned(result: string) | SendThrew(message: string)

  // ------------------------------------------------------------------ handler

  /**
   * The handler. `store`, `first` and `second` are what the database, the
   * confirmation send and the notification send do if they are reached.
   */
  method Handle(req: Request, store: StoreOutcome, first: SendOutcome, second: SendOutcome)
    returns (resp: Response, trace: seq<Effect>)
    // every response carries the CORS headers
    ensures forall h :: h in CorsHeaders ==> h in resp.headers && resp.headers[h] == CorsHeaders[h]
    // method gate
    ensures req.verb == "OPTIONS" ==> resp == PreflightResponse && trace == []
    ensures req.verb != "OPTIONS" && req.verb != "POST" ==> resp == MethodNotAllowed && trace == []
    // a body that cannot be read is a thrown error
    ensures req.verb == "POST" && req.body.Unparsable? ==> resp == Crashed(req.body.reason) && trace == []
    // validation: 400 exactly for a POST with a missing or empty field, and then no effects
    ensures resp.status == 400 <==> req.verb == "POST" && req.body.Fields? && !AllFieldsPresent(req.body)
    ensures resp.status == 400 ==> resp == MissingFields && trace == []
    // effects happen only for a valid POST, and the first one is the insert of exactly the four fields
    ensures trace != [] ==>
      req.verb == "POST" && req.body.Fields? && AllFieldsPresent(req.body) && !store.ClientThrew? &&
      trace[0] == Insert(Table, ContactRow(req.body.name.value, req.body.email.value,
                                           req.body.subject.value, req.body.message.value))
    ensures req.verb == "POST" && req.body.Fields? && AllFieldsPresent(req.body) ==>
      (trace == [] <==> store.ClientThrew?)
    // no email unless the message was stored
    ensures !store.Stored? ==> forall k :: 0 <= k < |trace| ==> !trace[k].Send?
    // a failed insert (an error or a throw) ends the run right after it
    ensures (store.Rejected? || store.StoreThrew?) && trace != [] ==> |trace| == 1
    ensures store.Rejected? && trace != [] ==> resp == StoreFailed
    ensures (store.StoreThrew? || store.ClientThrew?) && req.verb == "POST" && req.body.Fields? && AllFieldsPresent(req.body) ==>
      resp == Crashed(store.message)
    // after a stored message: the confirmation, then (unless it threw) the notification
    ensures store.Stored? && |trace| > 0 ==>
      |trace| >= 2 && trace[1] == Send(Confirmation(req.body.email.value)) &&
      (|trace| == 3 <==> first.Returned?) &&
      (|trace| == 3 ==> trace[2] == Send(Notification(req.body.subject.value)))
    ensures store.Stored? && |trace| > 0 ==>
      resp == (if first.SendThrew? then Crashed(first.message)
               else if second.SendThrew? then Crashed(second.message)
               else Delivered)
    // success on a POST means: stored, and both emails handed over
    ensures req.verb == "POST" && resp.status == 200 ==>
      resp == Delivered && store.Stored? && first.Returned? && second.Returned? && |trace| == 3
    ensures |trace| <= 3
  {
    trace := [];
    if req.verb == "OPTIONS" {
      return PreflightResponse, trace;
    }
    if req.verb != "POST" {
      return MethodNotAllowed, trace;
    }
    // the `try` block starts here
    if req.body.Unparsable? {
      return Crashed(req.body.reason), trace;
    }
    var body := req.body;
    if !AllFieldsPresent(body) {
      return MissingFields, trace;
    }
    var name, email, subject, message := body.name.value, body.email.value, body.subject.value, body.message.value;
    if store.ClientThrew? {
      return Crashed(store.message), trace;
    }
    trace := trace + [Insert(Table, ContactRow(name, email, subject, message))];
    if store.StoreThrew? {
      return Crashed(store.message), trace;
    }
    if store.Rejected? {
      return StoreFailed, trace;
    }
    trace := trace + [Send(Confirmation(email))];
    if first.SendThrew? {
      return Crashed(first.message), trace;
    }
    trace := trace + [Send(Notification(subject))];
    if second.SendThrew? {
      return Crashed(second.message), trace;
    }
    // the two send results are only logged
    return Delivered, trace;
  }

  /** A complete submission whose insert and sends all go through. */
  method SuccessfulSubmission() returns (resp: Response, trace: seq<Effect>)
    ensures resp == Delivered
    ensures trace == [Insert(Table, ContactRow("Ana", "ana@x.com", "Hi", "Hello there")),
                      Send(Email(ConfirmationSender, ["ana@x.com"], ConfirmationSubject)),
                      Send(Email(NotificationSender, [OwnerAddress], NotificationPrefix + "Hi"))]
  {
    var req := Request("POST", Fields(Some("Ana"), Some("ana@x.com"), Some("Hi"), Some("Hello there")));
    resp, trace := Handle(req, Stored, Returned("id-1"), Returned("id-2"));
  }

  /** An empty name is refused before anything is stored or sent. */
  method EmptyNameSubmission() returns (resp: Response, trace: seq<Effect>)
    ensures resp == MissingFields && trace == []
  {
    var req := Request("POST", Fields(Some(""), Some("x@x.com"), Some("S"), Some("M")));
    resp, trace := Handle(req, Stored, Returned("id-1"), Returned("id-2"));
  }
}
