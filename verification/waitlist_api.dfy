/** The `POST /api/waitlist` handler of the backend: an ordered chain of guard
    checks that turns a JSON body into an HTTP status with an error message, or
    into a sanitised entry that is handed to the database. The e-mail validator,
    the database save, Python's `str()` of a non-string value and the clock are
    parameters: the handler only sees their answers. */
module Waitlist {
  import opened Text

  /** A decoded JSON body as Python sees it (`null` is `None`). */
  datatype Json =
    | JNull
    | JBool(b: bool)
    | JNum(n: real)
    | JStr(s: string)
    | JArr(items: seq<Json>)
    | JObj(fields: map<string, Json>)

  /** Python truthiness: `None`, `False`, zero and empty containers are false. */
  predicate Truthy(j: Json)
  {
    match j
    case JNull => false
    case JBool(b) => b
    case JNum(n) => n != 0.0
    case JStr(s) => s != ""
    case JArr(items) => items != []
    case JObj(fields) => fields != map[]
  }

  /** `data.get(key, default)` on a dict. */
  function Get(fields: map<string, Json>, key: string, default: Json): (v: Json)
    ensures key in fields ==> v == fields[key]
    ensures key !in fields ==> v == default
  {
    if key in fields then fields[key] else default
  }

  /** Python's `str(v)`: a string is itself; anything else is rendered by `strOf`. */
  function PyStr(v: Json, strOf: Json -> string): (s: string)
    ensures v.JStr? ==> s == v.s
  {
    if v.JStr? then v.s else strOf(v)
  }

  /** What `validate_email` does with an address. */
  datatype EmailCheck =
    | Normalized(email: string)   // accepted; the normalised address
    | NotValid(message: string)   // raised EmailNotValidError with this text
    | Crashed                     // raised some other exception

  /** What `db.save_waitlist_entry` does with an entry. */
  datatype SaveResult =
    | Inserted(id: string)        // a truthy insert result carrying inserted_id
    | NotSaved                    // returned None
    | SaveCrashed                 // raised

  datatype Entry = Entry(firstName: string, email: string, phone: string, reason: Json, timestamp: string)

  datatype Body = Error(error: string) | Created(message: string, id: string)

  datatype Response = Response(status: int, body: Body)

  /** The validation chain ends either in an entry to save or in a response. */
  datatype Checked = Accept(entry: Entry) | Reject(response: Response)

  /** The handler's answer and the entry it passed to the save, if it called it. */
  datatype Outcome = Outcome(response: Response, saved: Option<Entry>)

  const MaxNameLength := 100
  const MaxEmailLength := 255
  const RequiredFields := ["first_name", "email"]

  function BadRequest(message: string): Response { Response(400, Error(message)) }
  function ServerError(): Response { Response(500, Error("Internal Server Error")) }

  /** Index of the first required field whose raw value is falsy, in
      declaration order; `|names|` when every one is present. */
  function FirstMissing(fields: map<string, Json>, names: seq<string>): (k: nat)
    ensures k <= |names|
    ensures forall i :: 0 <= i < k ==> Truthy(Get(fields, names[i], JNull))
    ensures k < |names| ==> !Truthy(Get(fields, names[k], JNull))
  {
    if names == [] || !Truthy(Get(fields, names[0], JNull)) then 0
    else 1 + FirstMissing(fields, names[1..])
  }

  /** The `for field in required_fields` loop: the message for the first
      required field whose raw value is falsy, if any. */
  function MissingField(fields: map<string, Json>): (m: Option<string>)
    ensures !Truthy(Get(fields, "first_name", JNull)) ==> m == Some("Missing required field: first_name")
    ensures Truthy(Get(fields, "first_name", JNull)) && !Truthy(Get(fields, "email", JNull)) ==>
              m == Some("Missing required field: email")
    ensures m.None? <==> Truthy(Get(fields, "first_name", JNull)) && Truthy(Get(fields, "email", JNull))
  {
    var missing := FirstMissing(fields, RequiredFields);
    assert RequiredFields[0] == "first_name" && RequiredFields[1] == "email";
    assert !Truthy(Get(fields, RequiredFields[0], JNull)) ==> missing == 0;
    assert !Truthy(Get(fields, RequiredFields[1], JNull)) ==> missing <= 1;
    assert "Missing required field: " + "first_name" == "Missing required field: first_name";
    assert "Missing required field: " + "email" == "Missing required field: email";
    if missing < |RequiredFields| then Some("Missing required field: " + RequiredFields[missing]) else None
  }

  /** `str(data.get(key, '')).strip()`: a missing key gives the empty
      string, a string value is stripped of Python whitespace at both ends
      (Trim, TrimIsSlice), and strips to nothing exactly when it is blank. */
  function Stripped(fields: map<string, Json>, key: string, strOf: Json -> string): (r: string)
    ensures key !in fields ==> r == ""
    ensures key in fields && fields[key].JStr? ==> r == Trim(fields[key].s, Python)
    ensures key in fields && fields[key].JStr? ==> (r == "" <==> Blank(fields[key].s, Python))
  {
    var raw := PyStr(Get(fields, key, JStr("")), strOf);
    assert key !in fields ==> raw == "";
    assert key in fields && fields[key].JStr? ==> raw == fields[key].s;
    Trim(raw, Python)
  }

  /** The guards that follow the required-field loop, on the stripped name,
      e-mail and phone: the length limits, name first, then the e-mail
      validator. */
  function CheckValues(name: string, email: string, phone: string, reason: Json,
                       validateEmail: string -> EmailCheck, timestamp: string): (c: Checked)
    ensures |name| > MaxNameLength ==> c == Reject(BadRequest("Name is too long"))
    ensures |name| <= MaxNameLength && |email| > MaxEmailLength ==> c == Reject(BadRequest("Email is too long"))
    // an address the validator rejects is answered with the validator's own message
    ensures |name| <= MaxNameLength && |email| <= MaxEmailLength && validateEmail(email).NotValid? ==>
              c == Reject(BadRequest(validateEmail(email).message))
    // an address the validator accepts, once both limits hold, is saved in normalised form
    ensures c.Accept? <==> |name| <= MaxNameLength && |email| <= MaxEmailLength && validateEmail(email).Normalized?
    ensures c.Accept? ==> c.entry == Entry(name, validateEmail(email).email, phone, reason, timestamp)
    ensures c.Reject? ==> c.response.body.Error? && c.response.status in {400, 500}
  {
    if |name| > MaxNameLength then Reject(BadRequest("Name is too long"))
    else if |email| > MaxEmailLength then Reject(BadRequest("Email is too long"))
    else
      match validateEmail(email)
      case NotValid(message) => Reject(BadRequest(message))
      case Crashed => Reject(ServerError())
      case Normalized(normal) => Accept(Entry(name, normal, phone, reason, timestamp))
  }

  /** The guard chain of `submit_waitlist`, up to the point where the entry is saved. */
  function Validate(data: Json, validateEmail: string -> EmailCheck, strOf: Json -> string, timestamp: string): (c: Checked)
    // an empty or missing body is refused first
    ensures !Truthy(data) ==> c == Reject(BadRequest("No data provided"))
    // a truthy body that is not an object fails on `.get` and lands in the catch-all
    ensures Truthy(data) && !data.JObj? ==> c == Reject(ServerError())
    // the required fields are checked on their raw values, before anything is stripped
    ensures data.JObj? && Truthy(data) && MissingField(data.fields).Some? ==>
              c == Reject(BadRequest(MissingField(data.fields).value))
    // then the stripped values go through the remaining guards
    ensures data.JObj? && Truthy(data) && MissingField(data.fields).None? ==>
              c == CheckValues(Stripped(data.fields, "first_name", strOf), Stripped(data.fields, "email", strOf),
                               Stripped(data.fields, "phone", strOf), Get(data.fields, "reason", JStr("")),
                               validateEmail, timestamp)
    ensures c.Accept? ==> data.JObj? && Truthy(Get(data.fields, "first_name", JNull))
                          && Truthy(Get(data.fields, "email", JNull))
    ensures c.Reject? ==> c.response.body.Error? && c.response.status in {400, 500}
  {
    if !Truthy(data) then Reject(BadRequest("No data provided"))
    else if !data.JObj? then Reject(ServerError())
    else
      match MissingField(data.fields)
      case Some(message) => Reject(BadRequest(message))
      case None =>
        CheckValues(Stripped(data.fields, "first_name", strOf), Stripped(data.fields, "email", strOf),
                    Stripped(data.fields, "phone", strOf), Get(data.fields, "reason", JStr("")),
                    validateEmail, timestamp)
  }

  /** `submit_waitlist`: validation, then the save, then the response mapping. */
  function SubmitWaitlist(data: Json, validateEmail: string -> EmailCheck, save: Entry -> SaveResult,
                          strOf: Json -> string, timestamp: string): (out: Outcome)
    // every validation failure answers before the save is called
    ensures Validate(data, validateEmail, strOf, timestamp).Reject? <==> out.saved.None?
    ensures out.saved.None? ==> out.response == Validate(data, validateEmail, strOf, timestamp).response
    // the save receives exactly the validated entry
    ensures out.saved.Some? ==> Validate(data, validateEmail, strOf, timestamp) == Accept(out.saved.value)
    // 201 with the id exactly when the save returned a truthy result
    ensures out.response.status == 201 <==> out.saved.Some? && save(out.saved.value).Inserted?
    ensures out.response.status == 201 ==>
              out.response.body == Created("Successfully added to waitlist", save(out.saved.value).id)
    ensures out.saved.Some? && !save(out.saved.value).Inserted? ==> out.response == ServerError()
    ensures out.response.status in {201, 400, 500}
  {
    match Validate(data, validateEmail, strOf, timestamp)
    case Reject(response) => Outcome(response, None)
    case Accept(entry) =>
      var response :=
        match save(entry)
        case Inserted(id) => Response(201, Created("Successfully added to waitlist", id))
        case NotSaved => ServerError()
        case SaveCrashed => ServerError();
      Outcome(response, Some(entry))
  }

  /** A name that is only whitespace passes the required-field check (which
      looks at the raw value) and is saved as the empty string. */
  lemma BlankNameIsSaved(fields: map<string, Json>, validateEmail: string -> EmailCheck, strOf: Json -> string,
                         timestamp: string)
    requires "first_name" in fields && fields["first_name"].JStr?
    requires fields["first_name"].s != "" && Blank(fields["first_name"].s, Python)
    requires Truthy(Get(fields, "email", JNull))
    requires |Stripped(fields, "email", strOf)| <= MaxEmailLength
    requires validateEmail(Stripped(fields, "email", strOf)).Normalized?
    ensures var c := Validate(JObj(fields), validateEmail, strOf, timestamp);
            c.Accept? && c.entry.firstName == ""
  {
    assert Truthy(JObj(fields));
    assert Truthy(Get(fields, "first_name", JNull));
    assert Stripped(fields, "first_name", strOf) == "";
  }
}
