/**
 * The shifts page of the web client (frontend/app/shifts/page.tsx): the wire
 * body it builds from the form, the rule it uses to accept a delete, and the
 * state changes that `fetchShifts`, `submit` and `del` make through the
 * page's state setters. Every network result is a parameter.
 */
module ShiftsPage {
  import opened Wrappers
  import opened JsString

  /** A shift as the client receives it: timestamps stay ISO-8601 strings. */
  datatype ClientShift = ClientShift(
    id: int,
    userName: string,
    role: Option<string>,
    startAt: string,
    endAt: string,
    note: Option<string>)

  /** The five controlled form fields, exactly as typed. */
  datatype Form = Form(userName: string, role: string, startAt: string, endAt: string, note: string)

  const BlankForm: Form := Form("", "", "", "", "")

  /** The JSON body of `POST /shifts`; `None` is serialised as `null`. */
  datatype CreateBody = CreateBody(
    userName: string,
    role: Option<string>,
    startAt: string,
    endAt: string,
    note: Option<string>)

  /** What an awaited `fetch` produced: a response (its `ok`, `status` and body text), or a rejection. */
  datatype HttpReply =
    | Response(ok: bool, status: int, text: string)
    | Rejected(message: string)
  {
    /** The message the page shows: the body text of a response, the message of a rejection. */
    function ErrorText(): string {
      match this
      case Response(_, _, text) => text
      case Rejected(message) => message
    }
  }

  const StatusNoContent: int := 204

  /** Everything the page renders from. */
  datatype View = View(form: Form, shifts: seq<ClientShift>, loading: bool, err: string)

  /**
   * `toLocalDatetimeString`: a `datetime-local` value (`YYYY-MM-DDTHH:MM`)
   * gains a seconds field; the empty value stays empty.
   */
  function ToLocalDatetimeString(dt: string): (r: string)
    ensures dt == [] ==> r == []
    ensures dt != [] ==> |r| == |dt| + 3 && r[..|dt|] == dt && r[|dt|..] == ":00"
  {
    if dt == [] then [] else dt + ":00"
  }

  /** `value.trim() || null`: the trimmed text, or null when nothing but whitespace was typed. */
  function TrimmedOrNull(value: string): (r: Option<string>)
    ensures r.None? <==> AllWhitespace(value)
    ensures r.Some? ==> r.value == Trim(value) && r.value != [] && NoEdgeWhitespace(r.value)
  {
    var t := Trim(value);
    if t == [] then None else Some(t)
  }

  /** The request body `submit` sends for the current form. */
  function BuildBody(f: Form): (b: CreateBody)
    ensures b.userName == Trim(f.userName) && NoEdgeWhitespace(b.userName)
    ensures b.role.None? <==> AllWhitespace(f.role)
    ensures b.role.Some? ==> b.role.value == Trim(f.role) && NoEdgeWhitespace(b.role.value)
    ensures b.note.None? <==> AllWhitespace(f.note)
    ensures b.note.Some? ==> b.note.value == Trim(f.note) && NoEdgeWhitespace(b.note.value)
    ensures f.startAt == [] ==> b.startAt == []
    ensures f.startAt != [] ==> b.startAt == f.startAt + ":00"
    ensures f.endAt == [] ==> b.endAt == []
    ensures f.endAt != [] ==> b.endAt == f.endAt + ":00"
  {
    CreateBody(
      Trim(f.userName),
      TrimmedOrNull(f.role),
      ToLocalDatetimeString(f.startAt),
      ToLocalDatetimeString(f.endAt),
      TrimmedOrNull(f.note))
  }

  /** `del` accepts a response that is `ok` or has status 204; a rejected fetch is a failure. */
  predicate DeleteSucceeded(reply: HttpReply)
    ensures reply.Rejected? ==> !DeleteSucceeded(reply)
    ensures reply.Response? && reply.ok ==> DeleteSucceeded(reply)
    ensures reply.Response? && reply.status == StatusNoContent ==> DeleteSucceeded(reply)
    ensures reply.Response? && !reply.ok && reply.status != StatusNoContent ==> !DeleteSucceeded(reply)
  {
    reply.Response? && (reply.ok || reply.status == StatusNoContent)
  }

  /**
   * Under the Fetch standard (`ok` holds exactly for statuses 200 to 299) the
   * extra 204 test in `del` never changes the verdict.
   */
  lemma DeleteSucceededIsOk(reply: HttpReply)
    requires reply.Response? ==> (reply.ok <==> 200 <= reply.status <= 299)
    ensures DeleteSucceeded(reply) <==> reply.Response? && reply.ok
  {
  }

  /** The list request worked: an `ok` response whose body decoded. */
  predicate ListSucceeded(reply: HttpReply, decoded: Result<seq<ClientShift>, string>) {
    reply.Response? && reply.ok && decoded.Ok?
  }

  /** The message `fetchShifts` shows when the list request did not work. */
  function ListFailureText(reply: HttpReply, decoded: Result<seq<ClientShift>, string>): string {
    if reply.Response? && reply.ok && decoded.Err? then decoded.error else reply.ErrorText()
  }

  /**
   * `fetchShifts` once it has settled: on success the list is the decoded data
   * and the error is cleared; on failure the list is kept and the error is the
   * failure's text. Either way loading has ended and the form is untouched.
   */
  function FetchEffect(v: View, reply: HttpReply, decoded: Result<seq<ClientShift>, string>): (w: View)
    ensures !w.loading && w.form == v.form
    ensures ListSucceeded(reply, decoded) ==> w.shifts == decoded.value && w.err == []
    ensures !ListSucceeded(reply, decoded) ==> w.shifts == v.shifts && w.err == ListFailureText(reply, decoded)
  {
    if ListSucceeded(reply, decoded) then v.(shifts := decoded.value, loading := false, err := [])
    else v.(loading := false, err := ListFailureText(reply, decoded))
  }

  /** The create request worked: an `ok` response. */
  predicate PostSucceeded(post: HttpReply) {
    post.Response? && post.ok
  }

  /**
   * `submit` once it has settled. On success the form is cleared and a list
   * refresh follows; on failure the form, the list and the loading flag are
   * kept and the error is the failure's text, so the user can retry.
   */
  function SubmitEffect(v: View, post: HttpReply, list: HttpReply, decoded: Result<seq<ClientShift>, string>): (w: View)
    ensures PostSucceeded(post) ==> w == FetchEffect(v.(form := BlankForm, err := []), list, decoded)
    ensures PostSucceeded(post) ==> w.form == BlankForm && !w.loading
    ensures !PostSucceeded(post) ==> w == v.(err := post.ErrorText())
  {
    if PostSucceeded(post) then FetchEffect(v.(form := BlankForm, err := []), list, decoded)
    else v.(err := post.ErrorText())
  }

  /**
   * `del` once it has settled. Without confirmation nothing happens; a
   * successful delete is followed by a list refresh; a failed one keeps the
   * list and shows the failure's text.
   */
  function DeleteEffect(
    v: View, confirmed: bool, reply: HttpReply, list: HttpReply, decoded: Result<seq<ClientShift>, string>): (w: View)
    ensures !confirmed ==> w == v
    ensures confirmed && DeleteSucceeded(reply) ==> w == FetchEffect(v.(err := []), list, decoded)
    ensures confirmed && !DeleteSucceeded(reply) ==> w == v.(err := reply.ErrorText())
    ensures w.form == v.form
  {
    if !confirmed then v
    else if DeleteSucceeded(reply) then FetchEffect(v.(err := []), list, decoded)
    else v.(err := reply.ErrorText())
  }

  /**
   * The page's state. The form has no input for the role, so `role` keeps its
   * initial empty value for the page's whole life.
   */
  class Page {
    var userName: string
    var role: string
    var startAt: string
    var endAt: string
    var note: string
    var shifts: seq<ClientShift>
    var loading: bool
    var err: string

    ghost predicate Valid()
      reads this
    {
      role == []
    }

    function Snapshot(): View
      reads this
    {
      View(Form(userName, role, startAt, endAt, note), shifts, loading, err)
    }

    /** The initial `useState` values: empty fields, no shifts, loading, no error. */
    constructor ()
      ensures Valid()
      ensures Snapshot() == View(BlankForm, [], true, [])
    {
      userName, role, startAt, endAt, note := [], [], [], [], [];
      shifts := [];
      loading := true;
      err := [];
    }

    /** The `onChange` handlers of the name, start, end and note inputs. */
    method EditUserName(value: string)
      modifies this
      ensures Snapshot() == old(Snapshot()).(form := old(Snapshot()).form.(userName := value))
    {
      userName := value;
    }

    method EditStartAt(value: string)
      modifies this
      ensures Snapshot() == old(Snapshot()).(form := old(Snapshot()).form.(startAt := value))
    {
      startAt := value;
    }

    method EditEndAt(value: string)
      modifies this
      ensures Snapshot() == old(Snapshot()).(form := old(Snapshot()).form.(endAt := value))
    {
      endAt := value;
    }

    method EditNote(value: string)
      modifies this
      ensures Snapshot() == old(Snapshot()).(form := old(Snapshot()).form.(note := value))
    {
      note := value;
    }

    /** `fetchShifts`: raise loading, clear the error, load the list, and lower loading in the end. */
    method FetchShifts(reply: HttpReply, decoded: Result<seq<ClientShift>, string>)
      modifies this
      ensures Snapshot() == FetchEffect(old(Snapshot()), reply, decoded)
    {
      loading := true;
      err := [];
      match reply {
        case Rejected(message) =>
          err := message;
        case Response(ok, _, text) =>
          if !ok {
            err := text;
          } else {
            match decoded {
              case Ok(data) => shifts := data;
              case Err(message) => err := message;
            }
          }
      }
      loading := false;
    }

    /**
     * `submit`: clear the error, send the body built from the form, and on
     * success clear the five fields and refresh the list. Returns the body sent.
     */
    method Submit(post: HttpReply, list: HttpReply, decoded: Result<seq<ClientShift>, string>)
      returns (body: CreateBody)
      requires Valid()
      modifies this
      ensures Valid()
      ensures body == BuildBody(old(Snapshot()).form)
      ensures body.role.None?
      ensures Snapshot() == SubmitEffect(old(Snapshot()), post, list, decoded)
    {
      ghost var before := Snapshot();
      err := [];
      body := BuildBody(Form(userName, role, startAt, endAt, note));
      assert body.role.None?;
      if PostSucceeded(post) {
        userName := [];
        role := [];
        startAt := [];
        endAt := [];
        note := [];
        assert Snapshot() == before.(form := BlankForm, err := []);
        FetchShifts(list, decoded);
      } else {
        err := post.ErrorText();
      }
    }

    /**
     * The form's submit event: the browser runs `submit` only when the
     * `required` inputs are filled, both times lie on the inputs' 30-minute
     * step (`startOnStep`, `endOnStep`: the browser's step check, an input
     * here), and the submit button, disabled while loading, is enabled.
     * Returns the body sent, if any.
     */
    method OnFormSubmit(
      startOnStep: bool, endOnStep: bool,
      post: HttpReply, list: HttpReply, decoded: Result<seq<ClientShift>, string>)
      returns (sent: Option<CreateBody>)
      requires Valid()
      modifies this
      ensures Valid()
      ensures sent.Some? <==> SubmitAllowed(old(Snapshot()), startOnStep, endOnStep)
      ensures sent.Some? ==> sent.value == BuildBody(old(Snapshot()).form)
      ensures Snapshot() == if sent.Some? then SubmitEffect(old(Snapshot()), post, list, decoded) else old(Snapshot())
    {
      if !loading && userName != [] && startAt != [] && endAt != [] && startOnStep && endOnStep {
        var body := Submit(post, list, decoded);
        sent := Some(body);
      } else {
        sent := None;
      }
    }

    /**
     * `del`: ask for confirmation, then send the delete and refresh the list
     * on success. Returns the id a request was sent for, if one was. The
     * page only offers delete buttons for listed ids while not loading; the
     * model accepts any id in any state, and its contract holds for all.
     */
    method Del(id: int, confirmed: bool, reply: HttpReply, list: HttpReply, decoded: Result<seq<ClientShift>, string>)
      returns (requested: Option<int>)
      modifies this
      ensures requested == if confirmed then Some(id) else None
      ensures Snapshot() == DeleteEffect(old(Snapshot()), confirmed, reply, list, decoded)
    {
      if !confirmed {
        return None;
      }
      err := [];
      requested := Some(id);
      if !DeleteSucceeded(reply) {
        err := reply.ErrorText();
      } else {
        FetchShifts(list, decoded);
      }
    }
  }

  /**
   * The browser lets the form submit: not loading, name, start and end are
   * non-empty, and both times pass the `step` check.
   */
  predicate SubmitAllowed(v: View, startOnStep: bool, endOnStep: bool)
    ensures v.loading ==> !SubmitAllowed(v, startOnStep, endOnStep)
    ensures !startOnStep || !endOnStep ==> !SubmitAllowed(v, startOnStep, endOnStep)
    ensures SubmitAllowed(v, startOnStep, endOnStep) ==>
              BuildBody(v.form).startAt != [] && BuildBody(v.form).endAt != []
  {
    && !v.loading
    && v.form.userName != [] && v.form.startAt != [] && v.form.endAt != []
    && startOnStep && endOnStep
  }

  /** A submitted form always carries both timestamps with seconds appended. */
  lemma SubmittedTimesHaveSeconds(v: View, startOnStep: bool, endOnStep: bool)
    requires SubmitAllowed(v, startOnStep, endOnStep)
    ensures var b := BuildBody(v.form);
            |b.startAt| == |v.form.startAt| + 3 && b.startAt[..|v.form.startAt|] == v.form.startAt
            && |b.endAt| == |v.form.endAt| + 3 && b.endAt[..|v.form.endAt|] == v.form.endAt
  {
  }

  /** After a failed create the user can submit again and the same body is sent. */
  lemma RetryAfterFailedCreate(v: View, post: HttpReply, list: HttpReply, decoded: Result<seq<ClientShift>, string>)
    requires !PostSucceeded(post)
    ensures var w := SubmitEffect(v, post, list, decoded);
            BuildBody(w.form) == BuildBody(v.form)
            && forall startOnStep: bool, endOnStep: bool ::
                 SubmitAllowed(w, startOnStep, endOnStep) <==> SubmitAllowed(v, startOnStep, endOnStep)
  {
  }

  /** The example form: empty role and note become null, both times gain seconds. */
  lemma ExampleBody()
    ensures BuildBody(Form("田中", "", "2025-11-30T10:30", "2025-11-30T12:30", ""))
            == CreateBody("田中", None, "2025-11-30T10:30:00", "2025-11-30T12:30:00", None)
  {
  }
}
