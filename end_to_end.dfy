/**
 * The client and the server together: what the server makes of the bodies
 * the page sends. The server's datetime parsing is not modelled, so the
 * decoded timestamps are parameters.
 */
module EndToEnd {
  import opened Wrappers
  import JsString
  import ShiftApi
  import ShiftsPage

  /** The server's view of a body the page sent, given how its two timestamps parse. */
  function Received(b: ShiftsPage.CreateBody, startAt: ShiftApi.Timestamp, endAt: ShiftApi.Timestamp): ShiftApi.ShiftCreate {
    ShiftApi.ShiftCreate(b.userName, b.role, startAt, endAt, b.note)
  }

  /**
   * A name of nothing but spaces satisfies the input's `required` attribute,
   * is trimmed to the empty string by the page, and is refused by the server's
   * schema with 422.
   */
  lemma BlankNameRefused(v: ShiftsPage.View, startAt: ShiftApi.Timestamp, endAt: ShiftApi.Timestamp)
    requires ShiftsPage.SubmitAllowed(v, true, true)
    requires JsString.AllWhitespace(v.form.userName)
    ensures ShiftsPage.BuildBody(v.form).userName == []
    ensures ShiftApi.CreateRefusal(Received(ShiftsPage.BuildBody(v.form), startAt, endAt)) == Some(ShiftApi.Unprocessable)
  {
  }

  /**
   * A form whose trimmed name has 1 to 100 characters and whose times parse
   * in order passes the server's checks.
   */
  lemma WellFormedFormAccepted(v: ShiftsPage.View, startAt: ShiftApi.Timestamp, endAt: ShiftApi.Timestamp)
    requires ShiftsPage.SubmitAllowed(v, true, true)
    requires ShiftApi.UserNameValid(JsString.Trim(v.form.userName)) && startAt < endAt
    ensures ShiftApi.CreateRefusal(Received(ShiftsPage.BuildBody(v.form), startAt, endAt)).None?
  {
  }
}
