/**
 * The decisions the Flask routes in app.py take before they touch the
 * database: which form submissions are refused, how the URL is normalised,
 * and what each route answers.
 */
module Server {
  import opened Wrappers
  import opened Text

  /** Python's `not field` on `request.form.get(...)`: absent or empty. */
  predicate Blank(field: Option<string>) {
    field.None? || field.value == ""
  }

  /**
   * The "Basic URL validation" step of `add_task` and `edit_task`: a URL
   * without an http or https scheme gets `https://` in front of it.
   */
  function EnsureScheme(url: string): (r: string)
    ensures HasScheme(r)
    ensures r == url <==> HasScheme(url)
    ensures r != url ==> r == "https://" + url
  {
    if HasScheme(url) then url else "https://" + url
  }

  /** Normalising a normalised URL changes nothing. */
  lemma EnsureSchemeIdempotent(url: string)
    ensures EnsureScheme(EnsureScheme(url)) == EnsureScheme(url)
  {
  }

  /** What a route answers: a redirect to an HTML page, or a JSON body. */
  datatype Reply = Redirect(location: string) | Json(success: bool, message: string)

  /** The write `add_task` decides on, or the error it flashes instead. */
  datatype AddDecision = AddRejected(flash: string) | Insert(url: string, schedule: string)

  /**
   * `add_task`: refuses a blank url or schedule; otherwise inserts the
   * normalised url with the schedule as sent.
   */
  function AddTask(url: Option<string>, schedule: Option<string>): (r: AddDecision)
    ensures r.AddRejected? <==> Blank(url) || Blank(schedule)
    ensures r.AddRejected? ==> r.flash == "Please fill in all fields"
    ensures r.Insert? ==> HasScheme(r.url) && r.url == EnsureScheme(url.value) && r.schedule == schedule.value
  {
    if Blank(url) || Blank(schedule) then AddRejected("Please fill in all fields")
    else Insert(EnsureScheme(url.value), schedule.value)
  }

  /** A URL that already has a scheme is inserted exactly as sent. */
  lemma AddTaskKeepsSchemedUrl(url: string, schedule: string)
    requires HasScheme(url) && schedule != ""
    ensures AddTask(Some(url), Some(schedule)) == Insert(url, schedule)
  {
    assert url != [] by { assert |url| >= 7; }
  }

  /** A URL without a scheme is inserted with `https://` in front of it. */
  lemma AddTaskAddsScheme(url: string, schedule: string)
    requires url != [] && !HasScheme(url) && schedule != ""
    ensures AddTask(Some(url), Some(schedule)) == Insert("https://" + url, schedule)
  {
  }

  /** The write the `edit_task` POST decides on, or the error it flashes instead. */
  datatype EditDecision =
    | EditRejected(flash: string, taskId: nat)
    | Update(taskId: nat, url: string, schedule: string, status: Option<string>)

  /**
   * The POST branch of `edit_task`: the same blank check and normalisation
   * as `add_task`; `status` is written as sent, even when it is absent.
   */
  function EditTaskPost(taskId: nat, url: Option<string>, schedule: Option<string>, status: Option<string>): (r: EditDecision)
    ensures r.taskId == taskId
    ensures r.EditRejected? <==> Blank(url) || Blank(schedule)
    ensures r.EditRejected? ==> r.flash == "Please fill in all fields"
    ensures r.Update? ==> r.url == EnsureScheme(url.value) && r.schedule == schedule.value && r.status == status
  {
    if Blank(url) || Blank(schedule) then EditRejected("Please fill in all fields", taskId)
    else Update(taskId, EnsureScheme(url.value), schedule.value, status)
  }

  /** `edit_task` answers every POST with a redirect: back to the form, or to the task list. */
  function EditTaskReply(d: EditDecision): (r: Reply)
    ensures r.Redirect?
    ensures d.EditRejected? ==> r.location == "/edit_task/" + DecimalString(d.taskId)
    ensures d.Update? ==> r.location == "/tasks"
  {
    match d
    case EditRejected(_, id) => Redirect("/edit_task/" + DecimalString(id))
    case Update(_, _, _, _) => Redirect("/tasks")
  }

  /**
   * `delete_task`: a JSON body whose `success` is whether the DELETE and
   * commit completed without an exception (`deleted`).
   */
  function DeleteTask(deleted: bool): (r: Reply)
    ensures r.Json? && r.success == deleted
    ensures r.message == if deleted then "Task deleted successfully" else "Error deleting task"
  {
    if deleted then Json(true, "Task deleted successfully") else Json(false, "Error deleting task")
  }
}
