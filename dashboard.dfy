/**
 * The client rules of static/js/script.js: the creation-form guard, the
 * URL blur rule, `truncateText`, the active/inactive status toggle with its
 * `aiScraperStatus` flag in local storage, and the modal coordinator built
 * around the one module-level `currentTaskId`. Network replies are inputs;
 * each request is taken to complete before the next event is handled.
 */
module Dashboard {
  import opened Wrappers
  import opened Text

  /** One alert element inserted by script.js's `showAlert`: class `alert alert-<kind>`. */
  datatype Alert = Alert(message: string, kind: string)

  /** The alerts `showAlert` has put at the top of its container, newest first. */
  class AlertArea {
    var shown: seq<Alert>

    constructor ()
      ensures shown == []
    {
      shown := [];
    }

    /** `showAlert(message, kind)`: insert before the container's first child. */
    method Show(message: string, kind: string)
      modifies this
      ensures shown == [Alert(message, kind)] + old(shown)
    {
      shown := [Alert(message, kind)] + shown;
    }
  }

  // ----- The creation form -----

  datatype SubmitDecision = Cancel(alert: Alert) | Proceed

  const FillBothFields := "Please fill in both URL and schedule"
  const AddingTaskLabel := "<i class=\"fas fa-spinner fa-spin\"></i> Adding Task..."

  /**
   * The submit handler's guard: cancel with an error alert when the trimmed
   * URL is empty or the schedule (not trimmed) is empty.
   */
  function SubmitGuard(url: string, schedule: string): (r: SubmitDecision)
    ensures r.Cancel? <==> AllSpace(url) || schedule == ""
    ensures r.Cancel? ==> r.alert == Alert(FillBothFields, "error")
  {
    if Trim(url) == "" || schedule == "" then Cancel(Alert(FillBothFields, "error")) else Proceed
  }

  /** A schedule of blanks passes the client guard, a URL of blanks does not. */
  lemma GuardTrimsOnlyTheUrl()
    ensures SubmitGuard("  ", "daily").Cancel?
    ensures SubmitGuard("example.com", " ").Proceed?
  {
    assert AllSpace("  ");
    assert !AllSpace("example.com") by { assert !IsSpace("example.com"[0]); }
  }

  /**
   * The URL field's blur handler: a non-empty trimmed URL without a scheme
   * is written back as `https://` plus the trimmed URL; in every other case
   * the field keeps its value exactly, untrimmed.
   */
  function BlurValue(value: string): (r: string)
    ensures Trim(value) != "" && !HasScheme(Trim(value)) ==> r == "https://" + Trim(value)
    ensures Trim(value) == "" || HasScheme(Trim(value)) ==> r == value
  {
    var url := Trim(value);
    if url != "" && !HasScheme(url) then "https://" + url else value
  }

  lemma PrefixedTrimmed(t: string)
    requires t != [] && !IsSpace(t[|t| - 1])
    ensures Trim("https://" + t) == "https://" + t
    ensures HasScheme("https://" + t)
  {
    var p := "https://";
    var u := p + t;
    assert u[0] == p[0] == 'h';
    assert u[|u| - 1] == t[|t| - 1];
    TrimOfTrimmed(u);
    assert u[..|p|] == p;
  }

  /** After a blur, a field that is not blank has a scheme once trimmed. */
  lemma BlurGivesScheme(value: string)
    requires Trim(value) != ""
    ensures HasScheme(Trim(BlurValue(value)))
  {
    var url := Trim(value);
    if !HasScheme(url) {
      PrefixedTrimmed(url);
    } else {
      TrimIdempotent(value);
    }
  }

  /** A URL typed without surrounding blanks has a scheme after the blur. */
  lemma BlurOfTrimmedHasScheme(value: string)
    requires value != [] && Trim(value) == value
    ensures HasScheme(BlurValue(value))
  {
    if !HasScheme(value) {
      assert !IsSpace(value[|value| - 1]);
      PrefixedTrimmed(value);
    }
  }

  /** A second blur changes nothing. */
  lemma BlurIdempotent(value: string)
    ensures BlurValue(BlurValue(value)) == BlurValue(value)
  {
    var url := Trim(value);
    if url != "" && !HasScheme(url) {
      PrefixedTrimmed(url);
    }
  }

  /**
   * `truncateText(text, maxLength)`: the text itself when it fits, else its
   * first `maxLength` characters (none when `maxLength` is negative, as with
   * `substring`) followed by `...`.
   */
  function TruncateText(text: string, maxLength: int): (r: string)
    ensures |text| <= maxLength ==> r == text
    ensures |text| > maxLength ==>
      && |r| - 3 == (if maxLength < 0 then 0 else maxLength)
      && r[|r| - 3..] == "..." && r[..|r| - 3] == text[..|r| - 3]
    ensures 0 <= maxLength ==> |r| <= maxLength + 3
  {
    if |text| <= maxLength then text
    else
      var n := if maxLength < 0 then 0 else maxLength;
      var r := text[..n] + "...";
      assert r[..n] == text[..n];
      r
  }

  /** `truncateText(text)` with the default `maxLength` of 50. */
  function TruncateDefault(text: string): (r: string)
    ensures |r| <= 53
    ensures |text| <= 50 ==> r == text
    ensures |text| > 50 ==> |r| == 53 && r[..50] == text[..50]
  {
    TruncateText(text, 50)
  }

  /** The page's creation form and its submit button. */
  class CreationForm {
    var url: string
    var schedule: string
    var submitDisabled: bool
    var submitLabel: string
    const hasSubmitButton: bool
    const alerts: AlertArea

    constructor (hasSubmitButton: bool, submitLabel: string, alerts: AlertArea)
      ensures this.hasSubmitButton == hasSubmitButton && this.alerts == alerts
      ensures url == "" && schedule == "" && !submitDisabled && this.submitLabel == submitLabel
    {
      this.hasSubmitButton := hasSubmitButton;
      this.alerts := alerts;
      url, schedule := "", "";
      submitDisabled := false;
      this.submitLabel := submitLabel;
    }

    /**
     * The submit listener: either cancel with an error alert, or let the
     * browser submit after putting the button into its loading state.
     */
    method OnSubmit() returns (submitted: bool)
      modifies this, alerts
      ensures submitted <==> SubmitGuard(old(url), old(schedule)).Proceed?
      ensures url == old(url) && schedule == old(schedule)
      ensures !submitted ==>
        alerts.shown == [Alert(FillBothFields, "error")] + old(alerts.shown)
        && submitDisabled == old(submitDisabled) && submitLabel == old(submitLabel)
      ensures submitted ==> alerts.shown == old(alerts.shown)
      ensures submitted && hasSubmitButton ==> submitDisabled && submitLabel == AddingTaskLabel
      ensures submitted && !hasSubmitButton ==> submitDisabled == old(submitDisabled) && submitLabel == old(submitLabel)
    {
      if Trim(url) == "" || schedule == "" {
        alerts.Show(FillBothFields, "error");
        return false;
      }
      if hasSubmitButton {
        submitLabel := AddingTaskLabel;
        submitDisabled := true;
      }
      return true;
    }

    /** The blur listener of the URL field. */
    method OnUrlBlur()
      modifies this
      ensures url == BlurValue(old(url))
      ensures schedule == old(schedule) && submitDisabled == old(submitDisabled) && submitLabel == old(submitLabel)
    {
      var u := Trim(url);
      if u != "" && !HasScheme(u) {
        url := "https://" + u;
      }
    }
  }

  // ----- The status toggle -----

  datatype Status = Active | Inactive

  /** The local-storage key of the persisted flag. */
  const StatusKey := "aiScraperStatus"

  function Flip(s: Status): (r: Status)
    ensures r != s
  {
    if s == Active then Inactive else Active
  }

  /** The class name on the button and the value kept in local storage. */
  function StatusName(s: Status): string {
    if s == Active then "active" else "inactive"
  }

  function StatusLabel(s: Status): string {
    if s == Active then "Active" else "Inactive"
  }

  function StatusIcon(s: Status): string {
    if s == Active then "fas fa-play-circle" else "fas fa-pause-circle"
  }

  function ToggleMessage(now: Status): string {
    if now == Inactive then "\U{23F8}\U{FE0F} AI Scraper is now INACTIVE - Tasks are on rest"
    else "\U{2705} AI Scraper is now ACTIVE - Tasks will run as per schedule"
  }

  /**
   * The load handler's reading of the stored flag: absent or empty means
   * `'active'`, and only the exact value `'inactive'` gives Inactive.
   */
  function SavedStatus(stored: Option<string>): (s: Status)
    ensures s == Inactive <==> stored == Some("inactive")
  {
    var saved := if stored.None? || stored.value == "" then "active" else stored.value;
    if saved == "inactive" then Inactive else Active
  }

  /** What the toggle writes is read back as the same status on the next load. */
  lemma SavedStatusRoundTrip(s: Status)
    ensures SavedStatus(Some(StatusName(s))) == s
  {
  }

  /** `toggleStatus` reads the state off the button: active when it has the `active` class. */
  function ShownStatus(classes: set<string>): Status {
    if "active" in classes then Active else Inactive
  }

  /** The button's classes after `toggleStatus`: the old state's class removed, the new one's added. */
  function ToggleClasses(classes: set<string>): (r: set<string>)
    ensures ShownStatus(r) == Flip(ShownStatus(classes))
    ensures StatusName(ShownStatus(r)) in r && StatusName(ShownStatus(classes)) !in r
  {
    var was := ShownStatus(classes);
    classes - {StatusName(was)} + {StatusName(Flip(was))}
  }

  /** The button carries exactly one of the two status classes. */
  predicate OneStatusClass(classes: set<string>) {
    ("active" in classes) != ("inactive" in classes)
  }

  /** Toggling twice restores a button that carries exactly one status class. */
  lemma ToggleTwiceRestores(classes: set<string>)
    requires OneStatusClass(classes)
    ensures ToggleClasses(ToggleClasses(classes)) == classes
  {
    var once := ToggleClasses(classes);
    if "active" in classes {
      assert once == classes - {"active"} + {"inactive"};
    } else {
      assert once == classes - {"inactive"} + {"active"};
    }
  }

  /**
   * A button that carries both classes (the load handler only adds one) is
   * not restored by two toggles: it loses the `inactive` class.
   */
  lemma ToggleTwiceWithBothClasses()
    ensures ToggleClasses(ToggleClasses({"active", "inactive"})) == {"active"}
  {
    assert ToggleClasses({"active", "inactive"}) == {"inactive"};
  }

  /** The status button, its label and icon, and local storage. */
  class StatusToggle {
    var classes: set<string>
    var statusText: string
    var iconClass: string
    var storage: map<string, string>
    const alerts: AlertArea

    constructor (classes: set<string>, statusText: string, iconClass: string, storage: map<string, string>, alerts: AlertArea)
      ensures this.classes == classes && this.statusText == statusText && this.iconClass == iconClass
      ensures this.storage == storage && this.alerts == alerts
    {
      this.classes := classes;
      this.statusText := statusText;
      this.iconClass := iconClass;
      this.storage := storage;
      this.alerts := alerts;
    }

    /** Button, label and icon all show status `s`. */
    predicate Shows(s: Status)
      reads this
    {
      StatusName(s) in classes && StatusName(Flip(s)) !in classes
      && statusText == StatusLabel(s) && iconClass == StatusIcon(s)
    }

    /**
     * The DOMContentLoaded handler: adds the class of the saved status
     * (without removing any) and sets the label and icon.
     */
    method LoadSavedStatus()
      modifies this
      ensures var s := SavedStatus(if StatusKey in storage then Some(storage[StatusKey]) else None);
        classes == old(classes) + {StatusName(s)} && statusText == StatusLabel(s) && iconClass == StatusIcon(s)
      ensures storage == old(storage)
    {
      var saved := if StatusKey in storage && storage[StatusKey] != "" then storage[StatusKey] else "active";
      if saved == "inactive" {
        classes := classes + {"inactive"};
        statusText := "Inactive";
        iconClass := "fas fa-pause-circle";
      } else {
        classes := classes + {"active"};
        statusText := "Active";
        iconClass := "fas fa-play-circle";
      }
    }

    /**
     * `toggleStatus`: flips the state the button shows, and afterwards
     * button, label, icon and the stored flag all agree on the new state.
     */
    method ToggleStatus()
      modifies this, alerts
      ensures var now := Flip(ShownStatus(old(classes)));
        && classes == ToggleClasses(old(classes))
        && Shows(now)
        && storage == old(storage)[StatusKey := StatusName(now)]
        && alerts.shown == [Alert(ToggleMessage(now), "success")] + old(alerts.shown)
    {
      var isActive := "active" in classes;
      if isActive {
        classes := classes - {"active"} + {"inactive"};
        statusText := "Inactive";
        iconClass := "fas fa-pause-circle";
        alerts.Show(ToggleMessage(Inactive), "success");
        storage := storage[StatusKey := "inactive"];
      } else {
        classes := classes - {"inactive"} + {"active"};
        statusText := "Active";
        iconClass := "fas fa-play-circle";
        alerts.Show(ToggleMessage(Active), "success");
        storage := storage[StatusKey := "active"];
      }
    }
  }

  // ----- The modal coordinator -----

  /** The state the edit and delete dialogs share. */
  datatype Modals = Modals(
    currentTaskId: Option<string>,
    editShown: bool,
    deleteShown: bool,
    modalUrl: string,      // text of #modalUrl
    editTaskId: string,    // value of #editTaskId
    editSchedule: string,  // value of #editSchedule
    editStatus: string,    // value of #editStatus
    deleteUrl: string,     // text of #deleteUrl
    reloadScheduled: bool) // a page reload is pending

  /** JavaScript truthiness of `currentTaskId`: not null and not the empty string. */
  predicate Truthy(id: Option<string>) {
    id.Some? && id.value != ""
  }

  /** How a request ended for the client: a parsed JSON body, or a rejected promise. */
  datatype Reply = JsonReply(success: bool, message: string) | RequestFailed

  /** What the edit dialog posts: the path and the two form fields; there is no `url` field. */
  datatype EditRequest = EditRequest(path: string, schedule: string, status: string)

  /** The element a click on the window landed on. */
  datatype ClickTarget = EditModalRoot | DeleteModalRoot | Elsewhere

  const TaskUpdated := "\U{2705} Task updated successfully!"
  const UpdateError := "\U{274C} Error updating task. Please try again."
  const TaskDeleted := "\U{2705} Task deleted successfully!"
  const DeleteError := "\U{274C} Error deleting task. Please try again."

  function ServerError(message: string): string {
    "\U{274C} " + message
  }

  class ModalCoordinator {
    var currentTaskId: Option<string>
    var editShown: bool
    var deleteShown: bool
    var modalUrl: string
    var editTaskId: string
    var editSchedule: string
    var editStatus: string
    var deleteUrl: string
    var reloadScheduled: bool
    const alerts: AlertArea

    /** Everything the coordinator holds, as one value. */
    function State(): Modals
      reads this
    {
      Modals(currentTaskId, editShown, deleteShown, modalUrl, editTaskId, editSchedule, editStatus, deleteUrl, reloadScheduled)
    }

    constructor (alerts: AlertArea)
      ensures State() == Modals(None, false, false, "", "", "", "", "", false)
      ensures this.alerts == alerts
    {
      currentTaskId := None;
      editShown, deleteShown := false, false;
      modalUrl, editTaskId, editSchedule, editStatus, deleteUrl := "", "", "", "", "";
      reloadScheduled := false;
      this.alerts := alerts;
    }

    /** `openEditModal`: the id and the dialog's fields become exactly the arguments. */
    method OpenEditModal(taskId: string, url: string, schedule: string, status: string)
      modifies this
      ensures State() == old(State()).(currentTaskId := Some(taskId), modalUrl := url, editTaskId := taskId,
                                       editSchedule := schedule, editStatus := status, editShown := true)
    {
      currentTaskId := Some(taskId);
      modalUrl := url;
      editTaskId := taskId;
      editSchedule := schedule;
      editStatus := status;
      editShown := true;
    }

    /** `closeEditModal`: hides the dialog and clears the shared id. */
    method CloseEditModal()
      modifies this
      ensures State() == old(State()).(editShown := false, currentTaskId := None)
    {
      editShown := false;
      currentTaskId := None;
    }

    /**
     * `confirmDelete`: remembers the id and shows the dialog with the URL
     * found in the clicked row (trimmed), or `this task` when none is found.
     */
    method ConfirmDelete(taskId: string, rowUrl: Option<string>)
      modifies this
      ensures State() == old(State()).(currentTaskId := Some(taskId), deleteShown := true,
                                       deleteUrl := if rowUrl.Some? then Trim(rowUrl.value) else "this task")
    {
      currentTaskId := Some(taskId);
      deleteUrl := if rowUrl.Some? then Trim(rowUrl.value) else "this task";
      deleteShown := true;
    }

    /** `closeDeleteModal`: hides the dialog and clears the same shared id. */
    method CloseDeleteModal()
      modifies this
      ensures State() == old(State()).(deleteShown := false, currentTaskId := None)
    {
      deleteShown := false;
      currentTaskId := None;
    }

    /**
     * `deleteTask`: nothing at all when the id is falsy; otherwise posts to
     * `/delete_task/<id>`. On `success` it closes the dialog (clearing the
     * id) and schedules a reload; on `success: false` or a failed request it
     * keeps every field, the id included, and shows an error alert.
     */
    method DeleteTask(reply: Reply) returns (posted: Option<string>)
      modifies this, alerts
      ensures posted == if Truthy(old(currentTaskId)) then Some("/delete_task/" + old(currentTaskId).value) else None
      ensures posted.None? ==> State() == old(State()) && alerts.shown == old(alerts.shown)
      ensures posted.Some? && reply.JsonReply? && reply.success ==>
        State() == old(State()).(deleteShown := false, currentTaskId := None, reloadScheduled := true)
        && alerts.shown == [Alert(TaskDeleted, "success")] + old(alerts.shown)
      ensures posted.Some? && reply.JsonReply? && !reply.success ==>
        State() == old(State()) && alerts.shown == [Alert(ServerError(reply.message), "error")] + old(alerts.shown)
      ensures posted.Some? && reply == RequestFailed ==>
        State() == old(State()) && alerts.shown == [Alert(DeleteError, "error")] + old(alerts.shown)
    {
      if !(currentTaskId.Some? && currentTaskId.value != "") {
        return None;
      }
      posted := Some("/delete_task/" + currentTaskId.value);
      match reply {
        case JsonReply(success, message) =>
          if success {
            alerts.Show(TaskDeleted, "success");
            CloseDeleteModal();
            reloadScheduled := true;
          } else {
            alerts.Show(ServerError(message), "error");
          }
        case RequestFailed =>
          alerts.Show(DeleteError, "error");
      }
    }

    /**
     * `saveTaskChanges`: posts the dialog's schedule and status to
     * `/edit_task/<editTaskId>`; the reply is handled as in `deleteTask`,
     * except that the id is not checked first.
     */
    method SaveTaskChanges(reply: Reply) returns (request: EditRequest)
      modifies this, alerts
      ensures request == EditRequest("/edit_task/" + old(editTaskId), old(editSchedule), old(editStatus))
      ensures reply.JsonReply? && reply.success ==>
        State() == old(State()).(editShown := false, currentTaskId := None, reloadScheduled := true)
        && alerts.shown == [Alert(TaskUpdated, "success")] + old(alerts.shown)
      ensures reply.JsonReply? && !reply.success ==>
        State() == old(State()) && alerts.shown == [Alert(ServerError(reply.message), "error")] + old(alerts.shown)
      ensures reply == RequestFailed ==>
        State() == old(State()) && alerts.shown == [Alert(UpdateError, "error")] + old(alerts.shown)
    {
      request := EditRequest("/edit_task/" + editTaskId, editSchedule, editStatus);
      match reply {
        case JsonReply(success, message) =>
          if success {
            alerts.Show(TaskUpdated, "success");
            CloseEditModal();
            reloadScheduled := true;
          } else {
            alerts.Show(ServerError(message), "error");
          }
        case RequestFailed =>
          alerts.Show(UpdateError, "error");
      }
    }

    /** `window.onclick`: a click closes a dialog only when it lands on that dialog's root element. */
    method OnWindowClick(target: ClickTarget)
      modifies this
      ensures target == EditModalRoot ==> State() == old(State()).(editShown := false, currentTaskId := None)
      ensures target == DeleteModalRoot ==> State() == old(State()).(deleteShown := false, currentTaskId := None)
      ensures target == Elsewhere ==> State() == old(State())
    {
      if target == EditModalRoot {
        CloseEditModal();
      }
      if target == DeleteModalRoot {
        CloseDeleteModal();
      }
    }
  }

  /**
   * The two dialogs share one id: opening the delete dialog over an open
   * edit dialog, then closing the delete dialog, leaves no id for the edit
   * dialog either.
   */
  method SharedIdScenario(alerts: AlertArea)
    modifies alerts
  {
    var m := new ModalCoordinator(alerts);
    m.OpenEditModal("7", "https://example.com", "daily", "active");
    m.ConfirmDelete("9", None);
    assert m.currentTaskId == Some("9") && m.editShown;
    m.CloseDeleteModal();
    assert m.currentTaskId == None && m.editShown;
    var posted := m.DeleteTask(JsonReply(true, ""));
    assert posted == None;
  }
}
