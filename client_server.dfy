/**
 * How the client's requests meet the server's routes: the replies of
 * app.py as script.js sees them, and where the two sides' URL rules differ.
 */
module ClientServer {
  import opened Wrappers
  import opened Text
  import Server
  import Dashboard

  /**
   * A server reply as the client's promise chain sees it: a JSON body is
   * parsed; a redirect ends on an HTML page, so `response.json()` rejects.
   */
  function ClientView(r: Server.Reply): (c: Dashboard.Reply)
    ensures r.Json? <==> c.JsonReply?
    ensures r.Json? ==> c == Dashboard.JsonReply(r.success, r.message)
  {
    match r
    case Json(success, message) => Dashboard.JsonReply(success, message)
    case Redirect(_) => Dashboard.RequestFailed
  }

  /**
   * `saveTaskChanges` posts only `schedule` and `status`; the server refuses
   * the missing `url` with a redirect, so the client always lands in its
   * error branch and its success branch cannot be reached.
   */
  lemma SaveTaskChangesAlwaysFails(taskId: nat, schedule: string, status: string)
    ensures Server.EditTaskPost(taskId, None, Some(schedule), Some(status)).EditRejected?
    ensures ClientView(Server.EditTaskReply(Server.EditTaskPost(taskId, None, Some(schedule), Some(status))))
            == Dashboard.RequestFailed
  {
  }

  /** The delete dialog closes and a reload is scheduled exactly when the server's delete completed. */
  lemma DeleteReplySuccess(deleted: bool)
    ensures ClientView(Server.DeleteTask(deleted)).JsonReply?
    ensures ClientView(Server.DeleteTask(deleted)).success == deleted
  {
  }

  /**
   * A URL typed without surrounding whitespace is normalised once: the
   * server keeps what the client's blur handler produced.
   */
  lemma ServerKeepsBlurredUrl(value: string, schedule: string)
    requires value != [] && Trim(value) == value
    requires schedule != ""
    ensures Server.AddTask(Some(Dashboard.BlurValue(value)), Some(schedule))
            == Server.Insert(Dashboard.BlurValue(value), schedule)
  {
    Dashboard.BlurOfTrimmedHasScheme(value);
    Server.AddTaskKeepsSchemedUrl(Dashboard.BlurValue(value), schedule);
  }

  lemma TrimPadded()
    ensures Trim(" http://a") == "http://a"
  {
    var p := "http://a";
    var v := " " + p;
    assert v == " http://a";
    assert v[1..] == p;
    assert !IsSpace(p[0]) && !IsSpace(p[|p| - 1]);
    assert TrimStart(p) == p;
    assert TrimStart(v) == p;
    assert TrimEnd(p) == p;
  }

  lemma SchemeOfPadded()
    ensures HasScheme("http://a")
    ensures !HasScheme(" http://a")
  {
    var p, q := "http://a", " http://a";
    assert p[..7] == "http://";
    assert q[..7][0] == ' ';
    assert q[..8][0] == ' ';
  }

  /** The client's blur handler leaves a padded URL with a scheme as it is. */
  lemma PaddedUrlKeptByBlur()
    ensures Dashboard.BlurValue(" http://a") == " http://a"
  {
    TrimPadded();
    SchemeOfPadded();
  }

  /** The client's guard lets a padded URL through. */
  lemma PaddedUrlPassesGuard()
    ensures Dashboard.SubmitGuard(" http://a", "daily").Proceed?
  {
    TrimPadded();
  }

  /** The server, which does not trim, finds no scheme at the head of a padded URL. */
  lemma PaddedUrlPrefixedByServer()
    ensures Server.AddTask(Some(" http://a"), Some("daily")) == Server.Insert("https:// http://a", "daily")
  {
    SchemeOfPadded();
    Server.AddTaskAddsScheme(" http://a", "daily");
    assert "https://" + " http://a" == "https:// http://a";
  }

  /**
   * A URL with a scheme and a leading blank passes the client (the blur
   * handler leaves it untouched, the guard trims it) but the server, which
   * does not trim, puts a second scheme in front of it.
   */
  lemma PaddedUrlGetsSecondScheme()
    ensures Dashboard.BlurValue(" http://a") == " http://a"
    ensures Dashboard.SubmitGuard(" http://a", "daily").Proceed?
    ensures Server.AddTask(Some(" http://a"), Some("daily")) == Server.Insert("https:// http://a", "daily")
  {
    PaddedUrlKeptByBlur();
    PaddedUrlPassesGuard();
    PaddedUrlPrefixedByServer();
  }
}
