/** The project detail page and its status-update modal: the progress colour,
    the multipart payload of a status update, the merge of the returned update
    into the loaded project, and the page state the handlers move through. */
module ProjectDetail {
  import opened Common
  import Session

  /** `getProgressColor`: green from 80, yellow from 50, red below. */
  function ProgressColor(progress: int): (shade: Shade)
    ensures shade == Green <==> progress >= 80
    ensures shade == Yellow <==> 50 <= progress < 80
    ensures shade == Red <==> progress < 50
  {
    if progress >= 80 then Green
    else if progress >= 50 then Yellow
    else Red
  }

  /** More progress never gives a colour lower in red, yellow, green. */
  lemma {:induction false} ProgressColorIsMonotone(p: int, q: int)
    requires p <= q
    ensures ShadeRank(ProgressColor(p)) <= ShadeRank(ProgressColor(q))
  {
  }

  /** The statuses the modal's select offers. */
  const StatusOptions: seq<string> := ["pending", "active", "completed", "on_hold", "in_progress"]

  const PdfType := "application/pdf"
  const ImageType := "image/*"

  const SelectStatusMessage := "Please select a status"
  const FailedUpdateMessage := "Failed to update status. Please try again."

  datatype Document = Document(id: int, file: string, uploadedAt: string)

  datatype StatusUpdate = StatusUpdate(
    id: int,
    status: string,
    actionMessage: string,
    fileType: string,
    createdAt: string,
    documents: seq<Document>)

  datatype Project = Project(
    id: int,
    name: string,
    description: string,
    category: string,
    progress: int,
    status: string,
    startDate: string,
    endDate: string,
    createdAt: string,
    updatedAt: string,
    statusUpdates: seq<StatusUpdate>)

  /** A file the user picked. */
  datatype File = File(name: string, size: nat, mimeType: string)

  datatype FieldValue = TextValue(text: string) | FileValue(file: File)

  /** One `formData.append(key, value)`. */
  datatype FormField = FormField(key: string, value: FieldValue)

  const SupportingFilesKey := "supporting_files"

  function FilesOf(files: Option<seq<File>>): seq<File> {
    if files.Some? then files.value else []
  }

  /** The fields of a status update, in append order: project, status, file
      type, action message, then one `supporting_files` entry per picked file
      in the order picked. */
  function StatusPayload(projectId: string, status: string, fileType: string, actionMessage: string,
                         files: Option<seq<File>>): (fields: seq<FormField>)
    ensures |fields| == 4 + |FilesOf(files)|
    ensures fields[0] == FormField("project", TextValue(projectId))
    ensures fields[1] == FormField("status", TextValue(status))
    ensures fields[2] == FormField("file_type", TextValue(fileType))
    ensures fields[3] == FormField("action_message", TextValue(actionMessage))
    ensures forall i :: 0 <= i < |FilesOf(files)| ==>
      fields[4 + i] == FormField(SupportingFilesKey, FileValue(FilesOf(files)[i]))
  {
    var fs := FilesOf(files);
    [FormField("project", TextValue(projectId)),
     FormField("status", TextValue(status)),
     FormField("file_type", TextValue(fileType)),
     FormField("action_message", TextValue(actionMessage))]
    + seq(|fs|, i requires 0 <= i < |fs| => FormField(SupportingFilesKey, FileValue(fs[i])))
  }

  /** The payload's files, read back from the `supporting_files` entries, are
      the picked files in order, and no other entry carries a file. */
  lemma {:induction false} PayloadCarriesPickedFiles(projectId: string, status: string, fileType: string,
                                                    actionMessage: string, files: Option<seq<File>>)
    ensures var fields := StatusPayload(projectId, status, fileType, actionMessage, files);
            && (forall i :: 0 <= i < |fields| ==> (fields[i].key == SupportingFilesKey <==> i >= 4))
            && (forall i :: 0 <= i < |fields| ==> (fields[i].value.FileValue? <==> i >= 4))
            && seq(|fields| - 4, i requires 0 <= i < |fields| - 4 => fields[4 + i].value.file) == FilesOf(files)
  {
    var fields := StatusPayload(projectId, status, fileType, actionMessage, files);
    assert "project" != SupportingFilesKey && "status" != SupportingFilesKey;
    assert "file_type" != SupportingFilesKey && "action_message" != SupportingFilesKey;
  }

  /** Building the `FormData` of `handleSubmit` field by field. */
  method BuildStatusPayload(projectId: string, status: string, fileType: string, actionMessage: string,
                            files: Option<seq<File>>) returns (fields: seq<FormField>)
    ensures fields == StatusPayload(projectId, status, fileType, actionMessage, files)
  {
    fields := [];
    fields := fields + [FormField("project", TextValue(projectId))];
    fields := fields + [FormField("status", TextValue(status))];
    fields := fields + [FormField("file_type", TextValue(fileType))];
    fields := fields + [FormField("action_message", TextValue(actionMessage))];
    if files.Some? {
      var picked := files.value;
      var i := 0;
      while i < |picked|
        invariant 0 <= i <= |picked|
        invariant |fields| == 4 + i
        invariant fields[..4] == StatusPayload(projectId, status, fileType, actionMessage, files)[..4]
        invariant forall j :: 0 <= j < i ==> fields[4 + j] == FormField(SupportingFilesKey, FileValue(picked[j]))
      {
        fields := fields + [FormField(SupportingFilesKey, FileValue(picked[i]))];
        i := i + 1;
      }
    }
    var expected := StatusPayload(projectId, status, fileType, actionMessage, files);
    assert forall j :: 0 <= j < 4 ==> fields[j] == fields[..4][j];
    assert forall j :: 0 <= j < 4 ==> expected[j] == expected[..4][j];
  }

  /** The state update after a successful post: a loaded project takes the
      returned status and gains the update at the end of its history; no
      project stays no project. */
  function MergeUpdate(project: Option<Project>, update: StatusUpdate): (r: Option<Project>)
    ensures r.Some? <==> project.Some?
    ensures project.Some? ==> r.value.status == update.status
    ensures project.Some? ==> r.value.statusUpdates == project.value.statusUpdates + [update]
    ensures project.Some? ==>
      r.value.(status := project.value.status, statusUpdates := project.value.statusUpdates) == project.value
  {
    match project
    case None => None
    case Some(p) => Some(p.(status := update.status, statusUpdates := p.statusUpdates + [update]))
  }

  /** The effect of a run of successful updates, in order. */
  function MergeAll(project: Option<Project>, updates: seq<StatusUpdate>): Option<Project>
    decreases |updates|
  {
    if updates == [] then project
    else MergeAll(MergeUpdate(project, updates[0]), updates[1..])
  }

  /** After several successful updates the history is the old history followed
      by the updates in order, the status is the last update's, and nothing
      else has moved. */
  lemma {:induction false} MergeAllAppendsHistory(project: Option<Project>, updates: seq<StatusUpdate>)
    requires project.Some? && updates != []
    ensures MergeAll(project, updates).Some?
    ensures MergeAll(project, updates).value.statusUpdates == project.value.statusUpdates + updates
    ensures MergeAll(project, updates).value.status == updates[|updates| - 1].status
    ensures MergeAll(project, updates).value.(status := project.value.status,
                                              statusUpdates := project.value.statusUpdates) == project.value
    decreases |updates|
  {
    var next := MergeUpdate(project, updates[0]);
    if |updates| > 1 {
      MergeAllAppendsHistory(next, updates[1..]);
      assert next.value.statusUpdates + updates[1..] == project.value.statusUpdates + updates;
    }
  }

  /** `s.indexOf(c)`: the position of the first occurrence, if any. */
  function IndexOf(s: string, c: char): (k: Option<nat>)
    ensures k.None? <==> c !in s
    ensures k.Some? ==> k.value < |s| && s[k.value] == c && c !in s[..k.value]
  {
    if s == [] then None
    else if s[0] == c then Some(0)
    else
      match IndexOf(s[1..], c)
      case None => None
      case Some(k) =>
        assert s[..k + 1] == [s[0]] + s[1..][..k];
        Some(k + 1)
  }

  /** `status.replace('_', ' ')` with a string pattern: only the first
      underscore becomes a space. */
  function ReplaceFirstUnderscore(s: string): (r: string)
    ensures |r| == |s|
    ensures '_' !in s ==> r == s
    ensures '_' in s ==> var k := IndexOf(s, '_').value;
      r[k] == ' ' && forall i :: 0 <= i < |s| && i != k ==> r[i] == s[i]
  {
    match IndexOf(s, '_')
    case None => s
    case Some(k) => s[..k] + " " + s[k + 1..]
  }

  /** The status as the page shows it. */
  function DisplayStatus(status: string): string {
    ReplaceFirstUnderscore(status)
  }

  /** The first occurrence is determined by the string: any occurrence with
      none before it is the one `indexOf` finds. */
  lemma {:induction false} IndexOfIsFirst(s: string, c: char, k: nat)
    requires k < |s| && s[k] == c && c !in s[..k]
    ensures IndexOf(s, c) == Some(k)
  {
  }

  lemma {:induction false} ReplaceAtFirst(s: string, k: nat)
    requires k < |s| && s[k] == '_' && '_' !in s[..k]
    ensures ReplaceFirstUnderscore(s) == s[..k] + " " + s[k + 1..]
  {
    IndexOfIsFirst(s, '_', k);
  }

  /** A status made of a word without underscore, an underscore and a rest
      shows the underscore as a space and keeps the rest. */
  lemma {:induction false} JoinedStatusDisplay(word: string, rest: string)
    requires '_' !in word
    ensures DisplayStatus(word + "_" + rest) == word + " " + rest
  {
    var s := word + "_" + rest;
    assert s[|word|] == '_';
    assert s[..|word|] == word && s[|word| + 1..] == rest;
    ReplaceAtFirst(s, |word|);
  }

  /** "on_hold" shows as "on hold". */
  lemma {:induction false} OnHoldDisplay()
    ensures DisplayStatus("on_hold") == "on hold"
  {
    var word, rest := "on", "hold";
    assert word + "_" + rest == "on_hold" by {
      assert |word + "_" + rest| == 7;
    }
    assert word + " " + rest == "on hold" by {
      assert |word + " " + rest| == 7;
    }
    JoinedStatusDisplay(word, rest);
  }

  /** "in_progress" shows as "in progress". */
  lemma {:induction false} InProgressDisplay()
    ensures DisplayStatus("in_progress") == "in progress"
  {
    var word, rest := "in", "progress";
    assert word + "_" + rest == "in_progress" by {
      assert |word + "_" + rest| == 11;
    }
    assert word + " " + rest == "in progress" by {
      assert |word + " " + rest| == 11;
    }
    JoinedStatusDisplay(word, rest);
  }

  /** Only the first underscore is replaced: "a_b_c" shows as "a b_c". */
  lemma {:induction false} SecondUnderscoreStays()
    ensures DisplayStatus("a_b_c") == "a b_c"
  {
    var word, rest := "a", "b_c";
    assert word + "_" + rest == "a_b_c" by {
      assert |word + "_" + rest| == 5;
    }
    assert word + " " + rest == "a b_c" by {
      assert |word + " " + rest| == 5;
    }
    JoinedStatusDisplay(word, rest);
  }

  class ProjectDetailPage {
    const projectId: string
    var project: Option<Project>
    var fileType: string
    var modalOpen: bool
    var newStatus: string
    var actionMessage: string
    var supportingFiles: Option<seq<File>>
    var loading: bool
    var error: Option<string>

    constructor (projectId: string)
      ensures this.projectId == projectId
      ensures project == None && fileType == PdfType && !modalOpen && newStatus == ""
      ensures actionMessage == "" && supportingFiles == None && !loading && error == None
    {
      this.projectId := projectId;
      project := None;
      fileType := PdfType;
      modalOpen := false;
      newStatus := "";
      actionMessage := "";
      supportingFiles := None;
      loading := false;
      error := None;
    }

    /** The mount effect: with a project id, fetch the project and preselect its
        status; a failure or no id leaves the project and status as they were,
        and with an id but no access token the user is sent to `/login`. */
    method FetchProject<E>(browser: Session.Browser, outcome: Outcome<Project, E>)
      modifies this`project, this`newStatus, browser`redirectedToLogin
      ensures projectId != "" && outcome.Ok? ==> project == Some(outcome.body) && newStatus == outcome.body.status
      ensures projectId == "" || outcome.Err? ==> project == old(project) && newStatus == old(newStatus)
      ensures browser.redirectedToLogin ==
        (old(browser.redirectedToLogin) || (projectId != "" && Session.AuthHeaders(browser.storage).None?))
    {
      if projectId == "" {
        return;
      }
      var headers := browser.GetAuthHeaders();
      if outcome.Ok? {
        project := Some(outcome.body);
        newStatus := outcome.body.status;
      }
    }

    /** The "Update Status" button, rendered once a project is loaded. */
    method OpenModal()
      requires project.Some?
      modifies this`newStatus, this`modalOpen, this`error
      ensures newStatus == project.value.status && modalOpen && error == None
    {
      newStatus := project.value.status;
      modalOpen := true;
      error := None;
    }

    method SelectStatus(status: string)
      modifies this`newStatus
      ensures newStatus == status
    {
      newStatus := status;
    }

    method EditActionMessage(message: string)
      modifies this`actionMessage
      ensures actionMessage == message
    {
      actionMessage := message;
    }

    /** The two radio buttons: PDF or image. */
    method ChooseFileType(pdf: bool)
      modifies this`fileType
      ensures fileType == (if pdf then PdfType else ImageType)
    {
      fileType := if pdf then PdfType else ImageType;
    }

    method PickFiles(files: Option<seq<File>>)
      modifies this`supportingFiles
      ensures supportingFiles == files
    {
      supportingFiles := files;
    }

    /** How the posted update settles: success merges the returned update into
        the project and resets the modal with the returned status; failure
        keeps everything and reports the failure. */
    method SettleStatusUpdate<E>(outcome: Outcome<StatusUpdate, E>)
      modifies this`project, this`modalOpen, this`newStatus, this`actionMessage, this`supportingFiles, this`error
      ensures outcome.Ok? ==>
        && project == MergeUpdate(old(project), outcome.body)
        && !modalOpen && newStatus == outcome.body.status
        && actionMessage == "" && supportingFiles == None && error == old(error)
      ensures outcome.Err? ==>
        && project == old(project) && modalOpen == old(modalOpen) && newStatus == old(newStatus)
        && actionMessage == old(actionMessage) && supportingFiles == old(supportingFiles)
        && error == Some(FailedUpdateMessage)
    {
      match outcome {
        case Ok(update) =>
          project := MergeUpdate(project, update);
          modalOpen := false;
          newStatus := update.status;
          actionMessage := "";
          supportingFiles := None;
        case Err(_) =>
          error := Some(FailedUpdateMessage);
      }
    }

    /** The `try` block of `handleSubmit`, once a status is chosen: the payload
        is built and posted with the auth headers, the outcome settles as
        `SettleStatusUpdate` states, and loading ends false. */
    method SendStatusUpdate<E>(browser: Session.Browser, outcome: Outcome<StatusUpdate, E>)
      returns (fields: seq<FormField>)
      requires newStatus != ""
      modifies this`project, this`modalOpen, this`newStatus, this`actionMessage, this`supportingFiles
      modifies this`loading, this`error, browser`redirectedToLogin
      ensures fields == StatusPayload(projectId, old(newStatus), fileType, old(actionMessage), old(supportingFiles))
      ensures !loading
      ensures browser.redirectedToLogin == (old(browser.redirectedToLogin) || Session.AuthHeaders(browser.storage).None?)
      ensures outcome.Ok? ==>
        && project == MergeUpdate(old(project), outcome.body)
        && !modalOpen && newStatus == outcome.body.status
        && actionMessage == "" && supportingFiles == None && error == old(error)
      ensures outcome.Err? ==>
        && project == old(project) && modalOpen == old(modalOpen) && newStatus == old(newStatus)
        && actionMessage == old(actionMessage) && supportingFiles == old(supportingFiles)
        && error == Some(FailedUpdateMessage)
    {
      fields := BuildStatusPayload(projectId, newStatus, fileType, actionMessage, supportingFiles);
      loading := true;
      var headers := browser.GetAuthHeaders();
      SettleStatusUpdate(outcome);
      loading := false;
    }

    /** `handleSubmit`: clear the error; without a status the error asks for
        one, nothing is sent and loading is untouched; otherwise the update is
        sent as `SendStatusUpdate` states, and a success leaves no error. */
    method HandleSubmit<E>(browser: Session.Browser, outcome: Outcome<StatusUpdate, E>)
      returns (sent: Option<seq<FormField>>)
      modifies this`project, this`modalOpen, this`newStatus, this`actionMessage, this`supportingFiles
      modifies this`loading, this`error, browser`redirectedToLogin
      ensures old(newStatus) == "" ==>
        && sent == None && error == Some(SelectStatusMessage)
        && loading == old(loading) && project == old(project) && modalOpen == old(modalOpen)
        && actionMessage == old(actionMessage) && supportingFiles == old(supportingFiles)
        && newStatus == old(newStatus) && browser.redirectedToLogin == old(browser.redirectedToLogin)
      ensures old(newStatus) != "" ==>
        && sent == Some(StatusPayload(projectId, old(newStatus), fileType, old(actionMessage), old(supportingFiles)))
        && !loading
        && browser.redirectedToLogin == (old(browser.redirectedToLogin) || Session.AuthHeaders(browser.storage).None?)
      ensures old(newStatus) != "" && outcome.Ok? ==>
        && project == MergeUpdate(old(project), outcome.body)
        && !modalOpen && newStatus == outcome.body.status
        && actionMessage == "" && supportingFiles == None && error == None
      ensures old(newStatus) != "" && outcome.Err? ==>
        && project == old(project) && modalOpen == old(modalOpen) && newStatus == old(newStatus)
        && actionMessage == old(actionMessage) && supportingFiles == old(supportingFiles)
        && error == Some(FailedUpdateMessage)
    {
      error := None;
      if newStatus == "" {
        error := Some(SelectStatusMessage);
        return None;
      }
      var fields := SendStatusUpdate(browser, outcome);
      sent := Some(fields);
    }

    /** The modal's close and Cancel buttons: they only close it, so the error,
        the message and the picked files stay for the next opening. */
    method DismissModal()
      modifies this`modalOpen
      ensures !modalOpen
    {
      modalOpen := false;
    }

    /** `closeModal`, which no element of the page calls: close, clear the
        error, the message and the picked files. */
    method CloseModal()
      modifies this`modalOpen, this`error, this`actionMessage, this`supportingFiles
      ensures !modalOpen && error == None && actionMessage == "" && supportingFiles == None
    {
      modalOpen := false;
      error := None;
      actionMessage := "";
      supportingFiles := None;
    }
  }
}
