/** The claim upload form: seven pieces of state that the drag, drop,
    file-picker, submit and progress handlers update one step at a time. */
module UploadClaim {
  import opened Wrappers
  import opened ClaimTypes
  import opened Seqs

  /** A picked or dropped file, reduced to what the form inspects. */
  datatype FileInfo = FileInfo(name: string, mimeType: string)

  const PdfType: string := "application/pdf"

  datatype DragEventKind = DragEnter | DragOver | DragLeave | OtherDragEvent

  /** One tick of the progress interval: a full bar stays full, anything else grows by 10. */
  function ProgressStep(prev: int): (next: int)
    ensures prev >= 100 ==> next == 100
    ensures prev < 100 ==> next == prev + 10
  {
    if prev >= 100 then 100 else prev + 10
  }

  /** The progress after `ticks` interval callbacks starting from `start`. */
  function ProgressAfter(start: int, ticks: nat): int {
    if ticks == 0 then start else ProgressStep(ProgressAfter(start, ticks - 1))
  }

  /** From a multiple of ten up to 100 the bar climbs by tens and stops at 100. */
  lemma {:induction false} ProgressClosedForm(start: int, ticks: nat)
    requires 0 <= start <= 100 && start % 10 == 0
    ensures ProgressAfter(start, ticks) == Min(start + 10 * ticks, 100)
  {
    if ticks > 0 {
      ProgressClosedForm(start, ticks - 1);
    }
  }

  /** Starting from 0 the bar never decreases, never passes 100, and stays at
      100 once there. */
  lemma ProgressFromZero(ticks: nat)
    ensures 0 <= ProgressAfter(0, ticks) <= ProgressAfter(0, ticks + 1) <= 100
    ensures ProgressAfter(0, ticks) % 10 == 0
    ensures ProgressAfter(0, ticks) == 100 ==> ProgressAfter(0, ticks + 1) == 100
  {
    ProgressClosedForm(0, ticks);
    ProgressClosedForm(0, ticks + 1);
  }

  /** Once the bar is at 100, further ticks keep it there. */
  lemma {:induction false} ProgressStaysFull(start: int, done: nat, ticks: nat)
    requires done <= ticks && ProgressAfter(start, done) == 100
    ensures ProgressAfter(start, ticks) == 100
  {
    if ticks > done {
      ProgressStaysFull(start, done, ticks - 1);
    }
  }

  class UploadForm {
    var file: Option<FileInfo>
    var policyNumber: string
    var incidentDate: string
    /** The empty selection `''` is `None`. */
    var claimType: Option<ClaimType>
    var uploading: bool
    var uploadProgress: int
    var dragActive: bool

    constructor()
      ensures file == None && policyNumber == "" && incidentDate == "" && claimType == None
      ensures !uploading && uploadProgress == 0 && !dragActive
    {
      file := None;
      policyNumber := "";
      incidentDate := "";
      claimType := None;
      uploading := false;
      uploadProgress := 0;
      dragActive := false;
    }

    /** The submit button is disabled while an upload runs. */
    predicate SubmitDisabled()
      reads this
    {
      uploading
    }

    /** The presence checks of submit: a file, and non-empty policy number,
        incident date and claim type. Only the empty string is missing, so a
        policy number of blanks passes. */
    predicate HasRequiredFields()
      reads this
      ensures HasRequiredFields() <==> file.Some? && claimType.Some? && |policyNumber| > 0 && |incidentDate| > 0
    {
      file.Some? && policyNumber != "" && incidentDate != "" && claimType.Some?
    }

    method SetPolicyNumber(value: string)
      modifies this
      ensures policyNumber == value
      ensures file == old(file) && incidentDate == old(incidentDate) && claimType == old(claimType)
      ensures uploading == old(uploading) && uploadProgress == old(uploadProgress) && dragActive == old(dragActive)
    {
      policyNumber := value;
    }

    method SetIncidentDate(value: string)
      modifies this
      ensures incidentDate == value
      ensures file == old(file) && policyNumber == old(policyNumber) && claimType == old(claimType)
      ensures uploading == old(uploading) && uploadProgress == old(uploadProgress) && dragActive == old(dragActive)
    {
      incidentDate := value;
    }

    method SetClaimType(value: ClaimType)
      modifies this
      ensures claimType == Some(value)
      ensures file == old(file) && policyNumber == old(policyNumber) && incidentDate == old(incidentDate)
      ensures uploading == old(uploading) && uploadProgress == old(uploadProgress) && dragActive == old(dragActive)
    {
      claimType := Some(value);
    }

    /** Enter and over light the drop zone, leave darkens it, any other event leaves it alone. */
    method HandleDrag(event: DragEventKind)
      modifies this
      ensures event in {DragEnter, DragOver} ==> dragActive
      ensures event == DragLeave ==> !dragActive
      ensures event == OtherDragEvent ==> dragActive == old(dragActive)
      ensures file == old(file) && policyNumber == old(policyNumber) && incidentDate == old(incidentDate)
      ensures claimType == old(claimType) && uploading == old(uploading) && uploadProgress == old(uploadProgress)
    {
      if event == DragEnter || event == DragOver {
        dragActive := true;
      } else if event == DragLeave {
        dragActive := false;
      }
    }

    /** A drop darkens the zone and takes the first dropped file if it is a
        PDF; a first file of any other type is refused with a notice and the
        current file stays. */
    method HandleDrop(dropped: seq<FileInfo>) returns (invalidType: bool)
      modifies this
      ensures !dragActive
      ensures invalidType <==> dropped != [] && dropped[0].mimeType != PdfType
      ensures file == (if dropped != [] && dropped[0].mimeType == PdfType then Some(dropped[0]) else old(file))
      ensures policyNumber == old(policyNumber) && incidentDate == old(incidentDate)
      ensures claimType == old(claimType) && uploading == old(uploading) && uploadProgress == old(uploadProgress)
    {
      dragActive := false;
      invalidType := false;
      if dropped != [] {
        if dropped[0].mimeType == PdfType {
          file := Some(dropped[0]);
        } else {
          invalidType := true;
        }
      }
    }

    /** The file picker takes the first picked file without any type check. */
    method HandleFileChange(picked: seq<FileInfo>)
      modifies this
      ensures file == (if picked != [] then Some(picked[0]) else old(file))
      ensures policyNumber == old(policyNumber) && incidentDate == old(incidentDate) && claimType == old(claimType)
      ensures uploading == old(uploading) && uploadProgress == old(uploadProgress) && dragActive == old(dragActive)
    {
      if picked != [] {
        file := Some(picked[0]);
      }
    }

    method RemoveFile()
      modifies this
      ensures file == None
      ensures policyNumber == old(policyNumber) && incidentDate == old(incidentDate) && claimType == old(claimType)
      ensures uploading == old(uploading) && uploadProgress == old(uploadProgress) && dragActive == old(dragActive)
    {
      file := None;
    }

    /** Submit: with a required field missing, a notice and no change; otherwise
        the upload starts, which disables the submit button. The progress is
        not reset here. */
    method HandleSubmit() returns (accepted: bool)
      modifies this
      ensures accepted <==> old(HasRequiredFields())
      ensures !accepted ==> uploading == old(uploading)
      ensures accepted ==> uploading && SubmitDisabled()
      ensures file == old(file) && policyNumber == old(policyNumber) && incidentDate == old(incidentDate)
      ensures claimType == old(claimType) && uploadProgress == old(uploadProgress) && dragActive == old(dragActive)
    {
      if !HasRequiredFields() {
        accepted := false;
        return;
      }
      accepted := true;
      uploading := true;
    }

    /** One interval callback; `cleared` tells whether it stopped the interval. */
    method Tick() returns (cleared: bool)
      modifies this
      ensures uploadProgress == ProgressStep(old(uploadProgress))
      ensures cleared <==> old(uploadProgress) >= 100
      ensures file == old(file) && policyNumber == old(policyNumber) && incidentDate == old(incidentDate)
      ensures claimType == old(claimType) && uploading == old(uploading) && dragActive == old(dragActive)
    {
      cleared := uploadProgress >= 100;
      uploadProgress := ProgressStep(uploadProgress);
    }

    /** Runs the interval for at most `ticks` callbacks, stopping once a
        callback clears it. */
    method RunInterval(ticks: nat) returns (cleared: bool)
      modifies this
      ensures uploadProgress == ProgressAfter(old(uploadProgress), ticks)
      ensures cleared ==> uploadProgress == 100
      ensures file == old(file) && policyNumber == old(policyNumber) && incidentDate == old(incidentDate)
      ensures claimType == old(claimType) && uploading == old(uploading) && dragActive == old(dragActive)
    {
      ghost var start := uploadProgress;
      var i := 0;
      cleared := false;
      while i < ticks && !cleared
        invariant 0 <= i <= ticks
        invariant uploadProgress == ProgressAfter(start, i)
        invariant cleared ==> uploadProgress == 100
        invariant file == old(file) && policyNumber == old(policyNumber) && incidentDate == old(incidentDate)
        invariant claimType == old(claimType) && uploading == old(uploading) && dragActive == old(dragActive)
      {
        cleared := Tick();
        i := i + 1;
      }
      if cleared {
        ProgressStaysFull(start, i, ticks);
      }
    }

    /** The completion timeout: the bar is forced to 100 and the claim page follows. */
    method CompleteUpload() returns (target: string)
      modifies this
      ensures uploadProgress == 100
      ensures target == "/claim/0001"
      ensures file == old(file) && policyNumber == old(policyNumber) && incidentDate == old(incidentDate)
      ensures claimType == old(claimType) && uploading == old(uploading) && dragActive == old(dragActive)
    {
      uploadProgress := 100;
      target := "/claim/0001";
    }
  }

  /** A submission that starts from the blank form is refused, and the upload does not start. */
  method SubmitBlankForm() returns (accepted: bool, uploading: bool)
    ensures !accepted && !uploading
  {
    var form := new UploadForm();
    accepted := form.HandleSubmit();
    uploading := form.uploading;
  }

  /** Only the empty string counts as missing: a policy number of blanks passes the check. */
  method SubmitWithBlankPolicyNumber(document: FileInfo, date: string, kind: ClaimType) returns (accepted: bool)
    requires date != ""
    ensures accepted
  {
    var form := new UploadForm();
    form.HandleFileChange([document]);
    form.SetPolicyNumber("   ");
    form.SetIncidentDate(date);
    form.SetClaimType(kind);
    accepted := form.HandleSubmit();
  }
}
