/**
 * The five-step aid-request form: a step counter, nested form sections whose
 * fields are assigned one at a time, the immediate-needs toggle, file intake
 * into an ID-proof slot and two append-only lists, and the submit check.
 */
module RequestHumanity {
  import opened Wrappers
  import opened ListOps
  import opened Text

  const TotalSteps: int := 5

  /** A form field's value: text, the list of selected needs (or an empty file list), or `null`. */
  datatype FieldValue = TextValue(text: string) | ListValue(items: seq<string>) | NullValue

  /** `formData`: section name to field name to value. */
  type Form = map<string, map<string, FieldValue>>

  /** A `File` reduced to what the form looks at. */
  datatype FileRef = FileRef(name: string, mime: string)

  /** The three attachment slots of `uploadedFiles`. */
  datatype FileSlot = IdProofSlot | DamagePhotosSlot | OfficialReportsSlot

  /** What an upload did: nothing (no file list), stored these files, or rejected them all. */
  datatype UploadResult = Ignored | Stored(files: seq<FileRef>) | Rejected

  /** The outcome of the final submit. */
  datatype SubmitResult = MissingIdProof | MissingPhotos | Submitted

  /** The button to the right of Previous. */
  datatype PrimaryButton = NextButton | SubmitButton

  const AssistanceSection: string := "assistance"
  const NeedsField: string := "immediateNeeds"

  const ImmediateNeedsOptions: seq<string> := [
    "Emergency Shelter", "Food & Water", "Medical Care", "Clothing",
    "Transportation", "Communication", "Temporary Housing", "Utilities Restoration",
    "Pet Care", "Psychological Support", "Legal Aid", "Financial Assistance"]

  /** The form as the page first renders it: every text empty, no needs, no documents. */
  function InitialForm(): Form
  {
    map[
      "personalInfo" := map["fullName" := TextValue(""), "email" := TextValue(""), "phone" := TextValue(""),
                            "nationalId" := TextValue(""), "dateOfBirth" := TextValue("")],
      "location" := map["country" := TextValue(""), "state" := TextValue(""), "city" := TextValue(""),
                        "address" := TextValue(""), "coordinates" := TextValue("")],
      "disaster" := map["type" := TextValue(""), "date" := TextValue(""), "description" := TextValue(""),
                        "severity" := TextValue(""), "affectedPeople" := TextValue("")],
      AssistanceSection := map[NeedsField := ListValue([]), "requestedAmount" := TextValue(""),
                               "urgencyLevel" := TextValue(""), "additionalInfo" := TextValue("")],
      "documents" := map["idProof" := NullValue, "damagePhotos" := ListValue([]), "officialReports" := ListValue([])]
    ]
  }

  /**
   * handleInputChange's new form: `{ ...prev, [section]: { ...prev[section], [field]: value } }`.
   * A section the form does not have yet starts out empty.
   */
  function Assign(form: Form, section: string, field: string, value: FieldValue): (r: Form)
    ensures section in r && field in r[section] && r[section][field] == value
    ensures r.Keys == form.Keys + {section}
    ensures forall s :: s in form && s != section ==> r[s] == form[s]
    ensures section in form ==> r[section].Keys == form[section].Keys + {field}
    ensures section in form ==> forall f :: f in form[section] && f != field ==> r[section][f] == form[section][f]
    ensures section !in form ==> r[section].Keys == {field}
  {
    var old_section := if section in form then form[section] else map[];
    form[section := old_section[field := value]]
  }

  /** The form holds the needs as a list. */
  predicate HasNeedsList(form: Form)
  {
    AssistanceSection in form && NeedsField in form[AssistanceSection] &&
    form[AssistanceSection][NeedsField].ListValue?
  }

  /** `formData.assistance.immediateNeeds`. */
  function Needs(form: Form): seq<string>
    requires HasNeedsList(form)
  {
    form[AssistanceSection][NeedsField].items
  }

  /** The selected needs are a duplicate-free list. */
  predicate NeedsWellFormed(form: Form)
  {
    HasNeedsList(form) && NoDuplicates(Needs(form))
  }

  /** handleNeedsChange's new form: the needs list toggled, every other field as it was. */
  function ToggleNeedIn(form: Form, need: string): (r: Form)
    requires HasNeedsList(form)
  {
    Assign(form, AssistanceSection, NeedsField, ListValue(Toggle(Needs(form), need)))
  }

  /**
   * The needs toggle removes a selected need and appends an unselected one;
   * it keeps the list duplicate-free and leaves every other field alone.
   */
  lemma ToggleNeedSpec(form: Form, need: string)
    requires NeedsWellFormed(form)
    ensures NeedsWellFormed(ToggleNeedIn(form, need))
    ensures need in Needs(ToggleNeedIn(form, need)) <==> need !in Needs(form)
    ensures forall n :: n != need ==> (n in Needs(ToggleNeedIn(form, need)) <==> n in Needs(form))
    ensures need !in Needs(form) ==> Needs(ToggleNeedIn(form, need)) == Needs(form) + [need]
    ensures forall f :: f in form[AssistanceSection] && f != NeedsField ==>
      ToggleNeedIn(form, need)[AssistanceSection][f] == form[AssistanceSection][f]
  {
    TogglePreservesNoDuplicates(Needs(form), need);
    ToggleMembership(Needs(form), need);
    ToggleShape(Needs(form), need);
  }

  /**
   * The page offers only the listed options as checkboxes: toggling one of
   * them keeps every selected need among the options.
   */
  lemma ToggleKeepsNeedsOffered(form: Form, need: string)
    requires HasNeedsList(form) && need in ImmediateNeedsOptions
    requires forall n :: n in Needs(form) ==> n in ImmediateNeedsOptions
    ensures HasNeedsList(ToggleNeedIn(form, need))
    ensures forall n :: n in Needs(ToggleNeedIn(form, need)) ==> n in ImmediateNeedsOptions
  {
    ToggleMembership(Needs(form), need);
  }

  /** Selecting a need that was not selected and then deselecting it restores the form. */
  lemma ToggleNeedTwice(form: Form, need: string)
    requires HasNeedsList(form) && need !in Needs(form)
    ensures HasNeedsList(ToggleNeedIn(form, need))
    ensures ToggleNeedIn(ToggleNeedIn(form, need), need) == form
  {
    var section := form[AssistanceSection];
    var needs := Needs(form);
    ToggleTwiceAbsent(needs, need);
    var once := ToggleNeedIn(form, need);
    assert once == form[AssistanceSection := section[NeedsField := ListValue(Toggle(needs, need))]];
    assert Needs(once) == Toggle(needs, need);
    assert once[AssistanceSection][NeedsField := ListValue(needs)] == section by {
      assert once[AssistanceSection] == section[NeedsField := ListValue(Toggle(needs, need))];
    }
    var twice := ToggleNeedIn(once, need);
    assert twice == once[AssistanceSection := section];
  }

  /** Accepted as ID proof: an image or a PDF. */
  predicate IsIdProofType(mime: string)
  {
    StartsWith(mime, "image/") || mime == "application/pdf"
  }

  /** Accepted as a damage photo: an image. */
  predicate IsPhotoType(mime: string)
  {
    StartsWith(mime, "image/")
  }

  /** Accepted as an official report: a PDF, an image, or any type naming a document. */
  predicate IsReportType(mime: string)
  {
    mime == "application/pdf" || StartsWith(mime, "image/") || Includes(mime, "document")
  }

  /** The files an upload to `slot` keeps: for the ID proof only the first file is looked at. */
  function Intake(slot: FileSlot, files: seq<FileRef>): (r: seq<FileRef>)
  {
    match slot
    case IdProofSlot => if files != [] && IsIdProofType(files[0].mime) then [files[0]] else []
    case DamagePhotosSlot => Filter((f: FileRef) => IsPhotoType(f.mime), files)
    case OfficialReportsSlot => Filter((f: FileRef) => IsReportType(f.mime), files)
  }

  /**
   * The ID-proof intake keeps at most the first file, and keeps it exactly when
   * an upload is present and its first file is an image or a PDF; files after
   * the first are never looked at.
   */
  lemma IdProofIntakeSpec(files: seq<FileRef>, more: seq<FileRef>)
    ensures |Intake(IdProofSlot, files)| <= 1
    ensures Intake(IdProofSlot, files) <= files
    ensures Intake(IdProofSlot, files) != [] <==> files != [] && IsIdProofType(files[0].mime)
    ensures files != [] ==> Intake(IdProofSlot, files + more) == Intake(IdProofSlot, files)
  {
    if files != [] {
      assert (files + more)[0] == files[0];
    }
  }

  /**
   * The list intakes keep, in their original order, exactly the files of the right type.
   */
  lemma IntakeSpec(slot: FileSlot, files: seq<FileRef>)
    requires slot != IdProofSlot
    ensures IsSubsequence(Intake(slot, files), files)
    ensures slot == DamagePhotosSlot ==>
      (forall k :: 0 <= k < |Intake(slot, files)| ==> IsPhotoType(Intake(slot, files)[k].mime)) &&
      (forall k :: 0 <= k < |files| && IsPhotoType(files[k].mime) ==> files[k] in Intake(slot, files))
    ensures slot == OfficialReportsSlot ==>
      (forall k :: 0 <= k < |Intake(slot, files)| ==> IsReportType(Intake(slot, files)[k].mime)) &&
      (forall k :: 0 <= k < |files| && IsReportType(files[k].mime) ==> files[k] in Intake(slot, files))
  {
    if slot == DamagePhotosSlot {
      FilterIsSubsequence((f: FileRef) => IsPhotoType(f.mime), files);
    } else {
      FilterIsSubsequence((f: FileRef) => IsReportType(f.mime), files);
    }
  }

  /** A PDF is an acceptable ID proof and report, but not a photo. */
  lemma PdfAcceptance()
    ensures IsIdProofType("application/pdf") && IsReportType("application/pdf")
    ensures !IsPhotoType("application/pdf")
  {
    assert "application/pdf"[..6][0] == 'a' && "image/"[0] == 'i';
  }

  /** The submit check: an ID proof first, then at least one photo. */
  function SubmitCheck(idProof: Option<FileRef>, photos: seq<FileRef>): (r: SubmitResult)
    ensures r == Submitted <==> idProof.Some? && photos != []
    ensures r == MissingIdProof <==> idProof.None?
    ensures r == MissingPhotos <==> idProof.Some? && photos == []
  {
    if idProof.None? then MissingIdProof
    else if |photos| == 0 then MissingPhotos
    else Submitted
  }

  /** The Previous button: one step back, never before step 1. */
  function PreviousStep(step: int): (r: int)
    ensures r >= 1
    ensures 1 <= step <= TotalSteps ==> 1 <= r <= TotalSteps
    ensures step > 1 ==> r == step - 1
    ensures step <= 1 ==> r == 1
  {
    if step - 1 > 1 then step - 1 else 1
  }

  /** The Next button: one step forward, never past the last step. */
  function NextStep(step: int): (r: int)
    ensures r <= TotalSteps
    ensures 1 <= step <= TotalSteps ==> 1 <= r <= TotalSteps
    ensures step < TotalSteps ==> r == step + 1
    ensures step >= TotalSteps ==> r == TotalSteps
  {
    if step + 1 < TotalSteps then step + 1 else TotalSteps
  }

  /**
   * With an ID proof present, removing any damage photo but the last (which
   * keeps its X button on the page and so submits) always goes through.
   */
  lemma NonLastPhotoRemovalSubmits(idProof: Option<FileRef>, photos: seq<FileRef>, index: int)
    requires idProof.Some? && 0 <= index < |photos| - 1
    ensures SubmitCheck(idProof, RemoveIndex(photos, index)) == Submitted
  {
    RemoveIndexSpec(photos, index);
    assert |RemoveIndex(photos, index)| == |photos| - 1;
  }

  /** Previous undoes Next below the last step, and Next undoes Previous above the first. */
  lemma StepNavigationInverse(step: int)
    requires 1 <= step <= TotalSteps
    ensures step < TotalSteps ==> PreviousStep(NextStep(step)) == step
    ensures step > 1 ==> NextStep(PreviousStep(step)) == step
  {
  }

  /**
   * Previous is disabled at the first step, which is exactly where pressing it
   * would leave the step as it is.
   */
  function PreviousDisabled(step: int): (b: bool)
    ensures 1 <= step <= TotalSteps ==> (b <==> PreviousStep(step) == step)
  {
    step == 1
  }

  /** Steps before the last show Next; the last shows Submit. */
  function Primary(step: int): (b: PrimaryButton)
    ensures 1 <= step <= TotalSteps ==> (b == SubmitButton <==> step == TotalSteps)
  {
    if step < TotalSteps then NextButton else SubmitButton
  }

  /** RequestHumanity's state. */
  class AidRequestForm {
    var currentStep: int
    var formData: Form
    var idProof: Option<FileRef>
    var damagePhotos: seq<FileRef>
    var officialReports: seq<FileRef>
    var showSuccessMessage: bool

    /** The step stays in range and the needs stay a duplicate-free list. */
    predicate Valid()
      reads this
    {
      1 <= currentStep <= TotalSteps && NeedsWellFormed(formData)
    }

    constructor ()
      ensures currentStep == 1 && formData == InitialForm()
      ensures idProof == None && damagePhotos == [] && officialReports == []
      ensures !showSuccessMessage
      ensures Valid()
    {
      currentStep := 1;
      formData := InitialForm();
      idProof := None;
      damagePhotos := [];
      officialReports := [];
      showSuccessMessage := false;
      assert Needs(InitialForm()) == [];
    }

    method PreviousButton()
      requires Valid()
      modifies this`currentStep
      ensures currentStep == PreviousStep(old(currentStep)) && Valid()
    {
      currentStep := PreviousStep(currentStep);
    }

    /**
     * The Next button. It and the Submit button are the two branches of one
     * unkeyed conditional, so the same button element is reused: on the click
     * that reaches the last step it has already become a submit button when
     * the click's default action runs, and the form submits.
     */
    method NextButton() returns (r: Option<SubmitResult>)
      requires Valid()
      modifies this`currentStep, this`showSuccessMessage
      ensures currentStep == NextStep(old(currentStep)) && Valid()
      ensures r.Some? <==> old(currentStep) == TotalSteps - 1
      ensures r.Some? ==> r.value == SubmitCheck(idProof, damagePhotos) &&
                          showSuccessMessage == (r.value == Submitted || old(showSuccessMessage))
      ensures r.None? ==> showSuccessMessage == old(showSuccessMessage)
    {
      var before := currentStep;
      currentStep := NextStep(currentStep);
      if before == TotalSteps - 1 {
        var outcome := Submit();
        r := Some(outcome);
      } else {
        r := None;
      }
    }

    /** handleInputChange. */
    method InputChange(section: string, field: string, value: FieldValue)
      modifies this`formData
      ensures formData == Assign(old(formData), section, field, value)
      ensures old(Valid()) && (section != AssistanceSection || field != NeedsField) ==> Valid()
    {
      formData := Assign(formData, section, field, value);
    }

    /** handleNeedsChange. */
    method NeedsChange(need: string)
      requires Valid()
      modifies this`formData
      ensures formData == ToggleNeedIn(old(formData), need)
      ensures Valid()
    {
      ToggleNeedSpec(formData, need);
      InputChange(AssistanceSection, NeedsField, ListValue(Toggle(Needs(formData), need)));
    }

    /** handleFileUpload; `files` is `None` when the input gives no file list. */
    method FileUpload(slot: FileSlot, files: Option<seq<FileRef>>) returns (r: UploadResult)
      modifies this`idProof, this`damagePhotos, this`officialReports
      ensures files.None? ==> r == Ignored
      ensures files.Some? ==> r == (if Intake(slot, files.value) == [] then Rejected else Stored(Intake(slot, files.value)))
      ensures idProof == (if r.Stored? && slot == IdProofSlot then Some(r.files[0]) else old(idProof))
      ensures damagePhotos == (if r.Stored? && slot == DamagePhotosSlot then old(damagePhotos) + r.files else old(damagePhotos))
      ensures officialReports == (if r.Stored? && slot == OfficialReportsSlot then old(officialReports) + r.files else old(officialReports))
    {
      if files.None? {
        return Ignored;
      }
      var kept := Intake(slot, files.value);
      if kept == [] {
        return Rejected;
      }
      r := Stored(kept);
      match slot {
        case IdProofSlot => idProof := Some(kept[0]);
        case DamagePhotosSlot => damagePhotos := damagePhotos + kept;
        case OfficialReportsSlot => officialReports := officialReports + kept;
      }
    }

    /** removeFile: only the list named, only the element at `index`. */
    method RemoveFile(slot: FileSlot, index: int)
      requires slot != IdProofSlot
      modifies this`damagePhotos, this`officialReports
      ensures damagePhotos == (if slot == DamagePhotosSlot then RemoveIndex(old(damagePhotos), index) else old(damagePhotos))
      ensures officialReports == (if slot == OfficialReportsSlot then RemoveIndex(old(officialReports), index) else old(officialReports))
    {
      if slot == DamagePhotosSlot {
        damagePhotos := RemoveIndex(damagePhotos, index);
      } else {
        officialReports := RemoveIndex(officialReports, index);
      }
    }

    /**
     * A click on a list row's X button. The button has no `type`, so inside the
     * form it is a submit button: the removal runs, and when the clicked
     * button is still on the page afterwards the form submits. Rows are keyed
     * by index, so the button stays for every row but the last.
     */
    method RemoveFileButton(slot: FileSlot, index: int) returns (r: Option<SubmitResult>)
      requires slot != IdProofSlot
      requires 0 <= index < (if slot == DamagePhotosSlot then |damagePhotos| else |officialReports|)
      modifies this`damagePhotos, this`officialReports, this`showSuccessMessage
      ensures damagePhotos == (if slot == DamagePhotosSlot then RemoveIndex(old(damagePhotos), index) else old(damagePhotos))
      ensures officialReports == (if slot == OfficialReportsSlot then RemoveIndex(old(officialReports), index) else old(officialReports))
      ensures r.Some? <==> index < (if slot == DamagePhotosSlot then |old(damagePhotos)| else |old(officialReports)|) - 1
      ensures r.Some? ==> r.value == SubmitCheck(idProof, damagePhotos) &&
                          showSuccessMessage == (r.value == Submitted || old(showSuccessMessage))
      ensures r.None? ==> showSuccessMessage == old(showSuccessMessage)
    {
      var before := if slot == DamagePhotosSlot then |damagePhotos| else |officialReports|;
      RemoveFile(slot, index);
      if index < before - 1 {
        var outcome := Submit();
        r := Some(outcome);
      } else {
        r := None;
      }
    }

    /** The Remove button of the ID-proof slot. */
    method RemoveIdProof()
      modifies this`idProof
      ensures idProof == None
    {
      idProof := None;
    }

    /** handleSubmit: the check decides; only the banner flag can change. */
    method Submit() returns (r: SubmitResult)
      modifies this`showSuccessMessage
      ensures r == SubmitCheck(idProof, damagePhotos)
      ensures showSuccessMessage == (r == Submitted || old(showSuccessMessage))
    {
      r := SubmitCheck(idProof, damagePhotos);
      if r == Submitted {
        showSuccessMessage := true;
      }
    }

    /** The banner timer. */
    method HideSuccessMessage()
      modifies this`showSuccessMessage
      ensures !showSuccessMessage
    {
      showSuccessMessage := false;
    }
  }

  /** A run through the form: no ID proof is refused, an ID proof and two photos go through. */
  method SubmitScenario()
  {
    var form := new AidRequestForm();
    var r := form.Submit();
    assert r == MissingIdProof && !form.showSuccessMessage;
    var id := FileRef("passport.pdf", "application/pdf");
    PdfAcceptance();
    var u := form.FileUpload(IdProofSlot, Some([id]));
    assert form.idProof == Some(id);
    var p1 := FileRef("a.jpg", "image/jpeg");
    var p2 := FileRef("b.png", "image/png");
    assert IsPhotoType(p1.mime) && IsPhotoType(p2.mime);
    u := form.FileUpload(DamagePhotosSlot, Some([p1, p2]));
    assert form.damagePhotos != [];
    r := form.Submit();
    assert r == Submitted && form.showSuccessMessage;
  }
}
