/** The citizen's complaint form (CitizenComplaintForm): the field record,
    the list of attached photos, and the flags of the location-detection and
    submission flows. Each `setTimeout` is modelled as a separate event
    (`FinishDetectLocation`, `CompleteSubmit`) that can fire at any later
    point; the delays themselves are not modelled. Photos are the opaque
    object-URL strings `URL.createObjectURL` returns. */
module ComplaintForm {
  import opened Records

  /** The form's `formData` state. Category starts empty and is set from the
      category buttons; urgency is always one of the three button ids. */
  datatype FormData = FormData(
    category: string,
    title: string,
    description: string,
    location: string,
    urgency: Urgency)

  /** The initial `formData`: urgency `'medium'`, every other field empty. */
  const InitialForm := FormData("", "", "", "", Medium)

  /** The address the simulated location detection fills in. */
  const DetectedAddress := "123 Main Street, Downtown"

  /** `photos.filter((_, i) => i !== index)` on the suffix of the list that
      starts at position `offset`. */
  function KeepIndicesExcept(s: seq<string>, index: int, offset: int): (r: seq<string>)
    ensures |r| <= |s|
  {
    if s == [] then []
    else if offset == index then KeepIndicesExcept(s[1..], index, offset + 1)
    else [s[0]] + KeepIndicesExcept(s[1..], index, offset + 1)
  }

  /** `removePhoto(index)`'s new list: the photo at an in-range index is cut
      out; an index outside the list removes nothing. */
  function WithoutIndex(photos: seq<string>, index: int): (r: seq<string>)
    ensures 0 <= index < |photos| ==> r == photos[..index] + photos[index + 1..]
    ensures !(0 <= index < |photos|) ==> r == photos
  {
    KeepIndicesExceptSplits(photos, index, 0);
    KeepIndicesExcept(photos, index, 0)
  }

  lemma {:induction false} KeepIndicesExceptSplits(s: seq<string>, index: int, offset: int)
    ensures KeepIndicesExcept(s, index, offset)
         == if offset <= index < offset + |s| then s[..index - offset] + s[index - offset + 1..] else s
  {
    if s != [] {
      KeepIndicesExceptSplits(s[1..], index, offset + 1);
      if offset < index < offset + |s| {
        assert s[..index - offset] == [s[0]] + s[1..][..index - offset - 1];
        assert s[index - offset + 1..] == s[1..][index - offset..];
      } else if offset != index {
        assert s == [s[0]] + s[1..];
      }
    }
  }

  /** Removing an in-range photo deletes exactly that one: the photos before
      it stay where they are and those after it move down by one. */
  lemma RemoveInRange(photos: seq<string>, index: int)
    requires 0 <= index < |photos|
    ensures |WithoutIndex(photos, index)| == |photos| - 1
    ensures forall k :: 0 <= k < index ==> WithoutIndex(photos, index)[k] == photos[k]
    ensures forall k :: index <= k < |photos| - 1 ==> WithoutIndex(photos, index)[k] == photos[k + 1]
  {
  }

  /** The form record as the detection timer of the source writes it:
      `setFormData({ ...formData, location })`, where `formData` is the
      record captured when the button was clicked, not the current one. */
  function LocationDetectedAsWritten(captured: FormData, current: FormData): (r: FormData)
    ensures r.location == DetectedAddress
    ensures r.(location := captured.location) == captured
  {
    captured.(location := DetectedAddress)
  }

  /** Edits made while the location is being detected are lost: a title
      typed during the delay is reset to the value it had at the click. */
  lemma StaleDetectionDropsEdits()
    ensures var captured := InitialForm;
            var current := InitialForm.(title := "Broken light");
            LocationDetectedAsWritten(captured, current).title != current.title
  {
  }

  /** The detection result as evidently intended (a functional update
      `setFormData(prev => ({ ...prev, location }))`): only the location of
      the current record changes. */
  function LocationDetected(current: FormData): (r: FormData)
    ensures r.location == DetectedAddress
    ensures r.(location := current.location) == current
  {
    current.(location := DetectedAddress)
  }

  /** The two agree exactly when nothing but the location was edited during
      the delay. */
  lemma DetectionAgreesWithoutEdits(captured: FormData, current: FormData)
    ensures LocationDetectedAsWritten(captured, current) == LocationDetected(current)
        <==> captured.(location := current.location) == current
  {
    if LocationDetectedAsWritten(captured, current) == LocationDetected(current) {
      assert captured.(location := DetectedAddress) == current.(location := DetectedAddress);
      assert captured.category == current.category && captured.title == current.title;
      assert captured.description == current.description && captured.urgency == current.urgency;
    }
  }

  class Form {
    var formData: FormData
    var photos: seq<string>
    var isSubmitting: bool
    var isSubmitted: bool
    var detectingLocation: bool
    /** The record `handleSubmit`'s timer will pass to `onSubmit`, while it is pending. */
    var pendingSubmission: Option<FormData>

    /** A submission timer is pending exactly while the form is submitting. */
    predicate Valid()
      reads this
    {
      isSubmitting <==> pendingSubmission.Some?
    }

    constructor ()
      ensures formData == InitialForm && photos == []
      ensures !isSubmitting && !isSubmitted && !detectingLocation
      ensures Valid()
    {
      formData := InitialForm;
      photos := [];
      isSubmitting := false;
      isSubmitted := false;
      detectingLocation := false;
      pendingSubmission := None;
    }

    /** The submit button's `disabled` expression: a running submission or
        any empty required field disables it, so the untouched form cannot
        be sent. */
    function SubmitDisabled(): (disabled: bool)
      reads this
      ensures isSubmitting ==> disabled
      ensures !disabled ==> formData.category != "" && formData.title != ""
                            && formData.description != "" && formData.location != ""
      ensures formData.(urgency := Medium) == InitialForm ==> disabled
    {
      isSubmitting || formData.category == "" || formData.title == ""
      || formData.description == "" || formData.location == ""
    }

    /** `handlePhotoUpload`: when the input has a file list, its object URLs
        are appended after the existing photos. */
    method UploadPhotos(files: Option<seq<string>>)
      requires Valid()
      modifies this
      ensures Valid()
      ensures photos == if files.Some? then old(photos) + files.value else old(photos)
      ensures photos[..|old(photos)|] == old(photos)
      ensures formData == old(formData) && isSubmitting == old(isSubmitting) && isSubmitted == old(isSubmitted)
      ensures detectingLocation == old(detectingLocation) && pendingSubmission == old(pendingSubmission)
    {
      if files.Some? {
        photos := photos + files.value;
      }
    }

    /** `removePhoto(index)`. */
    method RemovePhoto(index: int)
      requires Valid()
      modifies this
      ensures Valid()
      ensures photos == WithoutIndex(old(photos), index)
      ensures 0 <= index < |old(photos)| ==> |photos| == |old(photos)| - 1
      ensures !(0 <= index < |old(photos)|) ==> photos == old(photos)
      ensures formData == old(formData) && isSubmitting == old(isSubmitting) && isSubmitted == old(isSubmitted)
      ensures detectingLocation == old(detectingLocation) && pendingSubmission == old(pendingSubmission)
    {
      if 0 <= index < |photos| {
        RemoveInRange(photos, index);
      }
      photos := WithoutIndex(photos, index);
    }

    /** A category button. */
    method SetCategory(category: string)
      modifies this
      ensures formData == old(formData).(category := category)
      ensures photos == old(photos) && isSubmitting == old(isSubmitting) && isSubmitted == old(isSubmitted)
      ensures detectingLocation == old(detectingLocation) && pendingSubmission == old(pendingSubmission)
    {
      formData := formData.(category := category);
    }

    /** The title input. */
    method SetTitle(title: string)
      modifies this
      ensures formData == old(formData).(title := title)
      ensures photos == old(photos) && isSubmitting == old(isSubmitting) && isSubmitted == old(isSubmitted)
      ensures detectingLocation == old(detectingLocation) && pendingSubmission == old(pendingSubmission)
    {
      formData := formData.(title := title);
    }

    /** The description textarea. */
    method SetDescription(description: string)
      modifies this
      ensures formData == old(formData).(description := description)
      ensures photos == old(photos) && isSubmitting == old(isSubmitting) && isSubmitted == old(isSubmitted)
      ensures detectingLocation == old(detectingLocation) && pendingSubmission == old(pendingSubmission)
    {
      formData := formData.(description := description);
    }

    /** The location input. */
    method SetLocation(location: string)
      modifies this
      ensures formData == old(formData).(location := location)
      ensures photos == old(photos) && isSubmitting == old(isSubmitting) && isSubmitted == old(isSubmitted)
      ensures detectingLocation == old(detectingLocation) && pendingSubmission == old(pendingSubmission)
    {
      formData := formData.(location := location);
    }

    /** An urgency button. */
    method SetUrgency(urgency: Urgency)
      modifies this
      ensures formData == old(formData).(urgency := urgency)
      ensures photos == old(photos) && isSubmitting == old(isSubmitting) && isSubmitted == old(isSubmitted)
      ensures detectingLocation == old(detectingLocation) && pendingSubmission == old(pendingSubmission)
    {
      formData := formData.(urgency := urgency);
    }

    /** A click on "Detect": the button is disabled while a detection runs,
        so a click then does nothing; otherwise detection starts. */
    method ClickDetectLocation() returns (started: bool)
      modifies this
      ensures started == !old(detectingLocation)
      ensures detectingLocation
      ensures formData == old(formData) && photos == old(photos)
      ensures isSubmitting == old(isSubmitting) && isSubmitted == old(isSubmitted)
      ensures pendingSubmission == old(pendingSubmission)
    {
      started := !detectingLocation;
      detectingLocation := true;
    }

    /** The detection timer: fills in the address (only the location field
        changes) and re-enables the button. */
    method FinishDetectLocation()
      modifies this
      ensures old(detectingLocation) ==> formData == LocationDetected(old(formData)) && !detectingLocation
      ensures !old(detectingLocation) ==> formData == old(formData) && detectingLocation == old(detectingLocation)
      ensures photos == old(photos) && isSubmitting == old(isSubmitting) && isSubmitted == old(isSubmitted)
      ensures pendingSubmission == old(pendingSubmission)
    {
      if detectingLocation {
        formData := LocationDetected(formData);
        detectingLocation := false;
      }
    }

    /** A click on the submit button: refused while it is disabled (in
        progress, or a required field empty); otherwise the form starts
        submitting the record as it is now. */
    method ClickSubmit() returns (started: bool)
      requires Valid()
      modifies this
      ensures Valid()
      ensures started == !old(SubmitDisabled())
      ensures started ==> isSubmitting && pendingSubmission == Some(old(formData))
      ensures !started ==> isSubmitting == old(isSubmitting) && pendingSubmission == old(pendingSubmission)
      ensures SubmitDisabled()
      ensures formData == old(formData) && photos == old(photos) && isSubmitted == old(isSubmitted)
      ensures detectingLocation == old(detectingLocation)
    {
      started := !SubmitDisabled();
      if started {
        isSubmitting := true;
        pendingSubmission := Some(formData);
      }
    }

    /** The submission timer: stops submitting, shows the success screen, and
        hands the record captured at the click to `onSubmit` (returned here). */
    method CompleteSubmit() returns (sent: Option<FormData>)
      requires Valid()
      modifies this
      ensures Valid()
      ensures sent == old(pendingSubmission)
      ensures old(isSubmitting) ==> !isSubmitting && isSubmitted
      ensures !old(isSubmitting) ==> isSubmitting == old(isSubmitting) && isSubmitted == old(isSubmitted)
      ensures formData == old(formData) && photos == old(photos) && detectingLocation == old(detectingLocation)
    {
      sent := pendingSubmission;
      if isSubmitting {
        isSubmitting := false;
        isSubmitted := true;
        pendingSubmission := None;
      }
    }

    /** "Submit Another Report": back to the form; the record and photos of
        the previous report are kept. */
    method SubmitAnother()
      modifies this
      ensures !isSubmitted
      ensures formData == old(formData) && photos == old(photos) && isSubmitting == old(isSubmitting)
      ensures detectingLocation == old(detectingLocation) && pendingSubmission == old(pendingSubmission)
    {
      isSubmitted := false;
    }
  }
}
