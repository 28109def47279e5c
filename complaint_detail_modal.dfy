/** The officials' complaint detail modal (ComplaintDetailModal): the photo
    lightbox's clamped cursor, the status select, and the colour and label
    mappings of the status and urgency badges. */
module ComplaintDetailModal {
  import opened Text
  import opened Records

  /** "Previous": `Math.max(0, selectedPhoto - 1)`. */
  function PrevIndex(i: int): (r: int)
    ensures r >= 0
    ensures i > 0 ==> r == i - 1
    ensures i <= 0 ==> r == 0
  {
    if i - 1 > 0 then i - 1 else 0
  }

  /** "Next": `Math.min(photos.length - 1, selectedPhoto + 1)`. */
  function NextIndex(i: int, count: int): (r: int)
    ensures r <= count - 1
    ensures i < count - 1 ==> r == i + 1
    ensures i >= count - 1 ==> r == count - 1
  {
    if i + 1 < count - 1 then i + 1 else count - 1
  }

  datatype Step = Prev | Next

  /** The cursor after a sequence of arrow clicks. Starting on a photo, no
      sequence of clicks leaves the photo list. */
  function ApplySteps(i: int, count: int, steps: seq<Step>): (j: int)
    ensures 0 <= i < count ==> 0 <= j < count
    decreases |steps|
  {
    if steps == [] then i
    else ApplySteps(if steps[0] == Prev then PrevIndex(i) else NextIndex(i, count), count, steps[1..])
  }

  /** "Previous" is disabled at `selectedPhoto === 0` and "Next" at
      `selectedPhoto === photos.length - 1`: on a valid cursor, exactly where
      the click would not move it. */
  lemma DisabledExactlyWhenNoMove(i: int, count: int)
    requires 0 <= i < count
    ensures (i == 0) <==> PrevIndex(i) == i
    ensures (i == count - 1) <==> NextIndex(i, count) == i
  {
  }

  /** Badge colours, by Tailwind colour family. */
  datatype BadgeColor = Blue | Yellow | Purple | Orange | Green | Gray | Red

  /** `getStatusColor`: one colour per status, gray exactly for the strings
      that are not a status, and never a colour of the urgency scale. */
  function StatusColor(status: string): (c: BadgeColor)
    ensures c == Gray <==> forall st: ComplaintStatus :: st.Id() != status
    ensures c != Red
  {
    assert Submitted.Id() == "submitted" && UnderReview.Id() == "under-review" && Verified.Id() == "verified";
    assert Assigned.Id() == "assigned" && Resolved.Id() == "resolved";
    if status == "submitted" then Blue
    else if status == "under-review" then Yellow
    else if status == "verified" then Purple
    else if status == "assigned" then Orange
    else if status == "resolved" then Green
    else Gray
  }

  /** The five statuses get five different colours, none of them the gray
      default, and every string that is not a status gets gray. */
  lemma StatusColorsDistinct()
    ensures forall a: ComplaintStatus, b: ComplaintStatus :: a != b ==> StatusColor(a.Id()) != StatusColor(b.Id())
    ensures forall a: ComplaintStatus :: StatusColor(a.Id()) != Gray
    ensures forall s :: (forall st: ComplaintStatus :: st.Id() != s) ==> StatusColor(s) == Gray
  {
    forall s | forall st: ComplaintStatus :: st.Id() != s ensures StatusColor(s) == Gray {
      assert Submitted.Id() != s && UnderReview.Id() != s && Verified.Id() != s;
      assert Assigned.Id() != s && Resolved.Id() != s;
    }
  }

  /** `getUrgencyColor`: red for high, yellow for medium, green otherwise. */
  function UrgencyColor(urgency: string): (c: BadgeColor)
    ensures c == Red <==> urgency == "high"
    ensures c == Yellow <==> urgency == "medium"
    ensures c == Red || c == Yellow || c == Green
  {
    if urgency == "high" then Red
    else if urgency == "medium" then Yellow
    else Green
  }

  /** The status badge text: `status.replace('-', ' ').toUpperCase()`. */
  function StatusLabel(status: string): (text: string)
    ensures |text| == |status|
  {
    Upper(ReplaceFirst(status, '-', ' '))
  }

  /** The label keeps every character of the status in place, upper-cased,
      except that the first hyphen becomes a space. */
  lemma StatusLabelShape(status: string)
    ensures var k := IndexOf(status, '-');
            StatusLabel(status) == Upper(if k == -1 then status else status[..k] + [' '] + status[k + 1..])
  {
    ReplaceFirstChangesOnlyFirst(status, '-', ' ');
  }

  lemma UnderReviewHyphen()
    ensures IndexOf("under-review", '-') == 5
  {
    var id := "under-review";
    assert id[5] == '-';
    assert forall j :: 0 <= j < 5 ==> id[j] != '-';
  }

  lemma UnderReviewSplice()
    ensures "under-review"[..5] + [' '] + "under-review"[6..] == "under review"
  {
  }

  lemma UnderReviewReplaced()
    ensures ReplaceFirst("under-review", '-', ' ') == "under review"
  {
    UnderReviewHyphen();
    UnderReviewSplice();
    ReplaceFirstChangesOnlyFirst("under-review", '-', ' ');
  }

  lemma UpperUnderReview()
    ensures Upper("under review") == "UNDER REVIEW"
  {
  }

  /** "under-review" is shown as "UNDER REVIEW": its one hyphen is replaced. */
  lemma UnderReviewLabel()
    ensures StatusLabel(UnderReview.Id()) == "UNDER REVIEW"
  {
    UnderReviewReplaced();
    UpperUnderReview();
  }

  /** The urgency badge text: `urgency.toUpperCase() + " Priority"`. */
  function UrgencyLabel(u: Urgency): (text: string)
    ensures |text| == |u.Id()| + 9
    ensures text[|u.Id()|..] == " Priority"
    ensures forall i :: 0 <= i < |u.Id()| ==> !IsLower(text[i])
  {
    Upper(u.Id()) + " Priority"
  }

  /** The three urgency badges read "HIGH Priority", "MEDIUM Priority" and
      "LOW Priority", so each urgency has its own text. */
  lemma UrgencyLabels()
    ensures UrgencyLabel(High) == "HIGH Priority"
    ensures UrgencyLabel(Medium) == "MEDIUM Priority"
    ensures UrgencyLabel(Low) == "LOW Priority"
  {
    assert Upper("high") == "HIGH";
    assert Upper("medium") == "MEDIUM";
    assert Upper("low") == "LOW";
  }

  class Modal {
    const complaint: Complaint
    var internalNotes: string
    /** The lightbox cursor; `None` while the lightbox is closed. */
    var selectedPhoto: Option<int>
    var newStatus: ComplaintStatus

    /** The lightbox, when open, shows one of the complaint's photos. */
    predicate Valid()
      reads this
    {
      selectedPhoto.Some? ==> 0 <= selectedPhoto.value < |complaint.photos|
    }

    /** Opening the modal: the status select starts at the complaint's status. */
    constructor (c: Complaint)
      ensures complaint == c && newStatus == c.status
      ensures selectedPhoto == None && internalNotes == ""
      ensures Valid()
    {
      complaint := c;
      internalNotes := "";
      selectedPhoto := None;
      newStatus := c.status;
    }

    /** Clicking thumbnail `index` (one is rendered per photo). */
    method OpenPhoto(index: int)
      requires 0 <= index < |complaint.photos|
      modifies this
      ensures Valid()
      ensures selectedPhoto == Some(index)
      ensures newStatus == old(newStatus) && internalNotes == old(internalNotes)
    {
      selectedPhoto := Some(index);
    }

    /** The lightbox's left arrow. */
    method Previous()
      requires Valid()
      modifies this
      ensures Valid()
      ensures selectedPhoto == if old(selectedPhoto).Some? then Some(PrevIndex(old(selectedPhoto).value)) else None
      ensures newStatus == old(newStatus) && internalNotes == old(internalNotes)
    {
      if selectedPhoto.Some? {
        selectedPhoto := Some(PrevIndex(selectedPhoto.value));
      }
    }

    /** The lightbox's right arrow. */
    method Next()
      requires Valid()
      modifies this
      ensures Valid()
      ensures selectedPhoto == if old(selectedPhoto).Some? then Some(NextIndex(old(selectedPhoto).value, |complaint.photos|)) else None
      ensures newStatus == old(newStatus) && internalNotes == old(internalNotes)
    {
      if selectedPhoto.Some? {
        selectedPhoto := Some(NextIndex(selectedPhoto.value, |complaint.photos|));
      }
    }

    /** The backdrop or the close button of the lightbox. */
    method CloseLightbox()
      modifies this
      ensures Valid()
      ensures selectedPhoto == None
      ensures newStatus == old(newStatus) && internalNotes == old(internalNotes)
    {
      selectedPhoto := None;
    }

    /** The status select. */
    method SelectStatus(status: ComplaintStatus)
      modifies this
      ensures newStatus == status
      ensures selectedPhoto == old(selectedPhoto) && internalNotes == old(internalNotes)
    {
      newStatus := status;
    }

    /** The internal notes textarea. */
    method SetNotes(notes: string)
      modifies this
      ensures internalNotes == notes
      ensures selectedPhoto == old(selectedPhoto) && newStatus == old(newStatus)
    {
      internalNotes := notes;
    }

    /** "Update": the status handed to `onChangeStatus` is the one currently
        selected, which is the complaint's own status until the select changes. */
    method Update() returns (status: ComplaintStatus)
      ensures status == newStatus
    {
      status := newStatus;
    }
  }
}
