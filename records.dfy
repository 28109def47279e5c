/** Record types shared by several pages: the complaint record that the
    officials' complaint list, the detail modal and the notification click
    handler pass around, and the string-literal enums it is built from. Each
    enum's `Id()` is the string the TypeScript union uses, which is what the
    pages compare their filter selections against. */
module Records {

  datatype Option<T> = None | Some(value: T)

  datatype Urgency = Low | Medium | High
  {
    function Id(): string
    {
      match this
      case Low => "low"
      case Medium => "medium"
      case High => "high"
    }
  }

  datatype ComplaintStatus = Submitted | UnderReview | Verified | Assigned | Resolved
  {
    function Id(): string
    {
      match this
      case Submitted => "submitted"
      case UnderReview => "under-review"
      case Verified => "verified"
      case Assigned => "assigned"
      case Resolved => "resolved"
    }
  }

  datatype Category = Streetlights | Traffic | Water | Waste | Roads | Other
  {
    function Id(): string
    {
      match this
      case Streetlights => "streetlights"
      case Traffic => "traffic"
      case Water => "water"
      case Waste => "waste"
      case Roads => "roads"
      case Other => "other"
    }
  }

  /** A complaint as the officials see it. An absent `photos` list is the empty sequence. */
  datatype Complaint = Complaint(
    id: string,
    category: Category,
    title: string,
    description: string,
    location: string,
    urgency: Urgency,
    trustScore: int,
    timestamp: string,
    status: ComplaintStatus,
    reportedBy: string,
    photos: seq<string>)

  /** The literal ids are pairwise distinct and none of them is the `'all'`
      sentinel, so a filter selection names at most one value. */
  lemma IdsAreDistinct()
    ensures forall a: Urgency, b: Urgency :: a.Id() == b.Id() ==> a == b
    ensures forall a: ComplaintStatus, b: ComplaintStatus :: a.Id() == b.Id() ==> a == b
    ensures forall u: Urgency :: u.Id() != "all"
    ensures forall st: ComplaintStatus :: st.Id() != "all"
    ensures forall c: Category :: c.Id() != "all"
  {
  }
}
