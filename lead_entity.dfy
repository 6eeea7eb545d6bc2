/** The lead record, its two enumerations and the schema's default status. */
module LeadEntity {
  import opened Wrappers

  /** A database id (an ObjectId, written as its hex string), of a user or of a lead. */
  type Id = string

  /** A point in time as the database stores it. */
  type Timestamp = int

  datatype Status = New | Contacted | Qualified | Won | Lost
  datatype Source = Website | Referral | Cold

  function StatusName(s: Status): string {
    match s
    case New => "new"
    case Contacted => "contacted"
    case Qualified => "qualified"
    case Won => "won"
    case Lost => "lost"
  }

  function SourceName(s: Source): string {
    match s
    case Website => "website"
    case Referral => "referral"
    case Cold => "cold"
  }

  /** The status named `text`; none when `text` names no status. */
  function ParseStatus(text: string): (r: Option<Status>)
    ensures r.Some? ==> StatusName(r.value) == text
    ensures r.None? ==> forall s: Status :: StatusName(s) != text
  {
    if text == "new" then Some(New)
    else if text == "contacted" then Some(Contacted)
    else if text == "qualified" then Some(Qualified)
    else if text == "won" then Some(Won)
    else if text == "lost" then Some(Lost)
    else None
  }

  /** The source named `text`; none when `text` names no source. */
  function ParseSource(text: string): (r: Option<Source>)
    ensures r.Some? ==> SourceName(r.value) == text
    ensures r.None? ==> forall s: Source :: SourceName(s) != text
  {
    if text == "website" then Some(Website)
    else if text == "referral" then Some(Referral)
    else if text == "cold" then Some(Cold)
    else None
  }

  /** The status a lead gets when it is stored without one. */
  const DefaultStatus: Status := New

  datatype Lead = Lead(
    id: Id,
    name: string,
    email: Option<string>,
    phone: string,
    source: Source,
    status: Status,
    notes: Option<string>,
    createdBy: Id,
    createdAt: Timestamp,
    updatedAt: Timestamp)
}
