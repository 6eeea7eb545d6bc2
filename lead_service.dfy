/**
 * The lead service: every operation acts for one user. It creates leads
 * owned by that user, lists and counts that user's leads, and reads,
 * updates or deletes a lead only after checking that the user owns it.
 */
module LeadServices {
  import opened Wrappers
  import opened Text
  import opened LeadEntity
  import opened BaseRepo
  import opened LeadRepo

  datatype LeadError = LeadError(message: string)

  const MissingFields := LeadError("Missing required fields")
  const NotFound := LeadError("Lead not found")
  const NotAuthorized := LeadError("Not authorized to view this lead")
  const UpdateFailed := LeadError("Lead not found or update failed")

  /** The body of a create request; any field may be missing. */
  datatype LeadData = LeadData(
    name: Option<string>,
    email: Option<string>,
    phone: Option<string>,
    source: Option<Source>,
    status: Option<Status>,
    notes: Option<string>)

  /** The four fields `createLead` insists on, with JavaScript truthiness. */
  predicate HasRequired(d: LeadData) {
    Present(d.name) && Present(d.phone) && d.source.Some? && d.status.Some?
  }

  // ----- listing parameters -----

  /** The listing query; an absent text parameter is "". */
  datatype ListRequest = ListRequest(
    page: Option<int>,
    limit: Option<int>,
    sort: string,
    q: string,
    status: string,
    source: string,
    createdFrom: string,
    createdTo: string)

  /** `Math.min(limit, 100)`. */
  function EffectiveLimit(requested: int): (r: int)
    ensures r <= 100 && r <= requested
    ensures r == requested || r == 100
  {
    if requested < 100 then requested else 100
  }

  /**
   * The sort parameter `field:order`: descending only when the order is
   * exactly `desc`; no parameter sorts by creation time, newest first.
   */
  function ParseSort(sort: string): (r: SortSpec)
    ensures sort == "" ==> r == DefaultSort
    ensures sort != "" ==> r.field == Split(sort, ':')[0]
    ensures sort != "" ==> (r.descending <==> |Split(sort, ':')| >= 2 && Split(sort, ':')[1] == "desc")
  {
    if sort == "" then DefaultSort
    else
      var parts := Split(sort, ':');
      SortSpec(parts[0], |parts| >= 2 && parts[1] == "desc")
  }

  /** A parameter written as `field:order` is read back as that field and order. */
  lemma ParseSortOfPair(field: string, order: string)
    requires ':' !in field && ':' !in order
    ensures ParseSort(field + [':'] + order) == SortSpec(field, order == "desc")
  {
    SplitPair(field, order, ':');
    assert (field + [':'] + order)[|field|] == ':';
  }

  /**
   * `Math.ceil(total / limit)`. A zero limit gives Infinity or NaN, which the
   * JSON response carries as null: no value.
   */
  function TotalPages(total: nat, limit: int): (r: Option<int>)
    ensures r.None? <==> limit == 0
    ensures limit > 0 ==> r.value >= 0 && (r.value - 1) * limit < total <= r.value * limit
    ensures limit < 0 ==> r.value * limit <= total < (r.value - 1) * limit
  {
    if limit == 0 then None
    else if limit > 0 then
      var q := (total + limit - 1) / limit;
      assert q * limit + (total + limit - 1) % limit == total + limit - 1;
      Some(q)
    else
      var d := total / -limit;
      assert d * -limit + total % -limit == total;
      Some(-d)
  }

  lemma TwentyFiveLeadsMakeThreePages()
    ensures TotalPages(25, 10) == Some(3)
  {
  }

  /** The options `getLeads` hands to the repository, with the page size capped at 100 from above. */
  function ListOptionsOf(req: ListRequest): ListOptions {
    ListOptions(Some(req.page.GetOr(1)), Some(EffectiveLimit(req.limit.GetOr(10))), Some(ParseSort(req.sort)),
                req.q, req.status, req.source, req.createdFrom, req.createdTo)
  }

  /** The caller's filter of a listing: the owner. */
  function OwnerFilter(userId: Id): map<string, string> {
    map["createdBy" := userId]
  }

  /** A listing for a user matches only that user's leads. */
  lemma ListingIsOwners(l: Lead, userId: Id, o: ListOptions, date: string -> Timestamp)
    requires ListMatches(l, OwnerFilter(userId), o, date)
    ensures l.createdBy == userId
  {
    assert "createdBy" in OwnerFilter(userId) && !Overridden("createdBy", o);
  }

  datatype PageInfo = PageInfo(total: nat, page: int, totalPages: Option<int>)
  datatype LeadPage = LeadPage(data: seq<Lead>, pagination: PageInfo)

  // ----- statistics parameters -----

  /** `{ createdBy: userId, ...query }`: the query's own `createdBy`, if it has one, wins. */
  function StatsFilterOf(userId: Id, query: map<string, string>): (f: map<string, string>)
    ensures f.Keys == query.Keys + {"createdBy"}
    ensures forall k :: k in query ==> f[k] == query[k]
    ensures "createdBy" !in query ==> f["createdBy"] == userId
  {
    map["createdBy" := userId] + query
  }

  /** Without a `createdBy` in the query, the statistics count only the user's leads. */
  lemma StatsOwnersUnlessOverridden(l: Lead, userId: Id, query: map<string, string>, date: string -> Timestamp)
    requires "createdBy" !in query
    requires StatsMatches(l, StatsFilterOf(userId, query), date)
    ensures l.createdBy == userId
  {
    var f := StatsFilterOf(userId, query);
    assert "createdBy" in f && !Dropped("createdBy", f);
  }

  /**
   * With `createdBy` in the query, the statistics count another user's leads:
   * a lead of `other` is counted for `userId`.
   */
  lemma StatsQueryOverridesOwner(userId: Id, other: Id, l: Lead, date: string -> Timestamp)
    requires other != userId && l.createdBy == other
    ensures StatsMatches(l, StatsFilterOf(userId, map["createdBy" := other]), date)
    ensures l.createdBy != userId
  {
    var f := StatsFilterOf(userId, map["createdBy" := other]);
    assert f == map["createdBy" := other];
  }

  /** The statistics filter with the owner placed last, so the query cannot replace it. */
  function ScopedStatsFilterOf(userId: Id, query: map<string, string>): (f: map<string, string>)
    ensures f.Keys == query.Keys + {"createdBy"}
    ensures f["createdBy"] == userId
    ensures forall k :: k in query && k != "createdBy" ==> f[k] == query[k]
  {
    query["createdBy" := userId]
  }

  /** With the owner placed last, the statistics count only the user's leads, whatever the query. */
  lemma ScopedStatsAreOwners(l: Lead, userId: Id, query: map<string, string>, date: string -> Timestamp)
    requires StatsMatches(l, ScopedStatsFilterOf(userId, query), date)
    ensures l.createdBy == userId
  {
    var f := ScopedStatsFilterOf(userId, query);
    assert "createdBy" in f && !Dropped("createdBy", f);
  }

  /** A zero page size is passed to the database as "no limit": a page can hold every matching lead. */
  lemma ZeroLimitReturnsAll(s: seq<Lead>)
    ensures EffectiveLimit(0) == 0
    ensures Window(s, 0, EffectiveLimit(0)) == s
  {
  }

  /** A negative page size of -500 passes the cap and returns up to 500 leads. */
  lemma NegativeLimitPassesCap(s: seq<Lead>)
    requires |s| >= 500
    ensures |Window(s, 0, EffectiveLimit(-500))| == 500
  {
  }

  /** The page size clamped to 1..100. */
  function CappedLimit(requested: int): (r: int)
    ensures 1 <= r <= 100
    ensures 1 <= requested <= 100 ==> r == requested
  {
    if requested < 1 then 1 else if requested > 100 then 100 else requested
  }

  /** With the clamped page size the skip is negative exactly for pages before the first. */
  lemma SkipSign(page: int, requested: int)
    ensures (page - 1) * CappedLimit(requested) < 0 <==> page < 1
  {
    var limit := CappedLimit(requested);
    if page >= 1 {
      assert (page - 1) * limit >= 0;
    } else {
      assert (page - 1) * limit <= page - 1;
    }
  }

  /** With the clamped page size no page holds more than 100 leads. */
  lemma CappedPagesAreBounded(s: seq<Lead>, skip: nat, requested: int)
    ensures |Window(s, skip, CappedLimit(requested))| <= 100
  {
  }

  class LeadService {
    const repo: Repository

    constructor (repo: Repository)
      ensures this.repo == repo
    {
      this.repo := repo;
    }

    /** `createLead`: refuses a body without name, phone, source and status; otherwise stores it owned by the user. */
    method CreateLead(userId: Id, data: LeadData, id: Id, now: Timestamp) returns (r: Result<Lead, LeadError>)
      requires repo.Valid() && id !in repo.leads
      modifies repo
      ensures repo.Valid()
      ensures r.Ok? <==> HasRequired(data)
      ensures r.Err? ==> r.error == MissingFields && repo.leads == old(repo.leads)
      ensures r.Ok? ==>
        && repo.leads == old(repo.leads)[id := r.value]
        && r.value.id == id && r.value.createdBy == userId
        && r.value.name == data.name.value && r.value.email == data.email
        && r.value.phone == data.phone.value && r.value.source == data.source.value
        && r.value.status == data.status.value && r.value.notes == data.notes
        && r.value.createdAt == now && r.value.updatedAt == now
    {
      if !HasRequired(data) {
        return Err(MissingFields);
      }
      var draft := Draft(data.name.value, data.email, data.phone.value, data.source.value,
                         data.status, data.notes, userId);
      var lead := repo.Create(draft, id, now);
      r := Ok(lead);
    }

    /** `getLead`: the lead, when it exists and the user owns it. */
    method GetLead(userId: Id, leadId: Id) returns (r: Result<Lead, LeadError>)
      requires repo.Valid()
      ensures leadId !in repo.leads ==> r == Err(NotFound)
      ensures leadId in repo.leads && repo.leads[leadId].createdBy != userId ==> r == Err(NotAuthorized)
      ensures leadId in repo.leads && repo.leads[leadId].createdBy == userId ==> r == Ok(repo.leads[leadId])
    {
      var found := repo.FindById(leadId);
      if found.None? {
        return Err(NotFound);
      }
      if found.value.createdBy != userId {
        return Err(NotAuthorized);
      }
      r := Ok(found.value);
    }

    /** `updateLead`: the ownership check of `getLead`, then the patch. */
    method UpdateLead(userId: Id, leadId: Id, patch: Patch, now: Timestamp) returns (r: Result<Lead, LeadError>)
      requires repo.Valid()
      modifies repo
      ensures repo.Valid()
      ensures leadId !in old(repo.leads) ==> r == Err(NotFound) && repo.leads == old(repo.leads)
      ensures leadId in old(repo.leads) && old(repo.leads)[leadId].createdBy != userId ==>
        r == Err(NotAuthorized) && repo.leads == old(repo.leads)
      ensures leadId in old(repo.leads) && old(repo.leads)[leadId].createdBy == userId ==>
        && r == Ok(Merge(old(repo.leads)[leadId], patch, now))
        && repo.leads == old(repo.leads)[leadId := r.value]
    {
      var check := GetLead(userId, leadId);
      if check.Err? {
        return Err(check.error);
      }
      var updated := repo.Update(leadId, patch, now);
      if updated.None? {
        return Err(UpdateFailed);
      }
      r := Ok(updated.value);
    }

    /** `deleteLead`: the ownership check of `getLead`, then the removal. */
    method DeleteLead(userId: Id, leadId: Id) returns (r: Result<bool, LeadError>)
      requires repo.Valid()
      modifies repo
      ensures repo.Valid()
      ensures leadId !in old(repo.leads) ==> r == Err(NotFound) && repo.leads == old(repo.leads)
      ensures leadId in old(repo.leads) && old(repo.leads)[leadId].createdBy != userId ==>
        r == Err(NotAuthorized) && repo.leads == old(repo.leads)
      ensures leadId in old(repo.leads) && old(repo.leads)[leadId].createdBy == userId ==>
        r == Ok(true) && repo.leads == old(repo.leads) - {leadId}
    {
      var check := GetLead(userId, leadId);
      if check.Err? {
        return Err(check.error);
      }
      var deleted := repo.Delete(leadId);
      r := Ok(deleted);
    }

    /**
     * `getLeads`: one page of the user's leads that match the query, the
     * number that match, the page number and the page count. The page size
     * is the requested one capped at 100 from above only: a page size of 0
     * is no limit, and a negative one makes a negative skip past page 1.
     */
    method GetLeads(userId: Id, req: ListRequest, docs: seq<Lead>, date: string -> Timestamp)
      returns (r: Result<LeadPage, QueryError>)
      requires repo.Valid() && repo.Enumerates(docs)
      ensures r.Err? <==> (req.page.GetOr(1) - 1) * EffectiveLimit(req.limit.GetOr(10)) < 0
      ensures r.Ok? ==>
        var matching := Where(docs, ListTest(OwnerFilter(userId), ListOptionsOf(req), date));
        var limit := EffectiveLimit(req.limit.GetOr(10));
        && r.value.data == Window(matching, (req.page.GetOr(1) - 1) * limit, limit)
        && r.value.pagination == PageInfo(|matching|, req.page.GetOr(1), TotalPages(|matching|, limit))
      ensures r.Ok? ==> forall l :: l in r.value.data ==>
        l.createdBy == userId && l.id in repo.leads && repo.leads[l.id] == l
      ensures r.Ok? && 1 <= req.limit.GetOr(10) ==> |r.value.data| <= EffectiveLimit(req.limit.GetOr(10)) <= 100
    {
      var limit := EffectiveLimit(req.limit.GetOr(10));
      var options := ListOptionsOf(req);
      assert SkipOf(options) == (req.page.GetOr(1) - 1) * limit;
      var found := FindAllLeads(OwnerFilter(userId), options, docs, date);
      if found.Err? {
        return Err(found.error);
      }
      var matching := Where(docs, ListTest(OwnerFilter(userId), options, date));
      forall l | l in found.value.leads
        ensures l.createdBy == userId && l.id in repo.leads && repo.leads[l.id] == l
      {
        WindowFrom(matching, SkipOf(options), LimitOf(options), l);
        ListingIsOwners(l, userId, options, date);
        var i :| 0 <= i < |docs| && docs[i] == l;
      }
      r := Ok(LeadPage(found.value.leads,
                       PageInfo(found.value.total, req.page.GetOr(1), TotalPages(found.value.total, limit))));
    }

    /**
     * `getStats`: the counts of the leads that match `{ createdBy: userId,
     * ...query }`. They are the user's own leads only when the query
     * carries no `createdBy` of its own.
     */
    method GetStats(userId: Id, query: map<string, string>, docs: seq<Lead>, date: string -> Timestamp)
      returns (stats: Stats)
      requires repo.Valid() && repo.Enumerates(docs)
      ensures stats == Summarize(Where(docs, StatsTest(StatsFilterOf(userId, query), date)))
      ensures forall l :: l in Where(docs, StatsTest(StatsFilterOf(userId, query), date)) ==>
        l.id in repo.leads && repo.leads[l.id] == l && ("createdBy" !in query ==> l.createdBy == userId)
    {
      var filter := StatsFilterOf(userId, query);
      stats := LeadRepo.GetStats(filter, docs, date);
      forall l | l in Where(docs, StatsTest(filter, date))
        ensures l.id in repo.leads && repo.leads[l.id] == l && ("createdBy" !in query ==> l.createdBy == userId)
      {
        if "createdBy" !in query {
          StatsOwnersUnlessOverridden(l, userId, query, date);
        }
        var i :| 0 <= i < |docs| && docs[i] == l;
      }
    }
  }
}
