/**
 * The lead repository's two queries. `findAllLeads` turns the listing
 * options into a filter and returns one page of the matching documents and
 * their total count; `getStats` turns a field filter into a match and
 * counts the matching documents by status and by source.
 *
 * The database is the sequence `docs` of stored documents, in the order the
 * query's sort puts them; matching, skipping, limiting and counting are
 * written as functions over it.
 */
module LeadRepo {
  import opened Wrappers
  import opened Text
  import opened LeadEntity

  // ----- the filter handed to the database -----

  /** A `createdAt` constraint: `$gte` and/or `$lte`. */
  datatype DateRange = DateRange(gte: Option<Timestamp>, lte: Option<Timestamp>)

  /**
   * A filter document: equality on named fields, the case-insensitive
   * `$or` search over name, e-mail and phone, and a `createdAt` range.
   */
  datatype LeadFilter = LeadFilter(
    equal: map<string, string>,
    search: Option<string>,
    createdAt: Option<DateRange>)

  /** The value a filter key compares against; a key that names no text field never matches. */
  function FieldValue(l: Lead, key: string): Option<string> {
    if key == "name" then Some(l.name)
    else if key == "email" then l.email
    else if key == "phone" then Some(l.phone)
    else if key == "source" then Some(SourceName(l.source))
    else if key == "status" then Some(StatusName(l.status))
    else if key == "notes" then l.notes
    else if key == "createdBy" then Some(l.createdBy)
    else None
  }

  /** The search term occurs, ignoring case, in the name, the e-mail or the phone. */
  predicate SearchHit(l: Lead, q: string) {
    ContainsIgnoringCase(l.name, q)
    || (l.email.Some? && ContainsIgnoringCase(l.email.value, q))
    || ContainsIgnoringCase(l.phone, q)
  }

  predicate InRange(t: Timestamp, r: DateRange) {
    (r.gte.None? || r.gte.value <= t) && (r.lte.None? || t <= r.lte.value)
  }

  /** The document satisfies every part of the filter. */
  predicate Satisfies(l: Lead, f: LeadFilter) {
    && (forall k :: k in f.equal ==> FieldValue(l, k) == Some(f.equal[k]))
    && (f.search.None? || SearchHit(l, f.search.value))
    && (f.createdAt.None? || InRange(l.createdAt, f.createdAt.value))
  }

  function FilterTest(f: LeadFilter): Lead -> bool {
    l => Satisfies(l, f)
  }

  // ----- selecting, paging and counting -----

  /** The documents of `docs` that `keep` accepts, in order. */
  function Where(docs: seq<Lead>, keep: Lead -> bool): (r: seq<Lead>)
    ensures |r| <= |docs|
    ensures forall l :: l in r <==> l in docs && keep(l)
  {
    if docs == [] then []
    else (if keep(docs[0]) then [docs[0]] else []) + Where(docs[1..], keep)
  }

  lemma {:induction false} WhereSame(docs: seq<Lead>, p: Lead -> bool, q: Lead -> bool)
    requires forall l :: l in docs ==> p(l) == q(l)
    ensures Where(docs, p) == Where(docs, q)
  {
    if docs != [] {
      WhereSame(docs[1..], p, q);
    }
  }

  /**
   * `.skip(skip).limit(limit)`: the documents from position `skip` on, at
   * most `|limit|` of them; a zero limit means no limit and a negative one
   * returns `-limit` documents in a single batch.
   */
  function Window<T>(s: seq<T>, skip: nat, limit: int): (r: seq<T>)
    ensures skip >= |s| ==> r == []
    ensures limit != 0 ==> |r| <= (if limit < 0 then -limit else limit)
    ensures skip < |s| && (limit == 0 || |s| - skip <= (if limit < 0 then -limit else limit)) ==> |r| == |s| - skip
    ensures skip < |s| && limit != 0 && |s| - skip > (if limit < 0 then -limit else limit) ==>
      |r| == (if limit < 0 then -limit else limit)
    ensures forall i :: 0 <= i < |r| ==> skip + i < |s| && r[i] == s[skip + i]
  {
    var rest := if skip <= |s| then s[skip..] else [];
    var n := if limit < 0 then -limit else limit;
    if limit == 0 || |rest| <= n then rest else rest[..n]
  }

  lemma WindowFrom<T>(s: seq<T>, skip: nat, limit: int, x: T)
    requires x in Window(s, skip, limit)
    ensures x in s
  {
    var r := Window(s, skip, limit);
    var i :| 0 <= i < |r| && r[i] == x;
    assert s[skip + i] == x;
  }

  // ----- findAllLeads -----

  /** How the documents are ordered: a field, descending or ascending. */
  datatype SortSpec = SortSpec(field: string, descending: bool)

  const DefaultSort := SortSpec("createdAt", true)

  /**
   * The listing options: page and limit (already numbers), the sort, and
   * the remaining query parameters; an absent text parameter is "". The
   * sort is carried but not applied: `docs` is taken to be in its order.
   */
  datatype ListOptions = ListOptions(
    page: Option<int>,
    limit: Option<int>,
    sort: Option<SortSpec>,
    q: string,
    status: string,
    source: string,
    createdFrom: string,
    createdTo: string)

  function PageOf(o: ListOptions): int { o.page.GetOr(1) }
  function LimitOf(o: ListOptions): int { o.limit.GetOr(10) }
  function SkipOf(o: ListOptions): int { (PageOf(o) - 1) * LimitOf(o) }

  /** A key of the caller's filter that a listing option replaces. */
  predicate Overridden(key: string, o: ListOptions) {
    || (key == "status" && o.status != "")
    || (key == "source" && o.source != "")
    || (key == "createdAt" && (o.createdFrom != "" || o.createdTo != ""))
  }

  /**
   * What a listing matches: the caller's filter on every key the options do
   * not replace, and each given option; `date` reads a date parameter.
   */
  predicate ListMatches(l: Lead, base: map<string, string>, o: ListOptions, date: string -> Timestamp) {
    && (forall k :: k in base && !Overridden(k, o) ==> FieldValue(l, k) == Some(base[k]))
    && (o.q == "" || SearchHit(l, o.q))
    && (o.status == "" || StatusName(l.status) == o.status)
    && (o.source == "" || SourceName(l.source) == o.source)
    && (o.createdFrom == "" || date(o.createdFrom) <= l.createdAt)
    && (o.createdTo == "" || l.createdAt <= date(o.createdTo))
  }

  function ListTest(base: map<string, string>, o: ListOptions, date: string -> Timestamp): Lead -> bool {
    l => ListMatches(l, base, o, date)
  }

  /** Builds the listing's filter from the caller's filter and the options, one option at a time. */
  method BuildListFilter(base: map<string, string>, o: ListOptions, date: string -> Timestamp)
    returns (f: LeadFilter)
    ensures forall l :: Satisfies(l, f) <==> ListMatches(l, base, o, date)
  {
    var equal := base;
    var search: Option<string> := None;
    var range: Option<DateRange> := None;
    if o.q != "" {
      search := Some(o.q);
    }
    if o.status != "" {
      equal := equal["status" := o.status];
    }
    if o.source != "" {
      equal := equal["source" := o.source];
    }
    if o.createdFrom != "" || o.createdTo != "" {
      var gte: Option<Timestamp> := None;
      var lte: Option<Timestamp> := None;
      if o.createdFrom != "" {
        gte := Some(date(o.createdFrom));
      }
      if o.createdTo != "" {
        lte := Some(date(o.createdTo));
      }
      equal := equal - {"createdAt"};
      range := Some(DateRange(gte, lte));
    }
    f := LeadFilter(equal, search, range);
    forall l ensures Satisfies(l, f) <==> ListMatches(l, base, o, date) {
      ListEqualities(l, base, o, equal);
    }
  }

  lemma ListEqualities(l: Lead, base: map<string, string>, o: ListOptions, equal: map<string, string>)
    requires forall k :: k in equal <==>
      ((k in base && !(k == "createdAt" && (o.createdFrom != "" || o.createdTo != "")))
       || (k == "status" && o.status != "") || (k == "source" && o.source != ""))
    requires forall k :: k in equal && !Overridden(k, o) ==> equal[k] == base[k]
    requires o.status != "" ==> "status" in equal && equal["status"] == o.status
    requires o.source != "" ==> "source" in equal && equal["source"] == o.source
    ensures (forall k :: k in equal ==> FieldValue(l, k) == Some(equal[k]))
        <==> (&& (forall k :: k in base && !Overridden(k, o) ==> FieldValue(l, k) == Some(base[k]))
              && (o.status == "" || StatusName(l.status) == o.status)
              && (o.source == "" || SourceName(l.source) == o.source))
  {
  }

  /** One page of the listing and the number of documents that match. */
  datatype Listing = Listing(leads: seq<Lead>, total: nat)

  /** The database refuses a negative skip. */
  datatype QueryError = NegativeSkip

  /** `findAllLeads`: the requested page of the matching documents, and how many match in all. */
  method FindAllLeads(base: map<string, string>, o: ListOptions, docs: seq<Lead>, date: string -> Timestamp)
    returns (r: Result<Listing, QueryError>)
    ensures r.Err? <==> SkipOf(o) < 0
    ensures r.Ok? ==> r.value.total == |Where(docs, ListTest(base, o, date))|
    ensures r.Ok? ==> r.value.leads == Window(Where(docs, ListTest(base, o, date)), SkipOf(o), LimitOf(o))
  {
    var skip := SkipOf(o);
    var f := BuildListFilter(base, o, date);
    if skip < 0 {
      return Err(NegativeSkip);
    }
    WhereSame(docs, FilterTest(f), ListTest(base, o, date));
    var matching := Where(docs, FilterTest(f));
    r := Ok(Listing(Window(matching, skip, LimitOf(o)), |matching|));
  }

  /** Every document a listing returns satisfies the caller's filter on each key the options leave alone. */
  lemma ListingKeepsBase(l: Lead, base: map<string, string>, o: ListOptions, date: string -> Timestamp, key: string)
    requires ListMatches(l, base, o, date)
    requires key in base && key !in {"status", "source", "createdAt"}
    ensures FieldValue(l, key) == Some(base[key])
  {
  }

  // ----- getStats -----

  /** The filter asks for a date range: a non-empty `createdFrom` or `createdTo`. */
  predicate HasRange(filter: map<string, string>) {
    ("createdFrom" in filter && filter["createdFrom"] != "") || ("createdTo" in filter && filter["createdTo"] != "")
  }

  /** A key `getStats` takes out of the equality match because it became the range. */
  predicate Dropped(key: string, filter: map<string, string>) {
    HasRange(filter) && (key == "createdFrom" || key == "createdTo" || key == "createdAt")
  }

  /** What the statistics count: equality on every remaining key, and the date range. */
  predicate StatsMatches(l: Lead, filter: map<string, string>, date: string -> Timestamp) {
    && (forall k :: k in filter && !Dropped(k, filter) ==> FieldValue(l, k) == Some(filter[k]))
    && (("createdFrom" in filter && filter["createdFrom"] != "") ==> date(filter["createdFrom"]) <= l.createdAt)
    && (("createdTo" in filter && filter["createdTo"] != "") ==> l.createdAt <= date(filter["createdTo"]))
  }

  function StatsTest(filter: map<string, string>, date: string -> Timestamp): Lead -> bool {
    l => StatsMatches(l, filter, date)
  }

  /**
   * Builds the `$match` of `getStats`: the filter's fields, with the two date
   * parameters turned into a `createdAt` range and removed. The owner id is
   * compared as the id it names.
   */
  method BuildStatsFilter(filter: map<string, string>, date: string -> Timestamp) returns (f: LeadFilter)
    ensures f.search.None?
    ensures forall l :: Satisfies(l, f) <==> StatsMatches(l, filter, date)
  {
    var equal := filter;
    var range: Option<DateRange> := None;
    var from := if "createdFrom" in filter then filter["createdFrom"] else "";
    var to := if "createdTo" in filter then filter["createdTo"] else "";
    if from != "" || to != "" {
      var gte: Option<Timestamp> := None;
      var lte: Option<Timestamp> := None;
      if from != "" {
        gte := Some(date(from));
      }
      if to != "" {
        lte := Some(date(to));
      }
      equal := equal - {"createdAt"};
      equal := equal - {"createdFrom", "createdTo"};
      range := Some(DateRange(gte, lte));
    }
    f := LeadFilter(equal, None, range);
    assert forall k :: k in equal <==> k in filter && !Dropped(k, filter);
  }

  /** The one document the aggregation returns. `totalLeads` is absent when nothing matches. */
  datatype Stats = Stats(totalLeads: Option<nat>, byStatus: map<Status, nat>, bySource: map<Source, nat>)

  function CountStatus(s: seq<Lead>, st: Status): nat {
    if s == [] then 0 else (if s[0].status == st then 1 else 0) + CountStatus(s[1..], st)
  }

  function CountSource(s: seq<Lead>, so: Source): nat {
    if s == [] then 0 else (if s[0].source == so then 1 else 0) + CountSource(s[1..], so)
  }

  /** `$group` by status: one entry per status that occurs, holding how many documents have it. */
  function ByStatus(s: seq<Lead>): (m: map<Status, nat>)
    ensures forall st :: st in m <==> CountStatus(s, st) > 0
    ensures forall st :: st in m ==> m[st] == CountStatus(s, st)
  {
    map st | st in {New, Contacted, Qualified, Won, Lost} && CountStatus(s, st) > 0 :: CountStatus(s, st)
  }

  /** `$group` by source: one entry per source that occurs, holding how many documents have it. */
  function BySource(s: seq<Lead>): (m: map<Source, nat>)
    ensures forall so :: so in m <==> CountSource(s, so) > 0
    ensures forall so :: so in m ==> m[so] == CountSource(s, so)
  {
    map so | so in {Website, Referral, Cold} && CountSource(s, so) > 0 :: CountSource(s, so)
  }

  /** The `$facet` and `$project` stages over the matched documents. */
  function Summarize(s: seq<Lead>): Stats {
    Stats(if s == [] then None else Some(|s|), ByStatus(s), BySource(s))
  }

  /** `getStats`: the one summary document of the documents the filter matches. */
  method GetStats(filter: map<string, string>, docs: seq<Lead>, date: string -> Timestamp) returns (stats: Stats)
    ensures stats == Summarize(Where(docs, StatsTest(filter, date)))
  {
    var f := BuildStatsFilter(filter, date);
    WhereSame(docs, FilterTest(f), StatsTest(filter, date));
    stats := Summarize(Where(docs, FilterTest(f)));
  }

  // ----- the counts add up -----

  function Get<K>(m: map<K, nat>, k: K): nat {
    if k in m then m[k] else 0
  }

  function StatusSum(m: map<Status, nat>): nat {
    Get(m, New) + Get(m, Contacted) + Get(m, Qualified) + Get(m, Won) + Get(m, Lost)
  }

  function SourceSum(m: map<Source, nat>): nat {
    Get(m, Website) + Get(m, Referral) + Get(m, Cold)
  }

  lemma {:induction false} StatusCountsCover(s: seq<Lead>)
    ensures CountStatus(s, New) + CountStatus(s, Contacted) + CountStatus(s, Qualified)
          + CountStatus(s, Won) + CountStatus(s, Lost) == |s|
  {
    if s != [] {
      StatusCountsCover(s[1..]);
    }
  }

  lemma {:induction false} SourceCountsCover(s: seq<Lead>)
    ensures CountSource(s, Website) + CountSource(s, Referral) + CountSource(s, Cold) == |s|
  {
    if s != [] {
      SourceCountsCover(s[1..]);
    }
  }

  /**
   * The per-status counts and the per-source counts each add up to the
   * number of matched documents, which `totalLeads` reports whenever it is
   * present.
   */
  lemma CountsAddUp(s: seq<Lead>)
    ensures StatusSum(Summarize(s).byStatus) == |s|
    ensures SourceSum(Summarize(s).bySource) == |s|
    ensures Summarize(s).totalLeads.Some? ==> Summarize(s).totalLeads.value == |s|
    ensures Summarize(s).totalLeads.None? <==> s == []
  {
    StatusCountsCover(s);
    SourceCountsCover(s);
  }
}
