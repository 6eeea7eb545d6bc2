/**
 * The generic repository as the lead collection uses it: create, find by id,
 * update by id and delete by id over the stored lead documents.
 */
module BaseRepo {
  import opened Wrappers
  import opened LeadEntity

  /** What `create` receives: the request's fields with the owner already stamped on. */
  datatype Draft = Draft(
    name: string,
    email: Option<string>,
    phone: string,
    source: Source,
    status: Option<Status>,
    notes: Option<string>,
    createdBy: Id)

  /**
   * What `update` receives: each present field replaces the stored one, as a
   * `$set` does; absent fields are left alone. The id and the creation time
   * cannot be changed.
   */
  datatype Patch = Patch(
    name: Option<string>,
    email: Option<string>,
    phone: Option<string>,
    source: Option<Source>,
    status: Option<Status>,
    notes: Option<string>,
    createdBy: Option<Id>)

  function Pick<T>(current: T, given: Option<T>): T {
    if given.Some? then given.value else current
  }

  /** The stored document for a draft: fresh id, default status when none is given, both timestamps now. */
  function Materialize(d: Draft, id: Id, now: Timestamp): Lead {
    Lead(id, d.name, d.email, d.phone, d.source, Pick(DefaultStatus, d.status), d.notes,
         d.createdBy, now, now)
  }

  /** A stored document after a patch; `updatedAt` moves to now. */
  function Merge(l: Lead, p: Patch, now: Timestamp): Lead {
    l.(name := Pick(l.name, p.name),
       email := if p.email.Some? then p.email else l.email,
       phone := Pick(l.phone, p.phone),
       source := Pick(l.source, p.source),
       status := Pick(l.status, p.status),
       notes := if p.notes.Some? then p.notes else l.notes,
       createdBy := Pick(l.createdBy, p.createdBy),
       updatedAt := now)
  }

  /** A patch with no field changes nothing but the update time. */
  lemma EmptyPatchTouchesOnlyTime(l: Lead, now: Timestamp)
    ensures Merge(l, Patch(None, None, None, None, None, None, None), now) == l.(updatedAt := now)
  {
  }

  /** Applying the same patch twice is the same as applying it once. */
  lemma MergeIdempotent(l: Lead, p: Patch, now: Timestamp)
    ensures Merge(Merge(l, p, now), p, now) == Merge(l, p, now)
  {
  }

  class Repository {
    /** The stored documents, by id. */
    var leads: map<Id, Lead>

    ghost predicate Valid()
      reads this
    {
      forall id :: id in leads ==> leads[id].id == id
    }

    /**
     * `docs` lists every stored document exactly once: the collection in the
     * order a query scans or sorts it.
     */
    ghost predicate Enumerates(docs: seq<Lead>)
      reads this
    {
      && (forall i :: 0 <= i < |docs| ==> docs[i].id in leads && leads[docs[i].id] == docs[i])
      && (forall i, j :: 0 <= i < j < |docs| ==> docs[i].id != docs[j].id)
      && (forall id :: id in leads ==> exists i :: 0 <= i < |docs| && docs[i].id == id)
    }

    constructor ()
      ensures Valid() && leads == map[]
    {
      leads := map[];
    }

    /** `create`: stores the draft under the fresh id `id`, at time `now`. */
    method Create(d: Draft, id: Id, now: Timestamp) returns (lead: Lead)
      requires Valid() && id !in leads
      modifies this
      ensures Valid()
      ensures lead == Materialize(d, id, now)
      ensures leads == old(leads)[id := lead]
    {
      lead := Materialize(d, id, now);
      leads := leads[id := lead];
    }

    /** `findById`: the stored document with that id, if any. */
    method FindById(id: Id) returns (r: Option<Lead>)
      requires Valid()
      ensures r.Some? <==> id in leads
      ensures r.Some? ==> r.value == leads[id] && r.value.id == id
    {
      if id in leads {
        r := Some(leads[id]);
      } else {
        r := None;
      }
    }

    /** `update`: patches the document with that id and returns the new version; none when there is no such document. */
    method Update(id: Id, p: Patch, now: Timestamp) returns (r: Option<Lead>)
      requires Valid()
      modifies this
      ensures Valid()
      ensures id !in old(leads) ==> r.None? && leads == old(leads)
      ensures id in old(leads) ==>
        r == Some(Merge(old(leads)[id], p, now)) && leads == old(leads)[id := r.value]
    {
      if id in leads {
        var updated := Merge(leads[id], p, now);
        leads := leads[id := updated];
        r := Some(updated);
      } else {
        r := None;
      }
    }

    /** `delete`: removes the document with that id; true when there was one. */
    method Delete(id: Id) returns (found: bool)
      requires Valid()
      modifies this
      ensures Valid()
      ensures found == (id in old(leads))
      ensures leads == old(leads) - {id}
    {
      found := id in leads;
      leads := leads - {id};
    }
  }
}
