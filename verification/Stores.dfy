/** The two Mongo collections of the service. */
module Stores {
  import opened Domain
  import opened Faults

  /** A stored journey document; its key is the user id. */
  datatype Doc = Doc(journey: Journey, updatedAt: Time)

  /** A provisioning record; its key is the org id. */
  datatype Record = Record(completed: bool, resources: map<string, string>, createdAt: Option<Time>, updatedAt: Time)

  type Docs = map<string, Doc>
  type Records = map<string, Record>

  function Replaced(docs: Docs, j: Journey, now: Time): Docs {
    docs[j.userId := Doc(j, now)]
  }

  function WithOrgId(docs: Docs, userId: string, orgId: string, now: Time): Docs {
    var was := if userId in docs then docs[userId].journey
               else Journey(userId, "", "", InProgress, "", 0, [], now, None);
    docs[userId := Doc(was.(orgId := orgId), now)]
  }

  function Stamped(r: Record, now: Time): Record {
    r.(createdAt := if r.createdAt.None? then Some(now) else r.createdAt, updatedAt := now)
  }

  class JourneyRepo {
    var docs: Docs

    constructor ()
      ensures docs == map[]
    {
      docs := map[];
    }

    /** Replace the whole document of the journey's user. */
    method Upsert(j: Journey, now: Time, f: Fault) returns (r: Result<()>)
      modifies this
      ensures docs == if f.Lands() then old(docs)[j.userId := Doc(j, now)] else old(docs)
      ensures r == if f.Fine? then Done(()) else Stop(f)
    {
      if f.Lands() {
        docs := docs[j.userId := Doc(j, now)];
      }
      r := if f.Fine? then Done(()) else Stop(f);
    }

    /** Set only the org id, inserting a bare document when there is none. */
    method SetOrgID(userId: string, orgId: string, now: Time, f: Fault) returns (r: Result<()>)
      modifies this
      ensures docs == if f.Lands() then WithOrgId(old(docs), userId, orgId, now) else old(docs)
      ensures r == if f.Fine? then Done(()) else Stop(f)
    {
      if f.Lands() {
        if userId !in docs {
          docs := docs[userId := Doc(Journey(userId, "", "", InProgress, "", 0, [], now, None), now)];
        }
        var d := docs[userId];
        docs := docs[userId := d.(journey := d.journey.(orgId := orgId), updatedAt := now)];
      }
      r := if f.Fine? then Done(()) else Stop(f);
    }

    method FindByUserID(userId: string, f: Fault) returns (r: Result<Option<Doc>>)
      ensures r == if !f.Fine? then Stop(f) else Done(if userId in docs then Some(docs[userId]) else None)
    {
      if !f.Fine? {
        return Stop(f);
      }
      r := Done(if userId in docs then Some(docs[userId]) else None);
    }
  }

  class ProvisioningRecordRepo {
    var recs: Records

    constructor ()
      ensures recs == map[]
    {
      recs := map[];
    }

    method GetByOrgID(orgId: string, f: Fault) returns (r: Result<Option<Record>>)
      ensures r == if !f.Fine? then Stop(f) else Done(if orgId in recs then Some(recs[orgId]) else None)
    {
      if !f.Fine? {
        return Stop(f);
      }
      r := Done(if orgId in recs then Some(recs[orgId]) else None);
    }

    /** Write the record, stamping its creation time once. */
    method Upsert(orgId: string, rec: Record, now: Time, f: Fault) returns (r: Result<()>)
      modifies this
      ensures recs == if f.Lands() then old(recs)[orgId := Stamped(rec, now)] else old(recs)
      ensures r == if f.Fine? then Done(()) else Stop(f)
    {
      if f.Lands() {
        var doc := rec;
        if doc.createdAt == None {
          doc := doc.(createdAt := Some(now));
        }
        doc := doc.(updatedAt := now);
        recs := recs[orgId := doc];
      }
      r := if f.Fine? then Done(()) else Stop(f);
    }
  }

  /** Setting the org id changes nothing else of an existing document, and a later
      whole-document replace by a journey with the same id keeps it. */
  lemma {:induction false} SetOrgIdTouchesOneField(docs: Docs, userId: string, orgId: string, now: Time)
    ensures var after := WithOrgId(docs, userId, orgId, now);
            && after.Keys == docs.Keys + {userId}
            && after[userId].journey.orgId == orgId
            && (userId in docs ==> after[userId].journey == docs[userId].journey.(orgId := orgId))
            && (userId !in docs ==>
                  var j := after[userId].journey;
                  j.userId == userId && j.status == InProgress && j.startedAt == now && j.steps == []
                    && j.completedAt == None)
            && after[userId].updatedAt == now
            && (forall u :: u in docs && u != userId ==> after[u] == docs[u])
            && (forall j: Journey, t: Time :: j.userId == userId && j.orgId == orgId ==>
              Replaced(after, j, t)[userId].journey.orgId == orgId)
  {
  }
}
