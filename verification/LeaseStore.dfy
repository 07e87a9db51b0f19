/**
 The leased operations in place: each method is one transaction on the tables, with rollback.
 Every method is proved to do exactly the step that module Lease defines.
 */
module LeaseStore {
  import opened Text
  import opened Wrappers
  import opened Lease

  class Store {
    var leases: Leases
    var attempts: map<string, Attempt>
    var nodes: map<string, Node>
    var assessments: map<string, Assessment>
    var published: map<(Kind, string), Publication>

    function TheTables(): Tables
      reads this
    {
      Tables(leases, Rows(attempts, nodes, assessments, published))
    }

    /** Takes the lease if nobody holds it, or if it has expired. */
    method AcquireLease(assessment: string, owner: string, ttl: int, now: int) returns (r: Result<string, Error>)
      modifies this
      ensures Apply(old(TheTables()), Event(Acquire(assessment, owner, ttl), now)).0 == TheTables()
      ensures Apply(old(TheTables()), Event(Acquire(assessment, owner, ttl), now)).1
           == match r { case Ok(_) => Done case Err(e) => Failed(e) }
      ensures r.Ok? ==> r.value == owner
    {
      var id := TrimSpace(assessment);
      if id == "" || ttl <= 0 {
        return Err(InvalidRequest);
      }
      if id !in assessments {
        return Err(Constraint);
      }
      if id in leases && leases[id].expires > now {
        return Err(LeaseHeld);
      }
      leases := leases[id := LeaseRow(owner, now + ttl, now)];
      return Ok(owner);
    }

    method RenewLease(assessment: string, owner: string, ttl: int, now: int) returns (outcome: Outcome)
      modifies this
      ensures (TheTables(), outcome) == Apply(old(TheTables()), Event(Renew(assessment, owner, ttl), now))
    {
      var id, holder := TrimSpace(assessment), TrimSpace(owner);
      if id == "" || holder == "" || ttl <= 0 {
        return Failed(InvalidRequest);
      }
      if !(id in leases && leases[id].owner == holder && leases[id].expires > now) {
        return Failed(LeaseHeld);
      }
      leases := leases[id := leases[id].(expires := now + ttl, updatedAt := now)];
      return Done;
    }

    /** Deletes the lease whether or not it has expired, as long as it is still this owner's. */
    method ReleaseLease(assessment: string, owner: string, now: int) returns (outcome: Outcome)
      modifies this
      ensures (TheTables(), outcome) == Apply(old(TheTables()), Event(Release(assessment, owner), now))
    {
      var id, holder := TrimSpace(assessment), TrimSpace(owner);
      if !(id in leases && leases[id].owner == holder) {
        return Failed(LeaseHeld);
      }
      leases := leases - {id};
      return Done;
    }

    /** The fence at the head of every leased transaction. */
    method RenewInTransaction(assessment: string, owner: string, ttl: int, now: int) returns (outcome: Outcome)
      modifies this`leases
      ensures outcome.Failed? ==> leases == old(leases) && outcome == Failed(LeaseHeld)
      ensures outcome == Done <==> TrimSpace(owner) != "" && ttl > 0 && Holds(old(leases), assessment, owner, now)
      ensures outcome == Done ==> leases == Extended(old(leases), assessment, owner, ttl, now)
    {
      if TrimSpace(owner) == "" || ttl <= 0 {
        return Failed(LeaseHeld);
      }
      if !(assessment in leases && leases[assessment].owner == owner && leases[assessment].expires > now) {
        return Failed(LeaseHeld);
      }
      leases := leases[assessment := leases[assessment].(expires := now + ttl, updatedAt := now)];
      return Done;
    }

    method FinishAttemptWithLease(
      id: string, status: Status, errorClass: string, httpStatus: int, fingerprint: string, message: string,
      assessment: string, owner: string, ttl: int, now: int)
      returns (outcome: Outcome)
      modifies this
      ensures
        var change := FinishAttempt(id, status, errorClass, httpStatus, fingerprint, message);
        (TheTables(), outcome) == Apply(old(TheTables()), Event(Write(assessment, owner, ttl, change), now))
    {
      if !(status.Succeeded? || status.Failing? || status.Canceled? || status.Inconclusive?) {
        return Failed(InvalidRequest);
      }
      if httpStatus < 0 || httpStatus > 999 {
        return Failed(InvalidRequest);
      }
      var saved := leases;
      outcome := RenewInTransaction(assessment, owner, ttl, now);
      if outcome.Failed? {
        return;
      }
      if !(id in attempts && attempts[id].assessment == assessment && attempts[id].status.Running?) {
        leases := saved;
        return Failed(NotLive);
      }
      attempts := attempts[id := attempts[id].(
        status := status, errorClass := errorClass, httpStatus := httpStatus,
        responseFingerprint := fingerprint, message := message, completedAt := now)];
    }

    method StartNodeWithLease(id: string, assessment: string, owner: string, ttl: int, now: int)
      returns (outcome: Outcome)
      modifies this
      ensures (TheTables(), outcome)
           == Apply(old(TheTables()), Event(Write(assessment, owner, ttl, StartNode(id)), now))
    {
      var saved := leases;
      outcome := RenewInTransaction(assessment, owner, ttl, now);
      if outcome.Failed? {
        return;
      }
      var present := id in nodes && nodes[id].assessment == assessment;
      if present && (nodes[id].status.Planned? || nodes[id].status.Ready?) {
        nodes := nodes[id := nodes[id].(status := Running, startedAt := now)];
      } else {
        if !present {
          leases := saved;
          return Failed(NotLive);
        }
        if !nodes[id].status.Running? {
          leases := saved;
          return Failed(NotLive);
        }
      }
    }

    method FinishNodeWithLease(
      id: string, status: Status, message: string, assessment: string, owner: string, ttl: int, now: int)
      returns (outcome: Outcome)
      modifies this
      ensures (TheTables(), outcome)
           == Apply(old(TheTables()), Event(Write(assessment, owner, ttl, FinishNode(id, status, message)), now))
    {
      if !(status.Succeeded? || status.Failing? || status.Skipped? || status.Canceled?) {
        return Failed(InvalidRequest);
      }
      var saved := leases;
      outcome := RenewInTransaction(assessment, owner, ttl, now);
      if outcome.Failed? {
        return;
      }
      if !(id in nodes && nodes[id].assessment == assessment && nodes[id].status.Live()) {
        leases := saved;
        return Failed(NotLive);
      }
      nodes := nodes[id := nodes[id].(status := status, message := message, completedAt := now)];
    }

    method FinishAssessmentWithLease(id: string, status: Status, message: string, owner: string, ttl: int, now: int)
      returns (outcome: Outcome)
      modifies this
      ensures (TheTables(), outcome)
           == Apply(old(TheTables()), Event(Write(id, owner, ttl, FinishAssessment(status, message)), now))
    {
      if !(status.Succeeded? || status.Failing? || status.Canceled?) {
        return Failed(InvalidRequest);
      }
      var saved := leases;
      outcome := RenewInTransaction(id, owner, ttl, now);
      if outcome.Failed? {
        return;
      }
      if !(id in assessments && assessments[id].status.Running?) {
        leases := saved;
        return Failed(NotLive);
      }
      assessments := assessments[id := Assessment(status, message, now)];
    }

    /** Inserts an artifact, a coverage entry, a comparison or a finding. */
    method PublishWithLease(
      kind: Kind, id: string, content: string, valid: bool, storable: bool,
      assessment: string, owner: string, ttl: int, now: int)
      returns (outcome: Outcome)
      modifies this
      ensures
        var change := Publish(kind, id, content, valid, storable);
        (TheTables(), outcome) == Apply(old(TheTables()), Event(Write(assessment, owner, ttl, change), now))
    {
      if !valid {
        return Failed(InvalidRequest);
      }
      var saved := leases;
      outcome := RenewInTransaction(assessment, owner, ttl, now);
      if outcome.Failed? {
        return;
      }
      if (kind, id) in published || !storable {
        leases := saved;
        return Failed(Constraint);
      }
      published := published[(kind, id) := Publication(assessment, content)];
    }
  }
}
