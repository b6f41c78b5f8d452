/** The reconciliation requests as mutable rows: each method is one transaction, proved against ReconciliationStore. */
module ReconciliationRepository {
  import opened Wrappers
  import opened Ids
  import S = ReconciliationStore

  ghost predicate Commits(before: S.Db, outcome: Result<S.Db, S.RequestError>, after: S.Db,
                          d: DeploymentId, r: Result<S.Row, S.RequestError>)
  {
    match outcome
    case Success(db) => after == db && d in db.rows && r == Success(db.rows[d])
    case Failure(e) => after == before && r == Failure(e)
  }

  class RuntimeReconciliationRepository {
    var rows: map<DeploymentId, S.Row>
    var nextToken: Token

    constructor ()
      ensures Tables() == S.Db(map[], 0)
    {
      rows, nextToken := map[], 0;
    }

    ghost function Tables(): S.Db
      reads this
    {
      S.Db(rows, nextToken)
    }

    method Request(d: DeploymentId, project: Option<ProjectStatus>, now: Time) returns (r: Result<S.Row, S.RequestError>)
      modifies this`rows
      ensures Commits(old(Tables()), S.Request(old(Tables()), d, project, now), Tables(), d, r)
    {
      if project == Some(Deleting) {
        return Failure(S.ProjectDeleting);
      }
      if project == None {
        return Failure(S.UnknownDeployment);
      }
      if d in rows && rows[d].state == S.Claimed {
        return Failure(S.InProgress);
      }
      rows := rows[d := S.Row(S.Pending, 0, now, None)];
      r := Success(rows[d]);
    }

    /** One row for every candidate that has none and whose project is not being deleted. */
    method ScheduleAutomatic(candidates: seq<(DeploymentId, Time)>, projects: map<DeploymentId, ProjectStatus>)
      modifies this`rows
      ensures Tables() == S.ScheduleAll(old(Tables()), candidates, projects)
    {
      for i := 0 to |candidates|
        invariant Tables() == S.ScheduleAll(old(Tables()), candidates[..i], projects)
      {
        var d, availableAt := candidates[i].0, candidates[i].1;
        assert candidates[..i + 1][..i] == candidates[..i];
        if d in projects && projects[d] != Deleting && d !in rows {
          rows := rows[d := S.Row(S.Pending, 0, availableAt, None)];
        }
      }
      assert candidates[..|candidates|] == candidates;
    }

    /** Claims some claimable row; refuses only when there is none. */
    method ClaimNext(owner: WorkerId, now: Time, duration: nat) returns (claim: Option<S.Claim>)
      modifies this
      ensures claim == None ==> Tables() == old(Tables()) && forall d :: d in old(rows) ==> !S.Claimable(old(Tables()), d, now)
      ensures claim.Some? ==>
        && S.Claimable(old(Tables()), claim.value.deployment, now)
        && (Tables(), claim.value) == S.ClaimRow(old(Tables()), claim.value.deployment, owner, now, duration)
    {
      var tables := S.Db(rows, nextToken);
      if exists d :: d in rows && S.Claimable(tables, d, now) {
        var d :| d in rows && S.Claimable(tables, d, now);
        var attempts := rows[d].attempts + 1;
        rows := rows[d := rows[d].(state := S.Claimed, attempts := attempts, lease := Some(Lease(owner, nextToken, now + duration)))];
        claim := Some(S.Claim(d, owner, nextToken, attempts));
        nextToken := nextToken + 1;
      } else {
        claim := None;
      }
    }

    method Renew(c: S.Claim, now: Time, duration: nat) returns (r: Result<S.Row, S.RequestError>)
      modifies this`rows
      ensures Commits(old(Tables()), S.Renew(old(Tables()), c, now, duration), Tables(), c.deployment, r)
    {
      if !S.Live(S.Db(rows, nextToken), c, now) {
        return Failure(S.ClaimLost);
      }
      var row := rows[c.deployment];
      rows := rows[c.deployment := row.(lease := Some(row.lease.value.(expiresAt := now + duration)))];
      r := Success(rows[c.deployment]);
    }

    /** Resolves or blocks the request. */
    method Finish(c: S.Claim, now: Time, blocked: bool) returns (r: Result<S.Row, S.RequestError>)
      modifies this`rows
      ensures Commits(old(Tables()), S.Finish(old(Tables()), c, now, blocked), Tables(), c.deployment, r)
    {
      if !S.Live(S.Db(rows, nextToken), c, now) {
        return Failure(S.ClaimLost);
      }
      rows := rows[c.deployment := rows[c.deployment].(state := if blocked then S.Blocked else S.Resolved, lease := None)];
      r := Success(rows[c.deployment]);
    }

    method Retry(c: S.Claim, now: Time, availableAt: Time) returns (r: Result<S.Row, S.RequestError>)
      modifies this`rows
      ensures Commits(old(Tables()), S.Retry(old(Tables()), c, now, availableAt), Tables(), c.deployment, r)
    {
      if !S.Live(S.Db(rows, nextToken), c, now) {
        return Failure(S.ClaimLost);
      }
      rows := rows[c.deployment := rows[c.deployment].(state := S.Pending, availableAt := availableAt, lease := None)];
      r := Success(rows[c.deployment]);
    }
  }
}
