/** Managed database resources: created once per project, and updated only by whoever saw their latest version. */
module ProjectDatabase {
  import opened Wrappers
  import opened Ids

  /** content stands for status, phase, credentials and failure, which updates assign. */
  datatype Resource = Resource(id: nat, content: string, version: nat)

  datatype DatabaseError = ProjectDeleting | UnknownProject | VersionConflict

  class ProjectDatabaseRepository {
    var resources: map<ProjectId, Resource>
    var nextId: nat

    constructor ()
      ensures resources == map[] && nextId == 0
    {
      resources, nextId := map[], 0;
    }

    /** A deleting project gets no resource, and a project gets only one. */
    method EnsureIntent(p: ProjectId, project: Option<ProjectStatus>) returns (r: Result<Resource, DatabaseError>)
      modifies this
      ensures project == Some(Deleting) ==> r == Failure(ProjectDeleting)
      ensures r.Failure? ==> resources == old(resources) && (project == Some(Deleting) || (project == None && p !in resources))
      ensures r.Success? ==> p in resources && r.value == resources[p]
      ensures r.Success? ==> resources == if p in old(resources) then old(resources)
                                          else old(resources)[p := Resource(old(nextId), "INTENT_RECORDED", 0)]
    {
      if project == Some(Deleting) {
        return Failure(ProjectDeleting);
      }
      if p in resources {
        return Success(resources[p]);
      }
      if project == None {
        return Failure(UnknownProject);
      }
      resources := resources[p := Resource(nextId, "INTENT_RECORDED", 0)];
      nextId := nextId + 1;
      r := Success(resources[p]);
    }

    /** Commits only against the version the caller read, so of two updates from one reading at most one commits. */
    method Update(p: ProjectId, seen: Resource, content: string) returns (r: Result<Resource, DatabaseError>)
      modifies this`resources
      ensures r.Success? <==> p in old(resources) && old(resources)[p].id == seen.id && old(resources)[p].version == seen.version
      ensures r.Success? ==> r.value == Resource(seen.id, content, seen.version + 1) && resources == old(resources)[p := r.value]
      ensures r.Failure? ==> r.error == VersionConflict && resources == old(resources)
    {
      if p !in resources || resources[p].id != seen.id || resources[p].version != seen.version {
        return Failure(VersionConflict);
      }
      resources := resources[p := Resource(seen.id, content, seen.version + 1)];
      r := Success(resources[p]);
    }
  }

  /** Two updates from one reading: the second always loses. */
  method SecondUpdateLoses(repository: ProjectDatabaseRepository, p: ProjectId, seen: Resource, a: string, b: string)
    returns (first: Result<Resource, DatabaseError>, second: Result<Resource, DatabaseError>)
    modifies repository
    ensures first.Success? ==> second == Failure(VersionConflict)
    ensures first.Success? ==> p in repository.resources && repository.resources[p].content == a
  {
    first := repository.Update(p, seen, a);
    second := repository.Update(p, seen, b);
  }
}
