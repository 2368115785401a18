/**
 * The submit handler of the project form (src/pages/CreateProject.tsx:16-52): the
 * login guard, the repository-name check, and the `createProject` call with its
 * loading flag.
 */
module CreateProjectPage {
  import opened Json
  import opened Ui
  import RepositoryName

  /** The record handed to `createProject` (CreateProject.tsx:33-38). */
  datatype ProjectInsert = ProjectInsert(name: string, repository: string, description: Option<string>, user_id: string)

  /** One `createProject` call, with the page's `loading` flag while it was pending. */
  datatype CreateCall = CreateCall(record: ProjectInsert, loadingWhilePending: bool)

  /** The store's answer: the new row's id, or an error. */
  datatype InsertReply = Inserted(id: string) | InsertFailed

  const LoginRequiredMessage: string := "You must be logged in to create a project"
  const RepositoryFormatMessage: string := "Repository must be in the format \"owner/repo\""
  const CreatedMessage: string := "Project created successfully"
  const CreateFailedMessage: string := "Failed to create project"

  /** `description || undefined`: an empty description is not sent. */
  function InsertRecord(name: string, repository: string, description: string, userId: string): (r: ProjectInsert)
    ensures r.name == name && r.repository == repository && r.user_id == userId
    ensures r.description.None? <==> description == ""
    ensures r.description.Some? ==> r.description.value == description
  {
    ProjectInsert(name, repository, if description == "" then None else Some(description), userId)
  }

  class CreateProjectForm {
    var name: string
    var repository: string
    var description: string
    var loading: bool
    var calls: seq<CreateCall>
    var notices: seq<Notice>
    var location: Option<string>

    /** Every project the form has sent had an owner/name repository and was sent while loading. */
    ghost predicate Valid()
      reads this
    {
      forall i :: 0 <= i < |calls| ==>
        RepositoryName.OwnerSlashName(calls[i].record.repository) && calls[i].loadingWhilePending
    }

    constructor ()
      ensures Valid()
      ensures name == "" && repository == "" && description == "" && !loading
      ensures calls == [] && notices == [] && location.None?
    {
      name, repository, description := "", "", "";
      loading := false;
      calls, notices := [], [];
      location := None;
    }

    /**
     * `handleSubmit` for the signed-in user `user` (its id), the store answering
     * `reply`.  `createProject` is called exactly when a user is signed in and the
     * repository matches the pattern; `loading` is set while it is pending and
     * cleared afterwards on both outcomes.
     */
    method Submit(user: Option<string>, reply: InsertReply)
      requires Valid()
      modifies this
      ensures Valid()
      ensures name == old(name) && repository == old(repository) && description == old(description)
      ensures user.None? ==>
        && notices == old(notices) + [Failure(LoginRequiredMessage)]
        && calls == old(calls) && loading == old(loading) && location == old(location)
      ensures user.Some? && !RepositoryName.MatchesPattern(repository) ==>
        && notices == old(notices) + [Failure(RepositoryFormatMessage)]
        && calls == old(calls) && loading == old(loading) && location == old(location)
      ensures user.Some? && RepositoryName.MatchesPattern(repository) ==>
        && calls == old(calls) + [CreateCall(InsertRecord(name, repository, description, user.value), true)]
        && !loading
        && (reply.Inserted? ==>
              notices == old(notices) + [Success(CreatedMessage)] && location == Some("/projects/" + reply.id))
        && (reply.InsertFailed? ==>
              notices == old(notices) + [Failure(CreateFailedMessage)] && location == old(location))
    {
      if user.None? {
        notices := notices + [Failure(LoginRequiredMessage)];
        return;
      }
      if !RepositoryName.MatchesPattern(repository) {
        notices := notices + [Failure(RepositoryFormatMessage)];
        return;
      }
      loading := true;
      RepositoryName.PatternMeaning(repository);
      calls := calls + [CreateCall(InsertRecord(name, repository, description, user.value), loading)];
      match reply {
        case Inserted(id) =>
          notices := notices + [Success(CreatedMessage)];
          location := Some("/projects/" + id);
        case InsertFailed =>
          notices := notices + [Failure(CreateFailedMessage)];
      }
      loading := false;
    }
  }
}
