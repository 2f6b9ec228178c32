/** The per-job GitHub settings (`GithubProjectProperty`): the project URL,
    the path inside a monolithic repository that the push filter reads, and
    three polling flags. Every field is set once, when the property is made,
    and only read afterwards, so the property is a value. */
module ProjectProperty {
  import opened JavaText

  datatype GithubProjectProperty = GithubProjectProperty(
    /** The project's base URL, or null when none is configured. */
    projectUrl: Option<string>,
    /** The path inside the repository; may be null or empty. */
    repositoryPath: JavaString,
    enablePolling: Option<bool>,
    ignoreMasterPush: Option<bool>,
    onlyMasterPush: Option<bool>)
  {
    function GetRepositoryPath(): JavaString { repositoryPath }
    function GetEnablePolling(): Option<bool> { enablePolling }
    function GetIgnoreMasterPush(): Option<bool> { ignoreMasterPush }
    function GetOnlyMasterPush(): Option<bool> { onlyMasterPush }

    /** `getProjectUrl`: the stored URL wrapped again as a `GithubUrl`. */
    function GetProjectUrl(): GithubUrl { GithubUrl(projectUrl) }

    /** `getJobActions`: the link to the project page, when a URL is configured. */
    function GetJobActions(): (actions: seq<Action>)
      ensures |actions| <= 1
      ensures |actions| == 1 <==> projectUrl.Some?
      ensures forall a :: a in actions ==> a == GithubLinkAction(this)
    {
      if projectUrl.Some? then [GithubLinkAction(this)] else []
    }
  }

  /** `GithubUrl`, as far as this model needs it: the string it wraps. */
  datatype GithubUrl = GithubUrl(url: Option<string>)

  /** The action a job shows for a configured property (`GithubLinkAction`). */
  datatype Action = GithubLinkAction(property: GithubProjectProperty)

  /** The constructor. `baseUrl` stands for `new GithubUrl(url).baseUrl()`,
      which is not part of this model; every other argument is stored as given. */
  function Create(baseUrl: Option<string> -> Option<string>, projectUrl: Option<string>,
                  repositoryPath: JavaString, enablePolling: Option<bool>,
                  ignoreMasterPush: Option<bool>, onlyMasterPush: Option<bool>): (p: GithubProjectProperty)
    ensures p.GetProjectUrl() == GithubUrl(baseUrl(projectUrl))
    ensures p.GetRepositoryPath() == repositoryPath
    ensures p.GetEnablePolling() == enablePolling
    ensures p.GetIgnoreMasterPush() == ignoreMasterPush
    ensures p.GetOnlyMasterPush() == onlyMasterPush
  {
    GithubProjectProperty(baseUrl(projectUrl), repositoryPath, enablePolling, ignoreMasterPush, onlyMasterPush)
  }

  /** `DescriptorImpl.newInstance`, given what binding the submitted form
      produced: nothing when binding failed or the bound property has no
      project URL, otherwise the bound property itself. */
  function NewInstance(bound: Option<GithubProjectProperty>): (r: Option<GithubProjectProperty>)
    ensures r.Some? <==> bound.Some? && bound.value.projectUrl.Some?
    ensures r.Some? ==> r == bound
  {
    match bound
    case None => None
    case Some(p) => if p.projectUrl.None? then None else bound
  }

  /** Every property `newInstance` accepts shows exactly one link action, and
      it links to that property. */
  lemma AcceptedPropertyHasLink(bound: Option<GithubProjectProperty>)
    requires NewInstance(bound).Some?
    ensures NewInstance(bound).value.GetJobActions() == [GithubLinkAction(bound.value)]
  {
  }

  /** The properties `newInstance` refuses are exactly those that would show no action. */
  lemma RefusedPropertyHasNoLink(p: GithubProjectProperty)
    ensures NewInstance(Some(p)).None? <==> p.GetJobActions() == []
  {
  }
}
