/**
 * The pull-request helpers: the opt-out check's classification of the issue
 * search, the pull-request title and request, and the issuer that gates on
 * opt-out, grants the bot access to private forks, sends the request and maps
 * the callback's error to a settled result. The answers of the hosting API
 * are parameters (`Replies`); each helper also returns the calls it made.
 */
module Helpers {
  import opened Results
  import opened Text
  import opened Domain

  // ---------------------------------------------------------------- opt-out check

  function NotFoundMessage(owner: string, repo: string): string {
    "Repository " + Repo(owner, repo) + " doesn't exist."
  }

  function SearchFailedMessage(owner: string, repo: string, e: ApiError): string {
    "Couldn't search issues on repository " + Repo(owner, repo) + ": " + Describe(e)
  }

  /**
   * didRepoOptOut: the search for open issues labelled `optout` (one per page)
   * either failed because the repository does not exist, failed otherwise, or
   * answers whether at least one such issue is open.
   */
  function DidRepoOptOut<I>(owner: string, repo: string, response: Response<seq<I>>): (r: Result<bool>)
    ensures r.Ok? <==> response.Returned?
    ensures r == Ok(true) <==> response.Returned? && |response.data| > 0
    ensures r == Err(NotFoundMessage(owner, repo)) <==> response.Failed? && "invalid" in response.err.errorCodes
    ensures r.Err? ==> Contains(r.msg, Repo(owner, repo))
    ensures r.Err? && r != Err(NotFoundMessage(owner, repo)) ==> Contains(r.msg, Describe(response.err))
  {
    match response
    case Failed(e) =>
      if "invalid" in e.errorCodes then
        ContainsMiddle("Repository ", Repo(owner, repo), " doesn't exist.");
        Err(NotFoundMessage(owner, repo))
      else
        var m := SearchFailedMessage(owner, repo, e);
        assert m == "Couldn't search issues on repository " + Repo(owner, repo) + (": " + Describe(e));
        ContainsMiddle("Couldn't search issues on repository ", Repo(owner, repo), ": " + Describe(e));
        assert m == "Couldn't search issues on repository " + Repo(owner, repo) + ": " + Describe(e) + "";
        ContainsMiddle("Couldn't search issues on repository " + Repo(owner, repo) + ": ", Describe(e), "");
        assert m[0] != NotFoundMessage(owner, repo)[0];
        Err(m)
    case Returned(issues) => Ok(|issues| > 0)
  }

  // ---------------------------------------------------------------- request

  const TitlePrefix := "Update from upstream repo "

  /** generatePullRequestTitle */
  function GeneratePullRequestTitle(user: string, repo: string, branch: string): string {
    TitlePrefix + user + "/" + repo + "@" + branch
  }

  /** Reads the upstream owner, repository and branch back out of a title. */
  function ParseTitle(title: string): Option<(string, string, string)> {
    match StripPrefix(title, TitlePrefix)
    case None => None
    case Some(rest) =>
      match SplitFirst(rest, '/')
      case None => None
      case Some(p) =>
        match SplitFirst(p.1, '@')
        case None => None
        case Some(q) => Some((p.0, q.0, q.1))
  }

  /** How the hosting API reads a `head` of the form `owner:branch`: the owner ends at the first ':'. */
  function ParseHead(head: string): Option<(string, string)> {
    SplitFirst(head, ':')
  }

  /** Account names contain neither '/' nor ':'. */
  predicate ValidOwner(s: string) {
    '/' !in s && ':' !in s
  }

  /** Repository names contain neither '/' nor '@'. */
  predicate ValidRepoName(s: string) {
    '/' !in s && '@' !in s
  }

  /** The title names the upstream unambiguously: it reads back as the owner, repository and branch it was made from. */
  lemma {:induction false} TitleRoundTrip(user: string, repo: string, branch: string)
    requires '/' !in user && ValidRepoName(repo)
    ensures ParseTitle(GeneratePullRequestTitle(user, repo, branch)) == Some((user, repo, branch))
  {
    var rest := user + ['/'] + (repo + ['@'] + branch);
    var title := GeneratePullRequestTitle(user, repo, branch);
    assert title == TitlePrefix + rest;
    assert title[..|TitlePrefix|] == TitlePrefix;
    assert title[|TitlePrefix|..] == rest;
    SplitFirstJoin(user, '/', repo + ['@'] + branch);
    SplitFirstJoin(repo, '@', branch);
  }

  /** The arguments createPullRequest sends for `fork` on behalf of `link`. */
  function BuildPullRequest(link: Link, fork: Fork): PullRequest {
    PullRequest(
      fork.owner,
      fork.repo,
      GeneratePullRequestTitle(Render(link.upstreamOwner), Render(link.upstreamRepo), Render(link.upstreamBranch)),
      Render(link.upstreamOwner) + ":" + Render(link.upstreamBranch),
      if link.forkType == Some(ForkAllType) then link.upstreamBranch else link.forkBranch,
      false)
  }

  /**
   * The request goes to the fork, proposes the upstream owner's upstream
   * branch (as the API reads `head`), carries a title naming the upstream,
   * targets the upstream branch under fork-all and the fork's branch
   * otherwise, and never lets maintainers modify it.
   */
  lemma PullRequestFields(link: Link, fork: Fork)
    requires link.upstreamOwner.Some? && link.upstreamRepo.Some? && link.upstreamBranch.Some?
    requires ValidOwner(link.upstreamOwner.value) && ValidRepoName(link.upstreamRepo.value)
    ensures var pr := BuildPullRequest(link, fork);
      && pr.owner == fork.owner && pr.repo == fork.repo
      && ParseHead(pr.head) == Some((link.upstreamOwner.value, link.upstreamBranch.value))
      && ParseTitle(pr.title) == Some((link.upstreamOwner.value, link.upstreamRepo.value, link.upstreamBranch.value))
      && pr.base == (if link.forkType == Some(ForkAllType) then link.upstreamBranch else link.forkBranch)
      && !pr.maintainerCanModify
  {
    SplitFirstJoin(link.upstreamOwner.value, ':', link.upstreamBranch.value);
    TitleRoundTrip(link.upstreamOwner.value, link.upstreamRepo.value, link.upstreamBranch.value);
  }

  // ---------------------------------------------------------------- result of the request

  function SuccessMessage(fork: Fork): string {
    "Successfully created pull request on " + Repo(fork.owner, fork.repo)
  }

  function AlreadyOpenMessage(fork: Fork): string {
    "There's already a pull request on " + Repo(fork.owner, fork.repo)
  }

  function FailureMessage(fork: Fork, e: ApiError): string {
    "Couldn't create pull request on repository " + Repo(fork.owner, fork.repo) + ": " + Describe(e)
  }

  /** The text a settled result carries. */
  function MessageOf(r: Result<string>): string {
    match r
    case Ok(v) => v
    case Err(m) => m
  }

  const AlreadyExistsCode := 422

  /**
   * How the callback's error settles the request: no error and the
   * "already exists" code both succeed, anything else fails with the target
   * and the underlying message. Every outcome names the target.
   */
  function PullRequestResult(fork: Fork, err: Option<ApiError>): (r: Result<string>)
    ensures r.Ok? <==> (err.None? || err.value.code == Some(AlreadyExistsCode))
    ensures Contains(MessageOf(r), Repo(fork.owner, fork.repo))
    ensures r.Err? ==> Contains(r.msg, Describe(err.value))
    ensures (r.Ok? && r.value == SuccessMessage(fork)) <==> err.None?
  {
    var target := Repo(fork.owner, fork.repo);
    match err
    case None =>
      ContainsMiddle("Successfully created pull request on ", target, "");
      assert SuccessMessage(fork) + "" == SuccessMessage(fork);
      Ok(SuccessMessage(fork))
    case Some(e) =>
      if e.code == Some(AlreadyExistsCode) then
        ContainsMiddle("There's already a pull request on ", target, "");
        assert AlreadyOpenMessage(fork) + "" == AlreadyOpenMessage(fork);
        assert AlreadyOpenMessage(fork)[0] != SuccessMessage(fork)[0];
        Ok(AlreadyOpenMessage(fork))
      else
        var m := FailureMessage(fork, e);
        assert m == "Couldn't create pull request on repository " + target + (": " + Describe(e));
        assert m == "Couldn't create pull request on repository " + target + ": " + Describe(e) + "";
        ContainsMiddle("Couldn't create pull request on repository ", target, ": " + Describe(e));
        ContainsMiddle("Couldn't create pull request on repository " + target + ": ", Describe(e), "");
        Err(m)
  }

  /**
   * The result mapping as helpers.js writes it: the "already exists" message
   * names the link's fork fields rather than the target, so under fork-all,
   * where those are undefined, it names no repository.
   */
  function PullRequestResultAsWritten(link: Link, fork: Fork, err: Option<ApiError>): (r: Result<string>)
    ensures r.Ok? <==> (err.None? || err.value.code == Some(AlreadyExistsCode))
  {
    match err
    case None => Ok(SuccessMessage(fork))
    case Some(e) =>
      if e.code == Some(AlreadyExistsCode) then Ok("There's already a pull request on " + Repo(Render(link.forkOwner), Render(link.forkRepo)))
      else Err(FailureMessage(fork, e))
  }

  /** A fork-all link has no fork fields: as written, a duplicate on fork hello/world is reported on "undefined/undefined". */
  lemma AlreadyOpenOnForkAllAsWritten()
    ensures var link := Link(8, true, Some("1egoman"), Some("biome"), Some("master"), Some(ForkAllType), None, None, None);
            var fork := Fork("hello", "world", false);
            var err := Some(ApiError(Some(AlreadyExistsCode), [], "", ""));
            && PullRequestResultAsWritten(link, fork, err) == Ok("There's already a pull request on undefined/undefined")
            && PullRequestResult(fork, err) == Ok("There's already a pull request on hello/world")
  {
    var link := Link(8, true, Some("1egoman"), Some("biome"), Some("master"), Some(ForkAllType), None, None, None);
    var fork := Fork("hello", "world", false);
    var err := Some(ApiError(Some(AlreadyExistsCode), [], "", ""));
    assert Repo(Render(link.forkOwner), Render(link.forkRepo)) == "undefined/undefined";
    assert "There's already a pull request on " + "undefined/undefined" == "There's already a pull request on undefined/undefined";
    assert Repo(fork.owner, fork.repo) == "hello/world";
    assert AlreadyOpenMessage(fork) == "There's already a pull request on hello/world";
  }

  /** Where the link itself names the target (single-fork links), the corrected mapping is the one written. */
  lemma AsWrittenAgreesWhenLinkNamesFork(link: Link, fork: Fork, err: Option<ApiError>)
    requires link.forkOwner == Some(fork.owner) && link.forkRepo == Some(fork.repo)
    ensures PullRequestResultAsWritten(link, fork, err) == PullRequestResult(fork, err)
  {
  }

  // ---------------------------------------------------------------- issuer

  /** What the collaborators answer during one issue: the opt-out check, the collaborator grant and the create call's error. */
  datatype Replies = Replies(optOut: Result<bool>, addCollaborator: Result<()>, pullRequest: Option<ApiError>)

  /** How one issue settled, and the calls it made in order. */
  datatype Attempt = Attempt(result: Result<string>, calls: seq<Call>)

  const NoTokenMessage := "Set GITHUB_TOKEN env variable."
  const OptedOutMessage := "This repo opted out of backstroke pull requests"

  /** A token is configured, or the environment is the test one, where none is needed. */
  predicate CanAuthenticate(config: Config) {
    config.tokenConfigured || config.testEnv
  }

  /** Everything before the create call lets it go out. */
  predicate Proceeds(config: Config, fork: Fork, replies: Replies) {
    CanAuthenticate(config) && replies.optOut == Ok(false) && (!fork.private || replies.addCollaborator.Ok?)
  }

  /**
   * The steps of createPullRequest after the request is built: refuse without
   * credentials, ask the opt-out check, refuse an opted-out target, add the
   * bot as collaborator on a private target, then send `request` once.
   */
  function IssuePullRequest(config: Config, fork: Fork, request: PullRequest, replies: Replies): (a: Attempt)
    ensures !CanAuthenticate(config) ==> a == Attempt(Err(NoTokenMessage), [])
    ensures CanAuthenticate(config) ==> a.calls != [] && a.calls[0] == OptOutCheck(fork.owner, fork.repo)
    ensures CanAuthenticate(config) && replies.optOut == Ok(true) ==> a.result == Err(OptedOutMessage)
    ensures CanAuthenticate(config) && replies.optOut.Err? ==> a.result == Err(replies.optOut.msg)
    ensures CanAuthenticate(config) && replies.optOut == Ok(false) && fork.private && replies.addCollaborator.Err? ==>
              a.result == Err(replies.addCollaborator.msg)
    ensures CountPullRequests(a.calls) == if Proceeds(config, fork, replies) then 1 else 0
    ensures Proceeds(config, fork, replies) ==>
              a.calls[|a.calls| - 1] == CreatePR(request) && a.result == PullRequestResult(fork, replies.pullRequest)
  {
    if !CanAuthenticate(config) then Attempt(Err(NoTokenMessage), [])
    else
      var checked := [] + [OptOutCheck(fork.owner, fork.repo)];
      CountPullRequestsPush([], OptOutCheck(fork.owner, fork.repo));
      match replies.optOut
      case Err(msg) => Attempt(Err(msg), checked)
      case Ok(optedOut) =>
        if optedOut then Attempt(Err(OptedOutMessage), checked)
        else
          CountPullRequestsPush(checked, AddCollaborator(fork.owner, fork.repo));
          var granted := if fork.private then checked + [AddCollaborator(fork.owner, fork.repo)] else checked;
          if fork.private && replies.addCollaborator.Err? then Attempt(Err(replies.addCollaborator.msg), granted)
          else
            CountPullRequestsPush(granted, CreatePR(request));
            Attempt(PullRequestResult(fork, replies.pullRequest), granted + [CreatePR(request)])
  }

  /**
   * The issuer talks only to the opt-out check, the collaborator grant and
   * the create call; it grants the bot collaborator rights exactly on a
   * private target that has not opted out, and the create call, when made,
   * is the last call, so it follows any grant.
   */
  lemma IssueCallOrder(config: Config, fork: Fork, request: PullRequest, replies: Replies)
    ensures var calls := IssuePullRequest(config, fork, request, replies).calls;
      && (AddCollaborator(fork.owner, fork.repo) in calls <==> CanAuthenticate(config) && replies.optOut == Ok(false) && fork.private)
      && (forall c :: c in calls ==> c.OptOutCheck? || c.AddCollaborator? || c.CreatePR?)
      && (forall i :: 0 <= i < |calls| && calls[i].CreatePR? ==> i == |calls| - 1)
  {
    var calls := IssuePullRequest(config, fork, request, replies).calls;
    var optOut, grant := OptOutCheck(fork.owner, fork.repo), AddCollaborator(fork.owner, fork.repo);
    if !CanAuthenticate(config) {
      assert calls == [];
    } else if replies.optOut != Ok(false) {
      assert calls == [optOut];
    } else if !fork.private {
      assert calls == [optOut, CreatePR(request)];
    } else if replies.addCollaborator.Err? {
      assert calls == [optOut, grant];
    } else {
      assert calls == [optOut, grant, CreatePR(request)];
    }
  }

  /** createPullRequest: the issuer sending the request built from `link` for `fork`. */
  function CreatePullRequest(config: Config, link: Link, fork: Fork, replies: Replies): (a: Attempt)
    ensures CountPullRequests(a.calls) > 0 ==> a.calls[|a.calls| - 1] == CreatePR(BuildPullRequest(link, fork))
  {
    IssuePullRequest(config, fork, BuildPullRequest(link, fork), replies)
  }
}
