/**
 * The entities the pull-request helpers and the worker pass around: the link
 * configuration, fork targets, pull-request requests, errors from the hosting
 * API, and the log of outbound calls a run makes.
 */
module Domain {
  import opened Results

  /** A link as stored in a job. Fields that may be `undefined` in a job are `Option`s. */
  datatype Link = Link(
    id: nat,
    enabled: bool,
    upstreamOwner: Option<string>,
    upstreamRepo: Option<string>,
    upstreamBranch: Option<string>,
    forkType: Option<string>,
    forkOwner: Option<string>,
    forkRepo: Option<string>,
    forkBranch: Option<string>)

  const ForkAllType := "fork-all"
  const UnrelatedRepoType := "unrelated-repo"

  /** How a value is written by a template literal: an undefined field reads "undefined". */
  function Render(v: Option<string>): string {
    match v
    case Some(s) => s
    case None => "undefined"
  }

  /** `owner/repo`, the way every message names a repository. */
  function Repo(owner: string, repo: string): string {
    owner + "/" + repo
  }

  /** A repository a pull request is proposed to. */
  datatype Fork = Fork(owner: string, repo: string, private: bool)

  /** The arguments of the hosting API's "create pull request" call (the markdown body is not modelled). */
  datatype PullRequest = PullRequest(
    owner: string,
    repo: string,
    title: string,
    head: string,
    base: Option<string>,
    maintainerCanModify: bool)

  /** An error handed to an API callback: an optional numeric `code`, the `code`s of its `errors` entries, its `message`, and how it reads when written out whole. */
  datatype ApiError = ApiError(code: Option<int>, errorCodes: seq<string>, message: string, text: string)

  /** `err.message ? err.message : err`: the message when it is non-empty, else the error itself. */
  function Describe(e: ApiError): string {
    if e.message != "" then e.message else e.text
  }

  /** What an error-first callback receives: an error, or data. */
  datatype Response<T> = Failed(err: ApiError) | Returned(data: T)

  /** The arguments `page` and `per_page` written into a paged request. */
  datatype PageRequest = PageRequest(page: nat, perPage: nat)

  /** One outbound call to a collaborator, as a test's stubs would record it. */
  datatype Call =
    | OptOutCheck(owner: string, repo: string)
    | AddCollaborator(owner: string, repo: string)
    | CreatePR(request: PullRequest)
    | ListForks(owner: string, repo: string, paging: PageRequest)
    | OptInCheck(owner: string, repo: string)
    | ForkRepository(owner: string, repo: string)
    | Clone(url: string)
    | Push(remote: string, branch: string)

  /** The process environment the helpers read: whether GITHUB_TOKEN is set, whether NODE_ENV is 'test', and GITHUB_BOT_USERNAME when set. */
  datatype Config = Config(tokenConfigured: bool, testEnv: bool, botUsername: Option<string>)

  const DefaultBotName := "backstroke-bot"

  /** `process.env.GITHUB_BOT_USERNAME || 'backstroke-bot'`. */
  function BotName(env: Option<string>): (name: string)
    ensures name != ""
    ensures env.Some? && env.value != "" ==> name == env.value
    ensures env.None? || env.value == "" ==> name == DefaultBotName
  {
    if env.Some? && env.value != "" then env.value else DefaultBotName
  }

  /** How many calls in a log create a pull request. */
  function CountPullRequests(calls: seq<Call>): nat {
    if calls == [] then 0
    else CountPullRequests(calls[..|calls| - 1]) + (if calls[|calls| - 1].CreatePR? then 1 else 0)
  }

  /** Appending one call counts it, and only it, on top of the log's count. */
  lemma CountPullRequestsPush(calls: seq<Call>, c: Call)
    ensures CountPullRequests(calls + [c]) == CountPullRequests(calls) + (if c.CreatePR? then 1 else 0)
  {
    assert (calls + [c])[..|calls|] == calls;
  }

  lemma {:induction false} CountPullRequestsAppend(a: seq<Call>, b: seq<Call>)
    ensures CountPullRequests(a + b) == CountPullRequests(a) + CountPullRequests(b)
    decreases |b|
  {
    if b != [] {
      assert (a + b)[..|a + b| - 1] == a + b[..|b| - 1];
      CountPullRequestsAppend(a, b[..|b| - 1]);
    } else {
      assert a + b == a;
    }
  }

  /** The opt-in checks of a call log, in the order they were made. */
  function OptInChecks(calls: seq<Call>): seq<Call> {
    if calls == [] then []
    else OptInChecks(calls[..|calls| - 1]) + (if calls[|calls| - 1].OptInCheck? then [calls[|calls| - 1]] else [])
  }

  lemma {:induction false} OptInChecksAppend(a: seq<Call>, b: seq<Call>)
    ensures OptInChecks(a + b) == OptInChecks(a) + OptInChecks(b)
    decreases |b|
  {
    if b != [] {
      assert (a + b)[..|a + b| - 1] == a + b[..|b| - 1];
      OptInChecksAppend(a, b[..|b| - 1]);
    } else {
      assert a + b == a;
    }
  }
}
