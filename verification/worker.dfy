/**
 * The job-processing worker: pop one job, reject a disabled or incomplete
 * link, dispatch on the link's fork type (one fork, every fork of the
 * upstream in listing order, or an unrelated repository synchronised through
 * the bot's fork), and write the outcome under the job's id, appending the id
 * to the link's history. Every collaborator's answer is part of `World`.
 */
module Worker {
  import opened Results
  import opened Text
  import opened Domain
  import opened Pagination
  import opened Helpers
  import opened Stores

  datatype Status = OK | ERROR

  /** One failed fork of a fork-all run: `{status: 'ERROR', error}`. */
  datatype ForkError = ForkError(status: Status, error: string)

  /**
   * The `output` of a stored record: `{error}`; one target
   * (`{isEnabled, many: false, forkCount: 1, response}`, with
   * `unrelatedForks: true` for an unrelated repository); or every fork
   * (`{many: true, metrics: {total, successes}, errors, isEnabled}`).
   */
  datatype Output =
    | ErrorOutput(error: string)
    | SingleOutput(isEnabled: bool, response: string, unrelatedForks: bool)
    | ManyOutput(isEnabled: bool, total: nat, successes: nat, errors: seq<ForkError>)

  datatype OutcomeRecord = OutcomeRecord(status: Status, output: Output, fromRequest: Option<string>)

  /** A queued job: the link snapshot and the caller's optional request id. */
  datatype Job = Job(link: Link, fromRequest: Option<string>)

  /** The record a job produces and the outbound calls made on the way, in order. */
  datatype JobResult = JobResult(record: OutcomeRecord, calls: seq<Call>)

  /**
   * What the collaborators answer: the environment, the pages of the
   * fork listing, whether an opt-in check is supplied and its answer for
   * the fork at each listing position, the issuer's replies for the fork at
   * each listing position and for a single target, and how forking the
   * target into the bot's account, cloning and pushing settle.
   */
  datatype World = World(
    config: Config,
    forkPages: seq<PageResponse<Fork>>,
    optInSupplied: bool,
    optIn: nat -> bool,
    forkReplies: nat -> Replies,
    targetReplies: Replies,
    forkRepository: Result<()>,
    clone: Result<()>,
    push: Result<()>)

  const LinkDisabledMessage := "Link is not enabled."
  const LinkIncompleteMessage := "Please define both an upstream and fork on this link."
  const SyncedMessage := "Successfully synced link."

  function PushFailedMessage(bot: string, upstreamOwner: string, msg: string): string {
    "Error received while pushing " + Repo(bot, upstreamOwner) + ": " + msg
  }

  function GitHubUrl(owner: string, repo: string): string {
    "https://github.com/" + Repo(owner, repo)
  }

  // ---------------------------------------------------------------- validation and dispatch

  /** Upstream and fork are both defined; a fork-all link names no fork. */
  predicate Complete(link: Link) {
    && link.upstreamOwner.Some? && link.upstreamRepo.Some? && link.upstreamBranch.Some?
    && link.forkType.Some?
    && (link.forkType == Some(ForkAllType) || (link.forkOwner.Some? && link.forkRepo.Some? && link.forkBranch.Some?))
  }

  predicate Actionable(link: Link) {
    link.enabled && Complete(link)
  }

  datatype Strategy = SingleFork | AllForks | UnrelatedRepo

  function StrategyOf(link: Link): Strategy {
    if link.forkType == Some(ForkAllType) then AllForks
    else if link.forkType == Some(UnrelatedRepoType) then UnrelatedRepo
    else SingleFork
  }

  /** The fork a single-fork or unrelated-repo link names. */
  function LinkedFork(link: Link): Fork
    requires link.forkOwner.Some? && link.forkRepo.Some?
  {
    Fork(link.forkOwner.value, link.forkRepo.value, false)
  }

  function LastCall(calls: seq<Call>): Call
    requires calls != []
  {
    calls[|calls| - 1]
  }

  function ErrorResult(job: Job, msg: string, calls: seq<Call>): JobResult {
    JobResult(OutcomeRecord(ERROR, ErrorOutput(msg), job.fromRequest), calls)
  }

  /** The response reported for one target: a freshly created pull request reads as a synced link, anything else as the issuer said it. */
  function SingleResponse(msg: string, fork: Fork): string {
    if msg == SuccessMessage(fork) then SyncedMessage else msg
  }

  /** The record for one target once the issuer has settled. */
  function Settle(job: Job, fork: Fork, a: Attempt, unrelated: bool): JobResult {
    match a.result
    case Ok(msg) => JobResult(OutcomeRecord(OK, SingleOutput(true, SingleResponse(msg, fork), unrelated), job.fromRequest), a.calls)
    case Err(msg) => ErrorResult(job, msg, a.calls)
  }

  /** One fork named by the link: the issuer's attempt on the linked fork, settled into the job's record. */
  function SingleForkOutcome(job: Job, world: World): (r: JobResult)
    requires Complete(job.link) && StrategyOf(job.link) == SingleFork
    ensures r.record.fromRequest == job.fromRequest
    ensures r.record.status == OK <==> CreatePullRequest(world.config, job.link, LinkedFork(job.link), world.targetReplies).result.Ok?
    ensures CountPullRequests(r.calls) == if Proceeds(world.config, LinkedFork(job.link), world.targetReplies) then 1 else 0
  {
    var fork := LinkedFork(job.link);
    Settle(job, fork, CreatePullRequest(world.config, job.link, fork, world.targetReplies), false)
  }

  /**
   * A created pull request reads as a synced link, after exactly one create
   * call, which proposes `upstreamOwner:upstreamBranch` into the fork's branch.
   */
  lemma SingleForkSynced(job: Job, world: World)
    requires Complete(job.link) && StrategyOf(job.link) == SingleFork
    requires Proceeds(world.config, LinkedFork(job.link), world.targetReplies) && world.targetReplies.pullRequest.None?
    ensures var r := SingleForkOutcome(job, world);
      && r.record.status == OK && r.record.output == SingleOutput(true, SyncedMessage, false)
      && CountPullRequests(r.calls) == 1
      && LastCall(r.calls) == CreatePR(BuildPullRequest(job.link, LinkedFork(job.link)))
      && LastCall(r.calls).request.head == job.link.upstreamOwner.value + ":" + job.link.upstreamBranch.value
      && LastCall(r.calls).request.base == job.link.forkBranch
  {
  }

  /** An opted-out target is an error with the opt-out message, and no pull request is sent. */
  lemma SingleForkOptedOut(job: Job, world: World)
    requires Complete(job.link) && StrategyOf(job.link) == SingleFork
    requires CanAuthenticate(world.config) && world.targetReplies.optOut == Ok(true)
    ensures var r := SingleForkOutcome(job, world);
      r.record.status == ERROR && r.record.output == ErrorOutput(OptedOutMessage) && CountPullRequests(r.calls) == 0
  {
  }

  /** A failed opt-out check is an error with that check's message, and no pull request is sent. */
  lemma SingleForkOptOutFailed(job: Job, world: World)
    requires Complete(job.link) && StrategyOf(job.link) == SingleFork
    requires CanAuthenticate(world.config) && world.targetReplies.optOut.Err?
    ensures var r := SingleForkOutcome(job, world);
      r.record.status == ERROR && r.record.output == ErrorOutput(world.targetReplies.optOut.msg) && CountPullRequests(r.calls) == 0
  {
    var fork := LinkedFork(job.link);
    assert !Proceeds(world.config, fork, world.targetReplies);
    var a := CreatePullRequest(world.config, job.link, fork, world.targetReplies);
    assert a.result == Err(world.targetReplies.optOut.msg);
    assert SingleForkOutcome(job, world) == ErrorResult(job, world.targetReplies.optOut.msg, a.calls);
  }

  /** A pull request that already exists is not an error: the record says it is already open on the fork. */
  lemma SingleForkAlreadyOpen(job: Job, world: World, e: ApiError)
    requires Complete(job.link) && StrategyOf(job.link) == SingleFork
    requires Proceeds(world.config, LinkedFork(job.link), world.targetReplies)
    requires world.targetReplies.pullRequest == Some(e) && e.code == Some(AlreadyExistsCode)
    ensures var r := SingleForkOutcome(job, world);
      r.record.status == OK && r.record.output == SingleOutput(true, AlreadyOpenMessage(LinkedFork(job.link)), false)
  {
  }

  /** Any other failure of the create call is an error naming the target and describing the failure. */
  lemma SingleForkCreateFailed(job: Job, world: World, e: ApiError)
    requires Complete(job.link) && StrategyOf(job.link) == SingleFork
    requires Proceeds(world.config, LinkedFork(job.link), world.targetReplies)
    requires world.targetReplies.pullRequest == Some(e) && e.code != Some(AlreadyExistsCode)
    ensures var r := SingleForkOutcome(job, world);
      r.record.status == ERROR && r.record.output == ErrorOutput(FailureMessage(LinkedFork(job.link), e))
  {
  }

  // ---------------------------------------------------------------- unrelated repository

  /** The pull request from the bot's branch named after the upstream owner into the target's branch. */
  function UnrelatedRequest(link: Link, bot: string): PullRequest
    requires Complete(link) && StrategyOf(link) == UnrelatedRepo
  {
    PullRequest(
      link.forkOwner.value,
      link.forkRepo.value,
      GeneratePullRequestTitle(link.upstreamOwner.value, link.upstreamRepo.value, link.upstreamBranch.value),
      bot + ":" + link.upstreamOwner.value,
      link.forkBranch,
      false)
  }

  /**
   * An unrelated repository: the target is forked into the bot's account,
   * the upstream is cloned and pushed to the bot's fork on a branch named
   * after the upstream owner, and only then is the issuer run; the first
   * failing step's error is the job's error.
   */
  function UnrelatedRepoOutcome(job: Job, world: World): (r: JobResult)
    requires Complete(job.link) && StrategyOf(job.link) == UnrelatedRepo
    ensures r.record.fromRequest == job.fromRequest
    ensures CountPullRequests(r.calls) ==
            if world.forkRepository.Ok? && world.clone.Ok? && world.push.Ok? && Proceeds(world.config, LinkedFork(job.link), world.targetReplies)
            then 1 else 0
  {
    var link := job.link;
    var bot := BotName(world.config.botUsername);
    var upstreamOwner := link.upstreamOwner.value;
    var forked := [] + [ForkRepository(link.forkOwner.value, link.forkRepo.value)];
    var cloned := forked + [Clone(GitHubUrl(upstreamOwner, link.upstreamRepo.value))];
    var pushed := cloned + [Push(GitHubUrl(bot, link.forkRepo.value), upstreamOwner)];
    CountPullRequestsPush([], forked[0]);
    CountPullRequestsPush(forked, cloned[1]);
    CountPullRequestsPush(cloned, pushed[2]);
    if world.forkRepository.Err? then ErrorResult(job, world.forkRepository.msg, forked)
    else if world.clone.Err? then ErrorResult(job, world.clone.msg, cloned)
    else if world.push.Err? then ErrorResult(job, PushFailedMessage(bot, upstreamOwner, world.push.msg), pushed)
    else
      var fork := LinkedFork(link);
      var s := Settle(job, fork, IssuePullRequest(world.config, fork, UnrelatedRequest(link, bot), world.targetReplies), true);
      CountPullRequestsAppend(pushed, s.calls);
      JobResult(s.record, pushed + s.calls)
  }

  /**
   * A synced unrelated repository is marked `unrelatedForks`; the calls are
   * the fork into the bot's account, the clone of the upstream, the push to
   * the bot's fork on the upstream owner's branch, and finally the one
   * create call proposing `bot:upstreamOwner` into the target's branch.
   */
  lemma UnrelatedRepoSynced(job: Job, world: World)
    requires Complete(job.link) && StrategyOf(job.link) == UnrelatedRepo
    requires world.forkRepository.Ok? && world.clone.Ok? && world.push.Ok?
    requires Proceeds(world.config, LinkedFork(job.link), world.targetReplies) && world.targetReplies.pullRequest.None?
    ensures var r := UnrelatedRepoOutcome(job, world);
      && r.record.status == OK && r.record.output == SingleOutput(true, SyncedMessage, true)
      && |r.calls| >= 3
      && r.calls[0] == ForkRepository(job.link.forkOwner.value, job.link.forkRepo.value)
      && r.calls[1] == Clone(GitHubUrl(job.link.upstreamOwner.value, job.link.upstreamRepo.value))
      && r.calls[2] == Push(GitHubUrl(BotName(world.config.botUsername), job.link.forkRepo.value), job.link.upstreamOwner.value)
      && (forall c :: c in r.calls[3..] ==> c.OptOutCheck? || c.AddCollaborator? || c.CreatePR?)
      && CountPullRequests(r.calls) == 1
      && LastCall(r.calls) == CreatePR(UnrelatedRequest(job.link, BotName(world.config.botUsername)))
  {
    var link := job.link;
    var bot := BotName(world.config.botUsername);
    var fork := LinkedFork(link);
    var calls := IssuePullRequest(world.config, fork, UnrelatedRequest(link, bot), world.targetReplies).calls;
    assert UnrelatedRepoOutcome(job, world).calls[3..] == calls;
    IssueCallOrder(world.config, fork, UnrelatedRequest(link, bot), world.targetReplies);
  }

  /**
   * Once forking, cloning and pushing succeed and every issuer gate passes,
   * the third call pushes to the bot's copy of the target and the last call
   * proposes the bot's branch named after the upstream owner.
   */
  lemma UnrelatedRepoProposes(job: Job, world: World)
    requires Complete(job.link) && StrategyOf(job.link) == UnrelatedRepo
    requires world.forkRepository.Ok? && world.clone.Ok? && world.push.Ok?
    requires Proceeds(world.config, LinkedFork(job.link), world.targetReplies)
    ensures var r := UnrelatedRepoOutcome(job, world);
      && |r.calls| > 3
      && r.calls[2] == Push(GitHubUrl(BotName(world.config.botUsername), job.link.forkRepo.value), job.link.upstreamOwner.value)
      && LastCall(r.calls) == CreatePR(UnrelatedRequest(job.link, BotName(world.config.botUsername)))
  {
    var link := job.link;
    var request := UnrelatedRequest(link, BotName(world.config.botUsername));
    var calls := IssuePullRequest(world.config, LinkedFork(link), request, world.targetReplies).calls;
    assert UnrelatedRepoOutcome(job, world).calls[3..] == calls;
  }

  /**
   * Without GITHUB_BOT_USERNAME the bot is `backstroke-bot`: the upstream is
   * pushed to `backstroke-bot/<forkRepo>`, proposed from
   * `backstroke-bot:<upstreamOwner>`, and a failed push names
   * `backstroke-bot/<upstreamOwner>`.
   */
  lemma UnrelatedRepoDefaultBot(link: Link, msg: string)
    requires Complete(link) && StrategyOf(link) == UnrelatedRepo
    ensures GitHubUrl(BotName(None), link.forkRepo.value) == "https://github.com/backstroke-bot/" + link.forkRepo.value
    ensures UnrelatedRequest(link, BotName(None)).head == "backstroke-bot:" + link.upstreamOwner.value
    ensures PushFailedMessage(BotName(None), link.upstreamOwner.value, msg)
         == "Error received while pushing backstroke-bot/" + link.upstreamOwner.value + ": " + msg
  {
    var bot, owner, repo := BotName(None), link.upstreamOwner.value, link.forkRepo.value;
    assert bot == "backstroke-bot";
    assert bot + "/" == "backstroke-bot/";
    assert bot + ":" == "backstroke-bot:";
    assert "https://github.com/" + (bot + "/" + repo) == ("https://github.com/" + (bot + "/")) + repo;
    assert "https://github.com/" + "backstroke-bot/" == "https://github.com/backstroke-bot/";
    assert "Error received while pushing " + (bot + "/" + owner) + ": " + msg
        == ("Error received while pushing " + (bot + "/")) + owner + ": " + msg;
    assert "Error received while pushing " + "backstroke-bot/" == "Error received while pushing backstroke-bot/";
  }

  /** A failed push is an error naming the bot account and the upstream owner's branch pushed, `bot/upstreamOwner`, and no pull request is sent. */
  lemma UnrelatedRepoPushFailed(job: Job, world: World)
    requires Complete(job.link) && StrategyOf(job.link) == UnrelatedRepo
    requires world.forkRepository.Ok? && world.clone.Ok? && world.push.Err?
    ensures var r := UnrelatedRepoOutcome(job, world);
      && r.record.status == ERROR
      && r.record.output == ErrorOutput(PushFailedMessage(BotName(world.config.botUsername), job.link.upstreamOwner.value, world.push.msg))
      && CountPullRequests(r.calls) == 0
  {
  }

  // ---------------------------------------------------------------- every fork

  /** Running totals of a fork-all run over a prefix of the listing. */
  datatype Tally = Tally(total: nat, successes: nat, errors: seq<ForkError>, calls: seq<Call>)

  function OptInCalls(world: World, fork: Fork): seq<Call> {
    if world.optInSupplied then [OptInCheck(fork.owner, fork.repo)] else []
  }

  /** The fork at listing position `i` declines the supplied opt-in check. */
  predicate Declines(world: World, i: nat) {
    world.optInSupplied && !world.optIn(i)
  }

  /** How the issuer would settle for the fork at listing position `i`. */
  function ForkAttempt(link: Link, world: World, fork: Fork, i: nat): Attempt {
    CreatePullRequest(world.config, link, fork, world.forkReplies(i))
  }

  /** The issuer's attempt for each of the first `n` listed forks, in listing order. */
  function Attempts(link: Link, world: World, forks: seq<Fork>, n: nat): (s: seq<Attempt>)
    requires n <= |forks|
    ensures |s| == n
  {
    if n == 0 then [] else Attempts(link, world, forks, n - 1) + [ForkAttempt(link, world, forks[n - 1], n - 1)]
  }

  lemma {:induction false} AttemptAt(link: Link, world: World, forks: seq<Fork>, n: nat, i: nat)
    requires i < n <= |forks|
    ensures Attempts(link, world, forks, n)[i] == ForkAttempt(link, world, forks[i], i)
  {
    if i < n - 1 {
      AttemptAt(link, world, forks, n - 1, i);
    }
  }

  /** The fork at listing position `i` declined opt-in, or its attempt succeeded: it counts as a success. */
  predicate Settled(world: World, attempts: seq<Attempt>, i: nat)
    requires i < |attempts|
  {
    Declines(world, i) || attempts[i].result.Ok?
  }

  /** The successes among the first `n` listed forks. */
  function Successes(world: World, attempts: seq<Attempt>, n: nat): nat
    requires n <= |attempts|
  {
    if n == 0 then 0 else Successes(world, attempts, n - 1) + (if Settled(world, attempts, n - 1) then 1 else 0)
  }

  /** The errors of the first `n` listed forks, one per failed attempt, in listing order. */
  function ForkErrors(world: World, attempts: seq<Attempt>, n: nat): seq<ForkError>
    requires n <= |attempts|
  {
    if n == 0 then []
    else if Settled(world, attempts, n - 1) then ForkErrors(world, attempts, n - 1)
    else ForkErrors(world, attempts, n - 1) + [ForkError(ERROR, attempts[n - 1].result.msg)]
  }

  /** The calls for the first `n` listed forks: each one's opt-in check, then its attempt's calls unless it declined. */
  function ForkCalls(world: World, forks: seq<Fork>, attempts: seq<Attempt>, n: nat): seq<Call>
    requires n <= |forks| == |attempts|
  {
    if n == 0 then []
    else if Declines(world, n - 1) then ForkCalls(world, forks, attempts, n - 1) + OptInCalls(world, forks[n - 1])
    else ForkCalls(world, forks, attempts, n - 1) + OptInCalls(world, forks[n - 1]) + attempts[n - 1].calls
  }

  /** The totals after the first `n` listed forks, each handled in turn with its attempt from `attempts`. */
  function TallyOf(world: World, forks: seq<Fork>, attempts: seq<Attempt>, n: nat): Tally
    requires n <= |forks| == |attempts|
  {
    Tally(n, Successes(world, attempts, n), ForkErrors(world, attempts, n), ForkCalls(world, forks, attempts, n))
  }

  /**
   * One turn of the fork-all loop for the fork at listing position `i`:
   * ask the opt-in check when one is supplied, then, unless the fork
   * declined, run createPullRequest on it, and count the fork.
   */
  method VisitFork(link: Link, world: World, forks: seq<Fork>, i: nat, t: Tally) returns (next: Tally)
    requires i < |forks|
    requires t == TallyOf(world, forks, Attempts(link, world, forks, |forks|), i)
    ensures next == TallyOf(world, forks, Attempts(link, world, forks, |forks|), i + 1)
  {
    var fork := forks[i];
    var total, successes, errors, calls := t.total + 1, t.successes, t.errors, t.calls + OptInCalls(world, fork);
    if Declines(world, i) {
      successes := successes + 1;
    } else {
      var a := CreatePullRequest(world.config, link, fork, world.forkReplies(i));
      AttemptAt(link, world, forks, |forks|, i);
      calls := calls + a.calls;
      match a.result {
        case Ok(_) =>
          successes := successes + 1;
        case Err(msg) =>
          errors := errors + [ForkError(ERROR, msg)];
      }
    }
    next := Tally(total, successes, errors, calls);
  }

  /** The fork-all loop: every listed fork in order, counting each, collecting failures and going on after them. */
  method RunForkAll(link: Link, world: World, forks: seq<Fork>) returns (t: Tally)
    ensures t == TallyOf(world, forks, Attempts(link, world, forks, |forks|), |forks|)
  {
    t := Tally(0, 0, [], []);
    var i := 0;
    while i < |forks|
      invariant 0 <= i <= |forks|
      invariant t == TallyOf(world, forks, Attempts(link, world, forks, |forks|), i)
    {
      t := VisitFork(link, world, forks, i, t);
      i := i + 1;
    }
  }

  /** Each fork counted is a success or an error. */
  lemma {:induction false} TallyCounts(world: World, attempts: seq<Attempt>, n: nat)
    requires n <= |attempts|
    ensures Successes(world, attempts, n) + |ForkErrors(world, attempts, n)| == n
  {
    if n > 0 {
      TallyCounts(world, attempts, n - 1);
    }
  }

  lemma {:induction false} NoOptInChecks(calls: seq<Call>)
    requires forall c :: c in calls ==> c.OptOutCheck? || c.AddCollaborator? || c.CreatePR?
    ensures OptInChecks(calls) == []
    decreases |calls|
  {
    if calls != [] {
      assert calls[|calls| - 1] in calls;
      NoOptInChecks(calls[..|calls| - 1]);
    }
  }

  /** The issuer never asks the opt-in check, so a fork-all run's opt-in checks are its own. */
  lemma IssuerAsksNoOptIn(link: Link, world: World, forks: seq<Fork>, i: nat)
    requires i < |forks|
    ensures OptInChecks(Attempts(link, world, forks, |forks|)[i].calls) == []
  {
    AttemptAt(link, world, forks, |forks|, i);
    IssueCallOrder(world.config, forks[i], BuildPullRequest(link, forks[i]), world.forkReplies(i));
    NoOptInChecks(Attempts(link, world, forks, |forks|)[i].calls);
  }

  /** An opt-in check for each of the first `n` listed forks, in listing order. */
  function ListingOptInChecks(forks: seq<Fork>, n: nat): (checks: seq<Call>)
    requires n <= |forks|
    ensures |checks| == n
    ensures forall i :: 0 <= i < n ==> checks[i] == OptInCheck(forks[i].owner, forks[i].repo)
  {
    if n == 0 then []
    else ListingOptInChecks(forks, n - 1) + [OptInCheck(forks[n - 1].owner, forks[n - 1].repo)]
  }

  /** One more fork whose attempt asks no opt-in check adds that fork's own check, and nothing else, to the run's checks. */
  lemma ForkCallsOptInStep(world: World, forks: seq<Fork>, attempts: seq<Attempt>, n: nat)
    requires 0 < n <= |forks| == |attempts| && world.optInSupplied
    requires OptInChecks(attempts[n - 1].calls) == []
    ensures OptInChecks(ForkCalls(world, forks, attempts, n))
         == OptInChecks(ForkCalls(world, forks, attempts, n - 1)) + [OptInCheck(forks[n - 1].owner, forks[n - 1].repo)]
  {
    var before := ForkCalls(world, forks, attempts, n - 1);
    var check := [OptInCheck(forks[n - 1].owner, forks[n - 1].repo)];
    assert OptInChecks(check) == check by {
      assert check[..0] == [];
    }
    OptInChecksAppend(before, check);
    if !Declines(world, n - 1) {
      var own := attempts[n - 1].calls;
      assert ForkCalls(world, forks, attempts, n) == before + check + own;
      OptInChecksAppend(before + check, own);
      assert OptInChecks(before + check) + [] == OptInChecks(before + check);
    }
  }

  /**
   * With an opt-in check supplied and attempts that do not ask it
   * themselves, it is asked once per listed fork, with that fork's owner and
   * repository, in listing order.
   */
  lemma {:induction false} OptInChecksInListingOrder(world: World, forks: seq<Fork>, attempts: seq<Attempt>, n: nat)
    requires n <= |forks| == |attempts| && world.optInSupplied
    requires forall i {:trigger OptInChecks(attempts[i].calls)} :: 0 <= i < |attempts| ==> OptInChecks(attempts[i].calls) == []
    ensures OptInChecks(ForkCalls(world, forks, attempts, n)) == ListingOptInChecks(forks, n)
  {
    if n > 0 {
      OptInChecksInListingOrder(world, forks, attempts, n - 1);
      ForkCallsOptInStep(world, forks, attempts, n);
    }
  }

  /** The number of the first `n` forks whose pull request is sent: they pass opt-in and every gate of the issuer. */
  function Reached(world: World, forks: seq<Fork>, n: nat): nat
    requires n <= |forks|
  {
    if n == 0 then 0
    else Reached(world, forks, n - 1)
         + (if !Declines(world, n - 1) && Proceeds(world.config, forks[n - 1], world.forkReplies(n - 1)) then 1 else 0)
  }

  /**
   * With attempts that each send one request exactly when the issuer's
   * gates let them, one pull request goes out per fork that passes opt-in
   * and those gates, and none for any other fork.
   */
  lemma {:induction false} PullRequestsSent(world: World, forks: seq<Fork>, attempts: seq<Attempt>, n: nat)
    requires n <= |forks| == |attempts|
    requires forall i {:trigger CountPullRequests(attempts[i].calls)} :: 0 <= i < |attempts| ==>
               CountPullRequests(attempts[i].calls) == if Proceeds(world.config, forks[i], world.forkReplies(i)) then 1 else 0
    ensures CountPullRequests(ForkCalls(world, forks, attempts, n)) == Reached(world, forks, n)
  {
    if n > 0 {
      PullRequestsSent(world, forks, attempts, n - 1);
      var before := ForkCalls(world, forks, attempts, n - 1);
      var checks := OptInCalls(world, forks[n - 1]);
      CountPullRequestsAppend(before, checks);
      assert CountPullRequests(checks) == 0 by {
        if checks != [] {
          CountPullRequestsPush([], checks[0]);
          assert [] + [checks[0]] == checks;
        }
      }
      if !Declines(world, n - 1) {
        CountPullRequestsAppend(before + checks, attempts[n - 1].calls);
        assert CountPullRequests(attempts[n - 1].calls) == if Proceeds(world.config, forks[n - 1], world.forkReplies(n - 1)) then 1 else 0;
      }
    }
  }

  /** A whole fork-all run sends one pull request per fork that passes opt-in and the issuer's gates. */
  lemma IssuerPullRequestsSent(link: Link, world: World, forks: seq<Fork>)
    ensures CountPullRequests(TallyOf(world, forks, Attempts(link, world, forks, |forks|), |forks|).calls) == Reached(world, forks, |forks|)
  {
    var attempts := Attempts(link, world, forks, |forks|);
    forall i | 0 <= i < |forks|
      ensures CountPullRequests(attempts[i].calls) == if Proceeds(world.config, forks[i], world.forkReplies(i)) then 1 else 0
    {
      AttemptSends(link, world, forks, i);
    }
    PullRequestsSent(world, forks, attempts, |forks|);
  }

  /** Fork-all's opt-in checks: one per listed fork, in listing order, whenever an opt-in check is supplied. */
  lemma IssuerOptInChecksInListingOrder(link: Link, world: World, forks: seq<Fork>)
    requires world.optInSupplied
    ensures OptInChecks(TallyOf(world, forks, Attempts(link, world, forks, |forks|), |forks|).calls) == ListingOptInChecks(forks, |forks|)
  {
    var attempts := Attempts(link, world, forks, |forks|);
    forall i | 0 <= i < |forks|
      ensures OptInChecks(attempts[i].calls) == []
    {
      IssuerAsksNoOptIn(link, world, forks, i);
    }
    OptInChecksInListingOrder(world, forks, attempts, |forks|);
  }

  /** The issuer's attempt for a listed fork sends its one request exactly when every gate lets it through. */
  lemma AttemptSends(link: Link, world: World, forks: seq<Fork>, i: nat)
    requires i < |forks|
    ensures CountPullRequests(Attempts(link, world, forks, |forks|)[i].calls) == if Proceeds(world.config, forks[i], world.forkReplies(i)) then 1 else 0
  {
    AttemptAt(link, world, forks, |forks|, i);
  }

  /** The errors of a shorter prefix stay, unchanged and first, in the errors of a longer one. */
  lemma {:induction false} ErrorsOnlyGrow(world: World, attempts: seq<Attempt>, m: nat, n: nat)
    requires m <= n <= |attempts|
    ensures ForkErrors(world, attempts, m) <= ForkErrors(world, attempts, n)
    decreases n - m
  {
    if m < n {
      ErrorsOnlyGrow(world, attempts, m, n - 1);
    }
  }

  /** A fork whose attempt failed, and which did not decline, leaves its error among the run's errors, whatever the forks after it do. */
  lemma ErrorKept(world: World, attempts: seq<Attempt>, n: nat, i: nat)
    requires i < n <= |attempts|
    requires !Settled(world, attempts, i)
    ensures ForkError(ERROR, attempts[i].result.msg) in ForkErrors(world, attempts, n)
  {
    var after := ForkErrors(world, attempts, i + 1);
    assert after[|after| - 1] == ForkError(ERROR, attempts[i].result.msg);
    ErrorsOnlyGrow(world, attempts, i + 1, n);
  }

  /**
   * A fork whose create call fails with anything but the "already exists"
   * code leaves an error naming that fork among the run's errors.
   */
  lemma FailedForkReported(link: Link, world: World, forks: seq<Fork>, i: nat, e: ApiError)
    requires i < |forks|
    requires !Declines(world, i) && Proceeds(world.config, forks[i], world.forkReplies(i))
    requires world.forkReplies(i).pullRequest == Some(e) && e.code != Some(AlreadyExistsCode)
    ensures ForkError(ERROR, FailureMessage(forks[i], e)) in TallyOf(world, forks, Attempts(link, world, forks, |forks|), |forks|).errors
    ensures Contains(FailureMessage(forks[i], e), Repo(forks[i].owner, forks[i].repo))
  {
    var attempts := Attempts(link, world, forks, |forks|);
    AttemptAt(link, world, forks, |forks|, i);
    assert attempts[i].result == Err(FailureMessage(forks[i], e));
    ErrorKept(world, attempts, |forks|, i);
  }

  /** A run reports no errors exactly when every fork up to `n` declined opt-in or had its attempt succeed. */
  lemma {:induction false} NoErrorsIffAllSettled(world: World, attempts: seq<Attempt>, n: nat)
    requires n <= |attempts|
    ensures ForkErrors(world, attempts, n) == [] <==> forall i :: 0 <= i < n ==> Settled(world, attempts, i)
  {
    if n > 0 {
      NoErrorsIffAllSettled(world, attempts, n - 1);
      if ForkErrors(world, attempts, n) != [] && Settled(world, attempts, n - 1) {
        var i :| 0 <= i < n - 1 && !Settled(world, attempts, i);
      }
    }
  }

  function ListingCalls(link: Link, n: nat): seq<Call>
    requires link.upstreamOwner.Some? && link.upstreamRepo.Some?
  {
    seq(n, i requires 0 <= i => ListForks(link.upstreamOwner.value, link.upstreamRepo.value, PageRequest(i, DefaultPageSize)))
  }

  /**
   * Every fork of the upstream: the listing is paged; if it fails the job is
   * an error with that message, otherwise the job is OK whatever the forks
   * do, every listed fork is counted, and each counted fork is a success or
   * an error.
   */
  function ForkAllOutcome(job: Job, world: World): (r: JobResult)
    requires Complete(job.link) && StrategyOf(job.link) == AllForks
    ensures r.record.fromRequest == job.fromRequest
    ensures match Collect(world.forkPages, DefaultPageSize, 0)
            case Err(msg) => r.record.status == ERROR && r.record.output == ErrorOutput(msg)
            case Ok(forks) =>
              && r.record.status == OK && r.record.output.ManyOutput? && r.record.output.isEnabled
              && r.record.output.total == |forks|
              && r.record.output.successes + |r.record.output.errors| == |forks|
  {
    var link := job.link;
    var listed := ListingCalls(link, FetchCount(world.forkPages, DefaultPageSize, 0));
    match Collect(world.forkPages, DefaultPageSize, 0)
    case Err(msg) => ErrorResult(job, msg, listed)
    case Ok(forks) =>
      var attempts := Attempts(link, world, forks, |forks|);
      var t := TallyOf(world, forks, attempts, |forks|);
      TallyCounts(world, attempts, |forks|);
      JobResult(OutcomeRecord(OK, ManyOutput(true, t.total, t.successes, t.errors), job.fromRequest), listed + t.calls)
  }

  // ---------------------------------------------------------------- one job

  /**
   * What processing `job` records and calls: a disabled link, then an
   * incomplete one, is an error before any call; otherwise the link's fork
   * type decides. The caller's request id is echoed in every record.
   */
  function JobOutcome(job: Job, world: World): (r: JobResult)
    ensures r.record.fromRequest == job.fromRequest
    ensures !job.link.enabled ==>
              r.record.status == ERROR && r.record.output == ErrorOutput(LinkDisabledMessage) && r.calls == []
    ensures job.link.enabled && !Complete(job.link) ==>
              r.record.status == ERROR && r.record.output == ErrorOutput(LinkIncompleteMessage) && r.calls == []
    ensures Actionable(job.link) ==>
              r == match StrategyOf(job.link)
                   case SingleFork => SingleForkOutcome(job, world)
                   case AllForks => ForkAllOutcome(job, world)
                   case UnrelatedRepo => UnrelatedRepoOutcome(job, world)
  {
    var link := job.link;
    if !link.enabled then ErrorResult(job, LinkDisabledMessage, [])
    else if !Complete(link) then ErrorResult(job, LinkIncompleteMessage, [])
    else match StrategyOf(link)
      case SingleFork => SingleForkOutcome(job, world)
      case AllForks => ForkAllOutcome(job, world)
      case UnrelatedRepo => UnrelatedRepoOutcome(job, world)
  }

  /** Processes one job, running the fork listing and the fork-all loop step by step. */
  method ProcessJob(job: Job, world: World) returns (r: JobResult)
    ensures r == JobOutcome(job, world)
  {
    var link := job.link;
    if !link.enabled {
      return ErrorResult(job, LinkDisabledMessage, []);
    }
    if !Complete(link) {
      return ErrorResult(job, LinkIncompleteMessage, []);
    }
    match StrategyOf(link) {
      case SingleFork =>
        r := SingleForkOutcome(job, world);
      case UnrelatedRepo =>
        r := UnrelatedRepoOutcome(job, world);
      case AllForks =>
        var listing, requests := Paginate(world.forkPages, DefaultPageSize);
        var owner, repo := link.upstreamOwner.value, link.upstreamRepo.value;
        var listed := seq(|requests|, i requires 0 <= i < |requests| => ListForks(owner, repo, requests[i]));
        assert listed == ListingCalls(link, FetchCount(world.forkPages, DefaultPageSize, 0));
        match listing {
          case Err(msg) =>
            r := ErrorResult(job, msg, listed);
          case Ok(forks) =>
            var t := RunForkAll(link, world, forks);
            r := JobResult(OutcomeRecord(OK, ManyOutput(true, t.total, t.successes, t.errors), job.fromRequest), listed + t.calls);
        }
    }
  }

  // ---------------------------------------------------------------- the batch

  /**
   * processBatch: pops one job; with none, changes nothing. Otherwise stores
   * the job's record under its queue id and appends that id to its link's
   * history, leaving every other status and history as it was.
   */
  method ProcessBatch(queue: WebhookQueue<Job>, store: WebhookStatusStore<OutcomeRecord>, world: World)
    returns (handled: Option<JobResult>)
    requires queue.Valid()
    modifies queue, store
    ensures queue.Valid()
    ensures old(queue.queue) == [] ==>
              handled == None && queue.queue == [] && store.keys == old(store.keys) && store.links == old(store.links)
    ensures old(queue.queue) != [] ==>
              var e := old(queue.queue)[|old(queue.queue)| - 1];
              && queue.queue == old(queue.queue)[..|old(queue.queue)| - 1]
              && handled == Some(JobOutcome(e.data, world))
              && e.id in store.keys && store.keys[e.id].status == JobOutcome(e.data, world).record
              && store.keys == old(store.keys)[e.id := store.keys[e.id]]
              && store.links == old(store.links)[e.data.link.id := History(old(store.links), e.data.link.id) + [e.id]]
  {
    var popped := queue.Pop();
    match popped {
      case None =>
        handled := None;
      case Some(e) =>
        var r := ProcessJob(e.data, world);
        var _ := store.Set(e.id, r.record);
        store.AttachToLink(e.data.link.id, e.id);
        handled := Some(r);
    }
  }

  /**
   * A test's run: with both stores reset, one job pushed and processed, the
   * job's record is stored under the id it was queued as, and the link's
   * history is exactly that id.
   */
  method RunOneJob(queue: WebhookQueue<Job>, store: WebhookStatusStore<OutcomeRecord>, job: Job, world: World)
    returns (enqueuedAs: nat)
    requires queue.Valid()
    modifies queue, store
    ensures queue.Valid() && queue.queue == []
    ensures enqueuedAs in store.keys && store.keys[enqueuedAs].status == JobOutcome(job, world).record
    ensures store.links == map[job.link.id := [enqueuedAs]]
  {
    queue.Reset();
    store.Reset();
    enqueuedAs := queue.Push(job);
    assert queue.queue == [Entry(enqueuedAs, job)];
    assert store.links == map[];
    var _ := ProcessBatch(queue, store, world);
    assert History(map[], job.link.id) + [enqueuedAs] == [enqueuedAs];
  }
}
