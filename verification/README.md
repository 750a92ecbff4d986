# Backstroke pull-request helpers and worker, modelled in Dafny

Backstroke keeps forks in step with their upstream. A *link* names an
upstream repository and branch and a target: one fork, every fork of the
upstream (`fork-all`), or an unrelated repository reached through the bot's
own fork (`unrelated-repo`). A webhook puts a job for the link on a queue,
and the worker pops it. For each target the worker then:

- asks whether the target opted out;
- adds the bot as a collaborator on private targets;
- proposes the upstream branch as a pull request;
- stores the outcome under the job's id and appends that id to the link's
  history.

This project models that core:

- `results.dfy`, `text.dfy`: `Option`/`Result` and small string facts. These
  are `Contains`, splitting at the first separator, and stripping a prefix.
- `domain.dfy`: links, fork targets, pull-request arguments and API errors.
  It also holds the log of outbound calls (`Call`) that every operation
  returns beside its result, so ordering and call counts can be stated.
- `pagination.dfy`: `paginateRequest`. It is a `while` loop (`Paginate`)
  proved against the recursive `Collect`/`FetchCount`.
- `helpers.dfy`:
  - `didRepoOptOut`, `generatePullRequestTitle` and the request built by
    `createPullRequest`;
  - the issuer. It refuses without credentials, checks opt-out, grants
    collaborator rights on private targets, sends the request and maps the
    callback's error.
- `stores.dfy`: the in-memory queue and status store the worker is driven
  with. They are classes whose methods update fields in place.
- `worker.dfy`: `processBatch` as its tests pin it down. It validates the
  link, then dispatches on the fork type:
  - a single fork;
  - fork-all: a loop over the listed forks, with opt-in, counting and error
    collection;
  - an unrelated repository: fork, clone, push, then the issuer.
  
  It then stores the record and the link history.

The worker's own source file is not part of this model. Its behaviour is
reconstructed from `src/worker.test.js`:

- a created single-fork pull request reads "Successfully synced link.";
- the "already exists" message passes through unchanged;
- a fork that declines opt-in counts in both `total` and `successes`, and no
  request is sent for it;
- an unrelated repository is forked as `forkOwner/forkRepo`, and the push
  goes to `bot/forkRepo`.

The answers of GitHub, of git and of the opt-in and opt-out checks are
parameters: `Replies` for one issue and `World` for a job.

## Model

| member | source | states |
|---|---|---|
| Domain.BotName | src/helpers.js:144 | the bot's name is GITHUB_BOT_USERNAME when that is set and non-empty, `backstroke-bot` when it is unset or empty, and never empty |
| Pagination.Paginate | src/helpers.js:4-26 | the loop requests pages 0, 1, 2, … with `per_page` = page size, exactly `FetchCount` of them, and settles to `Collect`: full pages are kept and paging goes on, a short page is kept and ends it, an over-long page is dropped and ends it, a rejection passes through |
| Pagination.CollectAcrossFullPages | src/helpers.js:13-16 | across a run of full pages, paging keeps every item of them in order in front of what follows, and makes one call per page |
| Pagination.ShortPageEndsPaging | src/helpers.js:17-20 | after k full pages, a shorter page ends paging: the result is all k pages and that page, in order, after k + 1 calls |
| Pagination.LongPageIsDropped | src/helpers.js:21-24 | after k full pages, a longer page ends paging and is dropped: the result is the k full pages, after k + 1 calls |
| Pagination.RejectionEndsPaging | src/helpers.js:12-25 | after k full pages, a rejected call ends paging with that rejection, after k + 1 calls |
| Helpers.DidRepoOptOut | src/helpers.js:61-81 | the check succeeds iff the search answered; it answers "opted out" iff at least one `optout` issue came back; it fails with "doesn't exist" iff an error entry has code `invalid`; every failure names `owner/repo`; any other failure carries the error's message (or the error itself when that is empty) |
| Helpers.TitleRoundTrip | src/helpers.js:108 | the title reads back as exactly the owner, repository and branch it was made from (for an owner without '/' and a repository without '/' or '@') |
| Helpers.PullRequestFields | src/helpers.js:150-158 | the request targets the fork; its head reads as the upstream owner's upstream branch; its title names the upstream; its base is the upstream branch under fork-all and the fork's branch otherwise; maintainers may not modify it |
| Helpers.PullRequestResult | src/helpers.js:159-169 | the request succeeds iff there is no error or the error has code 422; every message names the target; a failure carries the error's message (or the error itself when that is empty); the result reads as a freshly created pull request iff there was no error |
| Helpers.PullRequestResultAsWritten | src/helpers.js:159-169 | the callback mapping as written succeeds iff there is no error or the code is 422 |
| Helpers.AlreadyOpenOnForkAllAsWritten | src/helpers.js:160-163 | under a fork-all link, the written 422 message names `undefined/undefined`, while the corrected one names the fork |
| Helpers.AsWrittenAgreesWhenLinkNamesFork | src/helpers.js:160-163 | when the link's fork fields name the target, the written mapping and the corrected one agree on every error |
| Helpers.IssuePullRequest | src/helpers.js:125-172 | no token outside the test environment gives the token message and makes no call; otherwise the opt-out check comes first; an opt-out, a failed opt-out check or a failed collaborator grant on a private target is the error; exactly one create call is made iff every gate passes, and then it is the last call and the result is `PullRequestResult` |
| Helpers.IssueCallOrder | src/helpers.js:135-151 | the issuer calls only the opt-out check, the collaborator grant and the create call; the bot is made a collaborator iff the target is private, authentication is possible and it did not opt out; the create call, when made, is the last one |
| Helpers.CreatePullRequest | src/helpers.js:123-173 | when a pull request is sent, the last call sends the request built from the link for this fork |
| Stores.WebhookQueue.constructor | src/worker.test.js:7-11 | a new queue is empty |
| Stores.WebhookQueue.Reset | src/worker.test.js:9-11 | reset empties the queue |
| Stores.WebhookQueue.Push | src/worker.test.js:13-17 | push appends `{id, data}` under an id no entry in the queue has, and returns that id |
| Stores.WebhookQueue.Pop | src/worker.test.js:18-21 | pop removes and returns the most recently pushed entry, or returns nothing and changes nothing when the queue is empty |
| Stores.PushThenPop | src/worker.test.js:13-21 | last in, first out: a pop right after a push returns the pushed entry and leaves the queue as it was |
| Stores.WebhookStatusStore.constructor | src/worker.test.js:24-26 | a new store has no statuses and no link histories |
| Stores.WebhookStatusStore.Reset | src/worker.test.js:27-30 | reset clears statuses and link histories |
| Stores.WebhookStatusStore.Set | src/worker.test.js:32-36 | set replaces the status of that job id only and leaves link histories alone |
| Stores.WebhookStatusStore.Get | src/worker.test.js:37-39 | get finds a status iff one is stored for the id, and returns the status stored |
| Stores.WebhookStatusStore.AttachToLink | src/worker.test.js:40-46 | appends the job id to the link's history, starting one if there is none, and changes nothing else |
| Stores.SetThenGet | src/worker.test.js:32-39 | a get after a set returns the status set; every other job's status and every history are kept |
| Worker.SingleForkOutcome | src/worker.test.js:56-135 | a single-fork job is OK iff the issuer's attempt on the linked fork succeeds, and sends one pull request iff every gate passes; the request id is echoed |
| Worker.SingleForkSynced | src/worker.test.js:137-222 | a created pull request reads "Successfully synced link." after exactly one create call, from `upstreamOwner:upstreamBranch` into the fork's branch |
| Worker.SingleForkOptedOut | src/worker.test.js:313-386 | an opted-out fork is an error with the opt-out message, and no pull request is sent |
| Worker.SingleForkOptOutFailed | src/worker.test.js:679-748 | a failed opt-out check, such as a missing repository, is an error with that check's message, and no pull request is sent |
| Worker.SingleForkAlreadyOpen | src/worker.test.js:387-460 | an existing pull request (code 422) is OK, with the "already a pull request on owner/repo" response |
| Worker.SingleForkCreateFailed | src/worker.test.js:461-534 | any other create failure is an error naming the fork and the underlying message |
| Worker.UnrelatedRepoOutcome | src/worker.test.js:1014-1130 | an unrelated repository sends one pull request iff forking, cloning and pushing all succeed and every issuer gate passes; the request id is echoed |
| Worker.UnrelatedRepoSynced | src/worker.test.js:1099-1129 | a synced unrelated repository is marked `unrelatedForks`; the calls are: fork the target into the bot's account, clone the upstream, push to the bot's copy on a branch named after the upstream owner, then only the issuer's calls (no second fork, clone or push), ending with one create call from `bot:upstreamOwner` into the target's branch |
| Worker.UnrelatedRepoProposes | src/worker.test.js:1115-1128 | whatever the create call answers, once forking, cloning, pushing and every issuer gate succeed, the third call pushes to `github.com/bot/forkRepo` and the last call proposes `bot:upstreamOwner` |
| Worker.UnrelatedRepoDefaultBot | src/worker.test.js:1115-1127 | without GITHUB_BOT_USERNAME the push goes to `https://github.com/backstroke-bot/forkRepo`, the head is `backstroke-bot:upstreamOwner`, and a failed push reads `Error received while pushing backstroke-bot/upstreamOwner: …` |
| Worker.UnrelatedRepoPushFailed | src/worker.test.js:1131-1222 | a failed push is an error reading `Error received while pushing bot/upstreamOwner: …`, naming the bot account and the branch pushed, and no pull request is sent |
| Worker.VisitFork | src/worker.test.js:842-936 | one loop turn adds one fork to the count; it asks that fork's opt-in check when one is supplied; a declined fork counts as a success with no request; otherwise the issuer's attempt is a success or one error entry, and its calls are appended |
| Worker.RunForkAll | src/worker.test.js:224-312 | the loop's totals, errors and calls are those of every listed fork, each handled in order |
| Worker.TallyCounts | src/worker.test.js:826-838 | every counted fork is either a success or an error |
| Worker.ForkCallsOptInStep | src/worker.test.js:930-935 | one more fork adds its own opt-in check, and no other, to the run's opt-in checks |
| Worker.OptInChecksInListingOrder | src/worker.test.js:930-935 | with an opt-in check supplied, it is asked once per listed fork, with that fork's owner and name, in listing order |
| Worker.IssuerAsksNoOptIn | src/worker.test.js:930-935 | the issuer's calls for a fork contain no opt-in check |
| Worker.IssuerOptInChecksInListingOrder | src/worker.test.js:930-935 | a whole fork-all run asks the opt-in check exactly once per listed fork, in listing order |
| Worker.PullRequestsSent | src/worker.test.js:929 | the run sends one pull request per fork that passes opt-in and every issuer gate, and none for any other fork |
| Worker.IssuerPullRequestsSent | src/worker.test.js:306 | a whole fork-all run sends exactly as many pull requests as forks that pass opt-in and the issuer's gates |
| Worker.AttemptSends | src/worker.test.js:840 | the attempt for a listed fork sends one pull request iff every gate passes |
| Worker.ErrorsOnlyGrow | src/worker.test.js:826-838 | the errors of earlier forks stay, unchanged and first, as later forks are handled |
| Worker.ErrorKept | src/worker.test.js:826-838 | a fork that did not decline and whose attempt failed leaves its error among the run's errors |
| Worker.FailedForkReported | src/worker.test.js:826-838 | a fork whose create call fails with anything but 422 leaves an `ERROR` entry naming that fork and the message; the run goes on |
| Worker.NoErrorsIffAllSettled | src/worker.test.js:297-303 | the errors list is empty iff every fork declined opt-in or had its attempt succeed |
| Worker.ForkAllOutcome | src/worker.test.js:224-312 | a failed fork listing is the job's error; otherwise the job is OK whatever the forks do, `many` output with `total` = number of listed forks and successes + errors = total |
| Worker.JobOutcome | src/worker.test.js:535-678 | a disabled link, then an incomplete one, is an error with its message before any call; otherwise the fork type chooses single fork, fork-all or unrelated repository; the request id is echoed in every record |
| Worker.ProcessJob | src/worker.test.js:938-1012 | processing one job, with the fork listing paged and the fork-all loop run step by step, records exactly `JobOutcome` |
| Worker.ProcessBatch | src/worker.test.js:113-135 | with no job queued nothing changes; otherwise the newest job is popped, its record is stored under its queue id, and the id is appended to its link's history; every other status and history is kept |
| Worker.RunOneJob | src/worker.test.js:51-135 | after both stores are reset and one job is pushed and processed, the queue is empty, the job's record is stored under the id it was queued as, and the link's history is exactly that id |

## Left out

- `getForksForRepo` and `checkRateLimit`: GitHub client plumbing. The fork listing is modelled as the pages the paged method returns (`World.forkPages`), and the rate limit is not modelled.
- Authentication with tokens, `user.accessToken` and the GitHub client object: credentials are reduced to whether a token is configured or the environment is the test one (`Config`).
- `addBackstrokeBotAsCollaborator`: only its outcome is modelled, as a `Result` reply. Its messages are not modelled. Its body reads a `user` that is not in scope (src/helpers.js:87), so what it would throw is not derived.
- `generatePullRequestBody` and the request's `body` field: markdown text that no contract depends on.
- The opt-out search's query shape (label `optout`, one per page) is not modelled. Only how its answer is classified is modelled.
- The opt-in check failing (rejecting) under fork-all is not modelled. The tests only supply answers, and the worker's source is not part of this model.
- Cloning, pushing and temporary directories (nodegit, tmp-promise): each is reduced to a `Result` and the call it makes.
- Timestamps used as ids: replaced by a counter. Two pushes in the same millisecond would collide in the JavaScript mocks; they cannot here.
- Worker.LinkedFork: single-fork and unrelated-repo targets are always public (`private: false`), because the link carries no private flag. So the collaborator grant of src/helpers.js:143-147 is never exercised for them; it is modelled, and reachable, for forks under fork-all.
- Pagination.Paginate: the paged method is a finite list of answers followed by empty pages. A method that returns full pages forever, on which src/helpers.js:13-16 recurses without end, cannot be expressed.
- Pagination.Paginate: the in-place write of `page` and `per_page` into the caller's `args` object (src/helpers.js:6-10) is not modelled. The requests are returned as values instead, so aliasing of `args` with the caller is not captured.
- Stores.WebhookStatusStore.Get: returns `None` where `MockWebhookStatusStore.get` throws on an id with nothing stored (src/worker.test.js:38).
- Promises, `await` and the `debug` logger: the model is sequential and logs nothing.
- Exceptions and rejections: modelled as `Result` values.
- Paginate: requires a page size above zero. With a size of 0 the source requests forever on an empty page.
- Fork listings are `Fork` values. The JSON shape (`owner.login`, `name`) is not modelled.
- `src/worker.js` is not part of this model. The worker is modelled from the outcomes its tests assert.

## Findings

| source | as written | input that shows it | evidently intended | confidence | as-written member | corrected member |
|---|---|---|---|---|---|---|
| src/helpers.js:163 | the "already exists" message names `link.forkOwner/link.forkRepo` | a fork-all link (fork fields undefined) and a 422 on fork `hello/world`: the message reads `There's already a pull request on undefined/undefined` | name the target that was asked, `fork.owner/fork.repo`, as every other message in the callback does | not executed | Helpers.AlreadyOpenOnForkAllAsWritten | Helpers.PullRequestResult |
