# Cloudbeat: verified models of its protocols

Dafny models of the parts of cloudbeat where several goroutines, or several operations on shared
state, have to agree on something.

* **Vulnerability scan** (`Scan*.dfy`, `Publisher.dfy`, `InstanceFetcher.dfy`). Five goroutines
  (instance fetcher, snapshot replicator, verifier, scanner, events creator) joined by unbuffered
  channels, the batching publisher that drains the last one, and the worker that waits for the five
  and then deletes the snapshots. `ScanModel` holds what the stages make of one item, `ScanLoop` the sequential
  nested loop the pipeline has to agree with, written without the stages; `ScanPipeline` is the transition system in which every interleaving, every choice of a
  select with several ready cases and a cancellation at any point is a run; `ScanInvariants` and
  `ScanFlow` hold what each step keeps; `ScanResults` and `ScanProgress` hold the theorems about
  runs. `ScanStages`, `Publisher` and `InstanceFetcher` prove the imperative loops inside the stages
  against the functions used by the transition system. Channel and select rules are those of the Go
  Programming Language Specification, sections "Select statements", "Send statements" and "Close".
* **Posture pipeline** (`PosturePipeline.dfy`, `PosturePublisher.dfy`). Two generic steps over buffered
  channels, and the publisher behind them.
* **Colon-separated files** (`ColonFields.dfy`, `ColonFile.dfy`, `ColonLookup.dfy`,
  `UserLookup.dfy`). The chunked reader of /etc/passwd and /etc/group, against "split into lines,
  take the first row for the id".
* **Launcher** (`Launcher.dfy`). Restarts, reconfiguration, stop signals, beater errors and panics.
* **Caches** (`CycleCache.dfy`, `OrgFetchers.dfy`, `FanIn.dfy`, `AccountProvider.dfy`,
  `CloudIdentity.dfy`). The double-checked per-cycle cache, the fetchers of an AWS organization with
  their registry and forwarders, and the cache of organizational-unit names.
* **Azure network rules** (`NetworkRules.dfy`). The indexed join of security rules onto machines.

A run of the scan pipeline is a list of steps together with the states it goes through (`IsRun`); for
the smaller systems `After(…, steps)` is the state a list of steps leads to, or `None` if one of them
was not enabled. Answers of providers, of the scanner and of other surroundings are parameters about
which nothing is assumed.

## Where the code and its documentation differ

* `readColonFile` promises that in a long line additional fields may be discarded
  (resources/utils/user/user.go:119-120) and that comments are allowed (lines 163-165). But after a
  comment it goes on without skipping the rest of the line (lines 166-169). If a comment is longer
  than the reader's buffer and has enough colons in what has been read, its rest is taken for a line
  of its own. The model keeps the code. `GroupCommentCut` and `UserCommentCut` show that every such
  comment has a rest that is returned as a group or user although no line has one;
  `CutCommentCounterexample` is an instance in which the first 4096 characters, the default size of
  the buffer (line 124), are cut off. `GroupCutSafety` and `UserCutSafety` give the exact condition:
  between whole lines without a row and lines whose comments are not cut, a line cut after enough
  colons is read right for every rest of it exactly if it is not a comment. `ReaderMeetsLines` says
  for any chunk stream when the reader and the specification agree.
* `runLoop` lists what `waitForUpdates` can return (launcher/launcher.go:141-144). A nil
  configuration from the reloader is none of these: the loop then creates the next beater without
  stopping the current one or waiting for it. The listener forwards the configuration of a reload
  without looking at it (launcher/listener.go:44-48). `NilUpdateCounterexample` is a run, managed or
  not, with two active beaters; `NilUpdateSafety` says that a nil configuration is safe, whatever
  follows, exactly if no beater is active when it arrives; `SingleActiveBeater` bounds the number of
  active beaters in every run by one more than the nil configurations that found one active.
* Each account of an organization is to report its resources under its own identity. The factory is
  given the address of the loop variable (resources/fetching/preset/aws_org_preset.go:80 and 119),
  which in Go 1.21 (go.mod:3) is one variable for all iterations, and the fetchers follow it when they
  build resource ids (for instance resources/fetching/fetchers/aws/monitoring_fetcher.go:57 and 98). The
  wrapper (resources/fetching/preset/aws_org_preset.go:42-52) puts the account fields right, but not the id. `TrailIdentity` says
  that an account's trail has its own id exactly if the account is the last of the list in which its
  fetchers were made; `TrailOfAnother` is the instance of two accounts.

## Model

| member | source | states |
|---|---|---|
| ScanResults.UncancelledRun | vulnerability/worker.go:97-150 | In every uncancelled run, under every interleaving, what has been published and buffered is a prefix of the sequential nested loop's events, and what the client has received when the publisher returns is exactly these: nothing lost, repeated or reordered |
| ScanResults.AnyRun | flavors/vulnerability.go:129-144 | With a cancellation at any point what is published and buffered is a subsequence of the nested loop's events, and everything the publisher received has been handed over when it returns |
| Sequences.SubsequenceMeans | flavors/vulnerability.go:129-144 | A subsequence is a choice of positions in increasing order: nothing invented, repeated or reordered |
| ScanResults.StageOutput | vulnerability/scanner.go:74-91 | In every run each stage's output is an order-preserving selection of the images of its inputs, and all of them if uncancelled and idle |
| ScanLoop.StagesComposeToLoop | vulnerability/worker.go:106-139 | The five stages composed one after the other produce the events of the nested loop over instances, created snapshots, verified snapshots, report results and vulnerabilities, a loop that shares none of their functions |
| ScanLoop.SnapshotEventAt | vulnerability/events_creator.go:201-204 | A scanned snapshot gives no event if its scan failed, and otherwise exactly one for each vulnerability of each report result: the event at each position is the one generated from that result, that vulnerability and the snapshot |
| ScanLoop.VerifiedLoopMeans | vulnerability/scanner.go:74-91 | The verified snapshots contribute the events of their scans, one after the other |
| ScanLoop.CreatedLoopMeans | vulnerability/verifier.go:60-85 | The created snapshots contribute what their settled answers give, one after the other |
| ScanLoop.PollLoopMeans | vulnerability/verifier.go:102-118 | The settled answer is the first that is no error and finds every snapshot completed, and nothing if there is none |
| ScanLoop.InstanceLoopMeans | vulnerability/replicator.go:62-75 | The instances contribute what their created snapshots give, one after the other, and nothing if the creation failed |
| ScanResults.SnapshotConservation | vulnerability/replicator.go:48-80 | On every exit path, also cancelled in the middle of forwarding, the replicator's list is the concatenation of all snapshots that `CreateSnapshots` gave for the instances received; that list reaches the cleaner, which deletes each entry at most once, in order, after all five stages are gone |
| ScanResults.UncancelledCleanup | vulnerability/cleaner.go:47-67 | A worker that finishes uncancelled has attempted the deletion of exactly the snapshots created for all instances, in order |
| ScanResults.CreatedFromMeans | vulnerability/replicator.go:62-69 | These are, instance by instance, the whole answers of `CreateSnapshots`, and nothing for an error |
| ScanResults.RefusedRun | vulnerability/worker.go:101-104 | A worker whose context is already cancelled at its check starts nothing, then or later; otherwise it begins |
| ScanResults.LeftForGood | vulnerability/replicator.go:53-75 | A stage that leaves by its receive select, and a fetcher, replicator or events creator that gives up a send, never sends again; a verifier or scanner that gives up goes back to its receive select |
| ScanResults.BatchesOfRun | flavors/publisher.go:75-81 | In every run no batch is empty and the publisher's buffer is short of the threshold |
| ScanResults.PutNeverBlocks | vulnerability/worker.go:117-121 | The replicator's put into the cleaner's channel always finds room and an open channel |
| ScanResults.NoMisuse | vulnerability/worker.go:106-147 | No stage sends on or closes a closed channel, the cleaner's channel is closed once, the wait group never goes below zero |
| ScanResults.AllOver | vulnerability/worker.go:106-139 | Without cancellation the publisher only stops after every stage has left its loop |
| ScanProgress.NeverStuck | vulnerability/worker.go:106-145 | In every reachable state, cancelled or not, some step is enabled until the worker and the publisher have returned |
| ScanProgress.RunsAreFinite | vulnerability/worker.go:97-150 | A run has at most as many steps as a measure of the script allows, idle flush ticks apart |
| ScanProgress.StepIsCheaper | vulnerability/worker.go:106-147 | Every step but an idle tick decreases the measure over instances, snapshots, polls, results and open channels |
| ScanProgress.CanFinish | vulnerability/worker.go:141-146 | Every run can be continued, without a cancellation, until worker and publisher have returned |
| ScanFlow.RunKeepsInv | vulnerability/worker.go:97-150 | Control, flow, publishing and creation invariants hold after every run |
| ScanFlow.StepKeepsFlow | vulnerability/worker.go:106-139 | Every step keeps: output and work in hand of a stage are the images of its input, in order |
| ScanInvariants.StepKeepsCore | vulnerability/worker.go:106-147 | Every step keeps: the wait group counts the live stages, channels are closed once by their sender, a stage stops consuming early only if cancelled, the snapshot list is in one place |
| ScanStages.Verifier.Verify | vulnerability/verifier.go:87-132 | Every snapshot forwarded is completed; uncancelled, the whole of the first answer with all snapshots completed is forwarded, and nothing if the timeout comes first; a part of it only if cancelled; at most timeout/interval polls for any provider behaviour |
| ScanStages.VerifyShipped | vulnerability/verifier.go:30-33 | At most 120 polls with the shipped constants |
| ScanStages.SettleMeans | vulnerability/verifier.go:102-118 | What is forwarded is the first all-completed answer, and nothing if there is none |
| ScanStages.CollectFindings | vulnerability/scanner.go:187-199 | Exactly one result per vulnerability of each report result, each in its place in report order |
| ScanStages.FindingsInPlace | vulnerability/scanner.go:187-199 | The result of a vulnerability stands after those of the earlier report results and of the earlier vulnerabilities of its own |
| ScanStages.FindingsAppend | vulnerability/scanner.go:187-199 | Flattening two reports one after the other is flattening their concatenation |
| ScanStages.BuildEvents | vulnerability/events_creator.go:201-204 | As many events as results, and at each position the event generated from the result there |
| InstanceFetcher.AttachRootVolumes | vulnerability/fetcher.go:79-101 | In place, each instance gets the first listed volume that is attached to it as its root device and keeps what it had if there is none; nothing else changes, and nothing at all if the listing fails |
| InstanceFetcher.RootOfVolumesOf | vulnerability/fetcher.go:85-98 | Searching an instance's grouped volumes finds what searching all volumes finds |
| InstanceFetcher.SortedMeans | vulnerability/fetcher.go:103-114 | A list is sorted by the comparison exactly if instances with a root volume come first, smallest first, and the others last |
| InstanceFetcher.CanBeSorted | vulnerability/fetcher.go:103-114 | The comparison, a strict weak order, lets every list of instances be sorted, so the promise of the library sort can be kept |
| ScanLoop.EmittedOrder | vulnerability/fetcher.go:50-77 | If the library sort keeps its promise, the pipeline emits, numbered in order, a permutation of the described instances, each with the root volume it is to have, those with one first and smallest first; if the volumes cannot be listed, the described instances as they are |
| Publishing.HandleConserves | flavors/publisher.go:48-84 | Published batches followed by the buffer are all received events in order, and the buffer is empty on both exits |
| Publishing.HandleBounded | flavors/publisher.go:48-94 | For a threshold of at least 1 no batch is empty, the buffer is short of the threshold at each loop head, every batch is shorter than the threshold plus the largest chunk |
| Publishing.HandleStep | flavors/publisher.go:52-82 | One pass of the loop: a chunk below the threshold waits, one that reaches it is handed over with what was waiting; a tick and either exit hand over what is waiting, if there is any; nothing happens after an exit |
| Publishing.Publisher.HandleEvents | flavors/publisher.go:48-84 | The loop, as driven by its select, is the fold these lemmas are about; it returns at the first closed channel or cancellation with everything published |
| Publishing.Publisher.Publish | flavors/publisher.go:86-94 | A non-empty buffer becomes one batch and is emptied, an empty one is left alone |
| PosturePipeline.ComposedStages | pipeline/pipeline.go:30-49 | In every run the publisher receives a prefix of the filter-map of the resources by evaluation and then transformation, all of it once the last channel, closed once and after the last resource, is empty; at most 22 items are in flight |
| PosturePipeline.BoundIsReached | pipeline/pipeline.go:30-49 | The bound is exact: as soon as one resource passes both functions some run has 22 items in flight |
| PosturePipeline.FilterMapCompose | flavors/benchmark/builder/benchmark.go:52-57 | Filter-mapping by two steps one after the other is filter-mapping by their composition |
| PosturePipeline.FilterMapMeans | pipeline/pipeline.go:37-45 | The filter-map gives for each item in order its result, and nothing for an error |
| PosturePipeline.DrainedLineMoves | flavors/benchmark/builder/benchmark.go:59-62 | After the resource channel is closed a step is enabled until the last channel is closed and empty |
| PosturePipeline.RunsAreFinite | pipeline/pipeline.go:30-49 | A run of the two steps has at most five steps and seven for each resource, so a drained line, to which no more come, ends |
| PosturePublisher.PublishedEvents | flavors/publisher.go:48-84 | With the publisher behind the line, in every run, cancelled or not: batches and buffer are the events of a prefix of the composed filter-map in order, the buffer is empty when the publisher returns, and if it returns uncancelled the events of all resources have been published |
| PosturePublisher.RunsAreFinite | flavors/publisher.go:48-84 | Apart from flush ticks with nothing to flush, line and publisher together make at most twelve steps and thirteen for each resource |
| PosturePublisher.CanFinish | flavors/benchmark/builder/benchmark.go:52-62 | Every uncancelled run whose resource channel is closed and drained can be continued until the publisher has returned with the events of all resources published |
| ColonLookup.ReaderMeetsLines | resources/utils/user/user.go:123-186 | For every chunk stream the reader answers what the line-by-line specification answers exactly if the first row it meets in an unskipped rest of a comment, if any, is answered by a genuine line too |
| ColonLookup.ScanSeen | resources/utils/user/user.go:134-184 | For every chunk stream the loops answer with the first row among the lines they look at; cutting after enough colons changes no row |
| ColonLookup.CutSafety | resources/utils/user/user.go:166-184 | Between any whole lines without a row and any lines whose comments come in one chunk, a line cut after enough colons is read right for every rest of it exactly if it is not a comment or blank |
| ColonLookup.WholeCommentsAreHarmless | resources/utils/user/user.go:163-169 | If every comment arrives in one chunk the reader agrees with the specification |
| ColonFile.ReadColonFile | resources/utils/user/user.go:123-186 | The three nested loops, reading chunk by chunk, compute the scan that the lemmas above are about |
| ColonFile.FirstRowMeans | resources/utils/user/user.go:170-173 | The line-by-line answer is the value or error of the first line with a row; if there is none, a read error if the input ends with one, and no match otherwise |
| ColonFile.LinesOfPieces | resources/utils/user/user.go:134-161 | Lines cut into chunks in any way are put together again, in order |
| ColonFields.SplitMeans | resources/utils/user/user.go:199 | The fields contain no colon and, joined with colons, are the line |
| ColonFields.TrimSpaceMeans | resources/utils/user/user.go:166 | White space is taken off at both ends and none is left there |
| ColonFields.CutAndTrim | resources/utils/user/user.go:154-166 | A field before enough colons is the same whether the line is cut or not, also after trimming |
| UserLookup.MatchGroupMeans | resources/utils/user/user.go:188-213 | The substring prefilter, the colon count and the limited split together accept exactly the lines with at least four fields whose fields make a group of this id |
| UserLookup.MatchUserMeans | resources/utils/user/user.go:226-265 | Likewise for users, with at least seven fields |
| UserLookup.GroupRowMeans | resources/utils/user/user.go:198-211 | A line name:password:gid:rest is the row of that group exactly if the gid is the one looked for and a number and the name is there and carries no sign |
| UserLookup.UserRowMeans | resources/utils/user/user.go:236-263 | A line of seven fields is the row of that user, with the comment up to its first comma as full name, under the same conditions and a numeric group id |
| UserLookup.ShortLines | resources/utils/user/user.go:195-234 | A line with too few colons has no row |
| UserLookup.AtoiMeans | resources/utils/user/user.go:208 | A printed number is accepted, with a sign or without, exactly if it fits 64 bits |
| UserLookup.GroupScan | resources/utils/user/user.go:215-222 | For every chunk stream the group lookup answers from the first line it looks at that has a row, and that is the answer of the line-by-line specification exactly if unskipped rests of comments are harmless |
| UserLookup.UserScan | resources/utils/user/user.go:267-278 | Likewise for the user lookup |
| UserLookup.FindGroupId | resources/utils/user/user.go:215-222 | For any chunks: the value of the first line looked at that has a row for the id, as it is; without such a line a read error, as it is, or the unknown-id error at a normal end; if comments arrive in one chunk, the same of the lines of the file |
| UserLookup.FindUserId | resources/utils/user/user.go:267-278 | For any chunks: the invalid-id error if the id is no number; otherwise the value of the first line looked at that has a row for it, as it is; without such a line a read error, as it is, or the unknown-id error at a normal end; if comments arrive in one chunk, the same of the lines of the file |
| UserLookup.GroupCutSafety | resources/utils/user/user.go:166-184 | For every numeric group id, among other lines: a line cut after three colons is read right for every rest of it exactly if it is not a comment or blank |
| UserLookup.UserCutSafety | resources/utils/user/user.go:166-184 | For every numeric user id, among other lines: a line cut after six colons is read right for every rest of it exactly if it is not a comment or blank |
| UserLookup.GroupCommentCut | resources/utils/user/user.go:166-184 | Every comment cut after three colons has, for every numeric id, a rest that is returned as a group although the line has no row |
| UserLookup.UserCommentCut | resources/utils/user/user.go:166-184 | Every comment cut after six colons has, for every numeric id, a rest that is returned as a user although the line has no row |
| UserLookup.CutCommentCounterexample | resources/utils/user/user.go:124-184 | A comment of which the first 4096 characters are cut off, and whose rest is returned as a group, and one whose rest is returned as a user |
| Launcher.SingleActiveBeater | launcher/launcher.go:134-209 | In every run, across restarts, errors and recovered panics: the wait group counts the active beaters, at most one more than nil updates found one active, and a count of at most one means that no two are active; a graceful exit leaves none; without such updates only the last beater can be active and none is when the next is created; without any nil update all others have been stopped, and the last too before the next is created |
| Launcher.HowRunsEnd | launcher/launcher.go:146-164 | In every run the launcher shuts its beater down, having told it to stop, exactly if the first thing to end its loop was the stop signal or a beater's error that wraps it; it returns a beater's error exactly if another one came first; and a failed creation, a failed merge, a closed reloader or the end of the first wait exactly if that came first |
| Launcher.ConfigurationOfBeaters | launcher/launcher.go:271-313 | In every run the k-th beater is created with the initial configuration merged, in order, with the first updates accepted, one per creation but for nil updates; in managed mode these start at the first update that validates and the rejected ones are never merged |
| Launcher.CountingMeans | launcher/launcher.go:296-311 | The updates that count are all of an unmanaged launcher and, of a managed one, those from the first its validator accepts |
| Launcher.NilUpdateSafety | launcher/launcher.go:146-164 | A nil update is safe, whatever follows, exactly if no beater is active when it arrives |
| Launcher.NilUpdateCounterexample | launcher/listener.go:44-48 | A run, managed or not, in which a forwarded nil configuration leads to two active beaters |
| Launcher.RunKeepsInv | launcher/launcher.go:132-209 | The safety and configuration invariants hold after every run |
| Launcher.ReconfigureWait | launcher/launcher.go:280-313 | The wait returns the first valid update, discarding invalid ones, or gives up at a closed channel, an error or the timer |
| CycleCache.ConcurrentCallers | resources/fetching/cycle/cache.go:45-66 | Any number of concurrent callers with any cycle sequences, the unlocked read a step of its own: from the first success of a non-negative cycle on successful fetches are of strictly increasing cycles; a caller in cycle n gets a value fetched in a cycle m >= n unless its own fetch failed, and then a value of a non-negative cycle, or an error exactly if there is none |
| CycleCache.ProperCycles | resources/fetching/cycle/cache.go:45-66 | With non-negative sequences all successes are of strictly increasing cycles, and an error is returned only if no fetch had succeeded |
| CycleCache.LastCycleGrows | resources/fetching/cycle/cache.go:51-64 | Between any two points of a run the last cycle never decreases once it is non-negative, and never at all if the sequences are non-negative |
| CycleCache.Cache.GetValue | resources/fetching/cycle/cache.go:45-76 | One caller: fetches only if needed, replaces value and cycle on success, falls back on the old value if there is one |
| OrgFetchers.RefreshSequence | resources/fetching/preset/aws_org_preset.go:74-133 | After any sequence of refreshes the cache holds exactly the accounts last listed, and the factory was called for each account once per appearance, however often it is listed |
| OrgFetchers.CountInMeans | resources/fetching/preset/aws_org_preset.go:115-124 | The number of factory calls for an account is its multiplicity in the list of calls |
| OrgFetchers.RefreshKeeps | resources/fetching/preset/aws_org_preset.go:74-133 | One refresh keeps the identical fetchers of accounts still listed and calls the factory once per new one |
| OrgFetchers.IdenticalFetchers | resources/fetching/preset/aws_org_preset.go:80-85 | An account in two consecutive listings keeps the identical fetchers |
| OrgFetchers.SharedIdentity | resources/fetching/preset/aws_org_preset.go:80-123 | After any sequence of refreshes, an account's fetchers find through the address they were given the last account of the list in which they were made |
| OrgFetchers.TrailIdentity | resources/fetching/fetchers/aws/monitoring_fetcher.go:97-105 | The wrapped trail resource of an account carries that account, and its id is the account's own exactly if the account is the last of the list in which its fetchers were made |
| OrgFetchers.TrailOfAnother | resources/fetching/preset/aws_org_preset.go:80-123 | After a first listing of a and b the trail reported for a has the id of b |
| OrgFetchers.OrgCache.Refresh | resources/fetching/preset/aws_org_preset.go:66-134 | The loops over accounts and seen keys, updating the cache in place, do the refresh these lemmas are about, one loop variable for all iterations included, and return what the cache holds |
| OrgFetchers.Flatten | flavors/benchmark/aws_org.go:84-89 | Whatever the order of the maps: every flattened entry comes from a fetcher of that name, every fetcher's name is there, and if no account id is another one up to a dash each name holds its own fetcher |
| OrgFetchers.FlatNamesAreUnique | flavors/benchmark/aws_org.go:87 | Equal flattened names are of the same account and key, unless one account id is the other up to a dash |
| OrgFetchers.CollisionFree | flavors/benchmark/aws_org.go:84-89 | The names of a set of accounts never collide, whatever the keys, exactly if no account id is another one up to a dash |
| OrgFetchers.NoDashIsSeparate | flavors/benchmark/aws_org.go:84-89 | In particular they never collide when account ids contain no dash |
| OrgFetchers.Registry.Update | resources/fetching/registry/registry.go:103-113 | A failed listing leaves registry and cache unchanged, otherwise the registry is replaced by the flattened fetchers of the refreshed cache |
| OrgFetchers.Registry.Keys | resources/fetching/registry/registry.go:69-76 | Every registered key exactly once |
| FanIn.PrefixPerAccount | resources/fetching/preset/aws_org_preset.go:87-113 | For any interleaving of accounts and cancellation, what reaches the root channel from an account is, one for one, what its fetchers sent, short of at most the last: same data, cycle and id, the four identity fields those of the account, an error as it is |
| AccountProvider.ListAccounts | resources/providers/awslib/account_provider.go:49-84 | For any service and any paging: all but the unit names as in the listing that describes every unit afresh, and these too if the service answers consistently; each unit described successfully at most once; an error exactly if a page fails |
| AccountProvider.UncachedMeans | resources/providers/awslib/account_provider.go:60-76 | That listing is what the accounts contribute in order: nothing unless active and with an id, and otherwise the identity with its id, its name if there is one, and the id and name of the first parent on the first non-empty page |
| AccountProvider.UnitForAccount | resources/providers/awslib/account_provider.go:91-118 | For any service: the unit is that of the first parent on the first non-empty page, a root by its id, other units from the cache or described |
| AccountProvider.DescribeUnit | resources/providers/awslib/account_provider.go:120-147 | For any service: a unit is described only if it is not cached, a success is cached, a failure is not and leaves the name empty |
| AccountProvider.UncachedAppend | resources/providers/awslib/account_provider.go:54-82 | Listing page by page is listing all accounts at once |
| NetworkRules.Enrich | resources/fetching/fetchers/azure/assets_enrincher_virtual_machine.go:54-83 | In place: a decodable machine whose interfaces have rules gets exactly these as its network extension and is otherwise unchanged, every other asset is unchanged; the errors are those of undecodable groups and then machines |
| NetworkRules.BuildIndex | resources/fetching/fetchers/azure/assets_enrincher_virtual_machine.go:57-70 | The index holds for every interface the rules of all decodable groups, in asset order; undecodable groups contribute nothing |
| NetworkRules.AddNetworkRules | resources/fetching/fetchers/azure/assets_enrincher_virtual_machine.go:113-143 | One machine, looked up in the index, gets exactly the rules of its interfaces as its network extension, if there are any, with an error exactly if it cannot be decoded |
| NetworkRules.MentionsCount | resources/fetching/fetchers/azure/assets_enrincher_virtual_machine.go:101-108 | A group that lists an interface n times contributes its rules n times |
| NetworkRules.MachineRules | resources/fetching/fetchers/azure/assets_enrincher_virtual_machine.go:113-143 | A rule reaches a machine exactly if some decodable group has it and lists one of the machine's interfaces |
| NetworkRules.MachineRulesInOrder | resources/fetching/fetchers/azure/assets_enrincher_virtual_machine.go:119-132 | A machine's rules are those of its interfaces in order, and of each interface those of the groups in asset order |
| NetworkRules.GroupRulesMean | resources/fetching/fetchers/azure/assets_enrincher_virtual_machine.go:85-111 | A group contributes its rules once per mention of the interface if both its lists can be decoded, and anything else contributes nothing |
| NetworkRules.MentionsMean | resources/fetching/fetchers/azure/assets_enrincher_virtual_machine.go:101-108 | The mentions of an interface are its multiplicity in the group's list |
| NetworkRules.ErrorsMean | resources/fetching/fetchers/azure/assets_enrincher_virtual_machine.go:58-83 | The errors are exactly those of the groups, and of the machines, that cannot be decoded, once each and in order |

## Left out

- ScanResults.SnapshotConservation: does not promise deletion after a cancellation, because the cleaner may then leave the list in its channel by design.
- ScanProgress.NeverStuck: takes for granted that provider, scanner and client calls return.
- PosturePublisher.CanFinish: is about uncancelled runs; after a cancellation the publisher returns, and the steps, which do not watch the context, can then block on full buffers.
- OrgFetchers.SharedIdentity: accounts are reduced to their ids, which is all that fetchers read through the address; a read during the loop itself is not modelled.
- CycleCache.ConcurrentCallers: reads the cached value in one atomic step (the data race itself is not modelled) and does not model the writer preference of the lock.
- ScanLoop.EmittedOrder: takes the library sort as a given function that returns a sorted permutation; its code is not modelled, and it is applied to the values of the instances, not to the slice of pointers in place.
- The typed channels of the scan pipeline are folded into one item type with uniform stages; the imperative forms of their loops are in `ScanStages` and `InstanceFetcher`.
- AWS, Azure and Trivy calls, temporary files and the report format are given answers; a recovered panic of the scan is a failed scan.
- Event building, metadata beyond identity and cycle, logging and closing of the runner.
- Dereferences of nil instance ids, root device names and root parent ids, which panic.
- The client takes a batch in one step, and appends are atomic.
- Unicode is modelled on characters: a chunk that ends inside a multi-byte character is not captured, nor are the buffer internals of the reader; a read error, once reported, is reported again by the next read.
- Launcher liveness, the attribution of a stale error to a later beater, a blocked send while a beater is being stopped, start and stop of the manager, and nil updates during the first wait.
- A beater creator that keeps the launcher's mutable configuration sees later merges; configurations are values here.
- Factories that return nil, the running conditions and running of registered fetchers, and forwarders that outlive their dropped accounts.
- Decoding of Azure properties is given per asset; adding an extension is a map insertion on the asset, and sharing of extension maps between copies of an asset is not modelled.
- Services whose paging never ends.
- Leader election, overlap of manager iterations, single fetchers, presets, strategies, configuration parsing, CVSS selection and deployment code: simple, or outside this repository's own logic.
