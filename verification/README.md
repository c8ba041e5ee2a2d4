# Job agent: a verified model of its stateful core

The job agent collects postings from many sources, folds duplicates into one store, scores every job against each
user's profile and watchlist, learns from feedback, ranks a personal feed and mails a daily digest. The parts that
must stay right over time are a keyed store and the protocols that work on it. This project states those parts in
Dafny and proves what they keep: over every batch, every interleaving, every history of calls and every crash.

`dafny verify dfyconfig.toml` checks everything.

## How it is built

Rows are sequences in creation order, a row's id is its position, and dictionaries are maps or lists in insertion
order. Each service that changes rows is a class whose methods follow the source step by step and are proved equal
to a function of the old state; the theorems are about those functions, about runs built from them, and about the
step machines that interleave them.

| File | Content |
|---|---|
| `CompanyNames`, `JobIdentity`, `DuplicateDetection` | company keys, similarity signals, the fuzzy decision |
| `JobStore`, `Deduplication` | the tables, one function per repository call, one run of the deduplicating pipeline |
| `Placement` | where each item goes: the Job of its listing, what listing, Job and company rows say |
| `RerunLimits` | a family of batches whose second run creates a Job |
| `DedupInterleaving`, `DedupRefinement` | any number of runs interleaved between repository calls; a lone run is the pipeline |
| `DedupContent`, `DedupRaces` | how overlapping runs store one content twice, and exactly which batches never do |
| `Watchlist`, `MatchCache`, `MatchRuns` | the match cache, its invalidation, and histories of calls over it |
| `MatchExplanations`, `LegacyMatches`, `MatchService` | independence from the language model, rows the invalidation misses, the services |
| `WatchlistRuns`, `JobScores`, `UserIsolation` | what an entry is worth, what the cache holds after any history in numbers of the rules, and that users do not disturb each other |
| `RefreshTokens`, `Sessions` | refresh-token rotation over two expiring structures; what users may count on |
| `Throttle`, `DailyGuard`, `Schedule` | the shared rate limit, the once-a-day guard, the daily time |
| `Digest` | delivery with retries, overlaps and crashes |
| `Signals`, `Learning`, `Lessons`, `Opinions` | the signal store, what it adds up to, and what each action of a user comes to |
| `StableSort`, `Ranking`, `RankingService`, `Tastes`, `RankingLimits` | sorting, the personalised feed, which way everything learned moves it, how large a lead must be to last |
| `Tenths`, `RuleComponents`, `ComponentRange`, `RuleScores` | rounding to one decimal, the rule components and their best and worst cases, the weighted match score |
| `Discovery` | choosing, calling and reporting on sources |

Modelling choices that hold everywhere:

- Floating-point numbers are real numbers. `round(x, 1)` is any monotone function whose values are tenths within 1/20
  of the argument, so every rule for ties is covered.
- `SequenceMatcher.ratio` is any function into [0, 1], not assumed symmetric. Unicode folding, `casefold`,
  `normalize_title` and `normalize_skill` are parameters. A content hash is only compared for equality;
  `RerunLimits` makes it a function of title, company key, location and description.
- Clocks of workers, tokens and the key store agree. Delays between the calls of one operation are explicit inputs.
- Random token identifiers never repeat.
- The language model, network answers, sends and scoring failures are arbitrary inputs.

## What the proofs found

- Persisting a batch twice is idempotent for items with an external id. For the others it depends on the candidate
  window: `RerunLimits.RerunCreatesAgain` gives, for every window size, employer and collision-free content hash, a
  batch whose second run creates a Job. `Deduplication.RerunCreatesNothingIff` is the exact condition.
- One run at a time never stores one content twice. Overlapping runs of any batches keep that, from every consistent
  store and under every schedule, exactly when no two items of different runs race: they have one content, share no
  (source, externalId), and no earlier item of either batch carries the (source, externalId) of one of them
  (`DedupRaces.AlwaysUniqueIff`). The same posting found by two sources is the ordinary case of a race.
- The comment that the name branch of the invalidation catches jobs without a company id
  (app/repositories/job_match_repository.py:102-104) holds only when the names are equal up to case. A legal suffix
  is enough to leave a wrong score in the cache (`LegacyMatches.SuffixedLegacyRowGoesWrong`). Watching, changing and
  unwatching each have their exact condition.
- `refresh` documents a missing key as a token already rotated (app/services/auth_service.py:71-74). A logged-out
  token presented again also has a missing key and ends every session of its user
  (`RefreshTokens.ReusedLogoutEndsEverySession`).
- The schema says a crashed worker retry can never send the same digest twice (prisma/schema.prisma:576-577). A
  digest goes out at most once, over all runs, exactly when no crash falls between sending and recording and no two
  runs work on it at once (`Digest.OneMessageIff`); otherwise `Digest.CrashedRunSendsAgain` and
  `Digest.OverlapSendsTwice` send it twice.
- `PreferenceSignalRepository.upsert` says a repeated action refreshes the timestamp
  (app/repositories/preference_signal_repository.py:18-19). The service never passes one, so the row keeps its place
  in creation order (`Signals.RepeatedActionKeepsItsPlace`).
- A bound on how late increments may come keeps every throttle window within its budget, over all runs, exactly when
  it is at most thirty seconds after the window (`Throttle.BudgetKeptIff`).
- The once-a-day guard holds over all runs exactly when reading the date and setting the key are one step: a call
  across midnight runs a date again (`DailyGuard.GuardHoldsIff`).
- Without an analysis, one more skill on a profile can lower the skill score: exactly from an odd count of seven or
  more when the two percentages round to different tenths (`RuleComponents.UnmentionedSkillHurtsIff`).

## Model

| member | source | states |
|---|---|---|
| CompanyNames.NormalizeCompany | app/utils/normalization.py:96-106 | the suffix-stripping loop ends in the company key |
| CompanyNames.SuffixesDoNotChangeTheKey | app/utils/normalization.py:99-106 | legal suffixes appended to a name, however many, leave its key alone |
| CompanyNames.LegalFormIff | app/utils/normalization.py:16-18 | a last word leaves the key alone exactly when it is one of the twelve legal forms |
| CompanyNames.KeyIsStable | app/utils/normalization.py:96-106 | normalising a key gives the key |
| CompanyNames.SameCompanyIff | app/utils/normalization.py:96-106 | two names share a key exactly when both extend a common name by legal suffixes |
| JobIdentity.Jaccard | app/services/job_identity_service.py:37-48 | word-set overlap lies in [0, 1], is 1 only for equal sets and 0 only for disjoint ones |
| JobIdentity.CompareSymmetry | app/services/job_identity_service.py:13-59 | every signal but the title ignores the order of the postings; the title does when the character ratio does |
| JobIdentity.CompareSelf | app/services/job_identity_service.py:13-59 | a posting agrees fully with itself on every signal it carries |
| JobIdentity.TitleTakesTheBetter | app/services/job_identity_service.py:13-25 | a title similarity is the larger of word overlap and character ratio |
| JobIdentity.ShinglesAreRunsOfThree | app/services/job_identity_service.py:61-66 | the shingles of a text are exactly the runs of three among its first three hundred words |
| DuplicateDetection.DecideLoop | app/services/duplicate_detection_service.py:80-101 | the candidate loop computes the specified decision |
| DuplicateDetection.LeaderIsFirstMaximum | app/services/duplicate_detection_service.py:83-92 | the loop's best candidate is the first of the largest positive gated scores |
| DuplicateDetection.TitleGate | app/services/duplicate_detection_service.py:84-90 | a title at the bar passes with its full score, one below it is worth nothing |
| DuplicateDetection.DecisionIff | app/services/duplicate_detection_service.py:80-101 | each verdict holds exactly when the first maximal gated candidate falls in its band |
| DuplicateDetection.MergesIff | app/services/duplicate_detection_service.py:80-101 | an item merges exactly when some candidate passes the title gate and reaches the threshold with a positive score |
| DuplicateDetection.MoreCandidatesKeepTheMerge | app/services/duplicate_detection_service.py:80-101 | enlarging the candidate set never undoes a merge |
| DuplicateDetection.FillingASignalNeverLowersTheScore | app/services/duplicate_detection_service.py:52-78 | learning a missing location, description or date never lowers a score |
| DuplicateDetection.CloserDateNeverScoresLower | app/services/job_identity_service.py:54-59 | moving a posting's date closer to the item's never lowers its score |
| DuplicateDetection.DateBands | app/services/job_identity_service.py:54-59 | dates up to 7 days apart agree, up to 30 half agree, further ones not at all |
| DuplicateDetection.ContainedPlaceNeverScoresLower | app/services/job_identity_service.py:27-35 | a place that contains the item's or lies in it agrees fully and never lowers the score |
| DuplicateDetection.PlaceElsewhere | app/services/job_identity_service.py:27-35 | two known places neither of which contains the other disagree |
| DuplicateDetection.ReachesThresholdIff | app/services/duplicate_detection_service.py:52-78 | a score reaches the threshold exactly when the missing evidence, each weight times its signal's shortfall, is at most the slack the threshold leaves of the total weight |
| DuplicateDetection.TitleFloor | app/services/duplicate_detection_service.py:52-78 | a title similarity is compatible with some merge exactly when its own shortfall fits in the slack |
| DuplicateDetection.DescriptionFloor | app/services/duplicate_detection_service.py:52-78 | the same for the description, where an absent text is no evidence |
| DuplicateDetection.DefaultMergeEvidence | app/core/config.py:51-61 | with the shipped weights an automatic merge has title similarity at least 2/3 and description similarity at least 1/2, so never an absent description |
| JobStore.LinkRoot | app/services/deduplication_service.py:119-136 | following near-duplicate links ends at an earlier unlinked Job of the same company |
| JobStore.LinksHaveNoCycle | app/services/deduplication_service.py:119-136 | no path of near-duplicate links comes back to where it started |
| JobStore.Database.UpsertByNormalizedName | app/repositories/company_repository.py:16-40 | one row per key, and metadata fills only missing columns |
| JobStore.Database.Upsert | app/repositories/job_source_listing_repository.py:17-63 | find, then refresh or append, keyed by (source, externalId) or by hand without one |
| JobStore.Database.CreateFromNormalized | app/repositories/job_repository.py:217-267 | Job and primary listing are inserted together, or neither when the unique key is taken |
| Deduplication.DeduplicationService.PersistOne | app/services/deduplication_service.py:72-147 | one item leaves the store the specification names and returns the created id |
| Deduplication.DeduplicationService.PersistBatch | app/services/deduplication_service.py:53-70 | so does a batch, with its counters and its source cache |
| Deduplication.PersistEffect | app/services/deduplication_service.py:72-147 | one item keeps the store consistent, changes no Job row, and creates a Job exactly when nothing in the store recognises it |
| Placement.ItemLands | app/services/deduplication_service.py:72-161 | every item ends with one listing that carries its source, key, URLs and date and belongs to the item's Job: that of its key, else the first live one with its content, else with its URL, else the closest candidate above the threshold, else a new one; no other listing changes |
| Placement.HomeIsUnique | app/services/deduplication_service.py:72-161 | that Job is determined by the store and the item |
| Placement.NewJobCarriesItem | app/repositories/job_repository.py:217-267 | a new Job carries the item's posting, content and company, and is linked to a Job exactly when that is the closest candidate and its score lies in the link band |
| Placement.CompanyIsFilled | app/repositories/company_repository.py:16-40 | the company row of the key is found or added and only its missing columns are filled; every other row stays |
| Deduplication.BatchEffect | app/services/deduplication_service.py:53-70 | a batch keeps every invariant, only appends Jobs, and reports exactly the Jobs it appended |
| Placement.BatchLands | app/services/deduplication_service.py:53-70 | after a batch every item has its listing at the Job it belonged to when its turn came, and a keyed listing says what the last item with its key said |
| Placement.NewJobsCarryItems | app/services/deduplication_service.py:53-70 | every Job a batch adds carries the item that brought it, and that item's link |
| Deduplication.BatchSettles | app/services/deduplication_service.py:53-147 | after a batch its items are recognised: always with an external id, otherwise while the company fits in the window |
| Deduplication.CreatesNothingIff | app/services/deduplication_service.py:53-147 | a batch creates nothing exactly when every item is already recognised |
| Deduplication.RerunCreatesNothingIff | app/services/deduplication_service.py:53-147 | the second run of any batch creates nothing exactly when the items without external id are still recognised |
| Deduplication.RerunIsIdempotent | app/services/deduplication_service.py:53-147 | re-running creates no Job and counts every found item as a duplicate, under the window condition |
| RerunLimits.RerunCreatesAgain | app/repositories/job_repository.py:101-107 | for every window of at least one, a batch whose second run creates a Job, every content hash being that of its content |
| RerunLimits.CollisionFreeHashIsPlain | app/utils/normalization.py:117-135 | the postings of that batch differ in content, so every hash without collisions tells them apart |
| RerunLimits.StartIsOneItem | app/services/deduplication_service.py:53-147 | the store of that example is what persisting its first posting into an empty store leaves |
| DedupInterleaving.InterleavingIsSafe | app/services/deduplication_service.py:53-161 | under every interleaving: one primary listing per Job, unique keys, no dangling listing, Jobs only appended, counters exact, each new Job reported by exactly one run |
| DedupInterleaving.RerunAfterInterleaving | app/services/deduplication_service.py:143-147 | after any interleaving a finished batch of keyed items creates nothing when persisted again, even for a run that lost an insert race |
| DedupRefinement.LoneRunIsPersistBatch | app/services/deduplication_service.py:53-161 | a lone run of the step machine is the batch method: same rows, counters and ids |
| DedupRefinement.OneRunKeepsHashesUnique | app/services/deduplication_service.py:88-98 | runs one at a time never store two live Jobs with one content hash |
| DedupContent.RunsWithoutRaceKeepHashesUnique | app/services/deduplication_service.py:88-147 | under every schedule any number of overlapping runs keep at most one live Job per content, when no two of their items race |
| DedupContent.ApartRunsKeepHashesUnique | app/services/deduplication_service.py:88-147 | in particular when items of different runs with one content share (source, externalId) |
| DedupContent.TwoRunsCanDuplicateContent | app/services/deduplication_service.py:88-147 | from any reachable state, two runs about to begin new items with one content and no shared (source, externalId) store it twice under some schedule |
| DedupRaces.AlwaysUniqueIff | app/services/deduplication_service.py:88-147 | any number of runs of any batches keep contents unique from every store under every schedule exactly when no two items of different batches race |
| DedupRaces.TwoItemsIff | app/services/deduplication_service.py:88-147 | for one item each: exactly when the contents differ or the listing key is shared |
| DedupRaces.EarlierDeliveryShields | app/services/deduplication_service.py:84-92 | an earlier delivery of one listing keeps two items apart that would be stored twice on their own |
| Watchlist.WatchlistScore | app/services/rule_based_matcher.py:254-288 | there is a score exactly when an entry covers the job, and it lies in [0, 100] |
| Watchlist.ResolvedEntry | app/services/rule_based_matcher.py:273-288 | for a resolved job the scan finds the user's row for that very company, whatever the order |
| WatchlistRuns.HitIff | app/services/rule_based_matcher.py:290-307 | a role hits exactly when, normalised and not empty, it contains a title, lies in one, or is at least 0.6 alike |
| WatchlistRuns.WorthOrder | app/services/rule_based_matcher.py:254-270 | an excluded role gives 0, below everything else; a preferred hit beats an entry without preferences, which beats one whose preferences all miss; a higher priority is never worth less |
| WatchlistRuns.CurrentRowFollowsEntry | app/services/rule_based_matcher.py:254-270 | after every history a current row of a resolved Job holds 0, 90, 75 or 60, plus 10 up to 100, or minus 15, as the user's entry says, and nothing without an entry |
| WatchlistRuns.ExcludingItsTitleGivesZero | app/services/company_service.py:136-144 | after any history, excluding a Job's own title leaves its current row no score but 0 |
| WatchlistRuns.PreferringItsTitleNeverLowers | app/services/company_service.py:136-144 | after any history, preferring a Job's own title never lowers its current score |
| WatchlistRuns.WatchingGivesItsPriority | app/services/company_service.py:118-134 | watching a company without naming roles gives its current rows 90, 75 or 60 by priority |
| WatchlistRuns.UnwatchingTakesTheScoreAway | app/services/company_service.py:146-151 | unwatching leaves its current rows no watchlist score |
| WatchlistRuns.EditRescoresNewest | app/services/company_service.py:188-203 | changing an entry leaves the newest Jobs of its company current at once, up to the limit, unless scoring them raises |
| WatchlistRuns.WatchingRescoresNewest | app/services/company_service.py:188-203 | so does watching |
| WatchlistRuns.UnwatchingRescoresNewest | app/services/company_service.py:188-203 | so does unwatching |
| WatchlistRuns.WatchingByNameWatchesIt | app/services/company_service.py:118-168 | watching by name watches the company of that name's key |
| UserIsolation.UsersAreIndependent | app/services/candidate_matching_service.py:77-192 | whatever other users do and whatever is discovered, a user's watchlist and cached matches stay as they are |
| MatchCache.AfterChangeKeeps | app/services/company_service.py:188-203 | editing one row, marking that company stale and rescoring a bounded prefix keeps every current row right |
| MatchCache.GrowthKeeps | app/services/company_service.py:155-168 | new companies and Jobs change no current score |
| MatchRuns.ApplyKeeps | app/services/company_service.py:118-151 | every watchlist edit, match, batch, feedback and discovery keeps the cache coherent |
| MatchRuns.CacheIsCoherent | app/services/candidate_matching_service.py:77-192 | after every history a current row of a resolved Job holds exactly the watchlist and overall score of a recomputation |
| MatchRuns.FeedbackSurvives | app/repositories/job_match_repository.py:15-34 | after every history the stored feedback is the last verdict the user gave |
| MatchRuns.MatchAllSettles | app/services/candidate_matching_service.py:151-168 | a pass settles exactly the pending jobs it picked that did not raise |
| MatchRuns.BatchClearsPrefix | app/repositories/job_match_repository.py:138-160 | without failures a batch call clears the newest `limit` pending jobs and leaves the others in order |
| MatchRuns.BatchProgressIff | app/services/candidate_matching_service.py:151-168 | a batch call makes progress exactly when some job it picks does not raise |
| MatchRuns.BacklogClears | app/services/candidate_matching_service.py:151-168 | n calls clear the backlog exactly when n times the limit reaches its size |
| MatchRuns.BatchesMakeEverythingRight | app/services/company_service.py:188-192 | what the bounded rescoring leaves stale the batches make right: after enough calls every live resolved Job has a current, correct row |
| MatchExplanations.ScoresIgnoreTheModel | app/services/candidate_matching_service.py:77-149 | over every history, rows, scores, versions and feedback are those of the history in which the model never answers |
| JobScores.CurrentScoreIsJobScore | app/services/rule_based_matcher.py:64-106 | from the empty store, after every history, the current row of a resolved Job holds the score the nine components give it now, from 0 to 100 |
| JobScores.FactsAreTheRows | app/services/rule_based_matcher.py:64-81 | the title, place and company that scoring sees are those of the stored Job |
| JobScores.JobScoreIgnoresTheModel | app/services/candidate_matching_service.py:77-149 | and the same number in the history in which the model never answers |
| JobScores.BetterWatchlistNeverLowers | app/services/rule_based_matcher.py:64-106 | a better watchlist score never lowers the score of a Job |
| JobScores.RecommendationIsBand | app/services/candidate_matching_service.py:24-34 | the recommendation without the model is the band of the score, from 90, 75, 55 and 35 |
| JobScores.MatchedAnew | app/services/candidate_matching_service.py:77-149 | a forced match carries the model's answer, or the band, and the old feedback, and changes no other row; a raising one changes nothing |
| LegacyMatches.AfterChangeOnLegacy | app/repositories/job_match_repository.py:99-119 | a Job without company id is never rescored by an edit and is marked stale only through its name |
| LegacyMatches.LegacyRowAfterEditIff | app/repositories/job_match_repository.py:99-119 | after any edit a legacy row has the right watchlist score exactly when the company does not cover the job, the names are equal up to case, or the edit leaves its score alone; likewise the overall score |
| LegacyMatches.LegacyRowStaysRightIff | app/services/company_service.py:118-134 | watching a company leaves a legacy row right exactly when the names do not share a key or are equal up to case; the overall score also when the entry counts for no more than none |
| LegacyMatches.LegacyRowAfterUpdateIff | app/services/company_service.py:136-144 | the same for changing an entry, where a change that scores the job as before is harmless |
| LegacyMatches.LegacyRowAfterRemoveIff | app/services/company_service.py:146-151 | the same for unwatching |
| LegacyMatches.SuffixedLegacyRowGoesWrong | app/repositories/job_match_repository.py:102-104 | a legacy Job named with one more legal suffix keeps a current, wrong row |
| MatchService.Service.ToWatchlistEntries | app/services/candidate_matching_service.py:36-55 | the conversion loop yields the user's entries in row order |
| MatchService.Service.MatchOne | app/services/candidate_matching_service.py:77-149 | cache test, scoring, optional explanation and upsert leave the specified row |
| MatchService.Service.EnsureMatchesForUser | app/services/candidate_matching_service.py:151-168 | the batch loop leaves the specified cache and counts the jobs that did not raise |
| MatchService.Service.RescoreOne | app/services/candidate_matching_service.py:170-184 | so does the bounded rescoring of one company |
| MatchService.Service.MarkStaleForCompany | app/repositories/job_match_repository.py:99-119 | exactly the user's rows of that company, by id or by name, become stale |
| MatchService.Service.ResolveByName | app/repositories/company_repository.py:16-40 | a name finds or creates the company of its key and fills its missing columns |
| MatchService.Service.AddToWatchlist | app/services/company_service.py:118-134 | by company id: unknown company, conflict, or new row with invalidation |
| MatchService.Service.AddToWatchlistByName | app/services/company_service.py:118-168 | by name: the company is resolved or created first, and stays when the row is a conflict |
| MatchService.Service.UpdateEntry | app/services/company_service.py:136-144 | an empty edit changes nothing; any other ends in the invalidation |
| MatchService.Service.RemoveEntry | app/services/company_service.py:146-151 | removing a row ends in the invalidation |
| MatchService.Service.Record | app/services/candidate_matching_service.py:186-192 | feedback scores an unscored job first and is then stored |
| RefreshTokens.FamiliesCoverLiveKeys | app/services/auth_service.py:68-119 | in every reached state each live key is in its user's live family, which expires no earlier |
| RefreshTokens.FreshStoreIsSound | app/services/auth_service.py:100-119 | an empty store satisfies the family invariant |
| RefreshTokens.AcceptedAtMostOnce | app/services/auth_service.py:76-88 | over any run from any state a refresh token is exchanged at most once |
| RefreshTokens.ReplayEndsEveryEarlierSession | app/services/auth_service.py:80-83 | after a detected replay no token the user held before is accepted on any later run |
| RefreshTokens.ReplayLeavesOthersAlone | app/services/auth_service.py:114-119 | family revocation ends no other user's session |
| RefreshTokens.UnexpiredIsLiveUnlessConsumed | app/services/auth_service.py:100-108 | before a token expires, its key is missing exactly when rotation, logout or family revocation used it up earlier |
| Sessions.ExchangedIff | app/services/auth_service.py:68-88 | after any run a presented token is exchanged exactly when it has not expired, its user is active and nothing used it up |
| Sessions.OnlyThreeWaysToEnd | app/services/auth_service.py:68-98 | before its time a live token ends only by its own exchange, its own logout, or the replay of another token of its user |
| Sessions.LoginOpensOneSession | app/services/auth_service.py:55-66 | the right password of an active user opens one more session of a full term and leaves the others alone; anything else changes nothing |
| Sessions.SuccessorLasts | app/services/auth_service.py:84-88 | rotation gives the successor a full term of its own |
| Sessions.LogoutEndsOneSession | app/services/auth_service.py:90-98 | logout ends the session of the presented token and no other |
| RefreshTokens.RotationKeepsSessions | app/services/auth_service.py:84-88 | a rotation swaps one live session for another and keeps their number |
| RefreshTokens.DisabledUserKeepsSessions | app/services/auth_service.py:84-86 | disabling a user, presenting a live token any number of times and enabling the user again leaves the state exactly as it was |
| RefreshTokens.ReusedLogoutEndsEverySession | app/services/auth_service.py:71-83 | presenting a logged-out token ends every session of its user |
| RefreshTokens.UnusedTokenMistakenIff | app/services/auth_service.py:75-83 | an unused token is taken for a replay exactly when its key expires between decoding and reading |
| RefreshTokens.NewTokenIsCoveredIff | app/services/auth_service.py:100-108 | a new token is covered by its family exactly when the family does not expire between being added to and renewed |
| RefreshTokens.AuthService.IssueTokens | app/services/auth_service.py:100-108 | key, membership and renewed expiry, step by step |
| RefreshTokens.AuthService.RevokeEvery | app/services/auth_service.py:114-119 | every member's key and the family are deleted |
| RefreshTokens.AuthService.RefreshToken | app/services/auth_service.py:68-88 | every branch of refresh leaves the specified store and answer |
| RefreshTokens.AuthService.LogOutToken | app/services/auth_service.py:90-98 | logout revokes exactly the presented token, or nothing |
| RefreshTokens.AuthService.LogInUser | app/services/auth_service.py:55-66 | login issues a token exactly for the right password of an enabled user |
| Throttle.GrantsPerWindow | app/sources/throttle.py:28-39 | for any number of workers in any interleaving, with increments at most the tolerance late, a window lets through exactly min(attempts, budget) |
| Throttle.GrantsPerMinute | app/sources/throttle.py:28-39 | any sixty seconds of clock readings hold at most twice the budget |
| Throttle.NextLookIsLater | app/sources/throttle.py:39-39 | a refused caller looks again in a strictly later window |
| Throttle.BudgetKeptIff | app/sources/throttle.py:34-36 | a lateness bound keeps every window of every run within budget exactly when it is at most thirty seconds, whatever the budget |
| Throttle.LateIncrementExceedsBudget | app/sources/throttle.py:34-36 | from any state satisfying the invariant an increment after the expiry of an exhausted counter exceeds the budget, and comes thirty seconds late or later |
| Throttle.TurnIsSteps | app/sources/throttle.py:28-39 | a turn of the loop, the first or one after a sleep, is the shared machine's steps by an uninterrupted caller |
| Throttle.NapEnds | app/sources/throttle.py:39-39 | after the sleep the loop asks for, a refused caller of the shared machine may look again |
| Throttle.TurnsLookLater | app/sources/throttle.py:28-39 | every turn of the loop reads the clock in a later window than the one before, and only its last is let through |
| Throttle.SourceThrottle.Acquire | app/sources/throttle.py:28-39 | the loop returns at the first turn that is let through, and sleeps after each other for what its window had left |
| DailyGuard.ExecutionsADayApart | app/worker/tasks.py:59-66 | executions for one date lie a day apart, whatever the calls and retries |
| DailyGuard.OncePerDate | app/worker/tasks.py:59-66 | a UTC date executes at most one search when reading the date and setting the key fall on one day |
| DailyGuard.GuardHoldsIff | app/worker/tasks.py:59-66 | a bound on the delay between reading the date and setting the key makes every date run at most once on every run exactly when it is zero |
| DailyGuard.SearchGuard.RunDailySearch | app/worker/tasks.py:59-80 | set-if-absent decides, and the new key lasts a day |
| Schedule.NextRunIsEarliest | app/worker/schedule.py:35-44 | the next run is the least instant after now at the local time, within a day |
| Schedule.EveryMinuteParses | app/worker/schedule.py:12-20 | every whole minute of the day is the time of one hour and minute and no other |
| Schedule.CronFiresWhenDueIff | app/worker/schedule.py:23-32 | the UTC hour and minute fire at the due instant exactly when the offset is whole minutes |
| Digest.EveryDeliveryIsTheFirstDraft | app/repositories/notification_repository.py:12-50 | over any interleaving with crashes, every message carries the subject and body of its row's creation |
| Digest.SendsAtMostOncePerLostRecord | app/services/daily_digest_service.py:152-177 | over runs that do not overlap, messages of a key number exactly the lost records, plus one once it is recorded or about to be |
| Digest.OneMessageIff | prisma/schema.prisma:576-578 | a digest goes out at most once over all runs from the beginning exactly when no record is lost and runs do not overlap |
| Digest.SentIsFinal | app/repositories/notification_repository.py:105-113 | a digest recorded as sent stays so and is never sent again |
| Digest.CrashedRunSendsAgain | prisma/schema.prisma:576-578 | a crash between sending and recording makes the retry send the same digest again |
| Digest.OverlapSendsTwice | app/services/daily_digest_service.py:161-177 | two overlapping runs send twice without a crash, and a late failure overwrites a recorded success |
| Digest.DeliveryIsARun | app/services/daily_digest_service.py:152-177 | the delivery method is one uninterrupted run of the step machine |
| Digest.SecondRunSendsNothingNew | app/services/daily_digest_service.py:124-150 | after a successful run a second one for the same date changes nothing and reports every channel as deduped, whatever it ranked and whatever the senders would do |
| Digest.ReportedChannels | app/services/daily_digest_service.py:124-150 | unless a send raises, the outcome reports exactly the channels that are switched on, and none without a digest |
| Digest.ReportsAreTrue | app/services/daily_digest_service.py:124-177 | a channel is reported sent exactly when one more message of its key went out, failed exactly when none did and its row says so, deduped exactly when its row said sent before |
| Digest.DigestService.CreateIfAbsent | app/repositories/notification_repository.py:12-50 | an existing row is returned untouched |
| Digest.DigestService.Deliver | app/services/daily_digest_service.py:152-177 | each branch leaves the specified rows, messages and outcome |
| Digest.DigestService.SendForUser | app/services/daily_digest_service.py:124-150 | in-app, then email, then telegram, each as the preferences say; the outcome by channel, or the exception of the send that raised |
| Signals.SnapshotSkills | app/services/preference_signal_service.py:142-150 | the snapshot holds each normalised skill once and no empty one |
| Signals.OneVerdictPerJob | app/services/preference_signal_service.py:172-190 | over every history a user holds at most one verdict on a job |
| Signals.ContributionWithin | app/services/preference_signal_service.py:21-37 | a job's signals add up to no more than the kinds present allow, in both directions |
| Signals.JobWeighsWithin | app/schemas/match.py:85-90 | over every history a job weighs between -2 and 5.5 |
| Signals.SignalSurvives | app/repositories/preference_signal_repository.py:15-44 | a signal stays, snapshot and all, until its own user replaces, removes or resets it |
| Signals.RepeatedActionKeepsItsPlace | app/repositories/preference_signal_repository.py:15-28 | repeating an action refreshes snapshot and weight of its row and changes nothing else: neither the place of the row nor any other row |
| Signals.SignalStore.RecordAction | app/services/preference_signal_service.py:172-190 | recording clears the other verdicts and upserts the row |
| Signals.SignalStore.RemoveOne | app/services/preference_signal_service.py:192-193 | removing a kind deletes exactly its row |
| Signals.SignalStore.RemoveById | app/repositories/preference_signal_repository.py:37-41 | removal by id succeeds exactly for a row of that user |
| Signals.SignalStore.ResetUser | app/services/preference_signal_service.py:198-201 | a reset deletes exactly the user's rows |
| Opinions.ActionWeighs | app/schemas/match.py:85-90 | after any history one more action leaves a job weighing 1 for a like, 0.7 for an interest, -1 for a dislike, -2 for irrelevance or the verdict it had, plus 1.5 if saved, plus 3 if applied to |
| Opinions.OthersKeepTheirs | app/services/preference_signal_service.py:172-190 | it changes the weight of no other job and for no other user |
| Opinions.TakenBackIsGone | app/repositories/preference_signal_repository.py:30-44 | removing a kind, a signal or everything of a user removes exactly that |
| Opinions.HidingACompanyHidesIt | app/schemas/match.py:103-111 | over every history, a user who hides the company of a job sees no candidate of it in any feed until the hiding is taken back |
| Opinions.HidingARoleHidesIt | app/schemas/match.py:103-111 | nor any candidate whose role is the hidden one or too close to it |
| Opinions.FeedShowsIff | app/services/ranking_service.py:162-170 | over every history a candidate is in a user's feed exactly when no standing hide of that user names its company, its role or one too close |
| Learning.Aggregate | app/services/preference_signal_service.py:83-129 | the aggregation loop computes the specified preferences |
| Learning.AggregateIsSum | app/services/preference_signal_service.py:83-115 | each key holds the exact weight and counts of the rows that mention it, and is present exactly when one does |
| Learning.WeightIsConserved | app/services/preference_signal_service.py:83-115 | a dimension's weights sum to the weights of all rows that count towards it |
| Learning.KindsSumToCount | app/services/preference_signal_service.py:48-53 | the counts by kind sum to the count |
| Learning.WeightsIgnoreOrder | app/services/preference_signal_service.py:83-115 | learned weights do not depend on the order of the rows |
| Learning.HiddenIff | app/services/preference_signal_service.py:100-108 | a key is hidden exactly when some hiding signal names it |
| Learning.TopRolesAreStrongest | app/services/preference_signal_service.py:117-119 | when roles are dropped, twenty are kept and none is weaker than one dropped |
| Learning.FewRolesAllKept | app/services/preference_signal_service.py:117-119 | up to twenty roles are all kept |
| Lessons.PlacesLearned | app/services/preference_signal_service.py:111-111 | a place weighs what the signals on jobs in that place weigh |
| Lessons.ModesLearned | app/services/preference_signal_service.py:112-112 | a work mode weighs what the signals on jobs of that mode weigh |
| Lessons.CompaniesLearned | app/services/preference_signal_service.py:110-110 | a company weighs what the signals on its jobs weigh |
| Lessons.SkillsLearned | app/services/preference_signal_service.py:113-114 | a skill weighs what the signals on jobs naming it weigh |
| Lessons.RolesLearned | app/services/preference_signal_service.py:109-109 | a role that is kept weighs what the signals on jobs of that role weigh |
| Lessons.TwentyRoles | app/services/preference_signal_service.py:117-119 | all roles are kept up to twenty, and twenty beyond |
| Lessons.HiddenLearned | app/services/preference_signal_service.py:100-108 | hidden are exactly the companies of hidden-company signals and the roles of hidden-role signals |
| StableSort.SortIsStable | app/services/ranking_service.py:371-371 | the sort is a descending permutation that keeps equals in place |
| StableSort.StableSortIsUnique | app/services/ranking_service.py:371-371 | any descending arrangement that keeps equals in place is the same |
| Ranking.FirstBest | app/services/ranking_service.py:181-188 | the scan returns the first eligible entry no other eligible entry outscores |
| Ranking.PartsWithin | app/services/ranking_service.py:174-289 | every adjustment stays within its cap, whatever was learned |
| Ranking.ScoreStaysNearBase | app/services/ranking_service.py:291-294 | the score lies in [0, 100] and, by default, between 40 below and 31 above the base |
| Ranking.BetterNeverScoresLower | app/services/ranking_service.py:243-291 | better base, freshness, standing and feedback never lower a score |
| Tastes.LikingMoreNeverScoresLower | app/services/ranking_service.py:174-241 | raising any learned weight never lowers the score of any candidate, although it may change which of several places counts |
| Tastes.OneCompany | app/services/ranking_service.py:211-216 | alone, a liked company raises the score of its jobs and a disliked one lowers it, by the full cap at a weight of three |
| Tastes.OnePlace | app/services/ranking_service.py:218-231 | so does a place that contains the job's or lies in it |
| Tastes.OneMode | app/services/ranking_service.py:233-239 | so does a work mode |
| Tastes.OneSkill | app/services/ranking_service.py:195-209 | so does a skill the job names |
| Tastes.OneRole | app/services/ranking_service.py:176-193 | so does the job's role |
| Tastes.OneSimilarRole | app/services/ranking_service.py:176-193 | a role that is only similar enough does so in proportion to the similarity |
| Tastes.DefaultFreshness | app/services/ranking_service.py:243-259 | by default a job gains 6, 4 or 2 within 2, 7 and 14 days and nothing later |
| Tastes.DefaultStanding | app/services/ranking_service.py:261-276 | by default a watched company gains 5, 3 or 2 by its score, a preferred one 3, together at most 5, and an excluded one loses 10 |
| Tastes.DefaultFeedback | app/services/ranking_service.py:278-289 | by default a good match gains 5, an interesting one 3, a poor one loses 15 |
| Tastes.DefaultCaps | app/services/ranking_service.py:34-48 | by default roles move a score by at most 6, skills 5, companies 4, places and modes 3, and all together 15 |
| Ranking.BiggerLeadRanksFirst | app/services/ranking_service.py:359-374 | a base lead of 71 ranks first in every feed, rounding and ties included |
| Ranking.NothingHiddenIsShown | app/services/ranking_service.py:162-170 | no shown candidate has a hidden company or a role equal or too close to a hidden one |
| Ranking.ShownIff | app/services/ranking_service.py:162-170 | a candidate is in the feed exactly when neither its company is hidden nor its role equal or too close to a hidden one |
| Ranking.RankHolds | app/services/ranking_service.py:359-370 | the feed holds exactly the candidates that are not hidden |
| Ranking.FeedIsStableSort | app/services/ranking_service.py:318-334 | the feed is a stable descending permutation of the shown candidates and total counts them |
| Ranking.PagesMakeTheFeed | app/services/ranking_service.py:334-334 | consecutive pages concatenate to the whole ranking |
| RankingService.ScanBest | app/services/ranking_service.py:181-186 | the scanning loop finds the specified entry |
| RankingService.AddPreference | app/services/ranking_service.py:174-241 | the accumulated preference is the capped sum of the five dimensions |
| RankingService.RankRows | app/services/ranking_service.py:359-374 | the loop and the sort compute the feed, and dropped plus kept is all rows |
| RankingService.HiddenCompanyStaysHidden | app/services/ranking_service.py:162-164 | a hidden company stays out of every later feed until that signal is undone |
| RankingService.HiddenRoleStaysHidden | app/services/ranking_service.py:165-170 | so does every role equal or too close to a hidden one |
| RankingLimits.SmallerLeadCanLose | app/services/ranking_service.py:34-48 | any lead short of 71 by more than the rounding error can be overturned, with preferences learned from four actions and base scores the rules can give |
| RuleScores.OverallIsMonotone | app/services/rule_based_matcher.py:64-106 | improving any components never lowers the overall score |
| RuleScores.OverallIsBetween | app/services/rule_based_matcher.py:64-106 | the overall score lies between the worst and the best component |
| RuleScores.WatchlistInfluence | app/services/rule_based_matcher.py:83-106 | a watchlist entry moves the unrounded score by its weight's share of the distance from neutral, at most 50 points of it |
| RuleScores.JobScoreIsScore | app/services/rule_based_matcher.py:64-289 | every profile, job, analysis and watchlist score give an overall score from 0 to 100, as each component is one |
| RuleScores.NothingKnownIsNeutral | app/services/rule_based_matcher.py:3-5 | a silent profile scores exactly 50 on every job whose work mode is unknown |
| RuleScores.DefaultMean | app/core/config.py:84-92 | the shipped weights of the nine components, out of 1.10 |
| ComponentRange.CompanyEnds | app/services/rule_based_matcher.py:244-252 | the company is worst exactly for an excluded employer and best exactly for a liked one that is not excluded |
| ComponentRange.IndustryEnds | app/services/rule_based_matcher.py:233-242 | a known industry is best when it contains a wanted one or lies in it and worst otherwise |
| ComponentRange.LocationEnds | app/services/rule_based_matcher.py:174-187 | the location is best exactly for welcome remote work or a preferred place, and 20 exactly for another known place |
| ComponentRange.WorkModeEnds | app/services/rule_based_matcher.py:209-231 | the work mode is best exactly when it is the wanted one and 0 exactly for the three opposed pairs |
| ComponentRange.OwnFlagsDecideMode | app/services/rule_based_matcher.py:212-219 | the posting's own flags decide the work mode before the analysis |
| ComponentRange.SalaryEnds | app/services/rule_based_matcher.py:189-207 | the salary is best exactly when a comparable offer reaches the preferred one, and 20 exactly when one misses that and the minimum |
| ComponentRange.HigherOfferNeverHurts | app/services/rule_based_matcher.py:189-207 | a higher offer never lowers the salary score |
| ComponentRange.OwnSalaryCounts | app/services/rule_based_matcher.py:192-196 | the analysis names the salary only when the posting does not |
| ComponentRange.ExperienceEnds | app/services/rule_based_matcher.py:156-172 | years in the range are best, four missing are worst, four too many cost the most they can |
| ComponentRange.OwnRangeCounts | app/services/rule_based_matcher.py:156-166 | each end of the range is the posting's own where it names one |
| ComponentRange.OwnRoleIsBest | app/services/rule_based_matcher.py:108-121 | a target role equal to one of the job's titles is the best |
| ComponentRange.TitlesThatCount | app/services/rule_based_matcher.py:108-121 | the titles compared are the job's and the one an analysis found |
| ComponentRange.AnalysedEnds | app/services/rule_based_matcher.py:134-147 | knowing all listed skills is the best and knowing none the worst |
| ComponentRange.AnalysisBeforeText | app/services/rule_based_matcher.py:123-154 | an analysis that lists skills decides, otherwise the text does |
| ComponentRange.RequiredCountsTwice | app/services/rule_based_matcher.py:141-147 | one required skill counts as two preferred ones |
| ComponentRange.TextEnds | app/services/rule_based_matcher.py:149-154 | mentions of three skills and half of them are the best, none the worst |
| RuleComponents.SilentProfileIsNeutral | app/services/rule_based_matcher.py:108-252 | against a silent profile every component but location and work mode is neutral, and these two are when the work mode is unknown |
| RuleComponents.CloserExperienceNeverHurts | app/services/rule_based_matcher.py:156-172 | years closer to the required range never score lower: from below as long as a minimum above the maximum is not reached, from above as long as the minimum is kept |
| RuleComponents.ReachingAReversedMinimumHurtsIff | app/services/rule_based_matcher.py:156-172 | when a posting asks for more years than it allows, reaching the minimum lowers the score exactly when the penalty for too many is the larger one and the two round apart |
| RuleComponents.MoreSkillsNeverHurt | app/services/rule_based_matcher.py:134-147 | for an analysed job a larger non-empty skill set never scores lower, rounding included |
| RuleComponents.MentionedSkillNeverHurts | app/services/rule_based_matcher.py:149-154 | without an analysis one more skill the text mentions never lowers the score |
| RuleComponents.UnmentionedSkillHurtsIff | app/services/rule_based_matcher.py:149-154 | one more skill the text does not mention never raises the rounded score, and lowers it exactly from an odd count of seven or more whose two percentages are separated by the middle between two tenths |
| RuleComponents.UnmentionedSkillHurts | app/services/rule_based_matcher.py:149-154 | it does for certain when the percentages are more than a tenth apart, and never without hits or with enough of them |
| RuleComponents.SmallFallCanVanish | app/services/rule_based_matcher.py:154-154 | with 69 skills and one hit the percentage falls and the rounded score does not |
| Tenths.RoundsLowerIff | app/services/rule_based_matcher.py:154-154 | two values in order round to different tenths exactly when the middle between two tenths separates them, for every rule on ties |
| Discovery.RetrySourceCall | app/services/discovery_service.py:62-94 | calls stop at the first success, fatal error or exhausted budget, and every pause is at least the capped backoff and the source's own |
| Discovery.BackoffDoubles | app/services/discovery_service.py:80-86 | the pause starts at the base and doubles up to the cap |
| Discovery.PauseIs | app/services/discovery_service.py:80-86 | jitter comes on top, and only a longer wish of the source replaces the sum |
| Discovery.SelectSources | app/services/discovery_service.py:233-259 | unknown names are refused, and every attempted source is either runnable or rejected |
| Discovery.GatheredIff | app/services/discovery_service.py:160-231 | the jobs gathered are exactly those the sources that answered returned |
| Discovery.Execute | app/services/discovery_service.py:160-231 | attempted sources split into succeeded and failed, the status says which is empty, and found is new plus duplicate |

## Left out

- Interleaving inside one authentication, watchlist or match call: each call is one step there. Finer steps are
  modelled for deduplication, the throttle, digest delivery, and the delays inside token calls.
- Crashes in the middle of issuing or revoking a token.
- MatchRuns.CacheIsCoherent: covers Jobs with a company id, which is every Job discovery stores; `LegacyMatches` says
  exactly what happens to the others. The profile and the analysis of a Job stay fixed, because profile edits do not
  invalidate matches in the source either.
- RefreshTokens.FamiliesCoverLiveKeys: assumes that no family expires between being added to and being renewed inside
  one call; `NewTokenIsCoveredIff` shows the assumption is needed.
- Throttle.GrantsPerWindow: assumes increments less than thirty seconds after their window; `BudgetKeptIff` shows it
  is needed. Sleeping lasts at least as long as asked. A source without a positive budget has no throttle at all.
- DedupRaces.AlwaysUniqueIff: ranges over every consistent store; the stores that exhibit a race may hold soft-deleted
  Jobs and Jobs without company id, which the modelled runs read but do not write.
- Digest.SendsAtMostOncePerLostRecord: assumes that runs on one key do not overlap; `OneMessageIff` shows it is
  needed. A send either goes out or does not, and reports which.
- Throttle.SourceThrottle.Acquire: follows the loop for a finite list of turns, since the source's loop may wait
  forever.
- Learning.WeightsIgnoreOrder: addition of real numbers; floating-point sums can differ in the last digits.
- Ranking.PagesMakeTheFeed: one snapshot and one clock for all pages. The rows the feed ranks (the best-scored matches
  the user has neither dismissed nor applied to) are an input.
- Ranking without a signal service, which keeps the stored order.
- Columns that are copied and never read by these decisions, among them raw data, salary, labels and notes.
- Soft deletion of Jobs: the flag is read everywhere, but no modelled code sets it.
- Explanation sentences, digest rendering, skill gaps, role families, analytics.
- `ApplicationService`, résumés, drafts and the assistant: simpler record keeping.
- Source connectors, HTTP, parsing of feeds and documents, URL canonicalisation, mail and Telegram transport.
- Token signatures, password hashing, Unicode normalisation.
- Daylight-saving zones: the source documents its conversion as approximate there.
