# Verification of the lead pipeline

These Dafny modules model the candidate pipeline of the lead-generation platform and prove what it keeps over
every input, every reply of its providers and every interleaving of its operations. `dafny verify dfyconfig.toml`
checks the whole project.

The pipeline is a chain of state machines over one relational store:

- **Discovery and staging.** `SearchProfileDiscovery` walks a query plan, `StagingAdapter` and
  `StagingDeduplication` turn the results into rows, `StagingOrchestration` classifies and persists the run through
  `StagingRepository`. `StagingNormalization` builds the identity keys all of it relies on; `StagingMerge` holds the
  argument that deduplicating first leaves the same table. `SerpApiProvider` is the shipped provider's retry.
  `DiscoveryOutcomes`, `IdentityKeys`, `AdapterOutcomes`, `CandidateSightings` and `StagedRuns` say what walks, keys,
  drafts, rows and stored runs hold, by the items and replies behind them.
- **Candidate lifecycle.** `CandidateReview`, `Companies`, `CandidatePromotion` and `CompanyApply` act on the rows
  staged; `CandidateLifecycle` makes them steps of one machine, `CompanyApplyGuarantees` reads the results off it,
  `PromotionOutcomes` says what each leaves row by row and `CompanyHostnames` adds the writes that look for no duplicate
  company.
- **Selection and planning.** `CandidateOrder`, `CompanySelection`, `SelectionOrder`, `SelectionOutcomes`,
  `RunMembership`, `CompanyPlan`, `PlanOutcomes` and `PlanEvidence`.
- **The acquisition loop.** `LeadAcquisition` is the budgeted loop; `AcquisitionHistory` tells a run by its replies
  alone, and `AcquisitionGuarantees` has its conservation laws and the exact condition under which its own validator
  refuses it.
- **Contacts.** `ContactPlan` chooses a contact, `ContactPlanHandoff` binds it to a token, `ContactApply` materialises
  contact, lead and task; `ContactChoice` and `ContactOutcomes` state choice and rows by the stored candidates.
- **Two smaller machines and a batch.** `PublicWebFetcher`, `OutreachCompletion` and `CompanyEnrichment`, with
  `FetchOutcomes`, `OutreachOutcomes` and `EnrichmentOutcomes`.

## How it is modelled

What the source updates in place is a class with the same fields: the sessions behind the repositories, the rows being
deduplicated, the counters of the acquisition state. Each method is tied by its `ensures` to a function on the value of
that state (`View`), and the lemmas are about those functions. A method that raises is rolled back where the source's
transaction does it, in the `Execute` and `Run` methods. The counters of the acquisition state are grouped into four
records by purpose.

Exceptions are `Result` and `Checked` values. Providers, transports, resolvers and the other dependencies are arbitrary
functions; where a theorem needs them to behave, its premise says how (`WellFormed`, `KeepsContract`). Hashes are
arbitrary functions, injective only where a theorem says so. NFKC, case folding, IDNA, IP parsing, country lookup and
URL splitting are arbitrary functions too, and `Platform.Tables.Lawful` collects the laws assumed of them: NFKC is
stable on collapsed text it produced, case folding leaves host text alone and creates no markup, IDNA leaves valid
ASCII names alone, IP literals have a canonical text, and splitting a rendered URL gives its parts back (percent
encoding as in RFC 3986 plays no part). Two theorems assume one fact more: `SameSiteExactlyWhen` that a literal with a
colon has two, and `OneContactForOneAddress` that an address in normal form is stored as it is.
`PlatformLaws` proves that these laws hold together, `WitnessTables` that they do on tables where the failures below happen.

## Where the code does not keep what it seems to promise

Each of these is a property that fails on some input; the exact condition under which it holds is proved.

- A provider stop on the last budgeted attempt sets both `budget_exhausted` and the stop status, which the result's own
  validator rejects: the run ends as RESULT_SERIALIZATION (`RefusedExactlyOnRepeatOrLateStop`, `LateStopIsRefused`). The
  same happens when a company, contact, lead, task or draft is completed twice: the already-complete check covers only
  the branch in which the plan names an existing company (`RepeatedCompanyIsRefused`).
- A preview applies NFKC to texts that were stored without it, so a fullwidth less-than or greater-than sign in a
  snippet, city or industry makes the staging run raise, after it persisted its rows in the same transaction
  (`CardExactlyWhenPresentable`, `FullwidthMarkupHasNoCard`, `ReportsExactlyWhenPresentable`).
- Website normalisation is not a retraction on every input: dropping the fragment of `http://host/x #y` leaves a trailing
  blank, a whitespace-only query takes a third pass, and a host may become `localhost` or a non-public literal only when
  it is encoded, after which the second pass, at upsert, refuses it (`WebsiteRetraction`, `ThirdPassSettles` and the two
  witnesses). The literal check runs before the encoding. For the same reason deduplicating a run and upserting its items
  one by one differ in one case: an item refused by itself is absorbed if it repeats an accepted identity
  (`DifferExactlyOnRefusedRepeats`, `TwoUrlsOneIdentity`).
- A request error may carry a diagnostic with an HTTP status and a subtype other than HTTP_CLIENT. If the first failing
  query has one, a persisted run raises when it closes, after its upserts, while the dry run reports
  (`ReportsExactlyWhenPresentable`, `StatusOfTransportErrorIsRefused`). SerpAPI never gives one (`SerpApiRunsReport`).
- A provider name with repeated inner whitespace makes a successful execution end as `execution_invalid`, because one
  service strips the name and the other collapses it (`CheckPassesExactlyWhenNamesAgree`). For the same reason every
  contact plan of such a provider raises (`OwnStateAgreesExactlyWhenNameCollapsed`).
- One nameless, website-only row among the fetched candidates refuses the whole selection, even if the cut would not have
  shown it (`OutcomeOfSelection`, `NamelessRowPastTheCut`). A direct selection is also refused for the evidence of a shown
  row that is over its bound.
- NFKC may lengthen a city, industry or snippet after its length was checked. The staging run reports such a preview, but
  a company plan validates the report once more and refuses it there, before it commits the run; its selection is then
  never refused for its evidence (`SnapshotExactlyWhenBounded`, `SelectionFailsExactlyWhen`).
- A profile name that is blank or over 255 characters makes every staging run of the profile raise when it reports, a
  persisted one after its writes; names that came through the profile service never are
  (`ReportsExactlyWhenPresentable`, `StoredProfilesAreReportable`).
- Outreach completion fails not only when several tasks are active, but also when the single active one has a due date
  (`FailsExactlyWhen`).
- A timestamp with a non-zero offset that is read back naive changes the token (`NaiveReadBack`).
- An enrichment, or plain company creation, may give two companies of a project one hostname; promotions never do
  (`HostnamesStayUnique`, `ChangeKeepsHostsExactlyWhen`, `TwoCompaniesOneHost`).
- The first URL of a fetch is not compared with the allowed hostname, only the redirects are (`FetchStaysAllowed`,
  `FirstPageNeedsNoAllowedHost`), and a host written as an IPv6 literal never passes the fetcher's label check
  (`NoColonInHost`, `ColonHostIsRefused`).

## Model

| member | source | states |
|---|---|---|
| `Text.NormalIffFixed` | app/modules/agent/contact_plan_contract.py:4-15 | a text is whitespace-normal exactly when collapsing its whitespace changes nothing |
| `Text.CollapseOfStrip` | app/modules/company_discovery/staging_service_schemas.py:63-83 | stripping before collapsing is redundant, so the two cleaning orders the schemas use agree on every text |
| `Text.TruncationStaysNormal` | app/modules/agent/contact_plan_contract.py:18-20 | cutting a whitespace-normal text at a bound and right-stripping it leaves a whitespace-normal text within the bound, non-empty and with the same first character |
| `StagingNormalization.WebsiteRetraction` | app/modules/company_discovery/staging_normalization.py:40-89 | normalising a normalised website returns it unchanged, identity included, exactly when the URL has no outer whitespace and its encoded host is neither `localhost` nor a non-public literal; for every port, `www.` prefix, trailing dot and literal |
| `StagingNormalization.CandidateRetraction` | app/modules/company_discovery/staging_normalization.py:92-124 | candidate normalisation is a retraction, key included, on exactly the candidates whose normalised website is settled in that sense |
| `StagingNormalization.RestagesExactlyWhenHostSettled` | app/modules/company_discovery/staging_normalization.py:40-124 | an accepted candidate is accepted a second time exactly if the host of its normalised website is neither `localhost` nor a non-public literal |
| `StagingNormalization.AcceptedAgainExactlyWhenEncodedHostSettled` | app/modules/company_discovery/staging_normalization.py:56-124 | in terms of the fields first given: exactly if the encoded host of the website, where there is one, is neither of the two |
| `StagingNormalization.ThirdPassSettles` | app/modules/company_discovery/staging_normalization.py:40-124 | a candidate the second pass accepts is settled after a third pass: no website needs a fourth |
| `StagingNormalization.AcceptedIsNormalForm` | app/modules/company_discovery/staging_normalization.py:92-124 | every accepted candidate, whatever its raw fields, has NFKC-stable collapsed names, a website rendered from well-formed parts, the identity key of the fields it shows, and all column bounds |
| `StagingNormalization.RestageFields` | app/modules/company_discovery/staging_repository.py:254-262 | the second normalisation, made at upsert, can only touch the website; the name, the country and the identity key stay |
| `StagingNormalization.FragmentLeavesTrailingBlank` | app/modules/company_discovery/staging_normalization.py:45-89 | witness: `http://host/x #y` normalises to a URL with a trailing blank, which the next pass removes |
| `StagingNormalization.EncodedLocalhostIsRefusedLater` | app/modules/company_discovery/staging_normalization.py:56-75 | witness: a host that IDNA encodes to `localhost` is accepted by the first pass and refused by the second |
| `StagingNormalization.LocalhostTwice` | app/modules/company_discovery/staging_normalization.py:56-89 | witness: `www.localhost` and a host encoded to `localhost` share one identity, and only the first is accepted again |
| `PlatformLaws.RenderDeterminesParts` | app/modules/company_discovery/staging_normalization.py:79-89 | a rendered and stripped URL determines its scheme, host, port and trimmed path and query: two part lists with one text are the same up to trailing whitespace |
| `PlatformLaws.SplitterExists` | app/modules/company_discovery/staging_normalization.py:44-56 | the laws assumed of URL splitting are consistent with any tables that keep the other laws: a splitter that reads every rendered URL back exists |
| `PlatformLaws.LawfulTablesExist` | app/modules/company_discovery/staging_normalization.py:40-124 | tables with a public and a private literal that keep every law exist, so no theorem about lawful tables is empty |
| `WitnessTables.WitnessIsLawful` | app/modules/company_discovery/staging_normalization.py:40-124 | lawful tables exist on which every witness below is an actual input |
| `WitnessTables.BlankUrlIsNotSettled` | app/modules/company_discovery/staging_normalization.py:45-89 | on those tables normalising `http://host/x #y` twice gives two different websites |
| `WitnessTables.EncodedUrlIsRefusedLater` | app/modules/company_discovery/staging_normalization.py:56-75 | on those tables a website whose host opens with a fullwidth letter is accepted and then refused |
| `WitnessTables.TwoUrlsOneIdentity` | app/modules/company_discovery/staging_normalization.py:56-89 | on those tables two websites share one identity and only the first is accepted again |
| `WitnessTables.SignRowHasNoCard` | app/modules/company_discovery/staging_service_schemas.py:103-160 | on those tables a well-formed row with a fullwidth sign as its snippet has no preview |
| `IdentityKeys.SameSiteExactlyWhen` | app/modules/company_discovery/staging_normalization.py:56-89 | two normalised websites have one identity exactly when their hosts agree without `www.` and their ports agree, a port the scheme implies counting as none; IPv6 literals have two colons |
| `IdentityKeys.ImpliedPortIsDropped` | app/modules/company_discovery/staging_normalization.py:76-89 | the port is left out of an identity exactly when there is none or it is 80 for http or 443 for https |
| `IdentityKeys.LawfulTablesHaveTwoColons` | app/modules/company_discovery/staging_normalization.py:63-83 | tables that keep every law, and of whose literals those with a colon have two, exist |
| `IdentityKeys.SameKeyExactlyWhen` | app/modules/company_discovery/staging_normalization.py:92-124 | two normalised candidates have one key exactly when both have a website of one identity, or neither has one and folded name and country are the same |
| `IdentityKeys.WebsiteKeepsItsParts` | app/modules/company_discovery/staging_normalization.py:40-89 | the website of an accepted candidate keeps the scheme, port, path and query it was given; its host is folded, freed of trailing dots and encoded, a public literal compressed |
| `IdentityKeys.CandidateKeepsItsFields` | app/modules/company_discovery/staging_normalization.py:92-124 | an accepted candidate has the given name after NFKC and collapsing, its folded form, the code of its country and the website above |
| `DiscoveryTables.FindByKey` | app/modules/company_discovery/staging_repository.py:263-270 | finds the row of a project with the key with the lowest id, and nothing only if there is none |
| `StagingRepository.CompanyDiscoveryStagingRepository.CreateRun` | app/modules/company_discovery/staging_repository.py:35-58 | on success one PENDING run under a fresh id and nothing else changed; on error the tables are untouched |
| `StagingRepository.CompanyDiscoveryStagingRepository.UpdateRun` | app/modules/company_discovery/staging_repository.py:80-88 | closes the run in place, keeping its project; a missing run, or a status code without a client error, changes nothing |
| `StagingRepository.CompanyDiscoveryStagingRepository.UpsertCandidate` | app/modules/company_discovery/staging_repository.py:238-309 | the tables and the created/updated/protected flags after an upsert, and untouched tables for each refusal |
| `StagingRepository.CompanyDiscoveryStagingRepository.UpdateExisting` | app/modules/company_discovery/staging_repository.py:283-309 | field-by-field assignment amounts to the merge of the row with the sighting, reports `updated` exactly when some column differs afterwards and `protected` exactly when the row is past DISCOVERED |
| `StagingRepository.CompanyDiscoveryStagingRepository.SetCandidateStatus` | app/modules/company_discovery/staging_repository.py:161-182 | only REVIEWED and REJECTED can be set, on a row of the project, and only the status changes |
| `StagingRepository.CompanyDiscoveryStagingRepository.LinkPromotedCompany` | app/modules/company_discovery/staging_repository.py:125-159 | links only a REVIEWED, unlinked row to a company of its own project, setting status and link together |
| `CandidateSightings.UpsertWrites` | app/modules/company_discovery/staging_repository.py:238-309 | an accepted upsert writes one row: a new one with exactly the sighting, or the one of the key, whose position becomes the lower of the two and which, while DISCOVERED, has each column filled exactly where it had none; created, updated and protected say which |
| `CandidateSightings.PositionIsTheLowestSeen` | app/modules/company_discovery/staging_repository.py:287-290 | over every interleaving of steps the position of a row is the lowest of all positions it was upserted at, and missing exactly if none of them was given |
| `StagingMerge.StageMerges` | app/modules/company_discovery/staging_repository.py:263-309 | staging two sightings of one identity, one after the other, is staging their merge, on any table and any row status |
| `StagingMerge.StagesCommute` | app/modules/company_discovery/staging_repository.py:263-309 | sightings of different identities can be staged in either order once the first has a row |
| `StagingMerge.StagePut` | app/modules/company_discovery/staging_orchestration.py:672-690 | adding one sighting to the deduplicated list before staging it equals staging the list and then the sighting |
| `StagingMerge.CompactStagesTheSame` | app/modules/company_discovery/staging_orchestration.py:653-697 | staging the deduplicated sightings leaves exactly the table that staging every sighting in order leaves |
| `SearchProfileDiscovery.RevalidateQueryPreview` | app/modules/company_discovery/profile_execution.py:192-233 | the loop computes the revalidated plan, or refuses it, query by query |
| `SearchProfileDiscovery.RevalidationIsIdempotent` | app/modules/company_discovery/profile_execution.py:192-233 | a revalidated plan is left alone by a second revalidation and keeps its number of queries |
| `DiscoveryOutcomes.RevalidatedExactlyWhen` | app/modules/company_discovery/profile_execution.py:192-233 | a plan is executed exactly when its countries are known, its counts are its number of queries and it is the profile's; each query is kept as given, with its country's code |
| `SearchProfileDiscovery.ExecuteDry` | app/modules/company_discovery/profile_execution.py:64-189 | the imperative walk with its early stop computes the recursive walk of the plan, with errors, the diagnostics of request errors and crashes |
| `SearchProfileDiscovery.AdaptResults` | app/modules/company_discovery/profile_execution.py:151-170 | collects, in order, exactly the items of the results that can be adapted |
| `SearchProfileDiscovery.WalkShape` | app/modules/company_discovery/profile_execution.py:90-189 | one result per query of a prefix of the plan that ends at the first fatal error, and at the end of the plan if there is none |
| `DiscoveryOutcomes.StopsExactlyWhen` | app/modules/company_discovery/profile_execution.py:90-146 | which provider errors end the walk and which go on to the next query |
| `DiscoveryOutcomes.WalkCrashesExactlyWhen` | app/modules/company_discovery/profile_execution.py:90-189 | a walk crashes exactly at a crash of the provider that no fatal error or crash stands before |
| `SearchProfileDiscovery.QueryConservation` | app/modules/company_discovery/schemas.py:177-186 | adapted items plus adapter errors equal provider results for every answered query; a failed query has neither |
| `SearchProfileDiscovery.WalkConserves` | app/modules/company_discovery/profile_execution.py:90-189 | every result of a walk meets its validator and conserves its provider results, and an early stop always leaves a provider error behind |
| `SearchProfileDiscovery.RunDryGuarantees` | app/modules/company_discovery/schemas.py:221-260 | every run of `run_dry` meets `validate_counts`, follows the plan, conserves results, and stops early exactly when its last query failed fatally |
| `StagingAdapter.AdaptQueryItems` | app/modules/company_discovery/staging_adapter.py:69-97 | the loop keeps the accepted items in order, and drafts plus rejections equal the items it was given |
| `StagingAdapter.AdaptedIsWellFormed` | app/modules/company_discovery/staging_adapter.py:32-66 | every draft that passes the adapter has cleaned texts within their bounds and a normalised identity |
| `AdapterOutcomes.ItemComesFrom` | app/modules/company_discovery/profile_execution.py:151-170 | the k-th item of an answer is that of an adaptable result with k others before it |
| `AdapterOutcomes.DraftComesFrom` | app/modules/company_discovery/staging_orchestration.py:653-680 | the k-th draft of a run is that of an item of a query, under that query's country, with k drafts from the items before it |
| `AdapterOutcomes.AcceptedExactlyWhen` | app/modules/company_discovery/staging_adapter.py:22-66 | an item is accepted exactly when its texts are within their bounds and free of markup, provider and country can be used and the rest identifies a candidate; each text then reaches its own field of the draft, and the position if it is at least one |
| `StagingDeduplication.CandidateRow.Absorb` | app/modules/company_discovery/staging_orchestration.py:682-690 | a repeat counts as a duplicate, fills the gaps of the row and moves its position only to the minimum |
| `StagingDeduplication.AdaptAndDeduplicateCandidates` | app/modules/company_discovery/staging_orchestration.py:653-697 | the in-place rows are pairwise distinct objects that hold the deduplicated adapted items in order of first appearance; rejections plus adapted items equal all items |
| `StagingDeduplication.DeduplicateCompacts` | app/modules/company_discovery/staging_orchestration.py:672-690 | the deduplicated rows are the compacted sightings, and rows plus duplicates equal the adapted items |
| `CandidateSightings.RowsSayOfTheirItems` | app/modules/company_discovery/staging_orchestration.py:653-726 | every item has exactly one row of its identity; the row has the lowest position of the items of that identity, in each of five columns the first value present, the texts of the first item, and one duplicate for each further one |
| `StagingDeduplication.CandidateConservation` | app/modules/company_discovery/staging_orchestration.py:653-697 | rows + duplicates + rejections = items of all query results |
| `StagingDeduplication.FillKeepsNormalForm` | app/modules/company_discovery/staging_orchestration.py:706-726 | filling missing fields from a candidate with the same key keeps the normal form, since website keys and name keys never meet |
| `StagingDeduplication.MergeRestages` | app/modules/company_discovery/staging_orchestration.py:706-726 | filling gaps and normalising again can be done in either order for sightings of one identity |
| `StagingDeduplication.UpsertsStage` | app/modules/company_discovery/staging_repository.py:238-309 | upserting payloads cut from sightings stages those sightings, normalised once more, one at a time |
| `StagingDeduplication.DeduplicationAgreesWithUpserts` | app/modules/company_discovery/staging_orchestration.py:653-726 | upserting every accepted item in order succeeds exactly when each normalises once more, and then deduplicating in memory and upserting each row once leaves exactly the same table, whatever rows, protected or not, it held; upserting the rows succeeds exactly when each row normalises once more |
| `StagingDeduplication.RowsRestageAsFirstsDo` | app/modules/company_discovery/staging_orchestration.py:672-690 | every deduplicated row normalises once more exactly if the first item of every identity does |
| `StagingDeduplication.DifferExactlyOnRefusedRepeats` | app/modules/company_discovery/staging_orchestration.py:653-726 | for every list of items: the deduplicated run is stored where its items one by one are refused exactly if every first item of an identity normalises once more and some repeat does not; never the other way round |
| `StagingDeduplication.RefusedRepeatIsAbsorbed` | app/modules/company_discovery/staging_orchestration.py:672-697 | any two items of one identity of which only the first normalises once more are such a run |
| `StagingDeduplication.UpsertsExactlyWhenRestageable` | app/modules/company_discovery/staging_repository.py:238-309 | payloads cut from sightings are all accepted exactly when every sighting normalises once more |
| `StagingOrchestration.CheckPassesExactlyWhenNamesAgree` | app/modules/company_discovery/staging_orchestration.py:613-651 | over every result of `run_dry` the orchestrator's check passes exactly when the provider name's stripped and collapsed forms are equal and the profile's name is stripped and is the one in each executed query |
| `StagingOrchestration.StatusMeaning` | app/modules/company_discovery/staging_orchestration.py:747-812 | what each status means for any dry run, that a code is present exactly for PARTIAL and FAILED, which code it is, and hence that the stop-reason branches behind the provider-error checks are never taken |
| `StagedRuns.StatusOfReplies` | app/modules/company_discovery/staging_orchestration.py:747-821 | the status of a report by the replies of its provider: FAILED exactly if queries were executed and none was answered, SUCCEEDED or NOT_FOUND exactly if nothing failed or was refused, with rows or without; the error code and diagnostic are those of the first failing reply |
| `StagedRuns.ReportCountsReplies` | app/modules/company_discovery/staging_orchestration.py:342-485 | every counter of a report by the replies: answers, failures, results, unadaptable ones and the early stop over the queries executed, and how the items divide into rows, repeats and rejections; its names and ids are the profile's |
| `StagingOrchestration.CardExactlyWhenPresentable` | app/modules/company_discovery/staging_service_schemas.py:103-160 | a row has a preview exactly when its fields normalise once more and NFKC turns none of its texts into markup |
| `StagingOrchestration.FullwidthMarkupHasNoCard` | app/modules/company_discovery/staging_service_schemas.py:103-160 | witness: a stored snippet holding the fullwidth less-than sign has no preview |
| `AdapterOutcomes.CardShows` | app/modules/company_discovery/staging_orchestration.py:857-872 | a preview shows the row's own name, country and position, and its city, industry and snippet after NFKC, each in its own place |
| `StagingOrchestration.CountingKeepsTheStore` | app/modules/company_discovery/staging_orchestration.py:394-426 | counting created, updated and protected rows along the way does not change what is stored |
| `StagingOrchestration.CompanyDiscoveryStagingService.Run` | app/modules/company_discovery/staging_orchestration.py:179-485 | a dry run leaves the tables alone and a persisted run leaves those of its specification, with the specified report or error |
| `StagingOrchestration.CompanyDiscoveryStagingService.CollectRows` | app/modules/company_discovery/staging_orchestration.py:313-340 | the rows and rejections of a run are those of the deduplicated adapted items |
| `StagingOrchestration.CompanyDiscoveryStagingService.CallProvider` | app/modules/company_discovery/staging_orchestration.py:219-337 | which provider outcomes raise, which become a FAILED run with which code, and which proceed |
| `DiscoveryOutcomes.JudgedExactlyWhen` | app/modules/company_discovery/staging_orchestration.py:213-340 | the verdict on a run by its provider: a name that cannot be used is a configuration error under the name `invalid-provider`, a disabled profile or refused plan raises, a crash that is come to or a blank profile name is execution_failed, and otherwise it proceeds or is execution_invalid |
| `DiscoveryOutcomes.FailedRunReports` | app/modules/company_discovery/staging_orchestration.py:505-611 | a failed run reports its code, its provider, the size of its plan and nothing found |
| `DiscoveryOutcomes.FailedRunStores` | app/modules/company_discovery/staging_orchestration.py:505-611 | persisted it reports the same and stores no row |
| `DiscoveryOutcomes.PreviewsAreTheRows` | app/modules/company_discovery/staging_orchestration.py:455-485 | the previews of a report are those of its deduplicated rows, in order |
| `StagingOrchestration.CompanyDiscoveryStagingService.Persist` | app/modules/company_discovery/staging_orchestration.py:385-454 | creates, fills and closes one run with its first diagnostic, or reports the first failing write, the closing one included |
| `StagingOrchestration.PersistsExactlyWhenRestageable` | app/modules/company_discovery/staging_orchestration.py:385-454 | a run is stored exactly when it can be created, every row normalises once more and the closing update takes the diagnostic; then there is one upsert per row |
| `StagedRuns.StoredRunIsReported` | app/modules/company_discovery/staging_orchestration.py:385-485 | for every report of a persisted run the one run it stores has the report's project, status, result count, upserts, error code and diagnostic, and beside it only candidate rows were written |
| `StagedRuns.ReportCountsRows` | app/modules/company_discovery/staging_orchestration.py:394-426 | the reported created, updated and protected counts are the numbers of rows that are new, that changed, and that changed past DISCOVERED, and upserts is created plus updated |
| `StagingOrchestration.ReportsExactlyWhenPresentable` | app/modules/company_discovery/staging_orchestration.py:179-485 | over every dry run the staging run returns a report exactly when the snapshot bounds hold, the profile has positive ids and a name that is neither blank nor over 255 characters, and every row is presentable; persisting adds exactly that the run can be created and that the diagnostic of the first failing reply has a status only with HTTP_CLIENT; the rules over counts never refuse it |
| `StagingOrchestration.DiagnosticOfReplies` | app/modules/company_discovery/staging_orchestration.py:814-821 | whether the closing update takes the diagnostic can be read off the replies: the walk always reaches the first failing query |
| `StagingOrchestration.RuleKeepersReport` | app/modules/company_discovery/staging_orchestration.py:428-453 | with a provider that gives a status only for client errors a persisted run reports whenever its dry run does and the run can be created |
| `StagingOrchestration.StatusOfTransportErrorIsRefused` | app/modules/company_discovery/staging_schemas.py:122-129 | witness: with a transport error that carries status 404 the dry run reports and the persisted run raises when it closes |
| `SerpApiProvider.SerpApiClient.SearchCompanies` | app/providers/serpapi/client.py:105-295 | the retry with its shared budget makes the specified exchanges, at most two, and counts each |
| `SerpApiProvider.StatusIsTheResponses` | app/providers/serpapi/client.py:144-268 | a reply carries a status exactly when the settling response had it as a client error other than 401, 403 and 429; at most two calls, none for refused arguments |
| `SerpApiProvider.CodesOfResponses` | app/providers/serpapi/client.py:144-268 | which response settles a search as which answer or error: 401 and 403, 429 with and without an exhausted quota, other client errors, server errors, and bodies that are incomplete or unusable |
| `SerpApiProvider.SerpApiRunsReport` | app/modules/company_discovery/serpapi_provider.py:54-107 | the shipped provider keeps the rule over all its exchanges, so a persisted run over it reports whenever its dry run does and the run can be created |
| `StagingOrchestration.StoredProfilesAreReportable` | app/modules/search_profile/schemas.py:43-96 | names as the profile service stores them meet those rules |
| `StagingOrchestration.DryReportsAreValid` | app/modules/company_discovery/staging_service_schemas.py:166-334 | every dry report meets the field rules and `_validate_counts`, and unique + duplicates + rejected equals the items found |
| `StagingOrchestration.PersistedReportsAreValid` | app/modules/company_discovery/staging_service_schemas.py:166-334 | every persisted report meets the field rules and `_validate_counts`, names the run it created and counts one upsert per unique row |
| `StagingOrchestration.DryRunPredictsPersistedRun` | app/modules/company_discovery/staging_orchestration.py:179-485 | a dry and a persisted run agree on status, error code, previews and every discovery counter |
| `CandidateReview.CompanyDiscoveryCandidateReviewService.ApplyTransition` | app/modules/company_discovery/candidate_review.py:112-178 | takes exactly the allowed transitions, leaves the row alone for a repeated status, and changes nothing on refusal |
| `PromotionOutcomes.ReviewedExactlyWhen` | app/modules/company_discovery/candidate_review.py:112-178 | a review or rejection succeeds exactly on a row of the project and one of five moves, sets only the status and reports both statuses |
| `Companies.FindDuplicate` | app/modules/company/repository.py:87-104 | the company of the project with the hostname with the lowest id, and nothing only if no company has it |
| `Companies.CompanyRepository.FindDuplicateByWebsite` | app/modules/company/repository.py:87-104 | the scan in id order returns that company, nothing for a website without a hostname, and an error for one that cannot be read |
| `Companies.CompanyRepository.CreateForPromotion` | app/modules/company/repository.py:106-125 | adds one company under a fresh id and changes nothing else |
| `CandidatePromotion.CompanyDiscoveryCandidatePromotionService.Promote` | app/modules/company_discovery/candidate_promotion.py:96-185 | the result, error and tables after a promotion, for new, reused and already promoted candidates |
| `PromotionOutcomes.PromotionLeaves` | app/modules/company_discovery/candidate_promotion.py:96-185 | a promotion that returns links its row to a company: a new one with the candidate's name, website and country, made only if no company of the project had the hostname, or the lowest that has it |
| `PromotionOutcomes.StoredNameIsTheCompanys` | app/modules/company_discovery/candidate_promotion.py:220-232 | the name of a stored candidate reaches its company unchanged |
| `CandidatePromotion.FindOrCreateKeepsHosts` | app/modules/company_discovery/candidate_promotion.py:134-160 | reusing or creating the company keeps hostnames unique per project, returns a company with the candidate's hostname and touches no other company |
| `CandidatePromotion.PromotionKeepsHosts` | app/modules/company_discovery/candidate_promotion.py:96-185 | a promotion creates no second company for a hostname and keeps every candidate linked to its hostname's company |
| `CandidatePromotion.SameHostSameCompany` | app/modules/company_discovery/candidate_promotion.py:134-185 | promoted candidates of a project with one hostname share one company, whatever their identity keys |
| `CompanyApply.AgentCompanyApplyService.Run` | app/modules/agent/company_apply.py:185-263 | review-if-DISCOVERED then promote, with the before and after checks, amounts to the specified result or error and tables |
| `CompanyApply.AgentCompanyApplyService.Execute` | app/modules/agent/execution.py:238-289 | the transaction keeps the writes on success and restores every table on any error |
| `PromotionOutcomes.ApplyLeaves` | app/modules/agent/company_apply.py:185-263 | a successful apply leaves that link and that company, and reports the status the row had and whether the company is new |
| `CandidateLifecycle.StepKeepsRows` | app/modules/company_discovery/staging_repository.py:125-182 | every step, from any state that meets it, keeps the invariant: keys unique per project, PROMOTED exactly with a link, the link in the same project, run references intact; and lets rows only evolve |
| `CandidateLifecycle.LifecycleIsSafe` | app/modules/company_discovery/candidate_promotion.py:96-185 | over every interleaving of run, upsert, review, rejection, promotion, apply and company steps the invariant holds and rows only evolve: first_seen fixed, best position never grows, non-null fields and PROMOTED or REJECTED never change |
| `CandidateLifecycle.UpsertTouchesOneRow` | app/modules/company_discovery/staging_repository.py:238-309 | an upsert changes the row of its key only, and of a protected row only the last run and the best position |
| `CandidateLifecycle.ApplyIsReviewThenPromote` | app/modules/agent/company_apply.py:185-263 | an apply that succeeds did exactly a review if the row was DISCOVERED and then a promotion |
| `CandidateLifecycle.StoredRowsAreNormal` | app/modules/company_discovery/staging_repository.py:254-309 | over every run of steps each stored row stays in normal form with the identity key of its own fields |
| `CandidateLifecycle.SightingsMoveOnlyByUpsert` | app/modules/company_discovery/candidate_review.py:112-156 | no step but an upsert changes what a row says or which run saw it last |
| `CandidateLifecycle.HostnamesStayUnique` | app/modules/company/repository.py:87-125 | over every interleaving without direct company creation hostnames stay unique per project and promoted candidates with one hostname share a company |
| `CompanyHostnames.ChangeKeepsRows` | app/modules/company_enrichment/service.py:115-118 | setting a company website, as an enrichment does, keeps the lifecycle invariant and every row |
| `CompanyHostnames.ChangeKeepsHostsExactlyWhen` | app/modules/company/repository.py:17-44 | a direct creation keeps hostnames unique exactly if a search for duplicates of its website finds none; a website set on a company exactly if no other company has its hostname and the candidates linked to the company have it; every other step always |
| `CompanyHostnames.SafeExactlyWhenEachChangeIs` | app/modules/company/repository.py:17-125 | over every history hostnames stay unique throughout exactly if each direct creation and each website set was free at its time |
| `CompanyHostnames.OneCompanyPerHostname` | app/modules/company_discovery/candidate_promotion.py:134-185 | over such a history promoted candidates of a project with one hostname share their company |
| `CompanyHostnames.TwoCompaniesOneHost` | app/modules/company/repository.py:17-44 | witnesses: two creations, or a creation and an enriched website, that leave two companies with one hostname |
| `CompanyHostnames.EnrichmentSetsWebsite` | app/modules/company_enrichment/service.py:115-118 | what an enrichment does to the websites of all companies is exactly such a change, or nothing |
| `CompanyApplyGuarantees.CurrentApply` | app/modules/agent/company_apply.py:185-263 | the full outcome for a current handoff by status: refused, idempotent, or promoted with the exact row left behind, always meeting `validate_lifecycle` |
| `CompanyApplyGuarantees.ApplyOutcomes` | app/modules/agent/company_apply.py:370-392 | success exactly for a current, promotable or promoted candidate; inconsistency is reported exactly for a current, unpromotable one that is still open |
| `CompanyApplyGuarantees.StoredRowsPromoteWithNameAndHost` | app/modules/company_discovery/candidate_promotion.py:220-254 | a stored row is promotable exactly if it has a name and its website, if any, is at most 255 characters with a hostname |
| `CompanyApplyGuarantees.ApplyIsIdempotent` | app/modules/agent/company_apply_schemas.py:106-139 | after a success and any later steps, a current repeat returns the same company and mutates nothing; otherwise it can only be stale or its run not eligible |
| `CompanyApplyGuarantees.LastRunIsLastUpsert` | app/modules/company_discovery/staging_repository.py:283-309 | over every run of steps a row's last run is that of the last upsert of its key |
| `CompanyApplyGuarantees.StaleExactlyWhenSeenAgain` | app/modules/agent/company_apply.py:370-392 | a handoff that was current becomes stale exactly when a later run sees the candidate again while its own run is still usable |
| `CandidateOrder.OrderIsTotal` | app/modules/agent/company_selection.py:600-609 | the order (position missing, position, identity key, id) puts rows with different ids one way and never both |
| `SelectionOrder.TextBeforeExactlyWhenLess` | app/modules/agent/company_selection.py:600-610 | identity keys are compared by code point: at the first index where two differ, the one that has ended or has the lower code point is less |
| `CandidateOrder.OrderIsTransitive` | app/modules/agent/company_selection.py:600-609 | the order is transitive |
| `CandidateOrder.GroupsCommute` | app/modules/company_discovery/staging_repository.py:222-236 | sorting does not depend on the order in which two groups of rows arrive |
| `CandidateOrder.TakeOfInsertAll` | app/modules/agent/company_selection.py:205-209 | only the first k already there can be among the first k after more rows are merged in |
| `CompanySelection.TwoQueriesGiveTheTopK` | app/modules/agent/company_selection.py:180-209 | the first k of the two limited queries, merged, sorted and cut, are the first k of all DISCOVERED and PROMOTED rows of the run |
| `CompanySelection.ValidateCandidates` | app/modules/agent/company_selection.py:410-440 | the loop with its id and key sets accepts exactly the batches of valid rows with distinct ids and keys |
| `CompanySelection.AgentCompanySelectionService.Prepare` | app/modules/agent/company_selection.py:158-262 | computes the specified selection or error from the tables it reads |
| `CompanySelection.AgentCompanySelectionService.Build` | app/modules/agent/company_selection.py:210-262 | grows candidates and bindings side by side into the specified input |
| `CompanySelection.SelectionShowsTopK` | app/modules/agent/company_selection_schemas.py:60-77 | a prepared selection shows exactly the first k eligible rows, binds index i to the id of the i-th, and meets its validator |
| `SelectionOrder.SelectionIsInOrder` | app/modules/agent/company_selection.py:158-262 | by the stored rows: a selection binds at most k rows of the run that are eligible, a row with a position before one without, then the lower position, the lesser key and the lower id; every eligible row left out comes behind all of them, and only k bound rows leave one out; it shows the values of the row it binds |
| `CompanySelection.ResolveFindsTheShown` | app/modules/agent/company_selection.py:264-289 | index i resolves to the id bound to it, any other index is refused, and no two indexes share an id |
| `CompanySelection.ResolveFindsTheCompany` | app/modules/agent/company_selection.py:291-318 | resolving on unchanged tables names a company exactly for a PROMOTED row, and it is that row's link |
| `CompanySelection.FetchedRowsAreValid` | app/modules/agent/company_selection.py:477-556 | on tables that meet the lifecycle invariant a batch is refused exactly for the texts one of its rows would show |
| `SelectionOutcomes.OutcomeOfSelection` | app/modules/agent/company_selection.py:158-262 | the outcome of every selection over a usable run: no candidates if none is eligible; inconsistent if a fetched row cannot be described, shown or not, or the evidence of a shown row is out of bounds; invalid if the request is too long; otherwise the request and bindings of the first k |
| `SelectionOutcomes.DescribableExactlyWhenNamed` | app/modules/agent/company_selection.py:477-556 | a stored row can be described exactly if it has a name, no NUL character in its name or name key, and no position zero |
| `SelectionOutcomes.NamelessRowPastTheCut` | app/modules/agent/company_selection.py:180-209 | witness: with a cut of one, a promoted row at position one and a nameless row behind it, the selection is refused |
| `RunMembership.MembershipGrowsByUpserts` | app/modules/company_discovery/staging_repository.py:263-286 | over any steps a run's membership grows by at most the upserts made under its id |
| `RunMembership.FreshRunHasNoMembers` | app/modules/company_discovery/staging_repository.py:56-58 | no candidate was seen by a run that is yet to be created |
| `RunMembership.StagedRunMembers` | app/modules/company_discovery/staging_orchestration.py:385-485 | a persisted run leaves at most as many candidates under its id as it reports upserts, and keeps the lifecycle invariant |
| `RunMembership.EligibleFitsMembers` | app/modules/company_discovery/staging_repository.py:205-236 | no more rows of a run are eligible than the run saw |
| `RunMembership.EligibleNeverExceedsStaged` | app/modules/agent/company_plan_schemas.py:187-231 | the eligible rows never exceed the staged count, whatever reviews, promotions and other runs happen in between |
| `CompanyPlan.AgentCompanyPlanService.SelectAndDecide` | app/modules/agent/company_plan.py:527-633 | after the commit a plan asks for exactly one decision if its request is new and for none otherwise, and returns the specified result or error |
| `PlanOutcomes.PlanReports` | app/modules/agent/company_plan.py:527-633 | a plan lists the candidates its selection bound, in order; it is suppressed exactly if the request was excluded, and otherwise reports the one answer with the candidate that answer names and the company of a promoted one |
| `CompanyPlan.DecidedRequestsAreSuppressed` | app/modules/agent/company_plan.py:565-588 | a decision is made exactly for a fingerprint that was not excluded, and suppression is reported exactly for one that was |
| `CompanyPlan.PlanResultsAlign` | app/modules/agent/company_plan_schemas.py:187-231 | with no more eligible than staged rows a plan result is never refused, and a selected index lies within the eligible count and names the bound candidate |
| `CompanyPlan.StagedPlansAlign` | app/modules/agent/company_plan.py:527-633 | a plan over a run that was just staged is never refused for its counts |
| `PlanEvidence.CardAgainExactlyWhenBounded` | app/modules/company_discovery/staging_service_schemas.py:103-160 | validating the preview of a stored row again refuses it exactly when NFKC took one of its texts over its bound, and otherwise moves at most its website |
| `PlanEvidence.SnapshotExactlyWhenBounded` | app/modules/agent/company_plan.py:708-761 | a plan takes over the report of its persisted run exactly when no city, industry or snippet is over its bound after NFKC, and all evidence it then hands on is acceptable to the request |
| `PlanEvidence.SelectionFailsExactlyWhen` | app/modules/agent/company_plan.py:527-563 | with such evidence a plan over a usable run fails at its selection exactly when a fetched row cannot be described or the request is too large |
| `LeadAcquisition.LeadAcquisitionService.Acquire` | app/modules/agent/lead_acquisition.py:481-743 | the imperative run ends as the folded attempts end, with the specified result or failure stage |
| `LeadAcquisition.LeadAcquisitionService.Loop` | app/modules/agent/lead_acquisition.py:488-671 | the budgeted while loop with its early exits folds the attempts, and stops at the limit, the budget, a provider stop or a failure |
| `LeadAcquisition.LeadAcquisitionService.MakeAttempt` | app/modules/agent/lead_acquisition.py:488-540 | one iteration is one attempt: it counts exactly one, with the state it is specified to leave |
| `LeadAcquisition.LeadAcquisitionService.FinishDraft` | app/modules/agent/lead_acquisition.py:746-792 | the draft call and every counter and id list it updates, on each of its exits |
| `AcquisitionHistory.RunIsItsHistory` | app/modules/agent/lead_acquisition.py:488-671 | every run is its history, which is made of replies alone: it ends, raised, stopped or not, with exactly the counters and id lists that the replies of its attempts add up to; each created, reused and call counter counts the replies that say so |
| `AcquisitionHistory.ResultsAreTold` | app/modules/agent/lead_acquisition.py:673-743 | a returned result has the totals of its run's replies; complete exactly at the limit, a provider stop exactly if the last reply was one, budget exhausted otherwise; and which stage a raising run names |
| `AcquisitionHistory.IdsComeFromOneAttempt` | app/modules/agent/lead_acquisition.py:746-792 | for every index of the id lists there is one attempt of the run whose contact apply or completion gave that lead and that task for that company, and whose draft call gave that draft, new, for that lead and contact |
| `AcquisitionHistory.ContactsAreThePersons` | app/modules/agent/lead_acquisition.py:775-784 | the contact ids are, in order, those of the person-scoped completions |
| `AcquisitionGuarantees.UsableExactlyWhen` | app/modules/agent/lead_acquisition.py:459-474 | an address is usable exactly when it has no whitespace and its folded form, which is then used, is a part before an at sign and a dotted domain |
| `AcquisitionGuarantees.AttemptKeepsBalance` | app/modules/agent/lead_acquisition.py:488-671 | every attempt, whatever its dependencies answer, ends with the counters balanced |
| `AcquisitionGuarantees.RoundsBalance` | app/modules/agent/lead_acquisition.py:488-671 | so do any number of rounds |
| `AcquisitionGuarantees.ResultsConserve` | app/modules/agent/lead_acquisition.py:673-743 | attempts = completed + duplicates + no selection + no email + draft failures + provider stop; drafts = completed; leads = tasks; companies = contacts + no contact = draft calls + no email; five id lists of the demanded lengths |
| `AcquisitionGuarantees.ResultRefusedExactlyWhen` | app/modules/agent/lead_acquisition.py:253-325 | for any dependencies the validator refuses exactly negative counts, non-positive or repeated ids, and a provider stop on the last budgeted attempt |
| `AcquisitionGuarantees.RefusedExactlyOnRepeatOrLateStop` | app/modules/agent/lead_acquisition.py:253-325 | for well-formed dependencies the result is refused exactly if something was completed twice or the provider stopped on the last budgeted attempt |
| `AcquisitionGuarantees.DistinctExactlyWithoutRepeats` | app/modules/agent/lead_acquisition.py:746-792 | the id lists are free of duplicates exactly if no round completed an id again |
| `AcquisitionGuarantees.RoundsStaySound` | app/modules/agent/lead_acquisition.py:334-401 | well-formed answers keep counts non-negative and completed ids positive over the whole run |
| `AcquisitionGuarantees.BudgetBounds` | app/modules/agent/lead_acquisition.py:484-484 | the budget is five times the limit, but at least 10 and at most 100, and always at least twice the limit |
| `AcquisitionGuarantees.PlanOffsetsAreInRange` | app/modules/agent/company_plan_schemas.py:48-53 | the plan call of attempt k gets offset k, always within 0..99 |
| `AcquisitionGuarantees.OffsetNinetyNineIsReached` | app/modules/agent/company_plan_schemas.py:48-53 | the range is tight: limits from 20 on can reach offset 99 |
| `AcquisitionGuarantees.NoFingerprintIsDecidedTwice` | app/modules/agent/lead_acquisition.py:491-538 | no two attempts of a run ask for a decision on the same request, whether a plan, a provider stop or a failure comes of it |
| `AcquisitionGuarantees.CompanyPlansKeepContract` | app/modules/agent/company_plan.py:565-601 | the contract that statement assumes of a plan call is met by the plans modelled here, for every reply they are turned into |
| `AcquisitionGuarantees.LateStopIsRefused` | app/modules/agent/lead_acquisition.py:318-325 | for every limit there are well-formed dependencies whose late provider stop turns the run into RESULT_SERIALIZATION |
| `AcquisitionGuarantees.RepeatedCompanyIsRefused` | app/modules/agent/lead_acquisition.py:543-562 | with well-formed dependencies a company applied twice is completed twice despite the already-complete check, and the result refused |
| `ContactPlan.ValidateDiscovery` | app/modules/agent/contact_plan.py:358-423 | the rules over a discovery run as a whole and the snapshots it keeps, or its refusal |
| `ContactPlan.ValidatePersisted` | app/modules/agent/contact_plan.py:384-407 | the loop with its dictionary of ids computes the latest snapshot of every id, or refuses a snapshot by its fields, its rebuilt key or a changed key |
| `ContactPlan.AcceptedExactlyWhenConsistent` | app/modules/agent/contact_plan.py:384-464 | snapshots are accepted exactly if each is one of the company with the key of its candidate and snapshots of one id agree about the key |
| `ContactPlan.UniqueAreLatest` | app/modules/agent/contact_plan.py:358-423 | every returned id is kept once, with its latest snapshot |
| `ContactPlan.RolePriority` | app/modules/agent/contact_plan.py:521-526 | the first role group one of whose phrases the title contains, and the number of groups if there is none |
| `ContactPlan.CollectEligible` | app/modules/agent/contact_plan.py:466-518 | keeps exactly the eligible snapshots, in order |
| `ContactPlan.SelectedIsBest` | app/modules/agent/contact_plan.py:466-518 | the selected candidate is listed and ranks before every other one |
| `ContactPlan.Plan` | app/modules/agent/contact_plan.py:221-289 | computes the specified report or error: company, provider, discovery, its stored state, a FAILED run, the choice, the token and the result validator |
| `ContactPlan.PlansExactlyWhen` | app/modules/agent/contact_plan.py:221-289 | a plan reports exactly when the company and provider texts fit their bounds, the run is valid, not FAILED and agrees with its stored state, the provider closes, and the chosen row fits its bounds; the rules over counts never refuse a report |
| `ContactPlan.OwnStateAgreesExactlyWhenNameCollapsed` | app/modules/agent/contact_plan.py:328-355 | the state a run stores agrees with the plan that made it exactly when the stripped provider name is already collapsed |
| `ContactPlan.PlanChoosesTheBest` | app/modules/agent/contact_plan.py:466-526 | a plan chooses an eligible candidate in its latest snapshot, and no eligible one ranks before it |
| `ContactChoice.BestIsChosen` | app/modules/agent/contact_plan.py:466-526 | by the stored snapshots: a plan chooses nobody exactly if none may be chosen, and otherwise one whose role ranks first, then one with an address, then the highest confidence, then the lowest id |
| `ContactChoice.PlanSays` | app/modules/agent/contact_plan.py:529-614 | a report has the company's collapsed texts, the run's status and page counts, and proposals over the chosen contact's own name and title |
| `ContactPlan.PlannedTokenIsAccepted` | app/modules/agent/contact_plan.py:583-614 | the token of a plan passes the verification of an apply on rows that agree with the planned ones |
| `ContactPlanHandoff.ProposalsAreClean` | app/modules/agent/contact_plan_contract.py:53-87 | proposals over clean texts are clean, within their column bounds, and open with the operator action |
| `ContactPlanHandoff.TitlesRead` | app/modules/agent/contact_plan_contract.py:53-87 | the lead's title names the company and the task's the contact, whole wherever they fit and cut otherwise |
| `ContactPlanHandoff.DescriptionReads` | app/modules/agent/contact_plan_contract.py:53-87 | a description within its bound names contact, title if there is one, company and goal, in this order |
| `ContactPlanHandoff.LegacyDescriptionDiffers` | app/modules/agent/contact_plan_contract.py:29-50 | the legacy description is never the current one, so a task is rewritten at most once |
| `ContactPlanHandoff.PayloadExactlyWhenBindable` | app/modules/agent/contact_plan_handoff.py:49-118 | the token payload exists exactly for rows within their bounds, and is their canonical form |
| `ContactPlanHandoff.PayloadsAgree` | app/modules/agent/contact_plan_handoff.py:13-115 | two rows have one payload exactly when every bound field agrees up to whitespace and time zone |
| `ContactPlanHandoff.TokenAcceptedExactlyWhenUnchanged` | app/modules/agent/contact_plan_handoff.py:49-118 | with an injective hash the recomputed token matches exactly when the bound rows still agree |
| `ContactPlanHandoff.NaiveReadBack` | app/modules/agent/contact_plan_handoff.py:34-46 | a timestamp read back naive keeps the token exactly if it was naive or UTC |
| `ContactApply.AgentContactApplyService.Execute` | app/modules/agent/execution.py:341-397 | one transaction: kept on success, all tables restored on any error |
| `ContactApply.AgentContactApplyService.Apply` | app/modules/agent/contact_apply.py:269-408 | verification, review, promotion, lead and task amount to the specified result or error and tables |
| `ContactApply.AgentContactApplyService.Promote` | app/modules/contact_discovery/candidate_promotion.py:110-197 | the contact reused or created and the link written by a promotion |
| `ContactApply.AgentContactApplyService.FindOrCreateLead` | app/modules/agent/contact_apply.py:701-719 | reuses the one lead of the contact, creates it if there is none, and refuses several |
| `ContactApply.AgentContactApplyService.FindOrCreateTask` | app/modules/agent/contact_apply.py:740-771 | reuses the one task of the lead, overwriting a legacy description in place, creates it if there is none, and refuses any other |
| `ContactApply.StaleExactlyWhenRowsChanged` | app/modules/agent/contact_apply.py:293-330 | with an injective hash an apply is stale exactly when the rows, within their bounds, no longer agree with the plan's |
| `ContactApply.LeadIsTheOnlyOne` | app/modules/agent/contact_apply.py:701-738 | afterwards the lead is the only one of the contact and nothing else changed |
| `ContactApply.TaskIsTheOnlyOne` | app/modules/agent/contact_apply.py:740-828 | afterwards the task is the only one of the lead with the proposed texts; a rewrite happens only to the legacy description |
| `ContactApply.AppliedRows` | app/modules/agent/contact_apply.py:269-408 | everything a successful apply changed: the candidate's link, at most one contact, lead and task, with the counts it reports |
| `ContactOutcomes.ResolvedExactlyWhen` | app/modules/contact_discovery/candidate_promotion.py:291-321 | a candidate has an address exactly if its raw and its stored address, as far as given, normalise to it, the stored one being it |
| `ContactOutcomes.AppliedOnlyWhen` | app/modules/agent/contact_apply.py:269-345 | an apply succeeds only if confirmed, on a company of the project whose discovery ended SUCCEEDED or PARTIAL, for a candidate of it that is not REJECTED, with the token of the rows as they are |
| `ContactOutcomes.ContactOfApply` | app/modules/contact_discovery/candidate_promotion.py:110-197 | a contact reported as created is one row under the next id with the candidate's person and resolved address, and nobody of the company had that address; one reported as reused changes no contact and is the one with the lowest id that has the address, or the one linked before |
| `ContactOutcomes.OneContactForOneAddress` | app/modules/contact_discovery/candidate_promotion.py:140-165 | two candidates of a company with one address end on one contact, whatever applies lie between, if an address in normal form is stored as it is |
| `ContactOutcomes.LeadAndTaskOfApply` | app/modules/agent/contact_apply.py:701-828 | the lead and the task of a success as rows: a NEW lead of company and contact, and an open task with the proposed title and description; the candidate is linked to that contact and no other changes |
| `ContactApply.ApplyIsIdempotent` | app/modules/agent/contact_apply_schemas.py:151-185 | a repeat returns the same contact, lead and task, all reused, no mutation counted, crm_mutated false, tables unchanged |
| `ContactApply.ResultsAreNeverRefused` | app/modules/agent/contact_apply_schemas.py:151-185 | once a candidate is promoted the only error left is a conflict over its lead or task: no result is refused by `validate_invariants` |
| `ContactApply.ApplyKeepsKeys` | app/modules/agent/contact_apply.py:269-408 | an apply keeps ids handed out in order: every stored lead and task has a positive id below the next |
| `ContactApply.NoOtherLeadOrTask` | app/modules/agent/contact_apply.py:701-771 | after a successful apply the contact has exactly one lead in all the tables, and that lead exactly one task |
| `PublicWebFetcher.BoundedPublicWebFetcher.Run` | app/providers/public_web_fetcher.py:177-302 | the redirect loop with its visited set terminates and makes the specified journey |
| `PublicWebFetcher.BoundedPublicWebFetcher.Try` | app/providers/public_web_fetcher.py:203-253 | addresses are tried in order until one answers |
| `PublicWebFetcher.OrderedIsTheSet` | app/providers/public_web_fetcher.py:369-373 | ordering the resolved addresses keeps exactly their set, each once and ascending |
| `PublicWebFetcher.PinnedIsPublic` | app/providers/public_web_fetcher.py:304-341 | a host is pinned only if its whole resolved set is public, and to at most four addresses of it |
| `FetchOutcomes.PinnedExactlyWhen` | app/providers/public_web_fetcher.py:304-341 | a host is pinned exactly when it is not localhost and all its addresses, one or more, are readable and public |
| `PublicWebFetcher.JourneysAreSafe` | app/providers/public_web_fetcher.py:177-302 | from any point of a journey: no URL on two hops, bounded hops and calls, every call to a public address of its own hop's host |
| `PublicWebFetcher.FetchIsSafe` | app/providers/public_web_fetcher.py:177-341 | a fetch makes at most 4*(max_redirects+1) calls over at most max_redirects+1 distinct URLs, only to addresses of a wholly public set |
| `PublicWebFetcher.RequestUrlReadsBack` | app/providers/public_web_fetcher.py:384-413 | reading a normalised URL again gives its own parts, less whitespace at its very end |
| `FetchOutcomes.RequestUrlExactlyWhen` | app/providers/public_web_fetcher.py:384-413 | a text is a request URL exactly when it splits into http or https without credentials, a port that can be read and a host of valid labels after encoding; port, path and query are kept |
| `PublicWebFetcher.RedirectIsAllowed` | app/providers/public_web_fetcher.py:255-279 | a redirect is followed only to a normalised URL of a host equivalent to the allowed one |
| `FetchOutcomes.EquivalentExactlyWhen` | app/providers/public_web_fetcher.py:363-367 | two hosts are equivalent exactly when, folded, they are one host up to a `www.` in front of either |
| `FetchOutcomes.WhatAnAnswerMeans` | app/providers/public_web_fetcher.py:255-302 | a response leads on exactly with status 301, 302, 303, 307 or 308, a location that is a plain URL of an allowed host and a redirect left; it is the page exactly for HTML that can be decoded with a 2xx status; which error and reason any other response gives |
| `FetchOutcomes.AddressesAreTriedInOrder` | app/providers/public_web_fetcher.py:203-253 | the calls of a hop go to its addresses in order, each after a failure that may be retried; a response is that of the last call, and there is none only if the last call failed |
| `FetchOutcomes.PinnedHopEnds` | app/providers/public_web_fetcher.py:203-253 | a hop to a pinned host makes a call and reports the failure of its last one, if that failed |
| `FetchOutcomes.RefusedHopEnds` | app/providers/public_web_fetcher.py:190-202 | a host that is not pinned is refused without a call, as unsafe exactly if a redirect led there, with the reason its verification gave |
| `FetchOutcomes.FetchIsTold` | app/providers/public_web_fetcher.py:177-302 | every hop of a fetch after the first is where the response to the one before it led, and a page returned is the one the last hop was answered |
| `FetchOutcomes.RedirectsAreFollowed` | app/providers/public_web_fetcher.py:255-279 | a response that leads on to a URL not yet visited is followed while a redirect is left |
| `FetchOutcomes.ErrorsShowNoQuery` | app/providers/public_web_fetcher.py:416-424 | the URL an error shows has no query |
| `PublicWebFetcher.FetchStaysAllowed` | app/providers/public_web_fetcher.py:363-367 | every hop after the first stays on the allowed hostname, and a page comes from the last hop with its readable URL |
| `PublicWebFetcher.FirstHopIsAsWritten` | app/providers/public_web_fetcher.py:177-190 | the first hop is the URL asked for, normalised, whatever hostname is allowed |
| `PublicWebFetcher.FirstPageNeedsNoAllowedHost` | app/providers/public_web_fetcher.py:177-190 | witness family: a page of the first URL is returned although its host is not the allowed one |
| `PublicWebFetcher.NoColonInHost` | app/providers/public_web_fetcher.py:384-413 | no URL that passes has a colon in its host, so a host written as an IPv6 literal never does |
| `PublicWebFetcher.ColonHostIsRefused` | app/providers/public_web_fetcher.py:396-410 | a URL whose host has a colon and is its own encoding raises |
| `OutreachCompletion.CompanyScopedOutreachCompletionService.Run` | app/modules/company/outreach_completion.py:191-267 | one transaction around the search: kept on success, restored on any error |
| `OutreachCompletion.CompanyScopedOutreachCompletionService.FindOrCreateOutreach` | app/modules/company/outreach_completion.py:315-368 | returns the one active pair or creates one, as specified |
| `OutreachCompletion.CompanyScopedOutreachCompletionService.CollectActive` | app/modules/company/outreach_completion.py:328-337 | the nested loops collect the active pairs of all company-scoped leads, or refuse an active task that may not be reused |
| `OutreachCompletion.FailsExactlyWhen` | app/modules/company/outreach_completion.py:315-395 | it fails exactly when two or more tasks are active or the single active one has a due date |
| `OutreachCompletion.EndsWithOneActiveTask` | app/modules/company/outreach_completion.py:315-368 | it ends with exactly one active task over all company-scoped leads; a new one is attached to the lead with the lowest id |
| `OutreachOutcomes.AnsweredExactlyWhen` | app/modules/company/outreach_completion.py:191-301 | a request is answered exactly when the company is of the project, recipient and stored address normalise to one address, and the rows allow it |
| `OutreachOutcomes.PairsAreTheOpen` | app/modules/company/outreach_completion.py:315-337 | the pairs collected are exactly the tasks, TODO or IN_PROGRESS, with the outreach title of the company's leads without a contact |
| `OutreachOutcomes.OneOpenOutreach` | app/modules/company/outreach_completion.py:315-368 | a completion leaves exactly one such task, the one it reports, without a due date, and creates it only if there was none |
| `OutreachOutcomes.CreatedRows` | app/modules/company/outreach_completion.py:339-368 | the task and lead it creates, column by column, a lead only if the company had none without a contact |
| `OutreachCompletion.RepeatReuses` | app/modules/company/outreach_completion.py:315-368 | a repeat returns the same lead and task as reused and changes nothing |
| `CompanyEnrichment.CompanyEnrichmentService.EnrichCompany` | app/modules/company_enrichment/service.py:54-141 | the item it reports and the tables it leaves, dry or persisted |
| `CompanyEnrichment.CompanyEnrichmentService.Persist` | app/modules/company_enrichment/service.py:115-131 | every column is assigned exactly if its value is taken, and only on this company |
| `CompanyEnrichment.CompanyEnrichmentService.HandleFailure` | app/modules/company_enrichment/service.py:191-218 | a provider failure leaves every value and records the failure once persisted |
| `CompanyEnrichment.CompanyEnrichmentService.EnrichProjectCompanies` | app/modules/company_enrichment/service.py:143-189 | refuses a limit outside 1 to 100 and otherwise leaves the tables and the checked batch of enriching the companies one after another |
| `CompanyEnrichment.EnrichedValues` | app/modules/company_enrichment/service.py:76-141 | each field gets its candidate exactly if it takes it; every other field and company is left alone |
| `EnrichmentOutcomes.CandidatesAreFound` | app/modules/company_enrichment/service.py:220-232 | the candidate for a field is what the report has for that field: stripped notes, or what the normaliser makes of the value; the errors are the fields the normaliser refuses |
| `EnrichmentOutcomes.ItemSays` | app/modules/company_enrichment/service.py:76-141 | NOT_FOUND exactly if nothing but notes was found, otherwise PARTIAL exactly if there was an error and SUCCEEDED if not, FAILED exactly without a report; the row stored has the status and errors reported |
| `EnrichmentOutcomes.ValuesStored` | app/modules/company_enrichment/service.py:76-141 | after a persisted enrichment a field has what the report has for it if there is something and the field was empty or overwriting is allowed, and its old value otherwise; other companies keep theirs |
| `CompanyEnrichment.ChangedFieldsAreExact` | app/modules/company_enrichment/service.py:76-141 | changed_fields, dry or not, are exactly the fields whose value differs after the persisted run |
| `CompanyEnrichment.NothingIsOverwritten` | app/modules/company_enrichment/service.py:76-141 | without overwrite no present value changes, of any company |
| `CompanyEnrichment.RepeatChangesNothing` | app/modules/company_enrichment/service.py:76-141 | a repeat with the same provider result lists no field and changes none |
| `CompanyEnrichment.DryBatchPredictsPersisted` | app/modules/company_enrichment/service.py:143-189 | a dry batch reports, company by company, what the persisted batch reports |
| `CompanyEnrichment.BatchesAreValid` | app/modules/company_enrichment/schemas.py:94-104 | a batch result meets `validate_counts` exactly when no more companies were selected than matched |
| `EnrichmentOutcomes.BatchCounts` | app/modules/company_enrichment/service.py:143-189 | every counter of a batch is the number of its items that were created, updated, left alone, or ended in that status |
| `EnrichmentOutcomes.ItemsFollowCompanies` | app/modules/company_enrichment/service.py:143-189 | the items of a batch are those of its companies, in order, each against the tables the ones before it left |

## Left out

- HostnamesStayUnique: excludes direct creation, which `CompanyHostnames` covers with the exact condition.
- FetchStaysAllowed: says nothing of the first hop's hostname, because the source does not check it.
- TwoQueriesGiveTheTopK: compares identity keys by code point, as a binary collation does.
- Locking: every operation is one serialised transaction, which the project and company scope locks of the source justify.
- Timing, cancellation, logging, provider telemetry counts, error texts and failure substages.
- The runtime type checks on ids, counts and flags; ids are natural numbers and checked for being positive.
- Zone identifiers of IPv6 literals, surrogates in texts, and percent-encoding of URLs.
- The website summary of a preview, which no adapter fills in; the byte size of a request is an arbitrary function of it.
- The discovery half of a company plan up to its snapshot, which is the staging run modelled here plus telemetry.
- What SerpAPI's response bodies are parsed into, a search made from within a retry pause, and errors of the HTTP client other than request errors.
- The rationale text of a contact plan, and exceptions raised inside its discovery service other than as one outcome.
- The seen-candidate sets of the acquisition loop, which are recorded and never read.
- Exceptions of acquisition dependencies other than the ones their protocols declare.
- The filters of the enrichment selection and of the search profiles, and the query generator.
- Contact promotion's name and address normalisers, which are arbitrary functions; its review step mirrors the company one.
- The source, status and external id of a new contact, which are constants and the id of its candidate.
- The token's 64-digit format check, an input validator only.
- HTML detection, charsets, sockets, TLS and DNS of the fetcher, whose answers are arbitrary values.
- Company deletion and the plain CRUD services, which clear promotion links by design.
- Drafting and sending of e-mail, the CRM export's contents, the command line and the migrations.
