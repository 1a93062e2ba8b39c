# Recommendation backend: a verified model

This project models the parts of the recommendation backend that compute something by
state, order and arithmetic, and proves what they promise. Scores and weights are ideal
reals, ids are integers, time is an integer clock, and external stores are functions.

| files | what they model |
|---|---|
| Options, Arithmetic, Orders, Heaps, Sums | the optional value; products and Cauchy-Schwarz; strict orders, top-k and sorting; bounded heaps; sums |
| ShardFiles, Interactions, UserItems, PairReduction, TopKOutput, ItemSimilarity, SimilarityTheorems | the item-similarity builder, from the rating file to the neighbour lists |
| EqualWeights, ReadingModes | rating files of equal weights, used as witnesses; when the two reading modes agree |
| NeighborLists | what the outputs of both builders list |
| StratifiedSample, ItemPairs, CoverageAnchors, UserSimilarity, UserTheorems | the user-similarity builder, with its sampling and coverage anchors |
| MiddlePair, DoubledRun, DoubledPairs | when one item gives a pair two rows: a pair no hash puts first or last, the file built on it, the exact condition |
| Candidates, CandidateMerge, Orchestrator, DispatchTheorems | candidate merging, in the retrieval orchestrator and in the ranker |
| Ranker, RankerTheorems | the heuristic ranker |
| Lookups, Aggregation, ItemCf, ItemStores, UserCf | the two collaborative-filtering retrievers with their gather/scatter lookups |
| OfflineMirror | the offline Python mirror of both retrievers |
| LruCache, ReadThrough | the LRU cache with a time-to-live and the read-through stores |
| ResourcePool, PoolMonitor, PoolRefinement | the resource pool: leases as objects, the monitor as interleaved steps, and the first as steps of the second |
| HttpExecute, HttpTheorems, HttpTimeouts | the HTTP client's retry and deadline loop |
| Base64 | the Base64 encoder against the decoder of RFC 4648, section 4 |

Code that changes things step by step is modelled by classes and methods with loops; each
is proved against a specification function or predicate, and lemmas prove what the source
promises about that specification.

## Findings

- The user-similarity builder gives a pair of users two rows for one item when both are
  coverage extras and both are in the coverage sample, and such a pair can score above one.
  `DoubledPairs.AtMostOneRowIff` and `DoubledPairs.ScoreBoundIff` say exactly which
  configurations exclude this: anchors off (`coverage_anchor_items_per_user` at most 0), a cap
  of at most one, or a coverage sample at most one larger than the cap. For every other
  configuration `DoubledPairs.DoubledPair` and `DoubledPairs.ScoreAboveOne` give a rating file.
- The streaming mode of the item builder sees the same user groups as the in-memory mode
  exactly on streams in which each user's kept ratings are adjacent
  (`Interactions.RunsAgreeIffGrouped`); on those both modes give the same output
  (`SimilarityTheorems.ShardingInvisible`). On all files they do exactly if the configuration
  can keep no pair at all (`ReadingModes.ModesAgreeIff`); for every other configuration
  `ReadingModes.ModesDiffer` gives a file on which the streaming mode loses everything.
- `CurlHttpClient::Execute` can report an exceeded deadline without a deadline, exactly if a
  configured timeout is not positive (`HttpTheorems.NoFalseReportIff`); a single run does so
  exactly under the condition of `HttpTheorems.ReportWithoutDeadline`.

## Model

| member | source | states |
|---|---|---|
| `ItemSimilarity.ComputeSimilarities` | tools/offline_data_processing/src/builders/item_similarity_builder.py:577-589 | the streamed map/reduce pipeline writes exactly the naive all-pairs output: for every item the neighbours that pass the thresholds on unsharded counts and sums, its top-k list in (score, co-occurrence, smaller id) order, one row per item with a neighbour; for every shard count, buffer size and reading mode |
| `NeighborLists.OutputMeaning` | tools/offline_data_processing/src/builders/item_similarity_builder.py:899-921 | of any output of the reduction: one row for each item with a pair that passes the thresholds, listing such neighbours with their own figures, by rounded score, then co-occurrence, then smaller id; one is missing only from a full list, each entry of which comes before it |
| `NeighborLists.ItemListMeaning` | tools/offline_data_processing/src/builders/item_similarity_builder.py:426-474 | a listed neighbour carries the number of users who hold both items and the rounded cosine of their weight products over the square sums of all ratings, and meets both thresholds |
| `Interactions.PositiveRatingsMeaning` | tools/offline_data_processing/src/builders/item_similarity_builder.py:601-614 | a rating counts if and only if it reaches the threshold, and then with weight one, or with what it exceeds the offset by if that is positive |
| `Interactions.IterPositiveRatings` | tools/offline_data_processing/src/builders/item_similarity_builder.py:694-757 | one pass yields the positive ratings in file order |
| `SimilarityTheorems.ShardingInvisible` | tools/offline_data_processing/src/builders/item_similarity_builder.py:295-405 | shard count and buffer size never show in the output, and the streaming and in-memory modes agree when each user's kept ratings are adjacent |
| `Interactions.RunsAgreeIffGrouped` | tools/offline_data_processing/src/builders/item_similarity_builder.py:312-341 | the streaming mode sees the same user groups as the in-memory mode if and only if every user's ratings are adjacent in the stream |
| `ReadingModes.ModesAgreeIff` | tools/offline_data_processing/src/builders/item_similarity_builder.py:295-405 | the two reading modes admit the same outputs on every rating file if and only if no pair can ever be kept: users are cut to one item, or the threshold exceeds one |
| `ReadingModes.ModesDiffer` | tools/offline_data_processing/src/builders/item_similarity_builder.py:312-392 | for every other configuration there is a rating file on which the streaming mode writes nothing and the in-memory mode writes something |
| `SimilarityTheorems.PairMeaning` | tools/offline_data_processing/src/builders/item_similarity_builder.py:858-880 | the co-occurrence behind a score is the number of users whose capped list holds both items, and the summed weight is the sum of those users' weight products, whichever item is named first |
| `SimilarityTheorems.CosineBound` | tools/offline_data_processing/src/builders/item_similarity_builder.py:439-463 | for every kept pair the squared weight sum is at most the product of the two norms, so in ideal reals the score lies in (0, 1], although the norms count every rating and the pairs only the deduplicated, capped ones |
| `SimilarityTheorems.PairBound` | tools/offline_data_processing/src/builders/item_similarity_builder.py:274-287 | a pair some user holds has a positive weight sum whose square stays below the product of the two unsharded square sums |
| `SimilarityTheorems.CauchySchwarz` | tools/offline_data_processing/src/builders/item_similarity_builder.py:757-780 | Cauchy-Schwarz over the users' capped lists |
| `SimilarityTheorems.OwnSquaresBelowNorm` | tools/offline_data_processing/src/builders/item_similarity_builder.py:757-780 | deduplication and the cap can only lower an item's sum of squares |
| `Interactions.RunsConserveSquares` | tools/offline_data_processing/src/builders/item_similarity_builder.py:312-341 | however the streaming mode cuts the stream into users, no squared weight is lost or counted twice |
| `Interactions.GroupsConserveSquares` | tools/offline_data_processing/src/builders/item_similarity_builder.py:355-380 | the same conservation for the in-memory grouping |
| `ItemSimilarity.BuildItemStats` | tools/offline_data_processing/src/builders/item_similarity_builder.py:261-293 | the valid items are exactly those with enough ratings and a positive norm, and each norm is the sum of squares over every positive rating of the item |
| `ItemSimilarity.MapSortedStream` | tools/offline_data_processing/src/builders/item_similarity_builder.py:312-353 | one user in memory at a time, yet the rows written are those of all runs of equal users, including the last open one |
| `ItemSimilarity.MapInMemory` | tools/offline_data_processing/src/builders/item_similarity_builder.py:355-392 | the rows written are those of the users grouped in order of first appearance, and fewer of them than the flush limit are left in memory |
| `ItemSimilarity.MapUserPairsToPairShards` | tools/offline_data_processing/src/builders/item_similarity_builder.py:295-405 | after the final flush each pair file holds exactly its shard's share of the written rows, in order |
| `ItemSimilarity.WriteUserPairsToShards` | tools/offline_data_processing/src/builders/item_similarity_builder.py:858-880 | one user writes one row for every two items of their list, smaller id first, carrying the product of the two weights |
| `UserItems.NormalizeUserInteractions` | tools/offline_data_processing/src/builders/item_similarity_builder.py:757-780 | the list is sorted by id and holds the user's strongest `cap` distinct items, each with its best (weight, timestamp) |
| `UserItems.ListingMeaning` | tools/offline_data_processing/src/builders/item_similarity_builder.py:757-780 | in ratings: the list holds items in id order with the weight of the user's best rating of each; an item is left out only by a positive cap that is filled with items rated heavier, or equally heavy and later, or at the same time with a smaller id |
| `UserItems.DedupedMeaning` | tools/offline_data_processing/src/builders/item_similarity_builder.py:761-768 | deduplication keeps, for every item seen, the greatest (weight, timestamp) that actually occurs, and nothing else |
| `UserItems.CombinationsCount` | tools/offline_data_processing/src/builders/item_similarity_builder.py:867-879 | a user adds one row to a pair exactly when both ids survive in their list |
| `UserItems.CombinationsSum` | tools/offline_data_processing/src/builders/item_similarity_builder.py:867-879 | the added weight is the product of the two surviving weights |
| `ShardFiles.ShardWriter.Append` | tools/offline_data_processing/src/builders/item_similarity_builder.py:870-876 | a row joins the buffer of its own shard only, and buffer plus file stay the shard's share of everything written |
| `ShardFiles.ShardWriter.Flush` | tools/offline_data_processing/src/builders/item_similarity_builder.py:822-838 | flushing empties every buffer, loses no row and keeps the order |
| `ShardFiles.ShardWriter.Count` | tools/offline_data_processing/src/builders/item_similarity_builder.py:334-341 | the flush at the limit changes nothing that was written, and when the rows counted are those buffered since the last count, fewer rows than the limit stay in memory |
| `PairReduction.PairOwnedByShard` | tools/offline_data_processing/src/builders/item_similarity_builder.py:810-814 | a pair lives in one shard, so that shard alone knows its whole count and sum |
| `PairReduction.AccumulatePairs` | tools/offline_data_processing/src/builders/item_similarity_builder.py:426-437 | one file's dictionaries hold the count and the sum of every pair in it |
| `PairReduction.EmitPair` | tools/offline_data_processing/src/builders/item_similarity_builder.py:439-474 | a pair that passes the thresholds yields two directed rows with one score, any other pair none |
| `PairReduction.ReducePairShards` | tools/offline_data_processing/src/builders/item_similarity_builder.py:407-504 | the neighbour files hold, without repetition, exactly the rows of all pairs that pass the thresholds |
| `PairReduction.KeptSymmetric` | tools/offline_data_processing/src/builders/item_similarity_builder.py:456-470 | nothing about an unordered pair depends on which side is named first |
| `TopKOutput.FillHeaps` | tools/offline_data_processing/src/builders/item_similarity_builder.py:888-905 | after any prefix of a neighbour file each heap holds the k best rows of its item so far |
| `TopKOutput.TopKRowsForNeighborShard` | tools/offline_data_processing/src/builders/item_similarity_builder.py:882-929 | a shard's rows are its items' sorted top-k lists, by ascending item |
| `TopKOutput.ReduceNeighborShards` | tools/offline_data_processing/src/builders/item_similarity_builder.py:506-575 | all shards together give every item its list once |
| `TopKOutput.ItemOwnedByShard` | tools/offline_data_processing/src/builders/item_similarity_builder.py:816-820 | every neighbour row of an item is in the item's own shard |
| `Heaps.KeepBest` | tools/offline_data_processing/src/builders/item_similarity_builder.py:899-905 | push while there is room, otherwise replace the worst if the new entry is better: this keeps the k best of a stream |
| `Heaps.TopSetStep` | tools/offline_data_processing/src/builders/item_similarity_builder.py:899-905 | why that step keeps a set of the k best |
| `Orders.TopKUnique` | tools/offline_data_processing/src/builders/item_similarity_builder.py:907-921 | sort-and-take under a strict total order has one possible result, so bounded heap and full sort agree |
| `Orders.TopKPrefix` | tools/offline_data_processing/src/builders/item_similarity_builder.py:907-921 | cutting a top-k list gives the shorter top-k list |
| `UserSimilarity.ComputeUserSimilarities` | tools/offline_data_processing/src/builders/user_similarity_builder.py:678-699 | the four-stage user pipeline (statistics, coverage anchors, item shards, pair and neighbour shards) writes exactly the unsharded output, for every shard count and buffer size |
| `NeighborLists.UserListMeaning` | tools/offline_data_processing/src/builders/user_similarity_builder.py:537-607 | a listed neighbour carries the number of pair rows and the rounded cosine of their summed weights over the two square sums, meets both thresholds, and the list is in the same order |
| `UserTheorems.UserShardingInvisible` | tools/offline_data_processing/src/builders/user_similarity_builder.py:420-510 | shard count and buffer size never show in the user builder's output |
| `UserSimilarity.GroupsOfShard` | tools/offline_data_processing/src/builders/user_similarity_builder.py:446-467 | grouping one item shard gives that shard's items of the global grouping, in the same order and with the same ratings |
| `UserSimilarity.ShardsSoFar` | tools/offline_data_processing/src/builders/user_similarity_builder.py:446-478 | the first s item shards contribute to every pair what their items contribute to the unsharded rows |
| `UserSimilarity.SameCountsSameOutput` | tools/offline_data_processing/src/builders/user_similarity_builder.py:537-607 | the output depends on the pair rows only through their counts and sums, so their order does not matter |
| `UserSimilarity.BuildUserStats` | tools/offline_data_processing/src/builders/user_similarity_builder.py:282-316 | valid users, user norms and item popularity, all three in one pass |
| `UserSimilarity.MapRatingsToItemShards` | tools/offline_data_processing/src/builders/user_similarity_builder.py:318-351 | after the final flush each item file holds exactly its shard's share of the valid users' ratings |
| `UserSimilarity.ReduceItemShardsToPairShards` | tools/offline_data_processing/src/builders/user_similarity_builder.py:420-510 | the pair files hold each shard's share of the rows of all items |
| `UserSimilarity.WriteItemPairsToShards` | tools/offline_data_processing/src/builders/user_similarity_builder.py:1074-1114 | all pairs inside the sample, then every extra against the coverage sample; nothing for fewer than two sampled users |
| `UserSimilarity.AppendPairContribution` | tools/offline_data_processing/src/builders/user_similarity_builder.py:1116-1136 | one row with the smaller id first and the product of the weights, none for a user against themselves |
| `ItemPairs.SelectItemPairParticipants` | tools/offline_data_processing/src/builders/user_similarity_builder.py:846-914 | sample, extras and coverage sample, each listed by user id; empty below the minimum of users |
| `ItemPairs.PairMultiplicity` | tools/offline_data_processing/src/builders/user_similarity_builder.py:1089-1114 | the exact number of rows one item gives a pair of users: one if both are sampled, and one for each way round in which one is an extra and the other is in the coverage sample |
| `DoubledPairs.AtMostOneRowIff` | tools/offline_data_processing/src/builders/user_similarity_builder.py:894-905 | on every rating file every item gives every pair at most one row, if and only if anchors are off, the cap is at most one, or the coverage sample exceeds the cap by at most one |
| `DoubledPairs.DoubledPair` | tools/offline_data_processing/src/builders/user_similarity_builder.py:1089-1114 | for every other configuration, whatever the stable hash does and however often a user or item must occur to count, there is a rating file with an item that gives a pair more than one row |
| `DoubledPairs.ScoreBoundIff` | tools/offline_data_processing/src/builders/user_similarity_builder.py:552-562 | on every rating file every score the builder computes lies in (0, 1] in ideal reals, if and only if that same condition holds |
| `DoubledPairs.ScoreAboveOne` | tools/offline_data_processing/src/builders/user_similarity_builder.py:552-562 | for every other configuration there is a rating file on which a pair that meets the co-occurrence minimum scores above one, and is kept unless the threshold exceeds one |
| `MiddlePair.SampledByRound` | tools/offline_data_processing/src/builders/user_similarity_builder.py:916-952 | of equally weighted users exactly those with fewer than `sample_size` ahead of them in the bucket order are sampled |
| `MiddlePair.MiddleExists` | tools/offline_data_processing/src/builders/user_similarity_builder.py:954-966 | for every stable hash there is a pool of users with a pair that is at neither end of the orders of any of the first k items |
| `ItemPairs.OneRowAtMost` | tools/offline_data_processing/src/builders/user_similarity_builder.py:894-905 | without anchors, or under the condition on cap and coverage sample, an item gives a pair at most one row |
| `UserTheorems.SumIsCountTimesProduct` | tools/offline_data_processing/src/builders/user_similarity_builder.py:1133-1135 | every row of a pair carries the product of the two users' best weights, so the sum is count times product |
| `UserTheorems.UserCosineBound` | tools/offline_data_processing/src/builders/user_similarity_builder.py:552-562 | with anchors off or under that condition every kept user score lies in (0, 1] in ideal reals, and its squared sum below the product of the two norms |
| `UserTheorems.AnchoredUsersPaired` | tools/offline_data_processing/src/builders/user_similarity_builder.py:359-365 | what the anchors are for: with a cap of at least two no valid user is erased, since each of their anchor items with enough users pairs them with somebody |
| `CoverageAnchors.BuildCoverageAnchorUsersByItem` | tools/offline_data_processing/src/builders/user_similarity_builder.py:353-418 | a user anchors an item exactly when anchors are enabled, the user is valid and the item is among the best of their ratings in the rank order |
| `CoverageAnchors.EveryUserAnchored` | tools/offline_data_processing/src/builders/user_similarity_builder.py:389-403 | a user with any positive rating anchors at least one item, at most the configured number, and only items they rated |
| `CoverageAnchors.AnchorsAreBest` | tools/offline_data_processing/src/builders/user_similarity_builder.py:389-403 | every anchor stems from a rating that goes before each of the user's ratings of other items: of a less popular item, then heavier, then later, then with the smaller hash, then of the smaller item |
| `StratifiedSample.StratifiedSampleItemInteractions` | tools/offline_data_processing/src/builders/user_similarity_builder.py:916-952 | the round-robin over weight buckets terminates and yields the first sample_size users by (round, heavier bucket); everyone when the size is not positive or large enough |
| `StratifiedSample.SampleSize` | tools/offline_data_processing/src/builders/user_similarity_builder.py:924-952 | exactly min(sample_size, n) distinct members for a positive size |
| `StratifiedSample.SampleBalanced` | tools/offline_data_processing/src/builders/user_similarity_builder.py:937-950 | any two weight buckets' picks differ by at most one unless the smaller bucket is exhausted |
| `StratifiedSample.HeavierNotFewer` | tools/offline_data_processing/src/builders/user_similarity_builder.py:937-950 | a heavier bucket never gives up fewer users than a lighter one unless it is exhausted |
| `StratifiedSample.PickedInBucket` | tools/offline_data_processing/src/builders/user_similarity_builder.py:926-936 | inside a bucket the users picked are those with the smaller hash, then the later timestamp, then the smaller id |
| `StratifiedSample.LargerSampleKeeps` | tools/offline_data_processing/src/builders/user_similarity_builder.py:916-952 | a larger sample never drops a user, and the sample does not depend on the order the users are listed in |
| `Orchestrator.DispatchToRetrievers` | src/recommendation_engine/retrieval/orchestrator/retrieval_orchestrator.cpp:282-380 | the response is the first max_candidate_count items of the uncapped merge of the round-robin flattening of the accepted responses; an error exactly when none is accepted |
| `DispatchTheorems.DispatchMeaning` | src/recommendation_engine/retrieval/orchestrator/retrieval_orchestrator.cpp:255-380 | an error if and only if every call failed or reports one of the three error statuses; otherwise every returned item was offered by a usable response, has a score that is the sum of all its offers, and ids are distinct and at most as many as the cap |
| `DispatchTheorems.UsableRepresented` | src/recommendation_engine/retrieval/orchestrator/retrieval_orchestrator.cpp:333-374 | the candidate at position p of a usable response is represented whenever p times the number of usable responses, plus those before it, is below the cap |
| `DispatchTheorems.RoundRobinPermutes` | src/recommendation_engine/retrieval/orchestrator/retrieval_orchestrator.cpp:333-374 | the round-robin loses no candidate and repeats none |
| `Orchestrator.MergeResponses` | src/recommendation_engine/retrieval/orchestrator/retrieval_orchestrator.cpp:330-374 | the `while (true)` loop terminates and refines cutting the uncapped merge |
| `Orchestrator.OfferRound` | src/recommendation_engine/retrieval/orchestrator/retrieval_orchestrator.cpp:336-369 | one round offers position p of every response that has one, in response order |
| `Orchestrator.ResponseBuilder.Offer` | src/recommendation_engine/retrieval/orchestrator/retrieval_orchestrator.cpp:346-368 | zero ids are skipped, known ids keep merging even when the response is full, new ids are added only below the cap |
| `Orchestrator.Represented` | src/recommendation_engine/retrieval/orchestrator/retrieval_orchestrator.cpp:333-374 | a non-zero-id candidate at position p of response r is always represented when p times the number of responses plus r is below the cap |
| `Orchestrator.ResponseConserves` | src/recommendation_engine/retrieval/orchestrator/retrieval_orchestrator.cpp:346-368 | every returned item conserves per-retriever scores, total score, reasons, type and author over all its occurrences, also those after the cap filled; its legacy fields are the fold over its signals; and the ranker's merge returns the response unchanged |
| `CandidateMerge.NormalizeAndMergeCandidates` | src/recommendation_engine/ranking/heuristic_ranker.cpp:216-241 | the indexed merge equals folding every candidate into the list one by one |
| `CandidateMerge.MergeAllConserves` | src/recommendation_engine/ranking/heuristic_ranker.cpp:178-241 | a merged item carries exactly what its occurrences brought |
| `CandidateMerge.MergeAllIds` | src/recommendation_engine/ranking/heuristic_ranker.cpp:216-241 | the merged list represents exactly the non-zero ids that occur |
| `CandidateMerge.MergeAllShape` | src/recommendation_engine/ranking/heuristic_ranker.cpp:216-241 | merged ids are distinct and non-zero and the legacy fields agree with the signals |
| `CandidateMerge.MergeAllIdentity` | src/recommendation_engine/ranking/heuristic_ranker.cpp:216-241 | merging is the identity on a list that is already merged |
| `CandidateMerge.CappedStep` | src/recommendation_engine/retrieval/orchestrator/retrieval_orchestrator.cpp:353-368 | capping while merging is merging everything and cutting afterwards, one candidate at a time |
| `Candidates.MergeSignalsConserves` | src/recommendation_engine/retrieval/orchestrator/retrieval_orchestrator.cpp:109-148 | merging signal lists loses and invents no score of any retriever and no reason |
| `Candidates.MergeRetrievalSignal` | src/recommendation_engine/retrieval/orchestrator/retrieval_orchestrator.cpp:109-126 | the first signal of the same retriever absorbs the new one, otherwise it is appended |
| `Candidates.RebuildLegacyCandidateFields` | src/recommendation_engine/retrieval/orchestrator/retrieval_orchestrator.cpp:83-102 | score, reasons and the joined retriever name are folds over the signals |
| `Candidates.MergeCandidate` | src/recommendation_engine/retrieval/orchestrator/retrieval_orchestrator.cpp:128-148 | missing type and author are filled in, signals merged, legacy fields rebuilt |
| `Candidates.EnsureRetrievalSignals` | src/recommendation_engine/retrieval/orchestrator/retrieval_orchestrator.cpp:70-81 | afterwards there is a signal: a candidate that has signals is unchanged, one without keeps its score, reasons and retriever, which are then the fold over its single signal |
| `Ranker.Run` | src/recommendation_engine/ranking/heuristic_ranker.cpp:317-381 | the output is the top max_results of the merged items by (score descending, id ascending), numbered from one, each rank score the sum of its factors' contributions; empty input and a store of the wrong size are errors |
| `RankerTheorems.RankingMeaning` | src/recommendation_engine/ranking/heuristic_ranker.cpp:317-381 | of any ranking: every item is a merged one scored by its own appeal, numbered from one and winning over all later ones by score, then smaller id; one is missing only from a list as long as was asked for, all of which wins over it |
| `RankerTheorems.ScoreIsAppeal` | src/recommendation_engine/ranking/heuristic_ranker.cpp:383-455 | a rank score is the merged score plus the liked overlap plus rating_avg / 50 times log1p(rating_count), minus the item's own negative weight and the disliked overlap; without an index entry only the first and the item's negative weight remain |
| `RankerTheorems.DislikeLowers` | src/recommendation_engine/ranking/heuristic_ranker.cpp:402-440 | a negative item weight lowers that item's score by as much, and no other's |
| `RankerTheorems.TasteMoves` | src/recommendation_engine/ranking/heuristic_ranker.cpp:243-274 | an interest in a genre or tag raises the items that show it, a dislike lowers them by as much, and other items keep their score |
| `RankerTheorems.PermutationInvariant` | src/recommendation_engine/ranking/heuristic_ranker.cpp:317-381 | over a store that answers each id on its own, two requests with the same candidates in any order get the same answer: no candidates for both, or the same ranked (item id, score, position) sequence |
| `RankerTheorems.MergedItem` | src/recommendation_engine/ranking/heuristic_ranker.cpp:216-241 | a merged item's score is the sum over its occurrences, whatever their order |
| `Ranker.ScoreCandidate` | src/recommendation_engine/ranking/heuristic_ranker.cpp:383-455 | the factors are those of the item's index entry and the rank score is the sum of their contributions |
| `Ranker.ScoreCandidates` | src/recommendation_engine/ranking/heuristic_ranker.cpp:383-455 | every merged item is scored with its own index entry, in order |
| `Ranker.AddFactor` | src/recommendation_engine/ranking/heuristic_ranker.cpp:445-455 | adding a factor keeps the rank score equal to the sum of contributions |
| `Ranker.ComputeOverlap` | src/recommendation_engine/ranking/heuristic_ranker.cpp:243-274 | interest and negative feedback are sums of looked-up weights over genres and tags |
| `Ranker.BuildNameWeights` | src/recommendation_engine/ranking/heuristic_ranker.cpp:39-78 | repeated names accumulate, empty names are ignored, absent names weigh zero |
| `Ranker.BuildItemWeights` | src/recommendation_engine/ranking/heuristic_ranker.cpp:80-108 | the same for item ids, zero ignored |
| `ItemCf.Retrieve` | src/recommendation_engine/retrieval/retrievers/item_cf/retriever_item_cf.cpp:217-264 | the status for no seeds or a failed lookup, or else the first N of the unique order over the aggregated pool of the selected seeds, which answers their edges: scaled sums, first largest contributions as reasons, by total and smaller id |
| `ItemCf.AggregateSimilarityCandidates` | src/recommendation_engine/retrieval/retrievers/item_cf/retriever_item_cf.cpp:291-377 | the batch loop gathers every seed's row and accumulates all seed-neighbour contributions in seed order |
| `ItemCf.BatchSizeInvisible` | src/recommendation_engine/retrieval/retrievers/item_cf/retriever_item_cf.cpp:299-376 | for a store that answers each id on its own or fails on it, every batch size gathers the same rows or fails alike |
| `ItemCf.AggregateSimilarityBatch` | src/recommendation_engine/retrieval/retrievers/item_cf/retriever_item_cf.cpp:379-397 | one batch extends the pool by exactly its own seeds' edges |
| `ItemCf.FilteredNeverReached` | src/recommendation_engine/retrieval/retrievers/item_cf/retriever_item_cf.cpp:379-397 | no filtered item enters the pool |
| `ItemCf.SelectTopTriggerSeeds` | src/recommendation_engine/retrieval/retrievers/item_cf/retriever_item_cf.cpp:106-130 | the strongest seeds in (score, smaller id) order, or all of them |
| `ItemCf.SelectTopMeaning` | src/recommendation_engine/retrieval/retrievers/item_cf/retriever_item_cf.cpp:106-130 | as many seeds as asked for, the stronger first, then the smaller id, and a seed left out is weaker than every one kept |
| `ItemCf.ChannelsMeaning` | src/recommendation_engine/retrieval/retrievers/item_cf/retriever_item_cf.cpp:51-75 | the collected seeds are exactly the positive ids of the three channels, each scored at its first mention: channel base times its weight, or one, divided by its place counted from one |
| `ItemCf.CollectTriggerSeeds` | src/recommendation_engine/retrieval/retrievers/item_cf/retriever_item_cf.cpp:433-453 | the first positive appearance of an item wins: recent likes by rank, then likes, then interests |
| `ItemCf.CollectItemIdsToFilterOut` | src/recommendation_engine/retrieval/retrievers/base/retriever_base.cpp:18-56 | the filter holds exactly the ids of the listed behaviours |
| `Aggregation.PoolMeaning` | src/recommendation_engine/retrieval/retrievers/item_cf/retriever_item_cf.cpp:77-104 | an unfiltered item's score is the sum of its positive seed-neighbour contributions, and its reason is the first edge in seed order that reaches the maximum |
| `Aggregation.AddCandidateContribution` | src/recommendation_engine/retrieval/retrievers/item_cf/retriever_item_cf.cpp:77-104 | one contribution updates one item, and the reason only when strictly better |
| `Aggregation.SortCandidates` | src/recommendation_engine/retrieval/retrievers/item_cf/retriever_item_cf.cpp:132-149 | the order is total on the pool, so hash-map iteration order cannot show |
| `Aggregation.FillResponseCandidates` | src/recommendation_engine/retrieval/retrievers/item_cf/retriever_item_cf.cpp:399-431 | the response is the first N of that order |
| `Aggregation.ResponseAnswers` | src/recommendation_engine/retrieval/retrievers/item_cf/retriever_item_cf.cpp:399-431 | over the edges: each returned item carries multiplier times the sum of its contributions as its score and as that of its one signal, and one reason, the first edge with the largest contribution; totals order the list, and an item reached is missing only from a full one, all of which outranks it |
| `Aggregation.ScoresFall` | src/recommendation_engine/retrieval/retrievers/item_cf/retriever_item_cf.cpp:132-149 | with a positive multiplier scores never increase along a response and ties go to the smaller id |
| `Aggregation.ResponseNormalized` | src/recommendation_engine/retrieval/retrievers/item_cf/retriever_item_cf.cpp:399-431 | a retriever's item already agrees with the fold over its one signal |
| `ItemStores.FindNeighborsByItemIds` | src/recommendation_engine/retrieval/retrievers/item_cf/redis_item_similarity_store.cpp:80-135 | the batched gather and scatter returns what one lookup per item would, in order and with the same failure, when Redis is reachable; unreachable, it fails only if there was something to ask |
| `ItemStores.RedisBatchesInvisible` | src/recommendation_engine/retrieval/retrievers/item_cf/redis_item_similarity_store.cpp:80-135 | over a reachable Redis every batch size of the retriever gathers what one lookup per item would, and fails exactly when one of those lookups fails |
| `ItemStores.Scatter` | src/recommendation_engine/retrieval/retrievers/item_cf/item_similarity_store.h:24-33 | every answer lands at the position its id was asked for, as in the default per-item form |
| `UserCf.LoadTriggerUserProfiles` | src/recommendation_engine/retrieval/retrievers/user_cf/retriever_user_cf.cpp:336-411 | on success slot i holds a profile if and only if the store has seed i's user with an id in 1..INT_MAX, and it is that user's; it fails exactly when the call or the store fails and something was requested |
| `UserCf.BatchGetUserCfProfiles` | src/recommendation_engine/profile/profile_service.cpp:257-320 | one result per id in request order; the batch fails exactly when the store throws for a servable id |
| `UserCf.AggregateCandidates` | src/recommendation_engine/retrieval/retrievers/user_cf/retriever_user_cf.cpp:413-440 | every seed is paired with its own slot's items, and missing profiles are counted |
| `UserCf.CollectTriggerSeeds` | src/recommendation_engine/retrieval/retrievers/user_cf/retriever_user_cf.cpp:476-497 | the first positive appearance of every other user |
| `UserCf.Retrieve` | src/recommendation_engine/retrieval/retrievers/user_cf/retriever_user_cf.cpp:222-282 | the same over each neighbour's items weighted by that same neighbour's similarity |
| `UserCf.StoreRowMeaning` | src/recommendation_engine/profile/profile_service.cpp:155-162 | a neighbour's row is made of that user's own recently liked, liked and interested items, in these channels, and is empty for a user who cannot be served |
| `OfflineMirror.ItemMirror` | tools/offline_data_processing/extract_local_recommendation_fixture.py:330-348 | for clean rows and equal limits the offline item-based list has the same ids in the same order and the same scores as the online pool before the multiplier, for every batch size |
| `OfflineMirror.UserMirror` | tools/offline_data_processing/extract_local_recommendation_fixture.py:377-413 | the same for the user-based list over the same servable profiles |
| `OfflineMirror.SeedsAgree` | tools/offline_data_processing/extract_local_recommendation_fixture.py:199-223 | the offline seeds are the online ones up to order, and all positive |
| `OfflineMirror.ScoresPermuted` | tools/offline_data_processing/extract_local_recommendation_fixture.py:330-348 | the summed scores do not depend on the order of the seeds |
| `OfflineMirror.CleanRowsUnchanged` | tools/offline_data_processing/extract_local_recommendation_fixture.py:108-124 | row normalisation always gives a clean row, and changes nothing if and only if the row was clean |
| `OfflineMirror.AggregateItemCf` | tools/offline_data_processing/extract_local_recommendation_fixture.py:330-348 | the summed positive contributions of unfiltered neighbours, sorted and cut, with the number of edges the filter takes away |
| `OfflineMirror.AggregateUserCf` | tools/offline_data_processing/extract_local_recommendation_fixture.py:377-413 | the same over neighbour profiles; hits are the seeds with a profile, misses the others |
| `OfflineMirror.OfflineListMeaning` | tools/offline_data_processing/extract_local_recommendation_fixture.py:348-348 | an offline list holds ids with their dictionary scores, the higher first, then the smaller id, and an id is missing only from a full list, all of which comes before it |
| `LruCache.Cache.Get` | src/utilities/lru_cache/lru_cache.h:23-40 | list and index behave as the recency list: a live entry moves to the front, an expired one disappears; the bijection, distinct keys and capacity are kept |
| `LruCache.Cache.Put` | src/utilities/lru_cache/lru_cache.h:42-69 | a stored key stands at the front with a fresh expiry and the least recent entry leaves; nothing is stored for a zero capacity or a non-positive time-to-live |
| `LruCache.Cache.EvictLast` | src/utilities/lru_cache/lru_cache.h:65-68 | eviction takes the last entry out of list and index alike |
| `LruCache.Cache.Insert` | src/utilities/lru_cache/lru_cache.h:58-63 | a new front entry and its index entry keep the bijection |
| `ReadThrough.CachingStore.Find` | src/recommendation_engine/profile/caching_profile_store.cpp:32-57 | a lookup is Get, then the inner store on a miss, then Put of what was found |
| `ReadThrough.KeysAfterRun` | src/recommendation_engine/profile/caching_profile_store.cpp:32-57 | after any sequential run the cached keys in list order are the first `capacity` distinct found keys read backwards through the trace, whatever the clock and the expiries did |
| `ReadThrough.SmallerCacheIsPrefix` | src/recommendation_engine/profile/caching_profile_store.cpp:32-57 | a smaller cache holds a prefix of a larger one, even with another time-to-live and other clocks |
| `ReadThrough.LookupAgrees` | src/recommendation_engine/ranking/caching_item_index_store.cpp:34-60 | over a fixed store every lookup answers what the store answers |
| `ReadThrough.CallAlone` | src/recommendation_engine/profile/caching_profile_store.cpp:32-57 | from any state an idle thread can run a call with nobody in between, and the steps then leave the cache as the sequential lookup does and move no other call |
| `ReadThrough.InvAlways` | src/utilities/lru_cache/lru_cache.h:23-69 | at every point of every interleaving of cache steps and inner lookups keys are distinct, the capacity is respected, every call has taken exactly the steps its phase says, and every entry was stored by one traced call, the last to put its key, the time-to-live before it expires |
| `ReadThrough.InvStep` | src/recommendation_engine/ranking/caching_item_index_store.cpp:34-60 | each single step keeps that invariant, history included |
| `ReadThrough.HitIsFresh` | src/recommendation_engine/profile/caching_profile_store.cpp:32-57 | at every point of every interleaving, for a hit of value v there is one call of the history that missed the key, then was answered v by the inner store, then put v less than the time-to-live ago, and no step has put that key since |
| `ReadThrough.LivePutIsHit` | src/utilities/lru_cache/lru_cache.h:23-69 | the other way round: what a call put is hit for the time-to-live, unless the key is put again or as many other keys as the capacity are put or hit in the meantime |
| `ResourcePool.Pool.TakeAfterWait` | src/utilities/resource_pool/resource_pool.h:165-176 | empty exactly when the pool is empty at that instant; otherwise the most recently returned resource leaves with a fresh lease |
| `ResourcePool.Pool.Return` | src/utilities/resource_pool/resource_pool.h:190-200 | afterwards the free resources are those that were and the returned one; those that were keep their places, and none is listed twice |
| `ResourcePool.Lease.ReleaseTo` | src/utilities/resource_pool/resource_pool.h:123-130 | a live lease's resource is always appended: the duplicate guard is never needed |
| `ResourcePool.Lease.Release` | src/utilities/resource_pool/resource_pool.h:83-130 | destruction gives back what the lease holds, an empty lease gives back nothing |
| `ResourcePool.Lease.MoveFrom` | src/utilities/resource_pool/resource_pool.h:88-93 | move construction empties the source and keeps the ownership partition |
| `ResourcePool.Lease.Assign` | src/utilities/resource_pool/resource_pool.h:95-106 | move assignment gives the old resource back first, empties the source, does nothing on self-assignment, and keeps the partition of both pools |
| `PoolRefinement.TakeStep` | src/utilities/resource_pool/resource_pool.h:165-176 | on the objects, a call's first look at the pool is the monitor's acquire step, or on an empty pool its block step |
| `PoolRefinement.WokenStep` | src/utilities/resource_pool/resource_pool.h:165-176 | a woken call's look is the monitor's acquire after a wait; on an empty pool it is its give-up step if the time is over, and its wait-again step otherwise |
| `PoolRefinement.ReleaseStep` | src/utilities/resource_pool/resource_pool.h:123-200 | releasing a lease object is the monitor's push step |
| `PoolRefinement.MoveStep` | src/utilities/resource_pool/resource_pool.h:88-93 | move construction is the monitor's hand-over of a lease |
| `PoolRefinement.ViewPartition` | src/utilities/resource_pool/resource_pool.h:83-200 | the validity of pool and lease objects is the monitor's ownership partition |
| `PoolMonitor.InvAlways` | src/utilities/resource_pool/resource_pool.h:83-200 | in every reachable state of every interleaving free and held resources are disjoint, duplicate-free and together the whole pool, and no wake-up is lost |
| `PoolMonitor.StepWakeup` | src/utilities/resource_pool/resource_pool.h:163-200 | every step keeps: while a waiter is blocked, free resources number at most the pending notifications plus the woken waiters |
| `PoolMonitor.StepPartition` | src/utilities/resource_pool/resource_pool.h:123-200 | every step keeps the ownership partition |
| `PoolMonitor.QuietMeansEmpty` | src/utilities/resource_pool/resource_pool.h:163-177 | once all notifications are delivered and all woken threads have looked, a blocked thread has nothing to take; and whenever a call gives up, every resource of the pool is held by a live lease at that instant |
| `PoolMonitor.GuardNeverFires` | src/utilities/resource_pool/resource_pool.h:194-197 | in no run does a release meet its own resource among the free ones |
| `HttpExecute.Execute` | src/utilities/http_client/curl_http_client.cpp:493-568 | the loop follows the history-determined retry policy to its end against any adversary and returns what the policy says |
| `HttpExecute.ValidateCurlHttpClientConfig` | src/utilities/http_client/curl_http_client.cpp:300-313 | a configuration is accepted exactly if every retry allows at least one attempt and has no negative delay; otherwise the first faulty retry is named |
| `HttpTimeouts.WithinTimeout` | src/utilities/http_client/curl_http_client.cpp:501-505 | with a timeout of t milliseconds, and no blocking call outlasting its bound by more than a slack, Execute has ended t milliseconds after its start plus that slack |
| `HttpTimeouts.ReportedLate` | src/utilities/http_client/curl_http_client.cpp:255-298 | with both configured timeouts positive an exceeded deadline is reported only for a request with a timeout, and not before its last millisecond |
| `HttpTimeouts.CallBounds` | src/utilities/http_client/curl_http_client.cpp:282-298 | every blocking call is bounded by its configured timeout or retry delay alone if the request has no timeout, and otherwise by the smaller of that and the whole milliseconds left |
| `HttpExecute.BorrowHandle` | src/utilities/http_client/curl_http_client.cpp:512-537 | the acquire loop borrows a handle or stops exactly when the policy does |
| `HttpTheorems.RunIsUnique` | src/utilities/http_client/curl_http_client.cpp:493-568 | policy and world leave one complete run only, so the returned history is the run |
| `HttpTheorems.AttemptBounds` | src/utilities/http_client/curl_http_client.cpp:507-567 | at most connect_max + request_max - 1 transfers, and at most acquire_max acquire calls for each |
| `HttpTheorems.HandleSafety` | src/utilities/http_client/curl_http_client.cpp:512-547 | no handle is held while sleeping or waiting for one, each transfer runs on the one handle borrowed for it, and every exit path has returned everything |
| `HttpTheorems.ReturnsByDeadline` | src/utilities/http_client/curl_http_client.cpp:255-298 | if no blocking call outlasts its bound by more than some slack, Execute ends by the deadline (or at once if it has passed) plus one slack: overruns do not add up |
| `HttpTheorems.BoundsMeetDeadline` | src/utilities/http_client/curl_http_client.cpp:282-298 | every blocking call gets at least a millisecond and is told to end by the deadline |
| `HttpTheorems.OnlyFailuresRetried` | src/utilities/http_client/curl_http_client.cpp:549-566 | only a retryable failure with attempts of its own kind left is followed by anything more, and its handle is returned first |
| `HttpTheorems.ResultMeaning` | src/utilities/http_client/curl_http_client.cpp:529-566 | a finished run returns the last transfer's answer if and only if that is final or its kind of retry is used up, a pool timeout if and only if every attempt of the round to borrow failed, and otherwise a deadline result, and then less than a millisecond was left or a configured timeout is not positive |
| `HttpTheorems.NonPositiveTimeouts` | src/utilities/http_client/curl_http_client.cpp:516-543 | a non-positive acquire timeout makes every request report an exceeded deadline before anything is borrowed; with a non-positive request timeout nothing is ever transferred, and lending a handle makes the result an exceeded deadline |
| `HttpTheorems.ReportWithoutDeadline` | src/utilities/http_client/curl_http_client.cpp:516-543 | without a deadline a finished run reports an exceeded one if and only if the acquire timeout is not positive, or the request timeout is not and the pool lent a handle |
| `HttpTheorems.NoFalseReportIff` | src/utilities/http_client/curl_http_client.cpp:516-543 | no run without a deadline reports one as exceeded, whatever the world answers, if and only if both timeouts are positive |
| `HttpExecute.Verdicts` | src/utilities/http_client/curl_http_client.cpp:229-246 | exactly which transport codes and statuses are retried as a connect failure, which as a request failure, and which answer each outcome gives |
| `HttpExecute.RemainingTimeout` | src/utilities/http_client/curl_http_client.cpp:255-271 | whole milliseconds, rounded down, never negative |
| `Base64.Base64Encode` | src/utilities/runtime_utilities/runtime_utilities.cpp:67-87 | the stepping loop writes the RFC 4648 quanta of the input |
| `Base64.DecodeIff` | src/utilities/runtime_utilities/runtime_utilities.cpp:67-87 | the strict decoder of RFC 4648 section 4 gives back a byte string if and only if its input is that string's encoding |
| `Base64.EncodedLength` | src/utilities/runtime_utilities/runtime_utilities.cpp:68-69 | the length is 4 times n/3 rounded up, the amount reserved |
| `Base64.PaddingAtEnd` | src/utilities/runtime_utilities/runtime_utilities.cpp:80-83 | padding stands at the end only, as many characters as bytes are missing; everything else is a digit |
| `Base64.EncodeInjective` | src/utilities/runtime_utilities/runtime_utilities.cpp:67-87 | different inputs have different encodings |
| `Base64.ValueOfDigit` | src/utilities/runtime_utilities/runtime_utilities.cpp:28-29 | every digit of the alphabet reads back as its own value, so no character is repeated and none is the padding |
| `Base64.DigitOfValue` | src/utilities/runtime_utilities/runtime_utilities.cpp:28-29 | a character with a value is the digit of that value |

## Left out

- Floating-point rounding and text formats: scores are ideal reals; `round(_, 8)`, `sqrt` and `log1p` are
  function parameters (where a score is bounded, `sqrt` is required to be a square root), and `%.12g`,
  `:.12g` and `:.8g` in shard files are taken to lose nothing.
- Shard files are sequences of rows: no CSV text, no temporary directories; a missing file is an empty one.
- `heapq`, `sort` and hash-map iteration enter by their contracts: the worst entry at index 0, a sorted
  permutation, some order of the keys.
- `_stable_sample_rank` is a function parameter; only its determinism is used.
- Coverage heaps may hold the very same rating twice, so a modelled entry also carries its place
  in the stream; the source compares the rank alone, which ties only between such repeats.
- Turned-round ratings (item first) stand for the item-shard rows, so that one set of
  definitions serves both builders.
- Ranker.Run: option flags that only choose what is copied into the response, item features and the
  trace fields are not modelled; the index store is a function of the id vector.
- ItemCf.Retrieve: request validation, the default for a non-positive candidate count, and the wording of
  reason descriptions (a function parameter) are not modelled.
- Orchestrator.DispatchToRetrievers: the calls to the retrievers are given as their outcomes, and error texts are reduced to a count.
- ItemStores.FindNeighborsByItemIds: Redis is a function from ids to member lists, and the answer of a pipelined call
  has one list per key.
- ResourcePool.Pool.TakeAfterWait: the waiting before it is modelled in PoolMonitor, where steps are atomic and a
  notification wakes one waiter; time is not modelled there, a time-out may strike at any moment.
- Liveness of the pool beyond `PoolMonitor.QuietMeansEmpty` needs a fair scheduler, which is not modelled.
- The concurrent cache is modelled on its recency list, which LruCache proves the linked list
  and index equal to; each Get and Put is one atomic step, as under its mutex.
- HttpExecute.Execute: the clock advances only inside acquire, transfer and sleep; headers, bodies and libcurl options are part of
  the adversary's answer; the acquire loop is a method of its own.
- Constructors that throw on bad arguments (pool, HTTP client, stores) are preconditions here.
- Shifts and masks on bytes in the Base64 encoder are written as division and remainder.
- gRPC services, protobuf and JSON, Elasticsearch, the gateway, configuration, logging, command lines, the profile
  and index builders and the weather service are not part of this model.
