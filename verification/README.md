# Neural Weasel: the candidate search, the context protocol and the runtime, verified

Neural Weasel is a pinyin input method whose candidates are scored by a local language model.
This project models the parts of it that must agree with something simple although they are
fast, lazy or fault tolerant, and proves that they do; `dafny verify dfyconfig.toml` checks the
whole project.

* **Candidate search.** `PinyinInput` (parsing and the two position maps), `PinyinMatcher` (the
  pruned, memoised trie walk against the plain relation of all derivations), `LexicalWalk` (the
  best-first walk with lazy siblings, deferred roots and re-queued rounds against the set of all
  whole-input paths), `ScorePositions` and `SearchBatches` (lazy and batched orders against one
  stable sort), `RootSelection` and `LatinRoots` (fast selections and a sorted index against
  plain minima and filters).
* **Paging.** `WaitingList` (identities, the lexical supplement, the display orders),
  `SearchFrontier` (paths, remainders, seeds, deferred plans and the buckets they can still
  reach), `CandidatePages` (one search session: expansion, freezing, page requests) and
  `SearchRuns` (how a session is opened from the index, and runs that show where a property ends).
* **Editor context.** `ContextFrame` (frame bytes and the receiver), `ContextBridge` (the native
  bridge as a state machine together with any behaviour of pipe and service) and
  `ContextService` (epoch assignment, receipts, bindings, secure reset).
* **Runtime.** `LlamaRuntime` (one live key-value sequence behind a cache) and `ContinuationSlot`
  (the single-flight slot and its wakeups).

Code that changes state is a class whose methods are proved against specification functions;
concurrency is a state machine over single steps. Clocks, deadlines and preemption are
nondeterministic; which calls fail, and what that leaves behind, is an input; the model is an arbitrary function from token sequences to logits; scores are
exact reals, and a score that is not finite is absent.

## What turned out not to hold

* **The keys shown twice.** When Latin comes first and no root begins with the keys, a session
  starts with the keys themselves as a literal, which is not entered among the seen identities
  (neural_candidate_pages_v3.py:882-889, v2:378-386), while its Latin paths are still searched.
  Keys `hello`, root `he`, token `llo`: the search finds `hello` again (`SearchRuns.HelloTwice`).
  The constructor of `SearchSession` says exactly which starts keep identities unique, by a
  condition that can be tried out on the start (`SearchRuns.CompletableExactly`): no literal
  waits, or nothing is left to search, or no waiting path can be continued by tokens of the
  vocabulary, up to 16 in all, whose fragments spell the rest of the keys. `Serve` proves it
  enough for every run, and `SearchRuns.LiteralRepeats` proves it necessary: from any other start
  with one-token roots, as the source's are, some run repeats the keys with the same vocabulary.
* **Lost root seeds.** While a first token waits for its score, root seeds behind the first 32 are
  not taken up. If none of the paths ranked before them has a legal continuation, they are popped
  like a Latin path whose token path is empty. Without Latin tokens they are dropped. With Latin
  tokens the scorer is asked to go on from the empty path; the repository's runtime refuses that
  (llama_runtime.py:564-565), so the step raises and the seeds go back, each time it is tried.
  `SearchSession.SeedsLostExactly` says for every step and scorer when they are lost,
  `SeedsLostWhenRefused` for a scorer that refuses, and `SearchRuns.SeedsAreLost` is a run, from
  an index of 34 entries on, that ends without a productive root.
* **Longer readings first.** The pager promises a strict short-before-long order
  (neural_candidates.py:195-206). It holds between what is frozen and what the search can still
  find (`ShortBeforeLong`, and `Serve` for whole runs), but among candidates that wait together
  the ranking tier goes before the bucket (neural_candidates.py:120-131), and roots that are not
  spelled out have a higher tier than continuations. `SearchRuns.LongerBeforeShorter` is a run
  whose page one shows a longer reading first; within one class the order holds across all pages
  (`Serve`), so that this happens only between candidates of different exactness or tier.
* **Two epochs for one revision.** Starting the worker thread may raise after the epoch is taken
  (engine.py:69-79), and the sender is told of a failure; sent again, the update gets a second
  epoch (`ContextService.ResendGetsASecondEpoch`). `EpochExactly` says for every lifetime when an
  update gets an epoch, and `OneEpochPerRevision` what remains true.
* **Stranded contexts.** A forward that raises ends the worker thread and leaves a context queued
  meanwhile without a worker (`ContextService.ForwardDies`). `StrandedExactly` says when that is
  so, over all runs.
* **A reset that raises.** If wiping the model's cache raises, a secure focus has cleared queue,
  bindings and receipt but not the snapshots (`ContextService.SecureFocusForgets`).
* **A cache over an unknown sequence.** When a forward is refused and then clearing the live
  sequence fails too, the handler leaves the cached tokens and logits of the context before
  (llama_runtime.py:359-363). `LlamaRuntime.LlamaCppBackend.CreateSnapshot` and `Serve` prove
  that nothing else loses the cache: not a failing decode, copy, save or restore, nor any exit of
  a continuation. Until a replay or an invalidation, or a continuation that drops the cache or
  has its tokens live again, an append is then evaluated behind whatever is live, and cached as
  if it were right (`LostSequence`, and `LostSequenceIsWrong` for a model where the logits are
  wrong); a replay is right all the same, and so is every continuation.

## Model

| member | source | states |
|---|---|---|
| PinyinInput.Parse | src/neural_weasel/pinyin.py:39-56 | accepts exactly the inputs made of non-empty groups of letters between single apostrophes, and returns the letters in order and the letter offset of every apostrophe |
| PinyinInput.RawCharactersForLetters | src/neural_weasel/pinyin.py:25-36 | the loop reaches the position of the specification: behind the given number of letters and behind the apostrophes that follow them |
| PinyinInput.WholeRawPosition | src/neural_weasel/pinyin.py:25-36 | as many letters as there are, or more, map to the end of the raw keys |
| PinyinInput.RawPositionInverts | src/neural_weasel/pinyin.py:25-36 | counting the letters in front of a mapped position gives the letter count back, which is how the walk and the seeds invert the map |
| PinyinInput.RawPositionInjective | src/neural_weasel/pinyin.py:25-36 | different letter counts have different raw positions, so consumed keys identify the matched letters |
| PinyinInput.RawPositionExactly | src/neural_weasel/pinyin.py:25-36 | the mapped position is the one that has so many letters before it and does not stand on an apostrophe, and the end of the keys exactly for all letters |
| SearchBatches.StableSortIsStable | src/neural_weasel/search_batches.py:10-30 | the reference sort lists every input position once, by key and equal keys by position |
| SearchBatches.StableOrderUnique | src/neural_weasel/search_batches.py:10-30 | there is only one such order, so any two ways of reaching one agree |
| SearchBatches.SortBatch | src/neural_weasel/search_batches.py:10-30 | one batch comes out ascending by key and position, with the same elements |
| SearchBatches.FirstHead | src/neural_weasel/search_batches.py:10-30 | the run head that precedes everything still pending, or nothing is pending |
| SearchBatches.MergeRuns | src/neural_weasel/search_batches.py:10-30 | merging sorted runs that share no position gives all their elements in ascending order |
| SearchBatches.CooperativeSorted | src/neural_weasel/search_batches.py:10-30 | batched runs and the k-way merge return exactly what the native stable sort returns |
| SearchBatches.StableSortOrders | src/neural_weasel/search_batches.py:10-30 | the sorted list is in key order, has the same members, and repeats none that the input did not repeat |
| ScorePositions.StableBoundedScorePositions | src/neural_weasel/neural_candidate_pages_v3.py:48-80 | for every initial limit the growing prefixes terminate and yield every finite position exactly once, higher scores first, then lower positions |
| ScorePositions.ScoreOrderUnique | src/neural_weasel/neural_candidate_pages_v3.py:48-80 | that order is unique: the lazy enumeration is the full stable sort |
| ScorePositions.OrderMeans | src/neural_weasel/neural_candidate_pages_v3.py:48-80 | what that order is, by the scores: exactly the finite positions, each either of a higher score than the next or of the same score and an earlier position |
| ScorePositions.FinitePositions | src/neural_weasel/neural_candidate_pages_v3.py:48-80 | exactly the positions with a finite score, ascending |
| ScorePositions.LeastOfTop | src/neural_weasel/neural_candidate_pages_v3.py:66-70 | whatever partition is made, so long as no position outside it scores higher, the least score in it is that of the target-th best position of the whole order |
| ScorePositions.Cutoff | src/neural_weasel/neural_candidate_pages_v3.py:66-70 | the cutoff computed from such a partition is that score, although the partition itself is in no order |
| ScorePositions.CutIsPrefix | src/neural_weasel/neural_candidate_pages_v3.py:48-80 | the positions at or above the cutoff are a prefix of the whole order, at least as long as the target: ties at the cutoff are not torn apart |
| PinyinMatcher.InsertWellFormed | src/neural_weasel/pinyin_partial.py:119-157 | inserting an entry keeps the trie well formed for exactly one entry more: every node holds exactly the entries of its syllable path |
| PinyinMatcher.PartialPinyinMatcher.BuildTrie | src/neural_weasel/pinyin_partial.py:119-157 | the built trie holds exactly the entries of the index, repeated ones once |
| PinyinMatcher.PartialPinyinMatcher.GroupByInitial | src/neural_weasel/pinyin_partial.py:119-157 | each non-empty syllable stands in the row of its first letter and in no other |
| PinyinMatcher.PartialPinyinMatcher.IsCompleteSyllableSequence | src/neural_weasel/pinyin_partial.py:159-170 | the reachability table answers true exactly when some sequence of table syllables spells the whole non-empty input |
| PinyinMatcher.ReachableIsSegmentable | src/neural_weasel/pinyin_partial.py:159-170 | every segmentable length is marked, once each marked position has marked the ends of its syllables |
| PinyinMatcher.AlignsCheaper | src/neural_weasel/pinyin_partial.py:336-368 | a state entered with less shorthand reaches the same ends, each cheaper by as much |
| PinyinMatcher.DominatedVisit | src/neural_weasel/pinyin_partial.py:336-368 | a state already completed at no higher shorthand leaves nothing for this visit: the pruning is sound |
| PinyinMatcher.NeuralSearch.RecordEntry | src/neural_weasel/pinyin_partial.py:306-327 | the entry is kept at its position at no higher (predicted, shorthand, incomplete) than offered, and nothing recorded gets worse |
| PinyinMatcher.NeuralSearch.Descendants | src/neural_weasel/pinyin_partial.py:329-334 | every pronunciation below a fully consumed node is recorded, counted by the syllables it predicts |
| PinyinMatcher.NeuralSearch.WalkFull | src/neural_weasel/pinyin_partial.py:355-359 | every child whose whole syllable is typed, without crossing an apostrophe, is completed |
| PinyinMatcher.NeuralSearch.WalkShort | src/neural_weasel/pinyin_partial.py:362-368 | every child typed by its initial or as an unfinished spelling is completed |
| PinyinMatcher.NeuralSearch.Visit | src/neural_weasel/pinyin_partial.py:336-368 | the pruned, memoised walk from a state covers every derivation through it, records nothing underivable, and leaves states outside the subtree alone |
| PinyinMatcher.NodeComplete | src/neural_weasel/pinyin_partial.py:336-368 | terminals, predictions and the three kinds of child steps together are all derivations through a node |
| PinyinMatcher.SelectedIsEnumeration | src/neural_weasel/pinyin_partial.py:370-377 | the records at the furthest position of each entry are exactly one best match per derivable entry |
| PinyinMatcher.ByRankIsOrder | src/neural_weasel/pinyin_partial.py:379-386 | the result key is a total preorder: whole-input matches first, then fewest predicted syllables, furthest, text, token |
| PinyinMatcher.MatchLeIsInOrder | src/neural_weasel/pinyin_partial.py:379-386 | what it means for one match to come before another: whole-input matches first, ascending by predicted syllables, then the one that reaches further, then the order of texts |
| PinyinMatcher.TextLeExactly | src/neural_weasel/pinyin_partial.py:379-386 | the order of texts is decided at the first difference, a beginning before what it begins |
| PinyinMatcher.PartialPinyinMatcher.NeuralMatches | src/neural_weasel/pinyin_partial.py:233-411 | the enumeration returns each derivable entry exactly once, at its furthest position with the least (predicted, shorthand, incomplete) of all derivations; whole-input matches come first, ascending by predicted syllables, and so on by position, text and token; either sort gives the stable order of what was selected, ties included |
| PinyinMatcher.BestIsUnique | src/neural_weasel/pinyin_partial.py:254-411 | an entry has at most one best match, so the contract of the enumeration fixes its members |
| PinyinMatcher.ExactIsOrdinary | src/neural_weasel/pinyin_partial.py:254-411 | an exact match is also the best match of the ordinary enumeration |
| PinyinMatcher.ShortMatchesAgree | src/neural_weasel/neural_candidate_pages_v3.py:1545-1606 | a whole-input match without predicted syllables is best with descendants exactly when it is best without them, so the two suffix scans miss and repeat nothing |
| LexicalWalk.LegalPathShape | src/neural_weasel/neural_candidate_pages_v3.py:1311-1878 | a legal path has at most 16 tokens and 64 characters, stays inside the input and spends a letter with every edge |
| LexicalWalk.LegalChainExactly | src/neural_weasel/neural_candidate_pages_v3.py:1545-1681 | a legal path is a sequence of matches, each the best match of its entry at the letter the one before reached, with so many tokens and characters in all; its text, syllables, tokens, score and predictions are theirs, joined and added |
| LexicalWalk.SameKeySameChildren | src/neural_weasel/neural_candidate_pages_v3.py:1740-1746 | two legal paths with one visited key have children with the same keys, so cutting the second one is safe |
| LexicalWalk.DrainedMeansVisited | src/neural_weasel/neural_candidate_pages_v3.py:1696-1878 | when heap and deferred roots are empty, every legal path has been visited |
| LexicalWalk.LegalInUniverse | src/neural_weasel/neural_candidate_pages_v3.py:1311-1878 | legal paths have finitely many keys: the measure of termination |
| LexicalWalk.ScanIsComplete | src/neural_weasel/neural_candidate_pages_v3.py:1545-1606 | each of the two suffix scans lists exactly the edges of its own kind |
| LexicalWalk.ShortThenTail | src/neural_weasel/neural_candidate_pages_v3.py:1636-1681 | the short suffixes followed by the tail behind them promise every child of a path |
| LexicalWalk.TailCovers | src/neural_weasel/neural_candidate_pages_v3.py:1674-1681 | switching from the short pass to the tail drops no child |
| LexicalWalk.Cursor.ParentSuffixes | src/neural_weasel/neural_candidate_pages_v3.py:1608-1634 | whether shared or sorted again for one parent, the seeds are all edges of the wanted kind, each entry once |
| LexicalWalk.Cursor.PushChildHead | src/neural_weasel/neural_candidate_pages_v3.py:1636-1681 | the one child pushed stands for all siblings promised behind it |
| LexicalWalk.Cursor.MaterializeDeferred | src/neural_weasel/neural_candidate_pages_v3.py:1697-1719 | every deferred root gets its heap item; nothing is lost and exact readings stay first |
| LexicalWalk.Cursor.Requeue | src/neural_weasel/neural_candidate_pages_v3.py:1720-1739 | a stale item goes back with its siblings, and the number of stale items falls |
| LexicalWalk.Cursor.CutVisited | src/neural_weasel/neural_candidate_pages_v3.py:1740-1745 | a visited state is dropped but its waiting siblings survive |
| LexicalWalk.Cursor.VisitNew | src/neural_weasel/neural_candidate_pages_v3.py:1746-1878 | a new state is emitted if whole and unknown, its siblings and all its children wait, and the unvisited universe shrinks |
| LexicalWalk.Cursor.Run | src/neural_weasel/neural_candidate_pages_v3.py:1311-1878 | one run terminates and emits exactly the texts of all whole-input legal paths, once per identity not already seen; with complete spellings, those spelled out in full come first |
| LexicalWalk.StaysExtended | src/neural_weasel/neural_candidate_pages_v3.py:1418-1425 | an extended reading cannot become an exact spelling by appending tokens |
| LexicalWalk.TiersVisit | src/neural_weasel/neural_candidate_pages_v3.py:1365-1399 | expanding the least-tier item keeps exact readings in front of extended ones |
| LexicalWalk.ExactPathIsLegal | src/neural_weasel/neural_candidate_pages_v3.py:1333-1343 | a path of the exact prelude is a path of the full walk |
| LexicalWalk.ExactRunIsExact | src/neural_weasel/neural_candidate_pages_v3.py:1333-1343 | the exact prelude emits only readings that spell the keys |
| LexicalWalk.PreludeThenRest | src/neural_weasel/neural_candidate_pages_v3.py:1333-1343 | the prelude followed by the full walk that skips its identities is again exactly the whole-input paths |
| LexicalWalk.LexicalCompletions | src/neural_weasel/neural_candidate_pages_v3.py:1248-1878 | the whole lexical completion yields exactly the identities of whole-input paths not already seen, once each, and for complete spellings the exact readings first |
| LexicalWalk.CompletionsFor | src/neural_weasel/neural_candidate_pages_v3.py:1324-1331 | the same for any typed keys; keys that do not parse or hold no letter complete to nothing |
| LexicalWalk.EmittedExactly | src/neural_weasel/neural_candidate_pages_v3.py:1746-1790 | what a run owes, sequence by sequence: each candidate has the text, syllables, tokens, score, predictions and consumed keys of one, and each one over all the keys is known or shown |
| RootSelection.KeyOrderUnique | src/neural_weasel/neural_candidate_pages_v3.py:386-503 | two key-ordered sequences of the same records are the same sequence |
| RootSelection.StaticTieRanks | src/neural_weasel/neural_candidate_pages_v3.py:402-418 | the precomputed tie ranks compare records as the score-free tail of the key does, plan order last |
| RootSelection.ColumnsAreKey | src/neural_weasel/neural_candidate_pages_v3.py:445-458 | on the records of a plan the numeric columns with the tie rank order exactly as the whole key |
| RootSelection.Ranked | src/neural_weasel/neural_candidate_pages_v3.py:445-458 | the lexsort result is the key order of all records |
| RootSelection.SelectTopRoots | src/neural_weasel/neural_candidate_pages_v3.py:386-503 | one sort and first occurrences give exactly the first roots of the reference ranking: the least eligible record of each identity, in key order |
| RootSelection.FirstLeads | src/neural_weasel/neural_candidate_pages_v3.py:459-476 | the first eligible record of an identity in key order is its least record |
| RootSelection.MaterializeRoots | src/neural_weasel/neural_candidates.py:587-658 | the least record per identity, then sorted, is the same ranking, cut at 180 |
| RootSelection.RankingIsIncreasing | src/neural_weasel/neural_candidates.py:587-658 | the reference ranking lists exactly the least eligible record of every identity, in key order |
| RootSelection.PageZeroIsAPrefix | src/neural_weasel/neural_candidate_pages_v3.py:386-503 | the page-zero selection is a prefix of the full selection, for every plan and score vector |
| RootSelection.SelectionMeans | src/neural_weasel/neural_candidates.py:587-658 | what the ranking selects, without the ranking: eligible records in key order, one an identity, each ahead of every other record of its identity, and of what was left out none that competes with a selected one comes before it |
| LatinRoots.PrefixInterval | src/neural_weasel/neural_candidate_pages_v2.py:119-137 | strings with a prefix are exactly an interval of the string order |
| LatinRoots.BisectLeft | src/neural_weasel/neural_candidate_pages_v2.py:119-137 | the first index whose key is not below the probe |
| LatinRoots.BisectRight | src/neural_weasel/neural_candidate_pages_v2.py:119-137 | the first index whose key is above the probe |
| LatinRoots.LatinVocabulary.constructor | src/neural_weasel/neural_candidate_pages_v2.py:65-101 | the sorted keys are the folded texts of the valid completions, each with its tokenizer position |
| LatinRoots.LatinVocabulary.CompatibleLatinRoots | src/neural_weasel/neural_candidate_pages_v2.py:119-137 | interval and ancestor probes return exactly the roots prefix-comparable with the keys, without repeats, in tokenizer order: the linear filter |
| LatinRoots.BestDisplays | src/neural_weasel/neural_candidate_pages_v2.py:191-278 | one display per folded text, the least in Latin order |
| LatinRoots.BestIsLeast | src/neural_weasel/neural_candidate_pages_v2.py:191-278 | the display kept for a key comes no later than any display of that key: by score, then folded text, then token path |
| LatinRoots.BoundedFor | src/neural_weasel/neural_candidate_pages_v2.py:191-286 | per key the bounded dictionary equals the unbounded one, or its best is a winner that was left out |
| LatinRoots.BoundKeepsBeginning | src/neural_weasel/neural_candidate_pages_v2.py:191-286 | keeping only the best winners and the cached displays that may matter leaves the first displays in Latin order as they were |
| LatinRoots.BoundKeepsIdentities | src/neural_weasel/neural_candidate_pages_v2.py:278-286 | shown displays and omitted winners together have exactly the identities of the unbounded construction |
| LatinRoots.LatinDisplays | src/neural_weasel/neural_candidate_pages_v2.py:191-286 | both at once, for every list of roots and cached displays and a bound of 180 |
| WaitingList.AppendUnique | src/neural_weasel/neural_candidates.py:104-117 | adding a candidate keeps identities unique exactly when its identity is not shown |
| WaitingList.MoveUnique | src/neural_weasel/neural_candidate_pages.py:875-911 | moving candidates from waiting to a page keeps identities unique |
| WaitingList.SupplementUniqueExactly | src/neural_weasel/neural_candidate_pages.py:768-774 | whatever texts are offered, a lexical batch keeps identities unique if and only if no candidate whose own text is unseen has a normalised identity that is shown already |
| WaitingList.SupplementedExactly | src/neural_weasel/neural_candidate_pages.py:768-774 | what joins is exactly what is offered under text and keys not seen before, at its first occurrence, and all that is offered is known afterwards |
| WaitingList.NormalSupplementUnique | src/neural_weasel/neural_candidate_pages.py:768-774 | texts in normal form, as the index has them, never do: a batch keeps identities unique and the seen set complete |
| WaitingList.NoneDroppedTwice | src/neural_weasel/neural_candidates.py:104-117 | surviving composes: what leaves the waiting list leaves it only for a neural candidate of its identity |
| WaitingList.MergeChineseFirst | src/neural_weasel/neural_candidates.py:729-755 | the merge keeps both orders, never displaces the first Han candidate, and behind it puts Latin before the next Han exactly when it scores higher |
| WaitingList.HanLeMeans | src/neural_weasel/neural_candidates.py:120-131 | the order of Han candidates, component by component: spelled out before not, lower tier, whole input before part, shorter bucket, rank |
| WaitingList.LongerGoesFirstExactly | src/neural_weasel/neural_candidates.py:120-131 | where a longer reading stands before a shorter one: exactly if it alone is spelled out, or both or neither is and it is of a lower tier |
| WaitingList.ChineseOrder | src/neural_weasel/neural_candidate_pages_v3.py:234-261 | Han and Latin are each in their own stable order and merged; other scripts follow as they were |
| SearchFrontier.MinimumFuture | src/neural_weasel/neural_candidate_pages_v3.py:978-990 | the least bucket among the unexpanded Han items of the frontier, deferred plans only with a continuation root: no item has a lesser one, some item has it, and there is none exactly when there is no such item |
| SearchFrontier.BelowBucket | src/neural_weasel/neural_candidate_pages_v3.py:978-990 | a bucket below that of an item is below everything the item can lead to: fragments, remainders, seeds and deferred plans included |
| SearchFrontier.BucketIsTight | src/neural_weasel/neural_candidate_pages_v3.py:978-990 | and no more than that: for paths at the end of an entry, their remainders and deferred plans, a number is below everything exactly if it is below the bucket |
| SearchFrontier.Retained | src/neural_weasel/neural_candidate_pages_v3.py:966-976 | pruning keeps, in order, exactly one unexpanded item of each key, and of those of one key the best |
| SearchFrontier.ExtendedSpells | src/neural_weasel/neural_candidate_pages_v3.py:1903-1974 | a path that spells entries following each other from the first key on, taken to the last token of one more, spells that one too, and its text, syllables, tokens, letters and predictions are theirs |
| SearchFrontier.FragmentSpells | src/neural_weasel/neural_candidate_pages_v3.py:1975-1994 | a path taken inside entries spells what it spelled, and its tokens behind that are those that all entries left to it begin with |
| CandidatePages.SearchSession.constructor | src/neural_weasel/neural_candidate_pages_v2.py:345-394 | a new session has no pages and its order invariants hold; its identities are unique for good if and only if no literal waits, or nothing is left to search, or no path on the frontier can be continued to the keys by at most 16 tokens in all, with the fragments of the vocabulary |
| CandidatePages.SearchSession.SortPending | src/neural_weasel/neural_candidate_pages_v3.py:234-261 | sorting keeps the members; Han: complete spellings first, then tier, whole input, bucket and rank, stably, and any two in that order; Latin by rank; merged as above |
| CandidatePages.SearchSession.AddHan | src/neural_weasel/neural_candidate_pages_v3.py:1925-1960 | a new identity is appended, a waiting lexical double is replaced, anything else changes nothing; the whole new state |
| CandidatePages.SearchSession.AddRoot | src/neural_weasel/neural_candidate_pages_v3.py:937-945 | appended exactly when the identity is new; the whole new state |
| CandidatePages.SearchSession.Supplement | src/neural_weasel/neural_candidate_pages.py:764-774 | exactly the batch of the specification joins, and identities stay unique: what the walk offers is in normal form, as the index is |
| CandidatePages.SearchSession.WalkIsOfferable | src/neural_weasel/neural_candidate_pages_v3.py:1748-1790 | whatever the lexical walk over the same index emits is such a candidate, its text made of characters of the index |
| CandidatePages.SearchSession.ExpandEdge | src/neural_weasel/neural_candidate_pages_v3.py:1903-1974 | an edge finishes, stays inside its entry, or is too long; what it finishes is shown or known and goes on if it may; where the keys parse, what it shows is new Han text with the text, syllables, tokens, score and predictions of path and edge together, and consumes the keys before which the matched letters and no others stand, and any apostrophes behind these |
| CandidatePages.SearchSession.ExpandToken | src/neural_weasel/neural_candidate_pages_v3.py:1900-1994 | every edge of the token is accounted for, the unfinished ones together in one fragment, and every new candidate finishes one of them and is spelled out, scored and measured in keys as by ExpandEdge; every new path has this token and its score added, and nothing else changed while no entry is finished |
| CandidatePages.SearchSession.ExpandHanConstrained | src/neural_weasel/neural_candidate_pages_v3.py:1880-2011 | a slice of at most 32 tokens from the cursor is done completely and the rest waits on the frontier; whatever is added there or shown is one of the steps that CanYield closes under; every new candidate is that of one edge of one token of the slice, spelled out, scored and measured in keys as by ExpandEdge; new Han candidates are in no shorter bucket than what is frozen |
| CandidatePages.SearchSession.HanEdgesFor | src/neural_weasel/neural_candidate_pages_v3.py:1057-1118 | exactly the legal edges, each under its next token: the options left, the best matches at the position, or any entry once the input is spent; tokens ascending |
| CandidatePages.SearchSession.GroupEdges | src/neural_weasel/neural_candidate_pages_v3.py:1062-1070 | each edge that is long enough stands under its token at the index, and nowhere else |
| CandidatePages.SearchSession.SeedRecords | src/neural_weasel/neural_candidate_pages_v3.py:681-761 | every root with a score is a seed, on its own under the best of its key or as an option of its first token, and nothing else is; a seed has the score, and on its own the text, syllables and letters of its root; the one-token roots come first, ascending by rank |
| CandidatePages.SearchSession.SeedsAtLeast | src/neural_weasel/neural_candidate_pages_v3.py:681-761 | seeds lie in no shorter bucket than the least of their plan |
| CandidatePages.SearchSession.MaterializeSeeds | src/neural_weasel/neural_candidate_pages_v3.py:750-806 | the next 32 seeds as paths and one item for the rest |
| CandidatePages.SearchSession.Realize | src/neural_weasel/neural_candidate_pages_v3.py:923-957 | the best 35 roots of a deferred plan are shown or known, as themselves with their own scores and tiers, all its roots become seeds, and nothing else appears |
| CandidatePages.SearchSession.PruneFrontier | src/neural_weasel/neural_candidate_pages_v3.py:923-976 | deferred plans are realised, the frontier is in rank order with one item per key, every key it held is still held, the one remainder that may wait is never dropped, and what is new comes from a deferred plan |
| CandidatePages.SearchSession.RemainderKept | src/neural_weasel/neural_candidate_pages_v3.py:966-976 | ordering and dropping repeated keys keeps the remainder, because at most one waits and none is ever marked as expanded |
| CandidatePages.SearchSession.PrepareSearch | src/neural_weasel/neural_candidate_pages_v3.py:992-1055 | before later pages are prepared no plan stays deferred; where one was, the search ends exactly when it had ended or there is no continuation root |
| CandidatePages.SearchSession.ResumeScored | src/neural_weasel/neural_candidate_pages_scored.py:1075-1103 | a remainder, or root seeds that no unscored first token holds back, is worked off: what it led to is held, what is left of it waits, and everything else is carried on; otherwise there is nothing to resume |
| CandidatePages.SearchSession.PopParent | src/neural_weasel/neural_candidate_pages_scored.py:1140-1171 | exactly the items up to the first in rank that has something to hand out are popped and become expanded; that one is the parent, with exactly its legal edges, and with none the frontier is empty |
| CandidatePages.SearchSession.Rollback | src/neural_weasel/neural_candidate_pages_scored.py:795-801 | a parent that could not be scored is back at the front and no longer counts as expanded |
| CandidatePages.SearchSession.ExpandLatin | src/neural_weasel/neural_candidate_pages_v2.py:548-619 | the best finite tokens are tried in order; each legal text is shown or known once it covers the keys and goes on if it may; what is shown has the text and tokens of path and token together, the sum of their scores, and consumes all keys |
| CandidatePages.SearchSession.ExpandScored | src/neural_weasel/neural_candidate_pages_scored.py:1222-1251 | a scored Han parent is worked off in score order over its legal edges from the first position on, a Latin one over its best tokens |
| CandidatePages.SearchSession.ExpandOneFrontier | src/neural_weasel/neural_candidate_pages_scored.py:1105-1251 | one step does exactly one of three things: it works off a resumed item and expands no key; it ends the search; or it pops barren items and one parent of the ordered frontier, marks exactly these as expanded, and works the parent off or puts it back, bringing nothing but what its finite tokens lead to; no remainder is dropped, no waiting candidate lost, and new Han candidates are in no shorter bucket than what is frozen |
| CandidatePages.SearchSession.SeedsLostExactly | src/neural_weasel/neural_candidate_pages_scored.py:1140-1220 | root seeds of the ordered frontier are marked as expanded without being taken up if and only if nothing ranked before them has anything to hand out, and there are no Latin tokens or the scorer answers for the seeds |
| CandidatePages.SearchSession.SeedsLostWhenRefused | src/neural_weasel/llama_runtime.py:564-565 | with a scorer that refuses the empty path of seeds, as the runtime does, they are lost if and only if there are no Latin tokens and nothing ranked before them has anything to hand out; else they go back |
| CandidatePages.SearchSession.Attempt | src/neural_weasel/neural_candidate_pages_scored.py:1172-1251 | without a usable answer the parent is back at the front and nothing else has changed, and an error is passed on; with one the parent is worked off |
| CandidatePages.SearchSession.FreezableIsShort | src/neural_weasel/neural_candidate_pages.py:939-975 | a freezable whole-input Han candidate of the neural search is in no longer bucket than the frontier can still produce |
| CandidatePages.SearchSession.FreezableExactly | src/neural_weasel/neural_candidate_pages.py:939-975 | exactly what may be frozen: it waits, in Chinese mode a Han candidate is a whole input, and a whole-input Han candidate for which something as short may still come is lexical, or in the first bucket before page zero, in Chinese mode |
| CandidatePages.SearchSession.LeadsAtLeast | src/neural_weasel/neural_candidate_pages_v3.py:1880-2011 | whatever an item puts on the frontier, in one step, lies in no shorter bucket than it |
| CandidatePages.SearchSession.YieldsAtLeast | src/neural_weasel/neural_candidate_pages_v3.py:1880-2011 | nor does any Han candidate that an item can show in any number of steps: edges finished or left open, remainders, further seeds, realised roots |
| CandidatePages.SearchSession.ShortBeforeLong | src/neural_weasel/neural_candidates.py:783-804 | no Han candidate that any item of the frontier can still yield, in however many steps, is in a shorter bucket than any whole-input Han candidate of the neural search frozen so far |
| CandidatePages.SearchSession.YieldsLegal | src/neural_weasel/neural_candidate_pages_v3.py:1880-2011 | every Han candidate that an item can show in any number of steps can be read off entries of the index that follow each other from the first key on, each at its best match: its text, syllables, tokens, predictions and consumed keys are theirs |
| CandidatePages.SearchSession.LegalIdentity | src/neural_weasel/neural_candidate_pages_v3.py:600-626 | two such candidates with the same text and as many letters have one identity, be one a root of the plan and the other a finished path: a reading is not shown again under other keys |
| CandidatePages.SearchSession.GrowthTraced | src/neural_weasel/neural_candidate_pages_scored.py:1222-1251 | whatever scoring a parent puts on the frontier is a step from it or from what was there, and whatever it shows is shown by it |
| CandidatePages.SearchSession.TracedTwice | src/neural_weasel/neural_candidate_pages.py:515-911 | descending from a frontier, and being something it can yield, carry over from one step of a run to the next |
| CandidatePages.SearchSession.EnsureFreezable | src/neural_weasel/neural_candidate_pages.py:1266-1305 | searching for more keeps all invariants, identities and bucket orders included, and does nothing when enough may be frozen or the search has ended |
| CandidatePages.SearchSession.FreezePage | src/neural_weasel/neural_candidate_pages.py:875-911 | the chosen candidates move from waiting to one new page; earlier pages keep candidates and identifiers |
| CandidatePages.SearchSession.BucketsFreeze | src/neural_weasel/neural_candidate_pages.py:866-911 | freezing the first of what may be frozen leaves nothing of the same class and a shorter bucket behind |
| CandidatePages.SearchSession.FreezeNow | src/neural_weasel/neural_candidate_pages.py:866-911 | a later page is the first of what may be frozen, full unless the search has ended; otherwise nothing changes |
| CandidatePages.SearchSession.FreezeNext | src/neural_weasel/neural_candidate_pages.py:860-911 | a later page never exceeds the capacity of 35 or 180, is not empty, and fails without a change at the capacity |
| CandidatePages.SearchSession.FreezeFirstPage | src/neural_weasel/neural_candidate_pages_v2.py:692-758 | page zero, in terms of what may be frozen: with Han and Latin the first six Han or fewer, then Latin up to seven; with Han alone the first seven; with Latin alone the first seven; else the literals; in Latin mode the first five; or the keys themselves once the search has ended with nothing to show; only what is shown leaves the waiting list |
| CandidatePages.SearchSession.FreezeFirst | src/neural_weasel/neural_candidate_pages.py:703-855 | page zero is withheld exactly while it is not full and a preparation owns it, or one is started that can fill it, or a search goes on and no Han candidate is ready; else it is frozen at once, with the arrangement of FreezeFirstPage over what may be frozen, the lexical walk resumed exactly when it can help; it never fails |
| CandidatePages.SearchSession.FreezeZero | src/neural_weasel/neural_candidate_pages.py:806-855 | page zero, and in Chinese mode the later pages that are ready along with it, which leave it as it is |
| CandidatePages.SearchSession.ResumeLexical | src/neural_weasel/neural_candidate_pages.py:764-790 | the walk is resumed exactly if it can fill a page or what it offers does; then what may be frozen is what could be before, and what joined and could be |
| CandidatePages.SearchSession.FreezeReady | src/neural_weasel/neural_candidate_pages.py:821-850 | later pages are published along with page zero exactly when a full one is ready, and this stops only when longer readings may give way to exact ones, all places are taken, or no full page is left |
| CandidatePages.SearchSession.QueryPage | src/neural_weasel/neural_candidate_pages.py:555-594 | a frozen page is returned as it is; the next page is reported pending only while more was promised; anything else is refused |
| CandidatePages.SearchSession.Answer | src/neural_weasel/neural_candidate_pages.py:515-911 | one demand keeps pages contiguous, bounded and unchanged, the order, and every candidate |
| CandidatePages.SearchSession.Serve | src/neural_weasel/neural_candidate_pages.py:515-911 | over any sequence of demands, with any scorer: pages 0..n without gaps and unchanged once frozen, at most 35 Chinese-first candidates, short before long, frozen Han candidates of one class ascending by bucket across pages, nothing that ever waited lost, no identity ever shown twice; every neural candidate that is new at the end is one that the frontier at the start could yield, and if it is Han it is read off entries of the index that follow each other, and in no shorter bucket than anything counted and frozen at the start |
| CandidatePages.FirstPageOk | src/neural_weasel/neural_candidates.py:871-906 | page zero takes only freezable candidates and none twice |
| CandidatePages.FirstPageExactly | src/neural_weasel/neural_candidates.py:871-906 | the arrangement of page zero is the one stated for FreezeFirstPage, for any list of candidates |
| CandidatePages.BothScriptsStay | src/neural_weasel/neural_candidates.py:871-906 | in Chinese mode neither script crowds out the other: where there is Han, or Latin, the first of it is on the page |
| SearchRuns.DisplayedSplits | src/neural_weasel/neural_candidate_pages_v3.py:598 | the syllables that a root is displayed with, between apostrophes, are read back from it as they were |
| SearchRuns.RootPlan | src/neural_weasel/neural_candidate_pages_v3.py:557-626 | the plan has a root for each entry that the keys may begin with, at its best match, and no other |
| SearchRuns.Open | src/neural_weasel/neural_candidate_pages_v3.py:327-384 | a session opened in Chinese mode without Latin roots: exactly the best seven roots of the plan wait, in order, the whole plan is deferred, and all invariants hold |
| SearchRuns.CompletableExactly | src/neural_weasel/neural_candidate_pages_v2.py:560-590 | whether tokens of the vocabulary complete a Latin path to the keys, within 16 in all, is decided by trying: the search for them misses none |
| SearchRuns.LiteralRepeats | src/neural_weasel/neural_candidate_pages_v2.py:560-590 | the other half of the constructor: from any session with the literal waiting before its first page and one-token Latin roots, one of which the vocabulary can continue to the keys, page zero and then a search with a scorer that finds these tokens alone likely show the keys twice |
| SearchRuns.KeysStep | src/neural_weasel/neural_candidate_pages_v2.py:560-619 | one step of that run: the keys become known, or the next path on the way to them waits, or another path is used up |
| SearchRuns.HelloTwice | src/neural_weasel/neural_candidate_pages_v3.py:882-889 | a concrete such run: the keys hello, the root he, the token llo |
| SearchRuns.LongerBeforeShorter | src/neural_weasel/neural_candidates.py:120-131 | a concrete run from the index on: page zero shows the exact root, the search goes on from it, and page one shows what it finds, two predicted syllables in tier 0, before a root of one, in tier 1 |
| SearchRuns.SeedsAreLost | src/neural_weasel/neural_candidate_pages_scored.py:1075-1171 | a concrete run from the index on: the plan for fangua is realised, and with any scorer one step ends the search without the root fan, which has a legal continuation |
| ContextService.PutKeepsRecent | src/neural_weasel/pipe_server.py:439-450 | the bounded ordered dictionary of revisions always holds the last revisions of the most recently accepted capabilities, in that order |
| ContextService.RecentFind | src/neural_weasel/pipe_server.py:429-450 | it answers for a capability exactly when fewer than eight others were accepted since |
| ContextService.UpdateKeepsInv | src/neural_weasel/pipe_server.py:481-528 | handling an update keeps the whole service invariant, raising or not |
| ContextService.LifetimeInv | src/neural_weasel/pipe_server.py:367-404 | every lifetime keeps it |
| ContextService.RevisionsIncrease | src/neural_weasel/pipe_server.py:429-450 | while a capability stays among the eight most recently accepted, every epoch is given to a revision above all those accepted before, whether the update is acknowledged or not |
| ContextService.EpochExactly | src/neural_weasel/pipe_server.py:481-528 | a bound update gets an epoch, a first or a further one, if and only if no acknowledged assignment covers it: of its capability, remembered ever since, and of its revision or a later one |
| ContextService.OneEpochPerRevision | src/neural_weasel/pipe_server.py:481-528 | once an assignment is acknowledged and as long as its capability is remembered, no later epoch goes to the same capability and revision, even when a resend races the original |
| ContextService.ResendGetsASecondEpoch | src/neural_weasel/engine.py:63-80 | a concrete run without the acknowledgement: starting the worker thread raises after the epoch is taken, and the same update sent again gets the next one |
| ContextService.StaleExactly | src/neural_weasel/pipe_server.py:429-437 | a bound update is turned away if and only if its capability is among those eight and its revision is not newer |
| ContextService.UnboundStaleExactly | src/neural_weasel/pipe_server.py:481-528 | one without a binding is turned away if and only if its client epoch is no later than that of the last acknowledged one without a binding, and whoever is turned away is told the last epoch |
| ContextService.ReceiptTellsTheTruth | src/neural_weasel/pipe_server.py:530-565 | a receipt answers accepted if and only if it names the latest accepted request since the last reset or secure focus, and with the epoch that request got |
| ContextService.ReadyMeansItsText | src/neural_weasel/engine.py:82-112 | a ready epoch is that of the snapshot, and the snapshot is the text of the update that got the epoch |
| ContextService.AcceptedIsPublished | src/neural_weasel/engine.py:63-112 | progress, over any lifetime, whatever snapshot it holds and whether or not an older forward runs: after an accepted update and the turns of the worker, among any messages that request and reset nothing and with no forward that raises, the snapshot is exactly its text under its epoch, and Health answers that epoch |
| ContextService.AcceptedStage | src/neural_weasel/pipe_server.py:481-528 | an accepted update gets the next epoch, is acknowledged with it, and is queued, alone or behind a running forward of an older one |
| ContextService.IdentityIsBound | src/neural_weasel/pipe_server.py:452-479 | an identity that passes the query check is the one its epoch was assigned for |
| ContextService.IdentityExactly | src/neural_weasel/pipe_server.py:452-479 | and it passes if and only if it is among the last eight given and acknowledged since the last secure focus |
| ContextService.SecureFocusForgets | src/neural_weasel/pipe_server.py:712-745 | after a secure focus no queued context, binding or receipt is left, a running forward can no longer be published and no bound identity is accepted, even if it raises; the snapshots are gone unless it raises |
| ContextService.StaysForgotten | src/neural_weasel/engine.py:147-163 | after one that succeeds, whatever messages and worker turns follow, a snapshot is only ever the text of an update that came later |
| ContextService.StrandedExactly | src/neural_weasel/engine.py:63-105 | over all runs: a queued context is left without a worker if and only if a forward raised over it or its worker could not be started, and no later update started one nor a secure focus dropped the queue |
| ContextService.ForwardDies | src/neural_weasel/engine.py:82-105 | a concrete such run: the first forward raises while a second context is queued |
| ContextService.NeuralPinyinEngine.RequestContextUpdate | src/neural_weasel/engine.py:63-80 | the engine fields after a request, and the epoch returned |
| ContextService.NeuralPinyinEngine.BeginForward | src/neural_weasel/engine.py:82-105 | the locked turn of the worker before a forward |
| ContextService.NeuralPinyinEngine.EndForward | src/neural_weasel/engine.py:82-112 | the locked turn after one, as in the runs of AcceptedIsPublished: published if nothing newer was requested, replacing whatever snapshot there is, and only then |
| ContextService.NeuralPinyinEngine.ResetPrivateContext | src/neural_weasel/engine.py:147-163 | the fields after a private reset, or after one that raises on the way |
| ContextService.NamedPipeServer.HandleContextUpdate | src/neural_weasel/pipe_server.py:481-528 | the server fields and the reply after an update, raising or not |
| ContextService.NamedPipeServer.HandleSecureFocus | src/neural_weasel/pipe_server.py:712-745 | the fields and reply after a focus; receipt and bindings go first |
| ContextService.NamedPipeServer.HandleMessage | src/neural_weasel/pipe_server.py:367-404 | every message handler is the step of the state machine |
| ContextBridge.StepKeeps | native/context/context_update_bridge.cc:385-656 | every step of bridge, pipe, services and engine keeps the joint invariant |
| ContextBridge.RunInv | native/context/context_update_bridge.cc:385-656 | and so does every run |
| ContextBridge.AcceptedMeansAssigned | native/context/context_update_bridge.cc:520-578 | an acknowledgement or receipt that parses proves that the answering lifetime gave that epoch to exactly this update |
| ContextBridge.ReadyMeansText | native/context/context_update_bridge.cc:593-626 | a matching health reply of the same lifetime proves that the snapshot under the epoch is this text |
| ContextBridge.PublicationIsBacked | native/context/context_update_bridge.cc:469-656 | in any run with lost requests and replies, retries, receipts and restarts: a publication was assigned to exactly the update in hand and reported ready by one lifetime, and no later Submit, Invalidate or Stop has happened |
| ContextBridge.UpdateIsPublished | native/context/context_update_bridge.cc:469-656 | progress, after any run, whatever is exposed and whatever the engine holds or still forwards: a text submitted to a waiting worker that the service does not turn away is published under the next epoch, with the identity of its source if it has one, which then passes the query check, if no call is lost and no forward raises |
| ContextBridge.LostReplyRecovers | native/context/context_update_bridge.cc:520-578 | a lost acknowledgement: the receipt names the epoch, the update is not sent again, and the worker polls as it would have |
| ContextBridge.LostRequestRecovers | native/context/context_update_bridge.cc:520-578 | a lost request: the receipt query finds none, and the same update goes out again |
| ContextBridge.ExposedIsBacked | native/context/context_update_bridge.cc:617-641 | at all times the exposed identity is that of an update submitted after the last reset and backed by one lifetime |
| ContextBridge.OnlyWorkerPublishes | native/context/context_update_bridge.cc:617-641 | nothing but the last locked section of an update exposes a new identity |
| ContextBridge.ResetStaysEmpty | native/context/context_update_bridge.cc:385-444 | a cleanup Submit, Invalidate or Stop empties the identity and it stays empty until a strictly later update publishes |
| ContextBridge.OnlyTextIsSent | native/context/context_update_bridge.cc:469-520 | in any run, whatever text the bridge sends was submitted under its sequence number as a capture that succeeded, converts, and is neither secure nor of a password field |
| ContextBridge.SecureIsCleared | native/context/context_update_bridge.cc:469-592 | after any run, such a submission or a failed capture, taken by a waiting worker, ends with no identity exposed and a service without snapshot, queue, bindings or receipt, if no call is lost |
| ContextBridge.SequencesIncrease | native/context/context_update_bridge.cc:446-467 | the worker processes strictly increasing sequence numbers |
| ContextBridge.CleanupGoesFirst | native/context/context_update_bridge.cc:446-467 | when both slots are full the cleanup is older and is taken first, the other slot untouched |
| ContextBridge.TextKeepsCleanup | native/context/context_update_bridge.cc:385-413 | submitting text never discards a queued cleanup |
| ContextBridge.ExposedIdentityIsBound | src/neural_weasel/pipe_server.py:452-479 | a query with the exposed identity passes the service check only for an update of that capability and revision; if the answering lifetime backs the publication itself, it is the published update with the text that was reported ready |
| ContextBridge.ContextUpdateBridge.SubmitUpdate | native/context/context_update_bridge.cc:385-413 | the bridge fields and the exposed identity after a Submit, stopping or not |
| ContextBridge.ContextUpdateBridge.InvalidateAll | native/context/context_update_bridge.cc:415-424 | the same after Invalidate |
| ContextBridge.ContextUpdateBridge.StopWorker | native/context/context_update_bridge.cc:426-444 | the same after Stop |
| ContextBridge.ContextUpdateBridge.TakeUpdate | native/context/context_update_bridge.cc:446-467 | what the worker takes and what stays |
| ContextBridge.ContextUpdateBridge.PublishReady | native/context/context_update_bridge.cc:617-641 | the last locked section: published, or superseded |
| ContextFrame.IsValidUtf16 | native/context/context_ipc_protocol.cc:37-55 | true exactly when surrogates come in pairs, high then low |
| ContextFrame.TrimUnpairedUtf16Edges | native/tsf/surrounding_text_edit_session.cc:23-33 | drops a leading low and a trailing high surrogate |
| ContextFrame.TrimmedWindowIsValid | native/tsf/surrounding_text_edit_session.cc:23-33 | any window of valid UTF-16 is valid after trimming and loses only halves of pairs cut by its edges |
| ContextFrame.TrimmedFrameIsValid | native/context/context_ipc_protocol.cc:57-77 | a context frame around trimmed windows passes validation, subject to the length limits |
| ContextFrame.AppendUnsigned | native/context/context_ipc_protocol.cc:79-94 | appends the number low byte first |
| ContextFrame.ReadUnsigned | native/context/context_ipc_protocol.cc:96-122 | reads back the number that the bytes stand for |
| ContextFrame.ValidateFrame | native/context/context_ipc_protocol.cc:57-77 | the branches of validation are the predicate |
| ContextFrame.EncodeContextFrame | native/context/context_ipc_protocol.cc:144-178 | a valid frame is laid out as header and text, an invalid one refused |
| ContextFrame.DecodeContextFrame | native/context/context_ipc_protocol.cc:180-231 | the reader returns the frame, or malformed or oversized, as specified branch by branch |
| ContextFrame.DecodeEncoded | native/context/context_ipc_protocol.cc:144-231 | decoding an encoded valid frame gives the frame back |
| ContextFrame.EncodeDecoded | native/context/context_ipc_protocol.cc:144-231 | re-encoding any accepted bytes gives the same bytes |
| ContextFrame.AcceptedLayout | native/context/context_ipc_protocol.cc:144-231 | where every field of accepted bytes stands, byte by byte, each number with its low byte first, the texts behind the header unit by unit |
| ContextFrame.ContextFrameReceiver.Accept | native/context/context_ipc_protocol.cc:233-274 | the receiver fields and the answer for any bytes |
| ContextFrame.ReceiveKeeps | native/context/context_ipc_protocol.cc:233-274 | accepting or refusing a frame keeps the record of accepted frames in runs |
| ContextFrame.ReceiveKnows | native/context/context_ipc_protocol.cc:233-274 | the receiver knows the log of accepted frames: its source is that of the last one unless that cleared it, and all others that were accepted are retired |
| ContextFrame.AcceptedExactly | native/context/context_ipc_protocol.cc:233-274 | after any deliveries a decoded frame is accepted if and only if nothing was accepted from its source before, or it continues the live source: same process, later revision; one of the live source from another process is rejected, and any other is stale |
| ContextFrame.AcceptedFramesFormRuns | native/context/context_ipc_protocol.cc:233-274 | for every order of deliveries the accepted frames of one capability form one contiguous run with one process id and strictly increasing revisions, with nothing after its clear or after another source took over |
| LlamaRuntime.Llama.Eval | src/neural_weasel/llama_runtime.py:319-389 | a successful decode truncates at the position, appends the batch and leaves its logits; a failed one leaves anything |
| LlamaRuntime.Llama.CopyLastLogits | src/neural_weasel/llama_runtime.py:221-241 | hands on the model logits of the last decode, of the right size and finite if asked |
| LlamaRuntime.Select | src/neural_weasel/llama_runtime.py:445-468 | one value per allowed token; which value is the statement of SelectExactly |
| LlamaRuntime.SelectExactly | src/neural_weasel/llama_runtime.py:445-468 | the k-th value is the logit of the k-th allowed token, or its log probability: the logit less the normaliser; with infinite logits their equal share for them and minus infinity for all others; minus infinity for a logit that is; it raises exactly for a log probability over an undefined logit |
| LlamaRuntime.DifferencesStay | src/neural_weasel/llama_runtime.py:445-468 | log probabilities of finite logits differ as the logits do |
| LlamaRuntime.SelectPointwise | src/neural_weasel/llama_runtime.py:445-468 | each value depends only on its own token: order and repetition do not matter |
| LlamaRuntime.LlamaCppBackend.CaptureContinuationRoot | src/neural_weasel/llama_runtime.py:243-265 | a captured root holds the live tokens and, where states are copied, their state |
| LlamaRuntime.LlamaCppBackend.Refresh | src/neural_weasel/llama_runtime.py:335-358 | append or full replay: which call refuses it, if any; what is live after it and the model logits for that; a replay ends with the requested tokens live, whatever was live before |
| LlamaRuntime.LlamaCppBackend.Forward | src/neural_weasel/llama_runtime.py:341-365 | a forward and the cache after it, exactly, whatever is live: it is refused exactly where a call fails or the logits are unusable; then the cache is dropped, except where clearing fails as well, which leaves the cache of the context before over whatever clearing left |
| LlamaRuntime.LlamaCppBackend.CreateSnapshot | src/neural_weasel/llama_runtime.py:319-389 | hit, append or replay over any live sequence: the snapshot is a cold forward on the encoded tokens whenever the cache is honest, and for a replay always; an append over another sequence evaluates behind that; an honest cache stays so unless a clear fails behind a refused forward; only a failing call or unusable logits deny a snapshot |
| LlamaRuntime.LlamaCppBackend.SoundReaches | src/neural_weasel/llama_runtime.py:341-358 | behind an honest cache, and in a replay, a forward ends in exactly the requested tokens |
| LlamaRuntime.LlamaCppBackend.Serve | src/neural_weasel/llama_runtime.py:319-853 | over any sequence of snapshots, continuations and invalidations, with any calls failing: over an honest cache every answer is right, continuations are right over any cache, honesty is lost only at a refused snapshot and never without a failed clear, and an invalidation restores it |
| LlamaRuntime.LlamaCppBackend.LostSequence | src/neural_weasel/llama_runtime.py:359-363 | the one bad exit at work: a context is cached, another is refused and clearing fails, and a context that goes on from the first is evaluated behind an empty sequence and cached |
| LlamaRuntime.LostSequenceIsWrong | src/neural_weasel/llama_runtime.py:359-363 | a concrete model and failures for which the logits of that last snapshot are not those of a cold forward |
| LlamaRuntime.LlamaCppBackend.EvaluateBranch | src/neural_weasel/llama_runtime.py:497-668 | for each allowed token, in order, its logit in the model logits of root followed by path, or its log probability; it raises without a failing call exactly where these are undefined, not finite as asked, or out of bounds |
| LlamaRuntime.LlamaCppBackend.RestoreLiveRoot | src/neural_weasel/llama_runtime.py:470-495 | success means the root is live again, and only a failing call prevents it when its state is saved |
| LlamaRuntime.LlamaCppBackend.EstablishRoot | src/neural_weasel/llama_runtime.py:694-787 | replayed and saved, reloaded, or found live: the root is live and its state saved |
| LlamaRuntime.LlamaCppBackend.ContinueSingleSequence | src/neural_weasel/llama_runtime.py:694-787 | nothing, or one right vector per branch in order, with the live root rewound between branches |
| LlamaRuntime.LlamaCppBackend.ContinueByCopies | src/neural_weasel/llama_runtime.py:497-631 | the same with a copied state restored before every branch |
| LlamaRuntime.LlamaCppBackend.ContinueFromRoot | src/neural_weasel/llama_runtime.py:497-668 | nothing or one vector per branch, and its k-th value is the logit of the k-th allowed token behind root and path, or its log probability; over any live sequence; an honest cache stays honest on every exit, one that is not is dropped or has its tokens live again, and without a failing call a cached root stays cached |
| LlamaRuntime.LlamaCppBackend.Repair | src/neural_weasel/llama_runtime.py:632-649 | the cache is kept only if the root is live again, and is kept whenever restoring does not fail; where clearing fails it is gone |
| LlamaRuntime.LlamaCppBackend.InvalidatePrivateState | src/neural_weasel/llama_runtime.py:846-853 | nothing of the private context is cached or saved, and nothing live unless clearing fails; the cache is honest again, whatever it was |
| ContinuationSlot.RunInv | src/neural_weasel/backends.py:218-345 | every interleaving of attempts, finishes, signals, registrations and cancellations keeps the slot invariant |
| ContinuationSlot.SingleFlight | src/neural_weasel/backends.py:268-345 | at most one worker occupies the slot, in the current generation |
| ContinuationSlot.NoLostWakeup | src/neural_weasel/backends.py:218-242 | an uncancelled waiter is signalled, in a finisher's hand-off, or waits while its generation still has the slot |
| ContinuationSlot.QuietMeansSignalled | src/neural_weasel/backends.py:218-225 | once every worker has left, every waiter has been signalled |
| ContinuationSlot.LateRegistration | src/neural_weasel/backends.py:227-238 | registering for an occupation that is over signals at once |
| ContinuationSlot.AttemptExactly | src/neural_weasel/backends.py:268-306 | an attempt gets the slot if and only if no worker is busy, and is then busy in the current generation; nobody else changes |
| ContinuationSlot.GenerationsCount | src/neural_weasel/backends.py:218-225 | the generation is the number of occupations that have ended |
| ContinuationSlot.FullLogitsSnapshotBackend.Serve | src/neural_weasel/backends.py:218-345 | over any sequence of calls: an attempt is let in if and only if no earlier one that was let in is still to finish, and whoever is refused learns the number of occupations ended before the one it met |
| ContinuationSlot.FinishBetween | src/neural_weasel/backends.py:268-345 | so two attempts that are let in have a finish between them |
| ContinuationSlot.FullLogitsSnapshotBackend.AcquireSlot | src/neural_weasel/backends.py:268-306 | the fields after an attempt: taken, and then this worker is busy in the generation answered, or unchanged; it is taken exactly if no worker was busy |
| ContinuationSlot.FullLogitsSnapshotBackend.FinishContinuationSlot | src/neural_weasel/backends.py:218-225 | the slot is freed and all its waiters handed over |
| ContinuationSlot.FullLogitsSnapshotBackend.RegisterContinuationIdleWait | src/neural_weasel/backends.py:227-238 | signalled at once exactly when that occupation is over, otherwise waiting |
| ContinuationSlot.FullLogitsSnapshotBackend.CancelContinuationIdleWait | src/neural_weasel/backends.py:240-242 | the waiter is gone |

## Left out

- Walk assumption: a token path determines its text (`LexicalWalk.TextDetermined`), as the tokenizer promises; with two texts for one token path the `visited` cut could lose one of them.
- LexicalWalk.Cursor.Run: beyond exact readings first, the order in which paths are emitted (rounds of root groups, hints, ranks inside a tier) is not stated; what is emitted does not depend on it.
- CandidatePages.SearchSession.ExpandOneFrontier: says what one step does and keeps; that a whole search finds every path is not claimed, because deadlines cut it short, tokens without a finite score are dropped, and seeds may be lost as shown above.
- SearchRuns.Open: is the opening in Chinese mode when no Latin root fits the keys; elsewhere the constructor takes the roots and the frontier as they are.
- Keys that do not parse: sessions are opened, and candidates traced to entries of the index, for keys that do; for others the source has no Han search and sorts by rank alone.
- Rank keys: the tuples that order candidates, suffixes and frontier items inside one bucket or tier are integer ranks supplied from outside; the components the properties rest on (exact spelling, tier, whole input, rounds, groups, script, bucket, score, position) are modelled. Hints from scored phrases are supplied as the order they induce.
- Unicode: normalisation is an arbitrary function that leaves texts over the characters of the index alone and gives no Han text and no other Latin text the normal form of the keys; Latin case folding is the ASCII one, since the vocabulary is ASCII.
- Numbers: float rounding and the softmax itself are left out; `LlamaRuntime` keeps the cases of infinite and undefined logits and leaves the normaliser abstract. `np.argpartition` is specified by what it promises.
- Integers: counters are unbounded naturals; the saturation of the bridge's 64-bit sequence counter is not modelled.
- Empty syllables: the matcher is modelled on the index the loader builds, where the source would raise on an empty one; in a session no syllable holds an apostrophe.
- Caches: match, plan and baseline caches with their size limits, the retention of records for the garbage collector and the single-letter prewarm are left out; they replay results that are proved here.
- Page managers: a request or worker slice is one atomic step. The background batch that scores several parents at once and so may leave several remainders, the session table with its expiry and eviction, admission and cancellation of searches, and the lock hand-over inside a step are left out; whether a preparation or a background search owns page zero is an input of `FreezeFirst`.
- Checkpoints: the places where generators hand control back have no effect and are omitted.
- Bridge transport: JSON text is message datatypes, a conversion of UTF-16 to UTF-8 that fails is a flag of the capture, a missing transport is a call that fails, and the waits between retries are the freedom of the schedule.
- Other clients: clients of the service other than the bridge use request identifiers of their own; the model lets them do anything else, and lets any call be delivered any number of times, at any time, to any lifetime.
- Service: query handlers beyond the identity check, the commit handler, session strings and the transport loop are left out; `engine.py` is the service engine.
- Runtime: loading, probing, tokenising and warm-up are left out; a context is encoded to at least one token, as both encoders do.
- Slot: a provider that returns in time and one that does not differ only in when its worker finishes; the results handed back are those of the runtime.
- Windows: pipes, security descriptors, COM edit sessions, profile registration and the Rime processor are foreign calls. The key tables, the input-scope policy and the budget of surrounding text are finite tables that would add easy members.
- Index: building and loading it, the readings of characters, and the scan of the tokenizer are left out; the index is a finite sequence of entries.
