# GLnexus service core in Dafny

This project models the two sequential cores of the GLnexus `Service` (`src/service.cc`) and proves properties about them.

**Allele discovery (`Service::discover_alleles`).** The service starts from an empty answer and visits the data sets of a sample set one by one. Each record it fetches goes through these steps:
- Its hard-called genotype entries are counted per allele index. Vector-end sentinels, missing calls and out-of-range indices are skipped.
- Every alternate allele whose uppercased string is non-empty plain DNA (`is_dna`: only A, C, G, T) is emitted with `is_ref = false` and its count.
- The reference allele is emitted with `is_ref = true` only when some alternate allele was emitted.
- A reference that is not plain DNA fails the call with `Invalid`.

Insertion into a `std::map` never overwrites, so the first entry for a key wins. Each data set's map is merged into the answer by an external merge function. Once every data set is merged, a check visits the answer's ranges in ascending order. Each range must carry exactly one reference allele. The first offending range gives "inconsistent reference alleles", with the reference strings, or "no reference allele".

**Ordered genotyping (`Service::genotype_sites`).** There is one task per site:
- A task first checks a shared abort flag.
- If the flag is clear, the task calls the genotyper and, on success, stores the record in the site's slot.
- The drain loop then waits for each task in site order and moves its record out of the slot.
- While everything has succeeded, it hands the record to `bcf_write`.
- It records the first failure: a task error also raises the abort flag, a write error does not.

The thread pool is replaced by a schedule, `startsAt[i] <= i`: the number of drain steps finished when task `i` checks the flag. The model drives the tasks and the drain from that schedule over shared `results`/`futures` arrays. The main results are:
- the outcome does not depend on the schedule;
- the outcome equals a closed form: written records are the site-order prefix before the first failure, and the status is that failure.

Modules:
- `Ranges`: ranges and their order, and least elements.
- `Statuses`: status, error and result values.
- `Dna`: `is_dna`, `toupper` and the allele filter.
- `Alleles`: allele keys, `std::map::insert`.
- `Discovery`: counting, emission, the data-set loops.
- `RefCheck`: the post-merge check.
- `Genotyping`: task body, drain, scheduler.
- `Scenarios`: worked cases.

## Model

| member | source | states |
|---|---|---|
| Ranges.LeastExists | src/service.cc:120 | every non-empty set of ranges has a least element, so a `std::set<range>` can be visited in ascending order |
| Dna.IsDna | src/service.cc:36-39 | `is_dna(s)` holds iff every character of `s` is one of A, C, G, T (vacuously true for the empty string) |
| Dna.Upper | src/service.cc:84 | `transform(..., ::toupper)` keeps the length and maps each character through C-locale `toupper` |
| Dna.QualifiesIff | src/service.cc:83-85 | an allele string passes the `size() > 0 && is_dna` filter after uppercasing iff it is non-empty and every character is a nucleotide letter in either case |
| Dna.Qualifies | src/service.cc:83-85 | the filter applied to alternate and reference strings: the uppercased string is non-empty and `is_dna` |
| Dna.QualifyingUpperIsDna | src/service.cc:93-95 | the uppercase form of a string that passes the filter, the form keys are stored in, is unchanged by uppercasing again |
| Alleles.Insert | src/service.cc:87 | `std::map::insert` adds the key, keeps every existing entry unchanged, and sets the given value only for a new key |
| Discovery.Observations | src/service.cc:67-74 | the number of entries that are a call of allele `a` is at most the number of entries |
| Discovery.CountedCalls | src/service.cc:67-74 | the number of entries counted for some allele in `[0, n)` is at most the number of entries |
| Discovery.ObsCounts | src/service.cc:59 | the count vector has `n_allele` entries, the `a`-th being the number of calls of allele `a` |
| Discovery.ObsCountsTotal | src/service.cc:59-74 | the counts sum to the number of counted calls, which is at most `ngt`, because sentinels and missing or out-of-range indices are skipped |
| Discovery.CountObservations | src/service.cc:59-74 | the counting loop over the genotype array yields, per allele, the number of calls of it, with total at most `ngt` |
| Discovery.AltEntries | src/service.cc:82-90 | the map after the alternate-allele loop has handled indices `[1, k)`: each passing alternate is inserted, without overwriting, as `{false, obs_counts[i]}` under (range, uppercased string) |
| Discovery.RecordAlleles | src/service.cc:79-104 | what one record does to the data set's map: `Invalid` naming the data set and uppercased reference if the reference fails the filter, else the alternates' entries plus, when some alternate passed, the reference as `{true, obs_counts[0]}` |
| Discovery.AltEntriesKeys | src/service.cc:79-90 | the alternate-allele loop adds exactly the keys (range, uppercased string) of the alternates that pass the filter, changes no existing entry, and marks new entries `is_ref = false` |
| Discovery.AltEntriesFirst | src/service.cc:82-89 | the first passing alternate allele with a given string gets `{false, obs_counts[i]}` unless that key was already present |
| Discovery.RecordAllelesKeys | src/service.cc:79-104 | a record fails iff its reference does not pass the filter, even with no passing alternate, and the error is `Invalid` naming the data set and reference; otherwise it adds the passing alternates and, only if there is one, the reference; with no passing alternate it adds nothing |
| Discovery.RecordAllelesValues | src/service.cc:79-99 | entries are `{false, count}` for a first passing alternate and `{true, obs_counts[0]}` for the reference when an alternate passed and the key is new |
| Discovery.AddRecordAlleles | src/service.cc:79-104 | the loop with its `any_alt` flag, then the reference step, computes the record's map or error |
| Discovery.DatasetAlleles | src/service.cc:57-105 | the record loop of one data set as a fold: each record's counts and entries are applied in order, stopping at the first record error |
| Discovery.Accumulate | src/service.cc:49-109 | the data-set loop as a fold: a fetch error, a record error or a merge error stops it with that status (keeping the answer so far, or the merge's result), otherwise each data set's map is merged into the answer in order |
| Discovery.DatasetFailsIff | src/service.cc:57-105 | a data set's record loop fails iff some record has a reference that fails the filter, and the error names the first such record's reference |
| Discovery.DatasetAllelesValid | src/service.cc:57-105 | on success every key the loop adds is non-empty plain DNA at the range of one of its records, and earlier entries are kept |
| Discovery.DiscoverDataset | src/service.cc:56-105 | the record loop of one data set starts from an empty map, stops at the first invalid reference and otherwise returns the accumulated map |
| Discovery.DiscoverAlleles | src/service.cc:48-143 | the answer is cleared and then accumulated over the data sets; the first fetch, record or merge error is returned as is; otherwise the status is the reference check's outcome; OK implies exactly one reference per range, and that every data set was fetched with only plain-DNA references |
| Discovery.AccumulateOkNeedsValidReferences | src/service.cc:49-109 | the data-set loop ends OK only if every data set was fetched and every record's reference passes the filter, so one invalid reference anywhere fails the whole call, whatever the merge does |
| RefCheck.RefCheckOutcomeUnique | src/service.cc:120-143 | the outcome of the check is determined by the answer: at most one status fits |
| RefCheck.EmptyIsConsistent | src/service.cc:113-143 | an empty answer passes the check |
| RefCheck.RefsFromTriples | src/service.cc:115-130 | the reference strings read for a range from the (range, dna, is_ref) multimap are exactly the answer's reference alleles at that range |
| RefCheck.CollectTriples | src/service.cc:113-119 | the first loop collects exactly the answer's ranges and its (range, dna, is_ref) triples |
| RefCheck.CollectRefs | src/service.cc:121-130 | the inner loop collects exactly the reference strings the multimap lists for the range |
| RefCheck.CheckReferences | src/service.cc:111-143 | OK iff every range has exactly one reference; otherwise the least offending range is reported, as "inconsistent" with all its reference strings when it has several, as "no reference" when it has none |
| Genotyping.TaskStatus | src/service.cc:193-202 | a task's status is OK iff it did not see the abort flag and the genotyper succeeded; seeing the flag gives `Invalid` |
| Genotyping.RunTask | src/service.cc:192-203 | the task calls the genotyper iff the flag is clear, fills only its own slot and only on success, and leaves every other slot untouched |
| Genotyping.DrainStep | src/service.cc:221-231 | one drain step: with `s` and the task's status both OK the record is handed to the writer and `s` becomes the write error if the write fails; with `s` OK and a task error `s` becomes that error and the flag is raised; once `s` is bad nothing changes |
| Genotyping.Drained | src/service.cc:211-232 | the drain's status, flag and written records after `j` steps, each step using the status task `j` returned |
| Genotyping.SeenStatus | src/service.cc:193-197 | the status task `i` returns, having read the abort flag as it stood after `startsAt[i]` drain steps; `startsAt[i] <= i` because the drain waits on task `i` before reading slot `i` |
| Genotyping.FirstFailureFrom | src/service.cc:221-231 | the first site at or after `i` whose genotyping or write fails; every site before it succeeded on both |
| Genotyping.CalledPrefix | src/service.cc:221-226 | the records of the first `k` sites, in site order |
| Genotyping.DrainedIsExpected | src/service.cc:211-232 | after every drain step, whatever the schedule, the status, abort flag and written records equal the closed form given by the first failure |
| Genotyping.WrittenInSiteOrder | src/service.cc:212-226 | the written records are the records of the first sites, in site order |
| Genotyping.WrittenIff | src/service.cc:221-226 | record `i` is written iff every site up to `i` was genotyped and every earlier write succeeded |
| Genotyping.StatusIsFirstFailure | src/service.cc:221-233 | the drain's status is OK iff every site was genotyped and written, and otherwise the first failure in site order, never a later task's abort status |
| Genotyping.AbortIff | src/service.cc:227-231 | the abort flag is raised iff the first failure is a task error; a write error does not raise it |
| Genotyping.AbortMonotone | src/service.cc:227-231 | the abort flag only goes from false to true |
| Genotyping.CallsGenotyperIff | src/service.cc:193-197 | a task skips the genotyper iff the first failure in site order is a task error and it had already been drained when the task checked the flag, so every task up to the first failure calls the genotyper |
| Genotyping.ScheduleIndependent | src/service.cc:183-232 | status, abort flag and written records are the same for every schedule |
| Genotyping.StartTasks | src/service.cc:191-205 | the tasks that check the flag after `j` drain steps run and leave futures and slots as `SeenStatus` and `SlotOf` give them; the futures and slots of drained sites and of tasks not yet started are untouched |
| Genotyping.DrainSlot | src/service.cc:213-231 | one drain step empties slot `j` and updates status, flag and written records as one step of `Drained` |
| Genotyping.GenotypeSites | src/service.cc:183-241 | the whole run returns the drain's status (or the close error when the drain succeeded and the close fails), writes the drained records, empties every slot, calls the genotyper exactly for the tasks `CallsGenotyper` names, every future ending as `Done(SeenStatus(i))`, so it returns only once every task has completed |
| Scenarios.BiallelicObservations | src/service.cc:67-74 | with calls 0/0, 0/1, 1/1 each allele of a biallelic record is counted three times |
| Scenarios.BiallelicRecord | src/service.cc:59-99 | that record yields the alternate entry `{false, 3}` and, since an alternate was emitted, the reference entry `{true, 3}` |
| Scenarios.SingleBaseQualifies | src/service.cc:83-85 | a single nucleotide letter in either case passes the filter, keyed by its uppercase letter |
| Scenarios.NonRefDoesNotQualify | src/service.cc:79-80 | the symbolic `<NON_REF>` allele never passes the filter |
| Scenarios.NonDnaReference | src/service.cc:93-104 | a reference containing `N` fails the record with `Invalid`, although the alternate passes |
| Scenarios.ReferenceBlockAddsNothing | src/service.cc:81-99 | a record whose only alternate is `<NON_REF>` adds nothing |
| Scenarios.ConflictingReferences | src/service.cc:131-137 | references A and G at one range fail the check as inconsistent, naming both |
| Scenarios.FirstSiteFails | src/service.cc:211-232 | if the first site's genotyping fails, its error is reported, nothing is written and the flag is raised, for every schedule |
| Scenarios.AllSitesSucceed | src/service.cc:211-232 | if every site is genotyped and written, the status is OK and every record is written in site order, for every schedule |

## Left out

- Metadata lookups (`sampleset_datasets`, `contigs`), `Service::Start` and the constructor are foreign collaborators: the data sets of the sample set are an input sequence, in the order the service visits them.
- `dataset_range_and_header`, `bcf_get_genotypes` and `bcf_gt_allele` (storage and htslib decoding): each data set comes with its fetch outcome, and records come with decoded genotype entries (`VectorEnd` or `Call(index)`, where a missing call has a negative index).
- `merge_discovered_alleles` is defined elsewhere: it is a function parameter returning a status and the merged map. No union, OR or sum semantics are assumed, so merge commutativity and associativity are not stated.
- `genotype_site` is given per site as its outcome (a record or an error).
- Errors from collaborators (the storage fetch, the merge, the genotyper) pass through unchanged; they are arbitrary `Error` values, and their own codes and message texts are not modelled.
- BCF header assembly, `bcf_open` and `bcf_hdr_write` are not modelled. `bcf_write` and `bcf_close` are success oracles (`writeOk`, `closeOk`), and the output file is the sequence of records handed to `bcf_write`.
- The thread pool, `std::future` and `atomic<bool>` are not modelled as concurrency. Every interleaving the futures allow is captured by the schedule `startsAt`.
- Discovery.CountObservations: observation counts are `float` in the source and natural numbers here. They only ever grow by 1.0, so the two agree below 2^24 calls of one allele in a record; beyond that the `float` count stops growing while the natural number keeps counting.
- Error-message text (`ostringstream`, `range::str`) is reduced to the values it prints. The invalid-reference message prints the queried range `pos`, and the write and close errors print `filename`; neither is kept.
- RefCheck.CheckReferences: the conflicting reference strings are reported as a set, not in the multimap's order. Keys are unique, so the source's vector has no duplicates and the same size.
- Ranges.Le: the range order is taken to be lexicographic on (contig, begin, end). The definition of `range` is not part of this model.
- Discovery.DiscoverAlleles: on an error the answer keeps what was accumulated up to that point, because `ans` is an out-parameter the source does not clear again. A caller might expect an empty answer after a failure; this model follows the code.
