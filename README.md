# Per-donor sample reconciliation and tumour/normal pairing

This project models the reconciliation core of the donor validator in
`scripts/validator.py`, in Dafny, and proves properties of that model. For one
donor, the validator takes the donor's analysis records and runs four steps in
memory:

1. **Aggregation** (`Aggregation`, `aggregation.dfy`). It builds `sample_info`.
   For every sample, it records which analyses show which value of each of the
   ten tracked fields. For every sequencing strategy, it records which
   sequencing analyses exist and which matched-normal submitter id each one
   reported.
2. **Discrepancy check** (`Discrepancy`, `discrepancy.dfy`). It implements
   `value_discrepancy_check`, which builds the canonical table `samples` and the
   discrepancy `issues`. A field observed with exactly one value, or a strategy
   with exactly one sequencing analysis, goes into the canonical sample. A field
   or strategy with several goes into `issues`, together with everything that
   was observed.
3. **Submitter-id index** (`SubmitterIndex`, `submitter_index.dfy`). It
   implements `mapping_sumbitter_sample_id_to_sample_id`, which maps each
   resolved submitter sample id to its sample id.
4. **Pairing** (`Pairing`, `pairing.dfy`). It implements
   `resolve_tumour_normal_pairs`. It decides, for every strategy of every
   Tumour sample, whether that strategy is paired, not paired, or an issue. It
   also collects the paired and unpaired Normal samples.

`Validator.Reconcile` (`reconcile.dfy`) chains the four steps, as
`validate_sample_and_seq_exp` does. It then states what the canonical table and
the issues mean directly in terms of the input analyses.

Supporting files:
- `records.dfy` (`Records`) holds the typed analysis record, the table of
  tracked fields, and Python's `str()` of a value (`Show`).
- `dicts.dfy` (`Dicts`) models a Python dict. Two results depend on dict
  insertion order, so an ordered dict is modelled as its key order plus a map.

Every step is a loop in the source, so every step is a `method` with loop
invariants. Each method is proved against reference functions over the input:
- filters over the records: `RecordsOf`, `WithValue`, `SeqRecordsOf`;
- the visits of the pairing pass: `StrategyVisits`, `TumourVisits`, `OutcomeOf`.

Lemmas relate those reference functions to the properties the source promises.

## Model

| member | source | states |
|---|---|---|
| Records.TrackedFieldsAreAllFields | scripts/validator.py:62-73 | the ten tracked fields are all the fields, each listed once |
| Records.Show | scripts/validator.py:95-100 | `str()` of a value gives "None" exactly for null and for the string "None" |
| Records.Canon | scripts/validator.py:255-257 | the canonical value of a unanimous string shows as that string, and it is null exactly when the string is "None" |
| Records.CanonShow | scripts/validator.py:95-100 | showing a value and canonicalising it returns the value, except that the string "None" becomes null |
| Dicts.Put | scripts/validator.py:81-86 | storing a key keeps an existing key in its place and appends a new key at the end; the map gets the new value |
| Aggregation.RecordsOf | scripts/validator.py:77-87 | the analyses of a sample are exactly the input analyses whose first sample has that id |
| Aggregation.WithValue | scripts/validator.py:89-109 | the analyses under value v of field f are exactly those of the sample whose field f shows as v |
| Aggregation.SeqRecordsOf | scripts/validator.py:112-123 | a bucket's analyses are exactly the sample's analyses of a sequencing type with that strategy |
| Aggregation.SampleOrder | scripts/validator.py:79-86 | sample_info's keys are the samples that have an analysis, each once |
| Aggregation.StrategyOrder | scripts/validator.py:112-123 | a sample's strategies are those of its sequencing analyses, each once |
| Aggregation.RecordFields | scripts/validator.py:89-109 | the inner loop adds the analysis id, under the value it shows, to every one of the ten fields and to nothing else |
| Aggregation.AddAnalysis | scripts/validator.py:77-123 | one iteration keeps sample_info equal to the aggregate of the analyses seen so far |
| Aggregation.Aggregate | scripts/validator.py:76-123 | sample_info is well formed, its keys are in order of first appearance, and each sample's `analysisId` list, value maps and strategy buckets are exactly the ids of the filtered analyses, in input order |
| Aggregation.FieldPartition | scripts/validator.py:77-109 | for each field, every analysis of the sample sits under exactly the value it shows, as often as it occurs among the sample's analyses, and under no other value |
| Aggregation.WithValueOfSample | scripts/validator.py:89-109 | each value list is the sample's own analysis list filtered to that value, in the same order |
| Aggregation.BucketAligned | scripts/validator.py:112-123 | the two lists of a bucket have equal length, and index k of both comes from one sequencing analysis of that sample and strategy |
| Aggregation.SequencingCovered | scripts/validator.py:112-123 | every sequencing analysis of a sample appears in the bucket of its strategy |
| Discrepancy.SingleStrategies | scripts/validator.py:261-284 | the resolved strategies are the ones with exactly one sequencing analysis, in bucket order |
| Discrepancy.ResolveFields | scripts/validator.py:248-257 | a field is canonical exactly when its value map has one key, and then it holds the canonical form of that key; it is reported exactly when the map has several keys, and then with the full map |
| Discrepancy.ResolveStrategy | scripts/validator.py:262-284 | one strategy is reported with its id list when it has several ids; otherwise it is added, last, to the canonical strategies with its single id and first matched normal |
| Discrepancy.ResolveStrategies | scripts/validator.py:260-284 | a strategy is canonical, with its single id and first matched-normal value, exactly when its bucket holds one id; it is reported with its id list exactly when the bucket holds several |
| Discrepancy.ResolveSample | scripts/validator.py:245-286 | the canonical sample keeps the sample id and resolves as above; an issue entry exists exactly when some field or strategy conflicts, and it reports all of them |
| Discrepancy.CheckDiscrepancies | scripts/validator.py:244-288 | every sample of sample_info gets a canonical entry under its own id, in the same order; `issues` has a key exactly for the samples with a conflict |
| SubmitterIndex.LastCarrying | scripts/validator.py:233-235 | the index holds a value for k exactly when some canonical sample carries submitter id k |
| SubmitterIndex.LastCarryingIsLast | scripts/validator.py:233-235 | the value indexed for k is the sample id of a sample carrying k after which no sample carries k (the last writer wins) |
| SubmitterIndex.IndexSubmitters | scripts/validator.py:231-237 | the index has an entry exactly for the submitter ids that canonical samples carry, and holds the last such sample's id |
| SubmitterIndex.IndexedSampleCarries | scripts/validator.py:231-237 | on a canonical table, the sample an index entry names is a sample that carries that submitter id |
| Pairing.StrategyVisits | scripts/validator.py:158-205 | the visits are exactly one `VisitOf` per strategy of the tumour that has an entry, each carrying the outcome its lookup decides |
| Pairing.PairStrategy | scripts/validator.py:158-205 | one strategy of a tumour updates the four results as its visit's outcome says, and leaves the rest as it was |
| Pairing.PairUnresolved | scripts/validator.py:163-171 | a failed lookup appends the issue to `issues[tumour]` |
| Pairing.PairMatched | scripts/validator.py:173-196 | a normal with data for the strategy yields the pair entry and appends the tumour's analysis to `normal_paired[normal][strategy]` |
| Pairing.PairUnmatched | scripts/validator.py:198-205 | a normal without data for the strategy yields `tumour_not_paired[tumour][strategy]` with a null normal analysis |
| Pairing.RecordPair | scripts/validator.py:177-196 | the pair is stored under the tumour and strategy; the normal's entry for the strategy is created with the normal's id, or has the tumour's id appended |
| Pairing.PairTumour | scripts/validator.py:158-205 | after all strategies of one tumour, the results reflect exactly the visits up to and including that tumour |
| Pairing.PairTumours | scripts/validator.py:151-205 | after the first pass, the results reflect exactly the visits of every Tumour sample that has sequencing data, in sample order |
| Pairing.CollectUnpairedNormals | scripts/validator.py:208-226 | `normal_not_paired` holds exactly the Normal samples with sequencing data that are absent from `normal_paired`, each with only its first strategy and that strategy's analysis id |
| Pairing.ResolvePairs | scripts/validator.py:144-228 | the three tumour results and `issues` hold exactly the decisions for the considered (tumour, strategy) pairs; `normal_paired` holds each normal's own analysis id and its paired tumours; no row of `tumour_normal_pairs`, `tumour_not_paired` or `normal_paired` is empty; `normal_not_paired` is as above |
| Pairing.UnpairedNormalReported | scripts/validator.py:208-226 | a Normal sample with data that no tumour paired with under any strategy is in `normal_not_paired`, with its first strategy |
| Pairing.OutcomesExclusive | scripts/validator.py:151-205 | each considered (tumour, strategy) lands in exactly one of `issues[tumour]`, `tumour_normal_pairs[tumour][strategy]` and `tumour_not_paired[tumour][strategy]`: the one its lookup decides |
| Pairing.IssueRaisedIff | scripts/validator.py:163-171 | `issues[tumour]` mentions a strategy exactly when that strategy's lookup failed |
| Pairing.UnresolvedIsIssue | scripts/validator.py:163-171 | a failed lookup's issue is in the tumour's issue list and names its strategy |
| Pairing.IssueIsUnresolved | scripts/validator.py:163-171 | every issue of a tumour is the failed-lookup decision for the strategy it names |
| Pairing.FindVisits | scripts/validator.py:151-158 | the first pass visits (tumour, strategy) exactly when the sample is Tumour, has sequencing data and has that strategy, and the visit carries its decision |
| Pairing.IssuesOfVisits | scripts/validator.py:164-171 | the issues raised for a sample over the whole pass are that tumour's own unresolved strategies, in strategy order |
| Pairing.InTumourVisits | scripts/validator.py:151-158 | a visit belongs to the first pass exactly when it is the decision for a considered (tumour, strategy) |
| Pairing.NormalsFinal | scripts/validator.py:187-196 | `normal_paired[n][st]` exists exactly when some tumour was paired with n under st, and it holds n's own analysis id and the paired tumours' analysis ids |
| Pairing.MatchedTumoursIff | scripts/validator.py:187-196 | an analysis id is in n's list for st exactly when it is the analysis of a considered tumour whose decision under st paired it with n |
| Validator.OneValueIff | scripts/validator.py:89-109 | a field's value map has one key exactly when all analyses of the sample agree on the field |
| Validator.OneKeyAgreed | scripts/validator.py:249-255 | a value map with one key means the sample's analyses agree |
| Validator.AgreedOneKey | scripts/validator.py:249-255 | agreeing analyses give a value map with one key |
| Validator.StrategyIff | scripts/validator.py:262-284 | a strategy is canonical exactly when the sample has one sequencing analysis under it |
| Validator.SampleFromInfo | scripts/validator.py:245-286 | the canonical sample keeps a field exactly when all its analyses agree, with the canonical form of the common value, and keeps a strategy exactly when one sequencing analysis has it, with that analysis' id and matched normal; its strategies come in the order of their first sequencing analysis |
| Validator.SingleStrategiesOf | scripts/validator.py:262-284 | the strategies the discrepancy check keeps, in order, are those of the bucket order under which the sample has exactly one sequencing analysis |
| Validator.MatchedNormalLookup | scripts/validator.py:159-163 | on the index built from a canonical table, the matched-normal lookup returns the last sample carrying that submitter id, and fails exactly when no sample carries it or that sample's id is empty |
| Validator.ConflictFromInfo | scripts/validator.py:249-263 | a sample has a conflict exactly when its analyses disagree on a field or one strategy has several sequencing analyses |
| Validator.IssueFromInfo | scripts/validator.py:249-275 | a sample's issue entry lists every disputed field with each value and the analyses that show it, and every strategy with several sequencing analyses with their ids |
| Validator.Reconcile | scripts/validator.py:62-136 | the whole pipeline: the canonical table (with each sample's strategy order) and its issues in terms of the analyses themselves, the index, and the pairing outcomes of `ResolvePairs` |

## Left out

- Fetching analyses and donors from the search backend, `get_donors_by_program`, `main` and its argument parsing, and printing: these are I/O. The analyses are a parameter of `Validator.Reconcile`.
- `validate_donor`: it only forwards to the pipeline, and its other parameters are unused.
- `scripts/indexer.py` is not part of this model. It only creates an index and writes documents.
- The text of a pairing issue: an issue is the record (strategy, tumour analysis id, matched-normal submitter id) that the message reports.
- The reassignment of `issues` at line 136, where the pairing issues replace the discrepancy issues. The model returns both separately.
- Key errors on malformed records: a record always has a first sample, a specimen, a donor and a strategy. A missing `analysisType` or `name` is an absent type name. A present but null `analysisType` makes `.get('name')` raise at line 112; the model reads it as an absent type name instead. A null `experimental_strategy` (line 113) becomes the dict key `None` in the source; the model's strategy is a string and cannot be null.
- JSON values other than null and strings: `str()` of a number, boolean or list is not modelled.
- The order of the dicts that nothing reads in order. `issues`, the tumour results, `normal_paired`, `normal_not_paired`, the submitter index, the fields of a canonical sample and the per-field maps from a value to its analysis ids (those in `sample_info` and the copies under `issues`) are plain maps. The per-field maps are read in order only at line 255, and only when they have exactly one key. `sample_info`, `samples` and the strategy dicts keep their order.
- The test at line 218 of the second pairing pass is not modelled. It never succeeds: line 214 already skipped every sample in `normal_paired`.
- A canonical sample holds its fields, its id and its strategies in separate parts, not in one dict shared by field names and the `sequencing_experiment` key. The key sets cannot collide, so nothing is lost.

Where the code departs from what a reader of the pairing might expect, the model follows the code:
- Unpaired normals. There is no "normal not paired" entry per unpaired strategy. The code skips every normal paired under any strategy. For the other normals it records only the first strategy (`Pairing.CollectUnpairedNormals`).
- Iteration order. Pairing is not order-independent. The submitter index lets the last sample with a given submitter id win (`SubmitterIndex.LastCarryingIsLast`). Which strategy an unpaired normal records also depends on the order of its strategies.
- Empty sample ids. A lookup that finds an empty sample id counts as failed, just like a missing key (`Validator.MatchedNormalLookup`).
- The pairing never checks that the matched sample is designated Normal. It only checks that the sample has data for the strategy.
- Null submitter ids. A sample whose canonical submitter id is null (it was reported as null or as "None") is indexed under null. The tumour side looks up the raw matched-normal value from its bucket. So a null matched normal finds such a sample, while the string "None" does not.
