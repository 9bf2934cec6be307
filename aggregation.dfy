/** The per-sample aggregation at the start of validate_sample_and_seq_exp:
    one pass over the donor's analyses builds sample_info, which records for
    every sample, per tracked field, which analyses reported which value, and
    per sequencing strategy which sequencing analyses exist. */
module Aggregation {
  import opened Records
  import opened Dicts

  /** One strategy of one sample: the sequencing analysis ids and, index for
      index, the matched-normal submitter id each of them reported. */
  datatype SeqBucket = SeqBucket(analysisIds: seq<string>, matchedNormals: seq<Value>)

  /** sample_info[sampleId]. `fields` maps each tracked field to a map from
      the observed value, as a string, to the analyses that reported it. */
  datatype SampleInfo = SampleInfo(
    sampleId: string,
    analysisIds: seq<string>,
    fields: map<Field, map<string, seq<string>>>,
    seqExp: Dict<SeqBucket>)

  // ---------------------------------------------------------------------
  // Reference definitions over the input records.  Each filter keeps the
  // records in input order; all recurse on the last record.

  function Last<T>(s: seq<T>): T
    requires |s| > 0
  {
    s[|s| - 1]
  }

  /** The analysis ids of rs, in order. */
  function Ids(rs: seq<AnalysisRecord>): seq<string>
  {
    seq(|rs|, k requires 0 <= k < |rs| => rs[k].analysisId)
  }

  /** The matched-normal submitter ids of rs, in order. */
  function MatchedNormals(rs: seq<AnalysisRecord>): seq<Value>
  {
    seq(|rs|, k requires 0 <= k < |rs| => rs[k].sample.matchedNormalSubmitterSampleId)
  }

  /** The analyses of sample s. */
  function RecordsOf(rs: seq<AnalysisRecord>, s: string): (r: seq<AnalysisRecord>)
    ensures forall a :: a in r <==> a in rs && a.sample.sampleId == s
  {
    if rs == [] then []
    else
      assert rs == rs[..|rs| - 1] + [Last(rs)];
      var init := RecordsOf(rs[..|rs| - 1], s);
      if Last(rs).sample.sampleId == s then init + [Last(rs)] else init
  }

  /** The analyses of sample s whose field f shows as v. */
  function WithValue(rs: seq<AnalysisRecord>, s: string, f: Field, v: string): (r: seq<AnalysisRecord>)
    ensures forall a :: a in r <==> a in rs && a.sample.sampleId == s && Show(Observe(a, f)) == v
  {
    if rs == [] then []
    else
      assert rs == rs[..|rs| - 1] + [Last(rs)];
      var init := WithValue(rs[..|rs| - 1], s, f, v);
      var a := Last(rs);
      if a.sample.sampleId == s && Show(Observe(a, f)) == v then init + [a] else init
  }

  /** The sequencing analyses of sample s under strategy st. */
  function SeqRecordsOf(rs: seq<AnalysisRecord>, s: string, st: string): (r: seq<AnalysisRecord>)
    ensures forall a :: a in r <==>
      a in rs && IsSequencing(a) && a.sample.sampleId == s && a.experimentalStrategy == st
  {
    if rs == [] then []
    else
      assert rs == rs[..|rs| - 1] + [Last(rs)];
      var init := SeqRecordsOf(rs[..|rs| - 1], s, st);
      var a := Last(rs);
      if IsSequencing(a) && a.sample.sampleId == s && a.experimentalStrategy == st
      then init + [a] else init
  }

  /** The samples in the order of their first analysis. */
  function SampleOrder(rs: seq<AnalysisRecord>): (order: seq<string>)
    ensures forall s :: s in order <==> RecordsOf(rs, s) != []
    ensures forall i, j :: 0 <= i < j < |order| ==> order[i] != order[j]
  {
    if rs == [] then []
    else
      var init := SampleOrder(rs[..|rs| - 1]);
      var s := Last(rs).sample.sampleId;
      if s in init then init else init + [s]
  }

  /** The strategies of sample s in the order of their first sequencing analysis. */
  function StrategyOrder(rs: seq<AnalysisRecord>, s: string): (order: seq<string>)
    ensures forall st :: st in order <==> SeqRecordsOf(rs, s, st) != []
    ensures forall i, j :: 0 <= i < j < |order| ==> order[i] != order[j]
  {
    if rs == [] then []
    else
      var init := StrategyOrder(rs[..|rs| - 1], s);
      var a := Last(rs);
      if IsSequencing(a) && a.sample.sampleId == s && a.experimentalStrategy !in init
      then init + [a.experimentalStrategy] else init
  }

  // ---------------------------------------------------------------------
  // What sample_info holds.

  function LookupField(fields: map<Field, map<string, seq<string>>>, f: Field): map<string, seq<string>>
  {
    if f in fields then fields[f] else map[]
  }

  /** si is the aggregate of the analyses of sample s among rs. */
  ghost predicate Describes(si: SampleInfo, rs: seq<AnalysisRecord>, s: string)
  {
    && si.sampleId == s
    && si.analysisIds == Ids(RecordsOf(rs, s))
    && FieldsDescribe(si.fields, rs, s)
    && SeqExpDescribes(si.seqExp, rs, s)
  }

  /** Per field, the observed values are exactly the values some analysis of
      s shows, and each lists exactly the analyses that show it. */
  ghost predicate FieldsDescribe(fields: map<Field, map<string, seq<string>>>, rs: seq<AnalysisRecord>, s: string)
  {
    && (forall f, v :: v in LookupField(fields, f) <==> WithValue(rs, s, f, v) != [])
    && (forall f, v :: v in LookupField(fields, f) ==> LookupField(fields, f)[v] == Ids(WithValue(rs, s, f, v)))
  }

  /** The strategies are those of the sequencing analyses of s, in order of
      first appearance, and each bucket lists exactly those analyses. */
  ghost predicate SeqExpDescribes(seqExp: Dict<SeqBucket>, rs: seq<AnalysisRecord>, s: string)
  {
    && seqExp.keys == StrategyOrder(rs, s)
    && (forall st :: st in seqExp.entries ==>
          seqExp.entries[st] == SeqBucket(Ids(SeqRecordsOf(rs, s, st)), MatchedNormals(SeqRecordsOf(rs, s, st))))
  }

  /** The shape that value_discrepancy_check relies on: every field has at
      least one observed value, every bucket at least one analysis, and the
      two lists of a bucket have equal length. */
  ghost predicate WellFormedInfo(si: SampleInfo)
  {
    && (forall f :: f in si.fields && |si.fields[f]| > 0)
    && si.seqExp.Valid()
    && (forall st :: st in si.seqExp.entries ==>
          && |si.seqExp.entries[st].analysisIds| > 0
          && |si.seqExp.entries[st].analysisIds| == |si.seqExp.entries[st].matchedNormals|)
  }

  ghost predicate WellFormed(info: Dict<SampleInfo>)
  {
    && info.Valid()
    && (forall s :: s in info.entries ==> info.entries[s].sampleId == s && WellFormedInfo(info.entries[s]))
  }

  // ---------------------------------------------------------------------
  // The loop.

  /** sample_info[sampleId][field][value].append(analysisId). */
  function AddObservation(m: map<string, seq<string>>, v: string, id: string): (r: map<string, seq<string>>)
    ensures r.Keys == m.Keys + {v}
  {
    m[v := (if v in m then m[v] else []) + [id]]
  }

  /** The inner loop over the tracked fields for one analysis `a`. */
  method RecordFields(fields: map<Field, map<string, seq<string>>>, a: AnalysisRecord)
    returns (r: map<Field, map<string, seq<string>>>)
    ensures forall f :: f in r
    ensures forall f :: r[f] == AddObservation(LookupField(fields, f), Show(Observe(a, f)), a.analysisId)
  {
    TrackedFieldsAreAllFields();
    r := fields;
    var k := 0;
    while k < |TrackedFields|
      invariant 0 <= k <= |TrackedFields|
      invariant forall f :: f in TrackedFields[..k] ==>
        f in r && r[f] == AddObservation(LookupField(fields, f), Show(Observe(a, f)), a.analysisId)
      invariant forall f :: f !in TrackedFields[..k] ==> LookupField(r, f) == LookupField(fields, f)
    {
      var f := TrackedFields[k];
      assert f !in TrackedFields[..k];
      var m := if f in r then r[f] else map[];
      r := r[f := AddObservation(m, Show(Observe(a, f)), a.analysisId)];
      assert TrackedFields[..k + 1] == TrackedFields[..k] + [f];
      k := k + 1;
    }
    assert TrackedFields[..k] == TrackedFields;
  }

  /** sample_info after the analyses rs. */
  ghost predicate Aggregates(info: Dict<SampleInfo>, rs: seq<AnalysisRecord>)
  {
    && WellFormed(info)
    && info.keys == SampleOrder(rs)
    && (forall s :: s in info.entries ==> Describes(info.entries[s], rs, s))
  }

  /** The aggregation loop: sample_info built from the donor's analyses. */
  method Aggregate(records: seq<AnalysisRecord>) returns (info: Dict<SampleInfo>)
    ensures WellFormed(info)
    ensures info.keys == SampleOrder(records)
    ensures forall s :: s in info.entries ==> Describes(info.entries[s], records, s)
  {
    info := Empty();
    var i := 0;
    while i < |records|
      invariant 0 <= i <= |records|
      invariant Aggregates(info, records[..i])
    {
      assert records[..i + 1] == records[..i] + [records[i]];
      info := AddAnalysis(info, records[..i], records[i]);
      i := i + 1;
    }
    assert records[..i] == records;
  }

  /** One iteration of the loop: analysis a folded into sample_info. */
  method AddAnalysis(info: Dict<SampleInfo>, ghost rs: seq<AnalysisRecord>, a: AnalysisRecord)
    returns (info': Dict<SampleInfo>)
    requires Aggregates(info, rs)
    ensures Aggregates(info', rs + [a])
  {
    var s := a.sample.sampleId;
    var si: SampleInfo;
    if s in info.entries {
      si := info.entries[s];
    } else {
      NoneOf(rs, s);
      si := SampleInfo(s, [], map[], Empty());
    }
    var before := si;
    si := si.(analysisIds := si.analysisIds + [a.analysisId]);
    var fields := RecordFields(si.fields, a);
    si := si.(fields := fields);
    if IsSequencing(a) {
      var st := a.experimentalStrategy;
      var mn := a.sample.matchedNormalSubmitterSampleId;
      var bucket := if st in si.seqExp.entries
        then SeqBucket(si.seqExp.entries[st].analysisIds + [a.analysisId],
                       si.seqExp.entries[st].matchedNormals + [mn])
        else SeqBucket([a.analysisId], [mn]);
      si := si.(seqExp := Put(si.seqExp, st, bucket));
    }
    DescribesAdd(before, si, rs, a);
    info' := Put(info, s, si);
    AggregatesPut(info, rs, a, si);
  }

  lemma AggregatesPut(info: Dict<SampleInfo>, rs: seq<AnalysisRecord>, a: AnalysisRecord, si: SampleInfo)
    requires Aggregates(info, rs)
    requires si.sampleId == a.sample.sampleId && WellFormedInfo(si)
    requires Describes(si, rs + [a], a.sample.sampleId)
    ensures Aggregates(Put(info, a.sample.sampleId, si), rs + [a])
  {
    var s := a.sample.sampleId;
    var info' := Put(info, s, si);
    forall t | t in info'.entries
      ensures Describes(info'.entries[t], rs + [a], t)
    {
      if t != s {
        DescribesOther(info.entries[t], rs, a, t);
      }
    }
    forall t | t in info'.entries
      ensures info'.entries[t].sampleId == t && WellFormedInfo(info'.entries[t])
    {
      if t != s {
        assert info'.entries[t] == info.entries[t];
      }
    }
    assert WellFormed(info');
    SampleOrderSnoc(rs, a);
    assert info'.keys == SampleOrder(rs + [a]) by {
      assert s in info.entries <==> s in info.keys;
    }
  }

  // ---------------------------------------------------------------------
  // Step lemmas for the loop: each filter of rs + [a] is the filter of rs,
  // extended by a when a qualifies.

  lemma RecordsOfSnoc(rs: seq<AnalysisRecord>, a: AnalysisRecord, s: string)
    ensures RecordsOf(rs + [a], s) == RecordsOf(rs, s) + (if a.sample.sampleId == s then [a] else [])
  {
    assert (rs + [a])[..|rs|] == rs;
  }

  lemma WithValueSnoc(rs: seq<AnalysisRecord>, a: AnalysisRecord, s: string, f: Field, v: string)
    ensures WithValue(rs + [a], s, f, v) ==
      WithValue(rs, s, f, v) + (if a.sample.sampleId == s && Show(Observe(a, f)) == v then [a] else [])
  {
    assert (rs + [a])[..|rs|] == rs;
  }

  lemma SeqRecordsOfSnoc(rs: seq<AnalysisRecord>, a: AnalysisRecord, s: string, st: string)
    ensures SeqRecordsOf(rs + [a], s, st) ==
      SeqRecordsOf(rs, s, st) + (if IsSequencing(a) && a.sample.sampleId == s && a.experimentalStrategy == st then [a] else [])
  {
    assert (rs + [a])[..|rs|] == rs;
  }

  lemma StrategyOrderSnoc(rs: seq<AnalysisRecord>, a: AnalysisRecord, s: string)
    ensures StrategyOrder(rs + [a], s) ==
      StrategyOrder(rs, s) + (if IsSequencing(a) && a.sample.sampleId == s && a.experimentalStrategy !in StrategyOrder(rs, s)
                              then [a.experimentalStrategy] else [])
  {
    assert (rs + [a])[..|rs|] == rs;
  }

  lemma SampleOrderSnoc(rs: seq<AnalysisRecord>, a: AnalysisRecord)
    ensures SampleOrder(rs + [a]) ==
      SampleOrder(rs) + (if a.sample.sampleId in SampleOrder(rs) then [] else [a.sample.sampleId])
  {
    assert (rs + [a])[..|rs|] == rs;
  }

  lemma IdsSnoc(rs: seq<AnalysisRecord>, a: AnalysisRecord)
    ensures Ids(rs + [a]) == Ids(rs) + [a.analysisId]
    ensures MatchedNormals(rs + [a]) == MatchedNormals(rs) + [a.sample.matchedNormalSubmitterSampleId]
  {
  }

  /** A sample no analysis names has an empty aggregate. */
  lemma NoneOf(rs: seq<AnalysisRecord>, s: string)
    requires s !in SampleOrder(rs)
    ensures Describes(SampleInfo(s, [], map[], Empty()), rs, s)
  {
    assert forall a :: a in rs ==> a.sample.sampleId != s;
    assert RecordsOf(rs, s) == [];
    forall f, v ensures WithValue(rs, s, f, v) == [] {
    }
    assert StrategyOrder(rs, s) == [];
  }

  lemma DescribesOther(si: SampleInfo, rs: seq<AnalysisRecord>, a: AnalysisRecord, s: string)
    requires Describes(si, rs, s) && a.sample.sampleId != s
    ensures Describes(si, rs + [a], s)
  {
    RecordsOfSnoc(rs, a, s);
    forall f, v ensures WithValue(rs + [a], s, f, v) == WithValue(rs, s, f, v) {
      WithValueSnoc(rs, a, s, f, v);
    }
    forall st ensures SeqRecordsOf(rs + [a], s, st) == SeqRecordsOf(rs, s, st) {
      SeqRecordsOfSnoc(rs, a, s, st);
    }
    StrategyOrderSnoc(rs, a, s);
  }

  lemma DescribesAdd(si: SampleInfo, si': SampleInfo, rs: seq<AnalysisRecord>, a: AnalysisRecord)
    requires Describes(si, rs, a.sample.sampleId) && si.seqExp.Valid()
    requires si'.sampleId == si.sampleId && si'.analysisIds == si.analysisIds + [a.analysisId]
    requires forall f :: f in si'.fields
    requires forall f ::
      si'.fields[f] == AddObservation(LookupField(si.fields, f), Show(Observe(a, f)), a.analysisId)
    requires !IsSequencing(a) ==> si'.seqExp == si.seqExp
    requires IsSequencing(a) ==> si'.seqExp == Put(si.seqExp, a.experimentalStrategy, Grown(si.seqExp, a))
    ensures Describes(si', rs + [a], a.sample.sampleId)
    ensures WellFormedInfo(si')
  {
    var s := a.sample.sampleId;
    RecordsOfSnoc(rs, a, s);
    IdsSnoc(RecordsOf(rs, s), a);
    FieldsAdd(si.fields, si'.fields, rs, a);
    if IsSequencing(a) {
      SeqExpAdd(si.seqExp, si'.seqExp, rs, a);
    } else {
      SeqExpOther(si.seqExp, rs, a);
    }
    forall f ensures |si'.fields[f]| > 0 {
      assert Show(Observe(a, f)) in si'.fields[f];
    }
  }

  /** The bucket of a's strategy once a is appended to it. */
  function Grown(seqExp: Dict<SeqBucket>, a: AnalysisRecord): SeqBucket
  {
    var st := a.experimentalStrategy;
    var mn := a.sample.matchedNormalSubmitterSampleId;
    if st in seqExp.entries
    then SeqBucket(seqExp.entries[st].analysisIds + [a.analysisId], seqExp.entries[st].matchedNormals + [mn])
    else SeqBucket([a.analysisId], [mn])
  }

  lemma FieldsAdd(fields: map<Field, map<string, seq<string>>>, fields': map<Field, map<string, seq<string>>>,
                  rs: seq<AnalysisRecord>, a: AnalysisRecord)
    requires FieldsDescribe(fields, rs, a.sample.sampleId)
    requires forall f :: f in fields'
    requires forall f ::
      fields'[f] == AddObservation(LookupField(fields, f), Show(Observe(a, f)), a.analysisId)
    ensures FieldsDescribe(fields', rs + [a], a.sample.sampleId)
  {
    var s := a.sample.sampleId;
    forall f, v
      ensures v in LookupField(fields', f) <==> WithValue(rs + [a], s, f, v) != []
      ensures v in LookupField(fields', f) ==> LookupField(fields', f)[v] == Ids(WithValue(rs + [a], s, f, v))
    {
      WithValueSnoc(rs, a, s, f, v);
      IdsSnoc(WithValue(rs, s, f, v), a);
    }
  }

  lemma SeqExpOther(seqExp: Dict<SeqBucket>, rs: seq<AnalysisRecord>, a: AnalysisRecord)
    requires SeqExpDescribes(seqExp, rs, a.sample.sampleId) && !IsSequencing(a)
    ensures SeqExpDescribes(seqExp, rs + [a], a.sample.sampleId)
  {
    var s := a.sample.sampleId;
    StrategyOrderSnoc(rs, a, s);
    forall st ensures SeqRecordsOf(rs + [a], s, st) == SeqRecordsOf(rs, s, st) {
      SeqRecordsOfSnoc(rs, a, s, st);
    }
  }

  lemma SeqExpAdd(seqExp: Dict<SeqBucket>, seqExp': Dict<SeqBucket>, rs: seq<AnalysisRecord>, a: AnalysisRecord)
    requires SeqExpDescribes(seqExp, rs, a.sample.sampleId) && seqExp.Valid() && IsSequencing(a)
    requires seqExp' == Put(seqExp, a.experimentalStrategy, Grown(seqExp, a))
    ensures SeqExpDescribes(seqExp', rs + [a], a.sample.sampleId)
    ensures seqExp'.Valid()
    ensures forall st :: st in seqExp'.entries ==>
      && |seqExp'.entries[st].analysisIds| > 0
      && |seqExp'.entries[st].analysisIds| == |seqExp'.entries[st].matchedNormals|
  {
    var s := a.sample.sampleId;
    var st0 := a.experimentalStrategy;
    StrategyOrderSnoc(rs, a, s);
    assert st0 in seqExp.entries <==> st0 in StrategyOrder(rs, s);
    forall st | st in seqExp'.entries
      ensures seqExp'.entries[st] == SeqBucket(Ids(SeqRecordsOf(rs + [a], s, st)), MatchedNormals(SeqRecordsOf(rs + [a], s, st)))
    {
      SeqBucketAdd(seqExp, rs, a, st);
    }
  }

  lemma SeqBucketAdd(seqExp: Dict<SeqBucket>, rs: seq<AnalysisRecord>, a: AnalysisRecord, st: string)
    requires SeqExpDescribes(seqExp, rs, a.sample.sampleId) && seqExp.Valid() && IsSequencing(a)
    requires st in seqExp.entries || st == a.experimentalStrategy
    ensures var b := if st == a.experimentalStrategy then Grown(seqExp, a) else seqExp.entries[st];
      b == SeqBucket(Ids(SeqRecordsOf(rs + [a], a.sample.sampleId, st)), MatchedNormals(SeqRecordsOf(rs + [a], a.sample.sampleId, st)))
  {
    var s := a.sample.sampleId;
    SeqRecordsOfSnoc(rs, a, s, st);
    if st == a.experimentalStrategy {
      IdsSnoc(SeqRecordsOf(rs, s, st), a);
      if st !in seqExp.entries {
        NoSeqRecords(rs, s, st);
      }
    }
  }

  /** A strategy not yet seen for s has no sequencing analyses. */
  lemma NoSeqRecords(rs: seq<AnalysisRecord>, s: string, st: string)
    requires st !in StrategyOrder(rs, s)
    ensures SeqRecordsOf(rs, s, st) == []
  {
  }

  // ---------------------------------------------------------------------
  // What the aggregate promises about the analyses.

  /** Per tracked field, the value lists partition the analyses of s: each
      analysis of s is listed under the value it shows, as often as it
      occurs among the analyses of s, and under no other value. */
  lemma {:induction false} FieldPartition(rs: seq<AnalysisRecord>, s: string, f: Field, a: AnalysisRecord)
    ensures multiset(WithValue(rs, s, f, Show(Observe(a, f))))[a] == multiset(RecordsOf(rs, s))[a]
    ensures forall v :: v != Show(Observe(a, f)) ==> a !in WithValue(rs, s, f, v)
  {
    if rs != [] {
      var init := rs[..|rs| - 1];
      assert rs == init + [Last(rs)];
      FieldPartition(init, s, f, a);
    }
  }

  /** Each value list keeps the order of the analyses of s: it is their
      sub-list of the analyses showing that value. */
  lemma {:induction false} WithValueOfSample(rs: seq<AnalysisRecord>, s: string, f: Field, v: string)
    ensures WithValue(RecordsOf(rs, s), s, f, v) == WithValue(rs, s, f, v)
  {
    if rs != [] {
      var init := rs[..|rs| - 1];
      var a := Last(rs);
      assert rs == init + [a];
      WithValueOfSample(init, s, f, v);
      RecordsOfSnoc(init, a, s);
      WithValueSnoc(init, a, s, f, v);
      if a.sample.sampleId == s {
        WithValueSnoc(RecordsOf(init, s), a, s, f, v);
      }
    }
  }

  /** Index k of a bucket speaks of one sequencing analysis of s under st:
      the two lists stay aligned. */
  lemma BucketAligned(si: SampleInfo, rs: seq<AnalysisRecord>, s: string, st: string, k: int)
    requires Describes(si, rs, s) && st in si.seqExp.entries
    requires 0 <= k < |si.seqExp.entries[st].analysisIds|
    ensures k < |si.seqExp.entries[st].matchedNormals|
    ensures exists a ::
      && a in rs && IsSequencing(a) && a.sample.sampleId == s && a.experimentalStrategy == st
      && si.seqExp.entries[st].analysisIds[k] == a.analysisId
      && si.seqExp.entries[st].matchedNormals[k] == a.sample.matchedNormalSubmitterSampleId
  {
    var a := SeqRecordsOf(rs, s, st)[k];
    assert a in SeqRecordsOf(rs, s, st);
  }

  /** Every sequencing analysis of s is in the bucket of its strategy. */
  lemma SequencingCovered(si: SampleInfo, rs: seq<AnalysisRecord>, s: string, a: AnalysisRecord)
    requires Describes(si, rs, s) && si.seqExp.Valid()
    requires a in rs && IsSequencing(a) && a.sample.sampleId == s
    ensures a.experimentalStrategy in si.seqExp.entries
    ensures a.analysisId in si.seqExp.entries[a.experimentalStrategy].analysisIds
  {
    var rs' := SeqRecordsOf(rs, s, a.experimentalStrategy);
    assert a in rs';
    var k :| 0 <= k < |rs'| && rs'[k] == a;
    assert Ids(rs')[k] == a.analysisId;
  }
}
