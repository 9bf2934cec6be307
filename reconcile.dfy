/** validate_sample_and_seq_exp for one donor: the aggregation, the
    discrepancy check, the submitter index and the pairing, in that order,
    with what the canonical table and the issues say about the donor's
    analyses themselves. */
module Validator {
  import opened Records
  import opened Dicts
  import opened Aggregation
  import opened Discrepancy
  import opened SubmitterIndex
  import opened Pairing

  /** Every analysis of s shows v for field f. */
  ghost predicate Unanimous(rs: seq<AnalysisRecord>, s: string, f: Field, v: string)
  {
    forall a :: a in RecordsOf(rs, s) ==> Show(Observe(a, f)) == v
  }

  /** The analyses of s agree on field f. */
  ghost predicate Agreed(rs: seq<AnalysisRecord>, s: string, f: Field)
  {
    exists v :: Unanimous(rs, s, f, v)
  }

  /** The analyses of s disagree on some field, or some strategy of s has
      several sequencing analyses. */
  ghost predicate Conflicting(rs: seq<AnalysisRecord>, s: string)
  {
    || (exists f :: !Agreed(rs, s, f))
    || (exists st :: |SeqRecordsOf(rs, s, st)| > 1)
  }

  /** samples[s] in terms of the analyses: a field is kept exactly when all
      analyses of s agree on it, a strategy exactly when s has one
      sequencing analysis under it. */
  ghost predicate SampleFromRecords(c: CanonicalSample, rs: seq<AnalysisRecord>, s: string)
  {
    && c.sampleId == s
    && c.seqExp.keys == SingleOf(StrategyOrder(rs, s), rs, s)
    && (forall f :: f in c.fields <==> Agreed(rs, s, f))
    && (forall f, a :: f in c.fields && a in RecordsOf(rs, s) ==> c.fields[f] == Canon(Show(Observe(a, f))))
    && (forall st :: st in c.seqExp.entries <==> |SeqRecordsOf(rs, s, st)| == 1)
    && (forall st :: st in c.seqExp.entries ==>
          && |SeqRecordsOf(rs, s, st)| == 1
          && c.seqExp.entries[st] == SeqEntry(SeqRecordsOf(rs, s, st)[0].analysisId,
                                              SeqRecordsOf(rs, s, st)[0].sample.matchedNormalSubmitterSampleId))
  }

  /** The strategies of order, in order, under which s has exactly one
      sequencing analysis. */
  function SingleOf(order: seq<string>, rs: seq<AnalysisRecord>, s: string): (r: seq<string>)
    ensures forall st :: st in r <==> st in order && |SeqRecordsOf(rs, s, st)| == 1
  {
    if order == [] then []
    else
      var init := SingleOf(order[..|order| - 1], rs, s);
      var st := order[|order| - 1];
      assert order == order[..|order| - 1] + [st];
      if |SeqRecordsOf(rs, s, st)| == 1 then init + [st] else init
  }

  /** Buckets that list the sequencing analyses of s keep, in order, the
      strategies with one analysis of s. */
  lemma {:induction false} SingleStrategiesOf(keys: seq<string>, buckets: map<string, SeqBucket>,
                                              rs: seq<AnalysisRecord>, s: string)
    requires forall st :: st in keys ==> st in buckets && |buckets[st].analysisIds| == |SeqRecordsOf(rs, s, st)|
    ensures SingleStrategies(keys, buckets) == SingleOf(keys, rs, s)
  {
    if keys != [] {
      var init := keys[..|keys| - 1];
      assert keys == init + [keys[|keys| - 1]];
      SingleStrategiesOf(init, buckets, rs, s);
    }
  }

  /** issues[s] in terms of the analyses: every disputed field with every
      value and who reported it, every strategy with several analyses. */
  ghost predicate IssueFromRecords(iss: SampleIssues, rs: seq<AnalysisRecord>, s: string)
  {
    && (forall f :: f in iss.fields <==> !Agreed(rs, s, f))
    && (forall f, v :: f in iss.fields ==> (v in iss.fields[f] <==> WithValue(rs, s, f, v) != []))
    && (forall f, v :: f in iss.fields && v in iss.fields[f] ==> iss.fields[f][v] == Ids(WithValue(rs, s, f, v)))
    && (forall st :: st in iss.seqExp <==> |SeqRecordsOf(rs, s, st)| > 1)
    && (forall st :: st in iss.seqExp ==> iss.seqExp[st] == Ids(SeqRecordsOf(rs, s, st)))
  }

  /** The four stages over the analyses of one donor. */
  method Reconcile(records: seq<AnalysisRecord>)
    returns (samples: Dict<CanonicalSample>, issues: map<string, SampleIssues>,
             index: map<Value, string>, pairing: Pairing)
    ensures CanonicalTable(samples) && samples.keys == SampleOrder(records)
    ensures forall s :: s in samples.entries ==> SampleFromRecords(samples.entries[s], records, s)
    ensures forall s :: s in issues <==> s in samples.entries && Conflicting(records, s)
    ensures forall s :: s in issues ==> IssueFromRecords(issues[s], records, s)
    ensures forall k :: k in index <==> exists s :: s in samples.entries && Carries(samples.entries[s], k)
    ensures forall k :: k in index ==> Some(index[k]) == LastCarrying(samples.keys, samples.entries, k)
    ensures TumourOutcomes(samples, index, pairing) && NormalOutcomes(samples, index, pairing)
  {
    var info := Aggregate(records);
    samples, issues := CheckDiscrepancies(info);
    forall s | s in samples.entries
      ensures SampleFromRecords(samples.entries[s], records, s)
    {
      SampleFromInfo(info.entries[s], samples.entries[s], records, s);
    }
    forall s | s in samples.entries
      ensures s in issues <==> Conflicting(records, s)
    {
      ConflictFromInfo(info.entries[s], records, s);
    }
    forall s | s in issues
      ensures IssueFromRecords(issues[s], records, s)
    {
      IssueFromInfo(info.entries[s], issues[s], records, s);
    }
    index := IndexSubmitters(samples);
    pairing := ResolvePairs(samples, index);
  }

  /** The first pass's lookup through the submitter index built from a
      canonical table: it finds the last sample carrying the matched-normal
      submitter id, and fails exactly when no sample carries it or that
      sample's id is empty. */
  lemma MatchedNormalLookup(samples: Dict<CanonicalSample>, index: map<Value, string>, mn: Value)
    requires CanonicalTable(samples)
    requires forall k :: k in index <==> exists s :: s in samples.entries && Carries(samples.entries[s], k)
    requires forall k :: k in index ==> Some(index[k]) == LastCarrying(samples.keys, samples.entries, k)
    ensures MatchedNormalOf(index, mn).Some? <==>
      && (exists s :: s in samples.entries && Carries(samples.entries[s], mn))
      && LastCarrying(samples.keys, samples.entries, mn).value != ""
    ensures MatchedNormalOf(index, mn).Some? ==>
      && MatchedNormalOf(index, mn) == LastCarrying(samples.keys, samples.entries, mn)
      && MatchedNormalOf(index, mn).value in samples.entries
      && Carries(samples.entries[MatchedNormalOf(index, mn).value], mn)
  {
    if mn in index {
      IndexedSampleCarries(samples, mn);
    }
  }

  /** The value map m of field f for s names exactly the values some
      analysis of s shows. */
  ghost predicate ValuesOf(m: map<string, seq<string>>, rs: seq<AnalysisRecord>, s: string, f: Field)
  {
    forall v :: v in m <==> WithValue(rs, s, f, v) != []
  }

  /** A value map with one key: the analyses of s agree. */
  lemma OneKeyAgreed(m: map<string, seq<string>>, rs: seq<AnalysisRecord>, s: string, f: Field)
    requires ValuesOf(m, rs, s, f) && |m| == 1
    ensures Agreed(rs, s, f)
  {
    var v :| v in m;
    OnlyKey(m, v);
    forall a | a in RecordsOf(rs, s) ensures Show(Observe(a, f)) == v {
      assert a in WithValue(rs, s, f, Show(Observe(a, f)));
    }
    assert Unanimous(rs, s, f, v);
  }

  /** The analyses of s agree, and there is one: the value map has one key. */
  lemma AgreedOneKey(m: map<string, seq<string>>, rs: seq<AnalysisRecord>, s: string, f: Field)
    requires ValuesOf(m, rs, s, f) && RecordsOf(rs, s) != [] && Agreed(rs, s, f)
    ensures |m| == 1
  {
    var v :| Unanimous(rs, s, f, v);
    var a := RecordsOf(rs, s)[0];
    assert a in WithValue(rs, s, f, v);
    forall w | w in m ensures w == v {
      var b := WithValue(rs, s, f, w)[0];
      assert b in WithValue(rs, s, f, w);
    }
    assert m.Keys == {v};
  }

  /** Per field, the value map has one key exactly when the analyses of s
      agree. */
  lemma OneValueIff(si: SampleInfo, rs: seq<AnalysisRecord>, s: string, f: Field)
    requires WellFormedInfo(si) && FieldsDescribe(si.fields, rs, s) && RecordsOf(rs, s) != []
    ensures |si.fields[f]| == 1 <==> Agreed(rs, s, f)
  {
    var m := si.fields[f];
    FieldValues(si, rs, s, f);
    if |m| == 1 {
      OneKeyAgreed(m, rs, s, f);
    }
    if Agreed(rs, s, f) {
      AgreedOneKey(m, rs, s, f);
    }
  }

  /** The value map of field f names exactly the values the analyses of s show. */
  lemma FieldValues(si: SampleInfo, rs: seq<AnalysisRecord>, s: string, f: Field)
    requires WellFormedInfo(si) && FieldsDescribe(si.fields, rs, s)
    ensures ValuesOf(si.fields[f], rs, s, f)
  {
    assert LookupField(si.fields, f) == si.fields[f];
  }

  lemma SampleFromInfo(si: SampleInfo, c: CanonicalSample, rs: seq<AnalysisRecord>, s: string)
    requires WellFormedInfo(si) && Describes(si, rs, s) && s in SampleOrder(rs) && Resolved(si, c)
    requires c.sampleId == s
    ensures SampleFromRecords(c, rs, s)
  {
    forall f ensures f in c.fields <==> Agreed(rs, s, f) {
      OneValueIff(si, rs, s, f);
    }
    forall f, a | f in c.fields && a in RecordsOf(rs, s)
      ensures c.fields[f] == Canon(Show(Observe(a, f)))
    {
      assert a in WithValue(rs, s, f, Show(Observe(a, f)));
      assert LookupField(si.fields, f) == si.fields[f];
    }
    forall st ensures st in c.seqExp.entries <==> |SeqRecordsOf(rs, s, st)| == 1 {
      StrategyIff(si, c, rs, s, st);
    }
    SingleStrategiesOf(si.seqExp.keys, si.seqExp.entries, rs, s);
  }

  lemma StrategyIff(si: SampleInfo, c: CanonicalSample, rs: seq<AnalysisRecord>, s: string, st: string)
    requires WellFormedInfo(si) && SeqExpDescribes(si.seqExp, rs, s) && Resolved(si, c)
    ensures st in c.seqExp.entries <==> |SeqRecordsOf(rs, s, st)| == 1
  {
    if |SeqRecordsOf(rs, s, st)| == 1 {
      assert SeqRecordsOf(rs, s, st) != [];
      assert st in si.seqExp.keys;
    }
  }

  lemma ConflictFromInfo(si: SampleInfo, rs: seq<AnalysisRecord>, s: string)
    requires WellFormedInfo(si) && Describes(si, rs, s) && s in SampleOrder(rs)
    ensures HasConflict(si) <==> Conflicting(rs, s)
  {
    forall f ensures |si.fields[f]| > 1 <==> !Agreed(rs, s, f) {
      OneValueIff(si, rs, s, f);
    }
    forall st ensures (st in si.seqExp.entries && |si.seqExp.entries[st].analysisIds| > 1) <==> |SeqRecordsOf(rs, s, st)| > 1 {
      if |SeqRecordsOf(rs, s, st)| > 1 {
        assert SeqRecordsOf(rs, s, st) != [];
        assert st in si.seqExp.keys;
      }
    }
  }

  lemma IssueFromInfo(si: SampleInfo, iss: SampleIssues, rs: seq<AnalysisRecord>, s: string)
    requires WellFormedInfo(si) && Describes(si, rs, s) && s in SampleOrder(rs) && Reported(si, iss)
    ensures IssueFromRecords(iss, rs, s)
  {
    forall f ensures f in iss.fields <==> !Agreed(rs, s, f) {
      OneValueIff(si, rs, s, f);
    }
    forall f ensures LookupField(si.fields, f) == si.fields[f] {
    }
    forall st ensures st in iss.seqExp <==> |SeqRecordsOf(rs, s, st)| > 1 {
      if |SeqRecordsOf(rs, s, st)| > 1 {
        assert SeqRecordsOf(rs, s, st) != [];
        assert st in si.seqExp.keys;
      }
    }
  }
}
