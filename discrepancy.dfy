/** value_discrepancy_check: collapses sample_info into one canonical record
    per sample.  A field or strategy observed with exactly one value resolves;
    one observed with several values is reported with all of them instead. */
module Discrepancy {
  import opened Records
  import opened Dicts
  import opened Aggregation

  /** samples[s]['sequencing_experiment'][strategy]. */
  datatype SeqEntry = SeqEntry(analysisId: string, matchedNormalSubmitterSampleId: Value)

  /** samples[s]: the fields that resolved and the strategies that resolved.
      An empty seqExp stands for an absent 'sequencing_experiment' key. */
  datatype CanonicalSample = CanonicalSample(
    sampleId: string,
    fields: map<Field, Value>,
    seqExp: Dict<SeqEntry>)

  /** issues[s]: each conflicting field with its full value -> analysis ids map,
      and each strategy with several sequencing analyses with their ids. */
  datatype SampleIssues = SampleIssues(
    fields: map<Field, map<string, seq<string>>>,
    seqExp: map<string, seq<string>>)

  /** The strategies, in order, that have exactly one sequencing analysis. */
  function SingleStrategies(keys: seq<string>, buckets: map<string, SeqBucket>): (r: seq<string>)
    ensures forall st :: st in r <==> st in keys && st in buckets && |buckets[st].analysisIds| == 1
  {
    if keys == [] then []
    else
      var init := SingleStrategies(keys[..|keys| - 1], buckets);
      var st := keys[|keys| - 1];
      assert keys == keys[..|keys| - 1] + [st];
      if st in buckets && |buckets[st].analysisIds| == 1 then init + [st] else init
  }

  ghost predicate HasConflict(si: SampleInfo)
    requires WellFormedInfo(si)
  {
    || (exists f :: |si.fields[f]| > 1)
    || (exists st :: st in si.seqExp.entries && |si.seqExp.entries[st].analysisIds| > 1)
  }

  /** c is the canonical record of si. */
  ghost predicate Resolved(si: SampleInfo, c: CanonicalSample)
    requires WellFormedInfo(si)
  {
    && (forall f :: f in c.fields <==> |si.fields[f]| == 1)
    && (forall f, v :: f in c.fields && v in si.fields[f] ==> c.fields[f] == Canon(v))
    && c.seqExp.Valid()
    && c.seqExp.keys == SingleStrategies(si.seqExp.keys, si.seqExp.entries)
    && (forall st :: st in c.seqExp.entries ==>
          c.seqExp.entries[st] == SeqEntry(si.seqExp.entries[st].analysisIds[0], si.seqExp.entries[st].matchedNormals[0]))
  }

  /** iss reports every conflict of si, with all its values. */
  ghost predicate Reported(si: SampleInfo, iss: SampleIssues)
    requires WellFormedInfo(si)
  {
    && (forall f :: f in iss.fields <==> |si.fields[f]| > 1)
    && (forall f :: f in iss.fields ==> iss.fields[f] == si.fields[f])
    && (forall st :: st in iss.seqExp <==> st in si.seqExp.entries && |si.seqExp.entries[st].analysisIds| > 1)
    && (forall st :: st in iss.seqExp ==> iss.seqExp[st] == si.seqExp.entries[st].analysisIds)
  }

  /** The canonical table the submitter index and the pairing read. */
  ghost predicate CanonicalTable(samples: Dict<CanonicalSample>)
  {
    && samples.Valid()
    && (forall s :: s in samples.entries ==> samples.entries[s].sampleId == s && samples.entries[s].seqExp.Valid())
  }

  /** The loop over the tracked fields of one sample. */
  method ResolveFields(fields: map<Field, map<string, seq<string>>>)
    returns (canon: map<Field, Value>, conflicts: map<Field, map<string, seq<string>>>)
    requires forall f :: f in fields && |fields[f]| > 0
    ensures forall f :: f in canon <==> |fields[f]| == 1
    ensures forall f, v :: f in canon && v in fields[f] ==> canon[f] == Canon(v)
    ensures forall f :: f in conflicts <==> |fields[f]| > 1
    ensures forall f :: f in conflicts ==> conflicts[f] == fields[f]
  {
    TrackedFieldsAreAllFields();
    canon, conflicts := map[], map[];
    var k := 0;
    while k < |TrackedFields|
      invariant 0 <= k <= |TrackedFields|
      invariant forall f :: f in canon <==> f in TrackedFields[..k] && |fields[f]| == 1
      invariant forall f, v :: f in canon && v in fields[f] ==> canon[f] == Canon(v)
      invariant forall f :: f in conflicts <==> f in TrackedFields[..k] && |fields[f]| > 1
      invariant forall f :: f in conflicts ==> conflicts[f] == fields[f]
    {
      var f := TrackedFields[k];
      if |fields[f]| > 1 {
        conflicts := conflicts[f := fields[f]];
      } else {
        var v :| v in fields[f];
        OnlyKey(fields[f], v);
        canon := canon[f := Canon(v)];
      }
      assert TrackedFields[..k + 1] == TrackedFields[..k] + [f];
      k := k + 1;
    }
    assert TrackedFields[..k] == TrackedFields;
  }

  /** What the loop over the strategies has built after visiting done. */
  ghost predicate StrategiesResolved(seqExp: Dict<SeqBucket>, done: seq<string>,
                                     canon: Dict<SeqEntry>, conflicts: map<string, seq<string>>)
  {
    && canon.Valid()
    && canon.keys == SingleStrategies(done, seqExp.entries)
    && (forall st :: st in canon.entries ==>
          && st in seqExp.entries
          && |seqExp.entries[st].analysisIds| > 0 && |seqExp.entries[st].matchedNormals| > 0
          && canon.entries[st] == SeqEntry(seqExp.entries[st].analysisIds[0], seqExp.entries[st].matchedNormals[0]))
    && (forall st :: st in conflicts <==> st in done && st in seqExp.entries && |seqExp.entries[st].analysisIds| > 1)
    && (forall st :: st in conflicts ==> st in seqExp.entries && conflicts[st] == seqExp.entries[st].analysisIds)
  }

  /** One step of the loop over the strategies. */
  method ResolveStrategy(seqExp: Dict<SeqBucket>, ghost done: seq<string>, st: string,
                         canon: Dict<SeqEntry>, conflicts: map<string, seq<string>>)
    returns (canon': Dict<SeqEntry>, conflicts': map<string, seq<string>>)
    requires st in seqExp.entries && st !in done
    requires |seqExp.entries[st].analysisIds| > 0 && |seqExp.entries[st].matchedNormals| > 0
    requires StrategiesResolved(seqExp, done, canon, conflicts)
    ensures StrategiesResolved(seqExp, done + [st], canon', conflicts')
  {
    SingleStrategiesSnoc(done, st, seqExp.entries);
    var bucket := seqExp.entries[st];
    if |bucket.analysisIds| > 1 {
      canon', conflicts' := canon, conflicts[st := bucket.analysisIds];
    } else {
      assert st !in canon.entries;
      canon', conflicts' := Put(canon, st, SeqEntry(bucket.analysisIds[0], bucket.matchedNormals[0])), conflicts;
    }
  }

  /** The loop over the strategies of one sample. */
  method ResolveStrategies(seqExp: Dict<SeqBucket>) returns (canon: Dict<SeqEntry>, conflicts: map<string, seq<string>>)
    requires seqExp.Valid()
    requires forall st :: st in seqExp.entries ==>
      |seqExp.entries[st].analysisIds| > 0 && |seqExp.entries[st].analysisIds| == |seqExp.entries[st].matchedNormals|
    ensures canon.Valid()
    ensures canon.keys == SingleStrategies(seqExp.keys, seqExp.entries)
    ensures forall st :: st in canon.entries ==>
      st in seqExp.entries && canon.entries[st] == SeqEntry(seqExp.entries[st].analysisIds[0], seqExp.entries[st].matchedNormals[0])
    ensures forall st :: st in conflicts <==> st in seqExp.entries && |seqExp.entries[st].analysisIds| > 1
    ensures forall st :: st in conflicts ==> conflicts[st] == seqExp.entries[st].analysisIds
  {
    canon, conflicts := Empty(), map[];
    var keys := seqExp.keys;
    var j := 0;
    while j < |keys|
      invariant 0 <= j <= |keys|
      invariant StrategiesResolved(seqExp, keys[..j], canon, conflicts)
    {
      var st := keys[j];
      assert keys[..j + 1] == keys[..j] + [st];
      canon, conflicts := ResolveStrategy(seqExp, keys[..j], st, canon, conflicts);
      j := j + 1;
    }
    assert keys[..j] == keys;
  }

  /** The body of the loop over sample_info for one sample. */
  method ResolveSample(si: SampleInfo) returns (c: CanonicalSample, iss: Option<SampleIssues>)
    requires WellFormedInfo(si)
    ensures c.sampleId == si.sampleId && Resolved(si, c)
    ensures iss.Some? <==> HasConflict(si)
    ensures iss.Some? ==> Reported(si, iss.value)
  {
    var fields, fieldConflicts := ResolveFields(si.fields);
    var seqExp, seqConflicts := ResolveStrategies(si.seqExp);
    c := CanonicalSample(si.sampleId, fields, seqExp);
    if fieldConflicts != map[] || seqConflicts != map[] {
      ConflictWitness(si, fieldConflicts, seqConflicts);
      iss := Some(SampleIssues(fieldConflicts, seqConflicts));
    } else {
      NoConflictWitness(si, fieldConflicts, seqConflicts);
      iss := None;
    }
  }

  /** The loop over the samples of sample_info. */
  method CheckDiscrepancies(info: Dict<SampleInfo>) returns (samples: Dict<CanonicalSample>, issues: map<string, SampleIssues>)
    requires WellFormed(info)
    ensures CanonicalTable(samples)
    ensures samples.keys == info.keys
    ensures forall s :: s in samples.entries ==> Resolved(info.entries[s], samples.entries[s])
    ensures forall s :: s in issues <==> s in info.entries && HasConflict(info.entries[s])
    ensures forall s :: s in issues ==> Reported(info.entries[s], issues[s])
  {
    samples, issues := Empty(), map[];
    var i := 0;
    while i < |info.keys|
      invariant 0 <= i <= |info.keys|
      invariant CanonicalTable(samples)
      invariant samples.keys == info.keys[..i]
      invariant forall s :: s in samples.entries ==> s in info.entries && Resolved(info.entries[s], samples.entries[s])
      invariant forall s :: s in issues <==> s in info.keys[..i] && HasConflict(info.entries[s])
      invariant forall s :: s in issues ==> s in info.entries && Reported(info.entries[s], issues[s])
    {
      var s := info.keys[i];
      var c, iss := ResolveSample(info.entries[s]);
      if iss.Some? {
        issues := issues[s := iss.value];
      }
      assert s !in info.keys[..i];
      assert info.keys[..i + 1] == info.keys[..i] + [s];
      samples := Put(samples, s, c);
      i := i + 1;
    }
    assert info.keys[..i] == info.keys;
  }

  lemma SingleStrategiesSnoc(keys: seq<string>, st: string, buckets: map<string, SeqBucket>)
    ensures SingleStrategies(keys + [st], buckets) ==
      SingleStrategies(keys, buckets) + (if st in buckets && |buckets[st].analysisIds| == 1 then [st] else [])
  {
    assert (keys + [st])[..|keys|] == keys;
  }

  /** A map with one key has no other key. */
  lemma OnlyKey<V>(m: map<string, V>, v: string)
    requires |m| == 1 && v in m
    ensures m.Keys == {v}
  {
    assert |m.Keys - {v}| == |m.Keys| - 1;
    assert m.Keys - {v} == {};
  }

  lemma ConflictWitness(si: SampleInfo, fieldConflicts: map<Field, map<string, seq<string>>>,
                        seqConflicts: map<string, seq<string>>)
    requires WellFormedInfo(si)
    requires forall f :: f in fieldConflicts <==> |si.fields[f]| > 1
    requires forall st :: st in seqConflicts <==> st in si.seqExp.entries && |si.seqExp.entries[st].analysisIds| > 1
    requires fieldConflicts != map[] || seqConflicts != map[]
    ensures HasConflict(si)
  {
    if fieldConflicts != map[] {
      var f :| f in fieldConflicts;
      assert |si.fields[f]| > 1;
    } else {
      var st :| st in seqConflicts;
      assert st in si.seqExp.entries && |si.seqExp.entries[st].analysisIds| > 1;
    }
  }

  lemma NoConflictWitness(si: SampleInfo, fieldConflicts: map<Field, map<string, seq<string>>>,
                          seqConflicts: map<string, seq<string>>)
    requires WellFormedInfo(si)
    requires forall f :: f in fieldConflicts <==> |si.fields[f]| > 1
    requires forall st :: st in seqConflicts <==> st in si.seqExp.entries && |si.seqExp.entries[st].analysisIds| > 1
    requires fieldConflicts == map[] && seqConflicts == map[]
    ensures !HasConflict(si)
  {
  }
}
