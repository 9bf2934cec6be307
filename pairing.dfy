/** resolve_tumour_normal_pairs: pairs every sequencing strategy of every
    Tumour sample with the same strategy of its matched normal sample.

    The first pass visits, in order, each Tumour sample that has sequencing
    data and each of its strategies; every such visit ends in exactly one of
    three places: an issue (the matched normal cannot be looked up), a pair
    (the matched normal has data for the strategy) or "tumour not paired".
    Pairs are also collected per normal.  The second pass records the Normal
    samples that no tumour was paired with. */
module Pairing {
  import opened Records
  import opened Dicts
  import opened Discrepancy

  /** tumour_normal_pairs[tumour][strategy]. */
  datatype TumourNormalPair = TumourNormalPair(
    tumourAnalysisId: string,
    normalAnalysisId: string,
    matchedNormalSubmitterSampleId: Value,
    matchedNormalSampleId: string)

  /** tumour_not_paired[tumour][strategy]; the normal's analysis id is always null. */
  datatype TumourUnpaired = TumourUnpaired(analysisId: string, normalAnalysisId: Option<string>)

  /** normal_paired[normal][strategy]. */
  datatype NormalPairing = NormalPairing(analysisId: string, matchedTumourAnalysisIds: seq<string>)

  /** normal_not_paired[normal]: the one strategy recorded and its analysis. */
  datatype NormalUnpaired = NormalUnpaired(strategy: string, analysisId: string)

  /** One entry of issues[tumour]: the facts the message reports. */
  datatype PairingIssue = PairingIssue(strategy: string, tumourAnalysisId: string, matchedNormalSubmitterSampleId: Value)

  /** The five dicts the function returns. */
  datatype Pairing = Pairing(
    pairs: map<string, map<string, TumourNormalPair>>,
    tumourNotPaired: map<string, map<string, TumourUnpaired>>,
    normalNotPaired: map<string, NormalUnpaired>,
    normalPaired: map<string, map<string, NormalPairing>>,
    issues: map<string, seq<PairingIssue>>)

  /** What the first pass has built so far. */
  datatype TumourPass = TumourPass(
    pairs: map<string, map<string, TumourNormalPair>>,
    tumourNotPaired: map<string, map<string, TumourUnpaired>>,
    normalPaired: map<string, map<string, NormalPairing>>,
    issues: map<string, seq<PairingIssue>>)

  // ---------------------------------------------------------------------
  // Reference definitions.

  /** The sample's designation resolved to d and it has sequencing data. */
  predicate Designated(c: CanonicalSample, d: string)
  {
    && TumourNormalDesignation in c.fields
    && c.fields[TumourNormalDesignation] == Some(d)
    && |c.seqExp.keys| > 0
  }

  /** Where a visit of the first pass ends. */
  datatype Outcome =
    | Unresolved(issue: PairingIssue)
    | Paired(pair: TumourNormalPair)
    | Unmatched(unpaired: TumourUnpaired)

  /** One (tumour, strategy) visit of the first pass: the tumour's entry
      for the strategy and the outcome the pass decides for it. */
  datatype Visit = Visit(tumour: string, strategy: string, entry: SeqEntry, outcome: Outcome)

  /** The index lookup of the matched-normal submitter id, read as a truth
      value: a missing key and an empty sample id are both false. */
  function MatchedNormalOf(index: map<Value, string>, mn: Value): Option<string>
  {
    if mn in index && index[mn] != "" then Some(index[mn]) else None
  }

  /** The decision the first pass takes for a tumour's entry e under st. */
  function OutcomeOf(samples: Dict<CanonicalSample>, index: map<Value, string>, st: string, e: SeqEntry): Outcome
  {
    var mn := e.matchedNormalSubmitterSampleId;
    match MatchedNormalOf(index, mn)
    case None => Unresolved(PairingIssue(st, e.analysisId, mn))
    case Some(n) =>
      if n in samples.entries && st in samples.entries[n].seqExp.entries
      then Paired(TumourNormalPair(e.analysisId, samples.entries[n].seqExp.entries[st].analysisId, mn, n))
      else Unmatched(TumourUnpaired(e.analysisId, None))
  }

  function VisitOf(samples: Dict<CanonicalSample>, index: map<Value, string>, t: string, st: string, e: SeqEntry): Visit
  {
    Visit(t, st, e, OutcomeOf(samples, index, st, e))
  }

  /** The visits of tumour t: its strategies keys in order. */
  function StrategyVisits(samples: Dict<CanonicalSample>, index: map<Value, string>, t: string,
                          keys: seq<string>, entries: map<string, SeqEntry>): (vs: seq<Visit>)
    ensures forall v :: v in vs <==>
      v.strategy in keys && v.strategy in entries && v == VisitOf(samples, index, t, v.strategy, entries[v.strategy])
  {
    if keys == [] then []
    else
      var st := keys[|keys| - 1];
      assert keys == keys[..|keys| - 1] + [st];
      StrategyVisits(samples, index, t, keys[..|keys| - 1], entries) +
        (if st in entries then [VisitOf(samples, index, t, st, entries[st])] else [])
  }

  /** The visits of sample t: none unless it is a Tumour with sequencing data. */
  function TumourVisitsOf(samples: Dict<CanonicalSample>, index: map<Value, string>, t: string): seq<Visit>
  {
    if t in samples.entries && Designated(samples.entries[t], "Tumour")
    then StrategyVisits(samples, index, t, samples.entries[t].seqExp.keys, samples.entries[t].seqExp.entries)
    else []
  }

  /** All visits of the first pass over the samples ts, in order. */
  function TumourVisits(samples: Dict<CanonicalSample>, index: map<Value, string>, ts: seq<string>): seq<Visit>
  {
    if ts == [] then []
    else TumourVisits(samples, index, ts[..|ts| - 1]) + TumourVisitsOf(samples, index, ts[|ts| - 1])
  }

  /** The last visit of (t, st) in vs. */
  function Find(vs: seq<Visit>, t: string, st: string): (r: Option<Visit>)
    ensures r.Some? ==> r.value in vs && r.value.tumour == t && r.value.strategy == st
  {
    if vs == [] then None
    else
      var v := vs[|vs| - 1];
      assert vs == vs[..|vs| - 1] + [v];
      if v.tumour == t && v.strategy == st then Some(v) else Find(vs[..|vs| - 1], t, st)
  }

  /** The issues the visits vs raise for tumour t, in order. */
  function IssuesOf(vs: seq<Visit>, t: string): (r: seq<PairingIssue>)
    ensures forall iss :: iss in r <==> exists v :: v in vs && v.tumour == t && v.outcome == Unresolved(iss)
  {
    if vs == [] then []
    else
      var v := vs[|vs| - 1];
      assert vs == vs[..|vs| - 1] + [v];
      IssuesOf(vs[..|vs| - 1], t) + (if v.tumour == t && v.outcome.Unresolved? then [v.outcome.issue] else [])
  }

  /** Visit v paired its tumour with normal n. */
  predicate PairsWith(v: Visit, n: string)
  {
    v.outcome.Paired? && v.outcome.pair.matchedNormalSampleId == n
  }

  /** The tumour analyses the visits vs paired with normal n under st, in order. */
  function MatchedOf(vs: seq<Visit>, n: string, st: string): (r: seq<string>)
    ensures forall x :: x in r <==> exists v :: v in vs && v.strategy == st && PairsWith(v, n) && x == v.entry.analysisId
  {
    if vs == [] then []
    else
      var v := vs[|vs| - 1];
      assert vs == vs[..|vs| - 1] + [v];
      MatchedOf(vs[..|vs| - 1], n, st) + (if v.strategy == st && PairsWith(v, n) then [v.entry.analysisId] else [])
  }

  predicate IsPaired(f: Option<Visit>)
  {
    f.Some? && f.value.outcome.Paired?
  }

  predicate IsUnmatched(f: Option<Visit>)
  {
    f.Some? && f.value.outcome.Unmatched?
  }

  // ---------------------------------------------------------------------
  // What the first pass holds after the visits vs.

  ghost predicate PairsAfter(vs: seq<Visit>, pairs: map<string, map<string, TumourNormalPair>>)
  {
    && (forall t, st :: t in pairs && st in pairs[t] <==> IsPaired(Find(vs, t, st)))
    && (forall t, st :: t in pairs && st in pairs[t] ==> pairs[t][st] == Find(vs, t, st).value.outcome.pair)
    && (forall t :: t in pairs ==> |pairs[t]| > 0)
  }

  ghost predicate NotPairedAfter(vs: seq<Visit>, notPaired: map<string, map<string, TumourUnpaired>>)
  {
    && (forall t, st :: t in notPaired && st in notPaired[t] <==> IsUnmatched(Find(vs, t, st)))
    && (forall t, st :: t in notPaired && st in notPaired[t] ==> notPaired[t][st] == Find(vs, t, st).value.outcome.unpaired)
    && (forall t :: t in notPaired ==> |notPaired[t]| > 0)
  }

  ghost predicate NormalsAfter(samples: Dict<CanonicalSample>, vs: seq<Visit>,
                               normalPaired: map<string, map<string, NormalPairing>>)
  {
    && (forall n, st :: NormalAt(samples, vs, normalPaired, n, st))
    && (forall n :: n in normalPaired ==> |normalPaired[n]| > 0)
  }

  /** What NormalsAfter says of one normal and one strategy. */
  ghost predicate NormalAt(samples: Dict<CanonicalSample>, vs: seq<Visit>,
                           np: map<string, map<string, NormalPairing>>, n: string, st: string)
  {
    && (n in np && st in np[n] <==> MatchedOf(vs, n, st) != [])
    && (n in np && st in np[n] ==>
          && n in samples.entries && st in samples.entries[n].seqExp.entries
          && np[n][st] == NormalPairing(samples.entries[n].seqExp.entries[st].analysisId, MatchedOf(vs, n, st)))
  }

  ghost predicate IssuesAfter(vs: seq<Visit>, issues: map<string, seq<PairingIssue>>)
  {
    && (forall t :: t in issues <==> IssuesOf(vs, t) != [])
    && (forall t :: t in issues ==> issues[t] == IssuesOf(vs, t))
  }

  ghost predicate PassAfter(samples: Dict<CanonicalSample>, vs: seq<Visit>, p: TumourPass)
  {
    && PairsAfter(vs, p.pairs)
    && NotPairedAfter(vs, p.tumourNotPaired)
    && NormalsAfter(samples, vs, p.normalPaired)
    && IssuesAfter(vs, p.issues)
  }

  // ---------------------------------------------------------------------
  // The first pass.

  /** The body of the loop over one tumour's strategies. */
  method PairStrategy(samples: Dict<CanonicalSample>, index: map<Value, string>, ghost vs: seq<Visit>,
                      t: string, st: string, e: SeqEntry, p: TumourPass)
    returns (p': TumourPass)
    requires Find(vs, t, st).None?
    requires PassAfter(samples, vs, p)
    ensures PassAfter(samples, vs + [VisitOf(samples, index, t, st, e)], p')
  {
    ghost var v := VisitOf(samples, index, t, st, e);
    var mn := e.matchedNormalSubmitterSampleId;
    var matched := if mn in index then Some(index[mn]) else None;
    if matched.None? || matched.value == "" {
      p' := PairUnresolved(samples, vs, v, t, PairingIssue(st, e.analysisId, mn), p);
    } else if matched.value in samples.entries && st in samples.entries[matched.value].seqExp.entries {
      var n := matched.value;
      var normalId := samples.entries[n].seqExp.entries[st].analysisId;
      p' := PairMatched(samples, vs, v, t, st, TumourNormalPair(e.analysisId, normalId, mn, n), p);
    } else {
      p' := PairUnmatched(samples, vs, v, t, st, TumourUnpaired(e.analysisId, None), p);
    }
  }

  /** The branch where the matched normal cannot be looked up. */
  method PairUnresolved(samples: Dict<CanonicalSample>, ghost vs: seq<Visit>, ghost v: Visit,
                        t: string, issue: PairingIssue, p: TumourPass)
    returns (p': TumourPass)
    requires PassAfter(samples, vs, p) && Find(vs, v.tumour, v.strategy).None?
    requires v.tumour == t && v.outcome == Unresolved(issue)
    ensures PassAfter(samples, vs + [v], p')
  {
    p' := RecordIssue(p, t, issue);
    StepUnresolved(samples, vs, v, p, p');
  }

  /** The branch where the matched normal has data for the strategy. */
  method PairMatched(samples: Dict<CanonicalSample>, ghost vs: seq<Visit>, ghost v: Visit,
                     t: string, st: string, pair: TumourNormalPair, p: TumourPass)
    returns (p': TumourPass)
    requires PassAfter(samples, vs, p) && Find(vs, v.tumour, v.strategy).None?
    requires v.tumour == t && v.strategy == st && v.outcome == Paired(pair)
    requires var n := pair.matchedNormalSampleId;
      && n in samples.entries && st in samples.entries[n].seqExp.entries
      && pair.normalAnalysisId == samples.entries[n].seqExp.entries[st].analysisId
      && pair.tumourAnalysisId == v.entry.analysisId
    ensures PassAfter(samples, vs + [v], p')
  {
    p' := RecordPair(p, t, st, pair);
    StepPaired(samples, vs, v, p, p');
  }

  /** The branch where the matched normal has no data for the strategy. */
  method PairUnmatched(samples: Dict<CanonicalSample>, ghost vs: seq<Visit>, ghost v: Visit,
                       t: string, st: string, unpaired: TumourUnpaired, p: TumourPass)
    returns (p': TumourPass)
    requires PassAfter(samples, vs, p) && Find(vs, v.tumour, v.strategy).None?
    requires v.tumour == t && v.strategy == st && v.outcome == Unmatched(unpaired)
    ensures PassAfter(samples, vs + [v], p')
  {
    p' := RecordUnpaired(p, t, st, unpaired);
    StepUnmatched(samples, vs, v, p, p');
  }

  /** issues[tumour].append(issue). */
  method RecordIssue(p: TumourPass, t: string, issue: PairingIssue) returns (p': TumourPass)
    ensures p' == p.(issues := p.issues[t := (if t in p.issues then p.issues[t] else []) + [issue]])
  {
    var prior := if t in p.issues then p.issues[t] else [];
    p' := p.(issues := p.issues[t := prior + [issue]]);
  }

  /** tumour_normal_pairs[tumour][strategy] = pair, and the tumour's analysis
      added to normal_paired[normal][strategy]. */
  method RecordPair(p: TumourPass, t: string, st: string, pair: TumourNormalPair) returns (p': TumourPass)
    ensures var n := pair.matchedNormalSampleId;
      var paired := if n in p.normalPaired then p.normalPaired[n] else map[];
      && p'.tumourNotPaired == p.tumourNotPaired && p'.issues == p.issues
      && p'.pairs == p.pairs[t := (if t in p.pairs then p.pairs[t] else map[])[st := pair]]
      && p'.normalPaired == p.normalPaired[n := paired[st :=
           if st in paired
           then paired[st].(matchedTumourAnalysisIds := paired[st].matchedTumourAnalysisIds + [pair.tumourAnalysisId])
           else NormalPairing(pair.normalAnalysisId, [pair.tumourAnalysisId])]]
  {
    var n := pair.matchedNormalSampleId;
    var row := if t in p.pairs then p.pairs[t] else map[];
    var pairs := p.pairs[t := row[st := pair]];
    var paired := if n in p.normalPaired then p.normalPaired[n] else map[];
    if st !in paired {
      paired := paired[st := NormalPairing(pair.normalAnalysisId, [pair.tumourAnalysisId])];
    } else {
      paired := paired[st := paired[st].(matchedTumourAnalysisIds := paired[st].matchedTumourAnalysisIds + [pair.tumourAnalysisId])];
    }
    p' := p.(pairs := pairs, normalPaired := p.normalPaired[n := paired]);
  }

  /** tumour_not_paired[tumour][strategy] = unpaired. */
  method RecordUnpaired(p: TumourPass, t: string, st: string, unpaired: TumourUnpaired) returns (p': TumourPass)
    ensures p' == p.(tumourNotPaired := p.tumourNotPaired[t :=
      (if t in p.tumourNotPaired then p.tumourNotPaired[t] else map[])[st := unpaired]])
  {
    var row := if t in p.tumourNotPaired then p.tumourNotPaired[t] else map[];
    p' := p.(tumourNotPaired := p.tumourNotPaired[t := row[st := unpaired]]);
  }

  lemma StepUnresolved(samples: Dict<CanonicalSample>, vs: seq<Visit>, v: Visit, p: TumourPass, p': TumourPass)
    requires PassAfter(samples, vs, p) && Find(vs, v.tumour, v.strategy).None? && v.outcome.Unresolved?
    requires p' == p.(issues := p.issues[v.tumour := (if v.tumour in p.issues then p.issues[v.tumour] else []) + [v.outcome.issue]])
    ensures PassAfter(samples, vs + [v], p')
  {
    IssuesAdd(vs, v, p.issues, p'.issues);
    PairsOther(vs, v, p.pairs);
    NotPairedOther(vs, v, p.tumourNotPaired);
    NormalsOther(samples, vs, v, p.normalPaired);
  }

  lemma StepPaired(samples: Dict<CanonicalSample>, vs: seq<Visit>, v: Visit, p: TumourPass, p': TumourPass)
    requires PassAfter(samples, vs, p) && Find(vs, v.tumour, v.strategy).None? && v.outcome.Paired?
    requires var n := v.outcome.pair.matchedNormalSampleId;
      && n in samples.entries && v.strategy in samples.entries[n].seqExp.entries
      && v.outcome.pair.normalAnalysisId == samples.entries[n].seqExp.entries[v.strategy].analysisId
      && v.outcome.pair.tumourAnalysisId == v.entry.analysisId
    requires var pair := v.outcome.pair;
      var n := pair.matchedNormalSampleId;
      var st := v.strategy;
      var paired := if n in p.normalPaired then p.normalPaired[n] else map[];
      && p'.tumourNotPaired == p.tumourNotPaired && p'.issues == p.issues
      && p'.pairs == p.pairs[v.tumour := (if v.tumour in p.pairs then p.pairs[v.tumour] else map[])[st := pair]]
      && p'.normalPaired == p.normalPaired[n := paired[st :=
           if st in paired
           then paired[st].(matchedTumourAnalysisIds := paired[st].matchedTumourAnalysisIds + [pair.tumourAnalysisId])
           else NormalPairing(pair.normalAnalysisId, [pair.tumourAnalysisId])]]
    ensures PassAfter(samples, vs + [v], p')
  {
    PairsAdd(vs, v, p.pairs, p'.pairs);
    NormalsAdd(samples, vs, v, p.normalPaired, p'.normalPaired);
    NotPairedOther(vs, v, p.tumourNotPaired);
    IssuesOther(vs, v, p.issues);
  }

  lemma StepUnmatched(samples: Dict<CanonicalSample>, vs: seq<Visit>, v: Visit, p: TumourPass, p': TumourPass)
    requires PassAfter(samples, vs, p) && Find(vs, v.tumour, v.strategy).None? && v.outcome.Unmatched?
    requires p' == p.(tumourNotPaired := p.tumourNotPaired[v.tumour :=
      (if v.tumour in p.tumourNotPaired then p.tumourNotPaired[v.tumour] else map[])[v.strategy := v.outcome.unpaired]])
    ensures PassAfter(samples, vs + [v], p')
  {
    NotPairedAdd(vs, v, p.tumourNotPaired, p'.tumourNotPaired);
    PairsOther(vs, v, p.pairs);
    NormalsOther(samples, vs, v, p.normalPaired);
    IssuesOther(vs, v, p.issues);
  }

  /** The loop over the strategies of tumour t. */
  method PairTumour(samples: Dict<CanonicalSample>, index: map<Value, string>, ghost vs: seq<Visit>,
                    t: string, c: CanonicalSample, p: TumourPass)
    returns (p': TumourPass)
    requires c.seqExp.Valid()
    requires forall st :: Find(vs, t, st).None?
    requires PassAfter(samples, vs, p)
    ensures PassAfter(samples, vs + StrategyVisits(samples, index, t, c.seqExp.keys, c.seqExp.entries), p')
  {
    var keys := c.seqExp.keys;
    p' := p;
    var j := 0;
    assert vs + StrategyVisits(samples, index, t, keys[..0], c.seqExp.entries) == vs;
    while j < |keys|
      invariant 0 <= j <= |keys|
      invariant PassAfter(samples, vs + StrategyVisits(samples, index, t, keys[..j], c.seqExp.entries), p')
    {
      var st := keys[j];
      StrategyStep(samples, index, vs, t, keys, j, c.seqExp.entries);
      p' := PairStrategy(samples, index, vs + StrategyVisits(samples, index, t, keys[..j], c.seqExp.entries),
                         t, st, c.seqExp.entries[st], p');
      j := j + 1;
    }
    assert keys[..j] == keys;
  }

  /** The visits of the strategy loop before and after strategy keys[j]. */
  lemma StrategyStep(samples: Dict<CanonicalSample>, index: map<Value, string>, vs: seq<Visit>, t: string,
                     keys: seq<string>, j: nat, entries: map<string, SeqEntry>)
    requires j < |keys| && keys[j] in entries
    requires forall i, k :: 0 <= i < k < |keys| ==> keys[i] != keys[k]
    requires forall st :: Find(vs, t, st).None?
    ensures Find(vs + StrategyVisits(samples, index, t, keys[..j], entries), t, keys[j]).None?
    ensures vs + StrategyVisits(samples, index, t, keys[..j + 1], entries) ==
      (vs + StrategyVisits(samples, index, t, keys[..j], entries)) + [VisitOf(samples, index, t, keys[j], entries[keys[j]])]
  {
    NotYetVisited(samples, index, t, keys, j, entries);
    FindAppend(vs, StrategyVisits(samples, index, t, keys[..j], entries), t, keys[j]);
    NextStrategy(samples, index, vs, t, keys, j, entries);
  }

  lemma NextStrategy(samples: Dict<CanonicalSample>, index: map<Value, string>, vs: seq<Visit>, t: string,
                     keys: seq<string>, j: nat, entries: map<string, SeqEntry>)
    requires j < |keys| && keys[j] in entries
    ensures vs + StrategyVisits(samples, index, t, keys[..j + 1], entries) ==
      (vs + StrategyVisits(samples, index, t, keys[..j], entries)) + [VisitOf(samples, index, t, keys[j], entries[keys[j]])]
  {
    assert keys[..j + 1] == keys[..j] + [keys[j]];
    StrategyVisitsSnoc(samples, index, t, keys[..j], keys[j], entries);
  }

  lemma NotYetVisited(samples: Dict<CanonicalSample>, index: map<Value, string>, t: string,
                      keys: seq<string>, j: nat, entries: map<string, SeqEntry>)
    requires j < |keys|
    requires forall i, k :: 0 <= i < k < |keys| ==> keys[i] != keys[k]
    ensures Find(StrategyVisits(samples, index, t, keys[..j], entries), t, keys[j]).None?
  {
  }

  /** The first loop over the samples. */
  method PairTumours(samples: Dict<CanonicalSample>, index: map<Value, string>) returns (p: TumourPass)
    requires CanonicalTable(samples)
    ensures PassAfter(samples, TumourVisits(samples, index, samples.keys), p)
  {
    p := TumourPass(map[], map[], map[], map[]);
    var i := 0;
    while i < |samples.keys|
      invariant 0 <= i <= |samples.keys|
      invariant PassAfter(samples, TumourVisits(samples, index, samples.keys[..i]), p)
    {
      var s := samples.keys[i];
      var c := samples.entries[s];
      SampleStep(samples, index, i);
      if Designated(c, "Tumour") {
        p := PairTumour(samples, index, TumourVisits(samples, index, samples.keys[..i]), c.sampleId, c, p);
      }
      i := i + 1;
    }
    assert samples.keys[..i] == samples.keys;
  }

  /** The visits of the sample loop before and after sample keys[i]. */
  lemma SampleStep(samples: Dict<CanonicalSample>, index: map<Value, string>, i: nat)
    requires CanonicalTable(samples) && i < |samples.keys|
    ensures var s := samples.keys[i];
      var c := samples.entries[s];
      && c.sampleId == s && c.seqExp.Valid()
      && (Designated(c, "Tumour") ==>
            TumourVisits(samples, index, samples.keys[..i + 1]) ==
            TumourVisits(samples, index, samples.keys[..i]) + StrategyVisits(samples, index, s, c.seqExp.keys, c.seqExp.entries))
      && (!Designated(c, "Tumour") ==>
            TumourVisits(samples, index, samples.keys[..i + 1]) == TumourVisits(samples, index, samples.keys[..i]))
      && forall st :: Find(TumourVisits(samples, index, samples.keys[..i]), s, st).None?
  {
    var s := samples.keys[i];
    assert samples.keys[..i + 1][..i] == samples.keys[..i];
    assert s !in samples.keys[..i];
    forall st ensures Find(TumourVisits(samples, index, samples.keys[..i]), s, st).None? {
      VisitsOfOthers(samples, index, samples.keys[..i], s, st);
    }
  }

  // ---------------------------------------------------------------------
  // The second pass.

  /** The loop collecting the Normal samples no tumour was paired with.
      resolve_tumour_normal_pairs also tests, at scripts/validator.py:218,
      whether the sample was paired under the strategy; that test cannot
      succeed for a sample absent from normal_paired. */
  method CollectUnpairedNormals(samples: Dict<CanonicalSample>, normalPaired: map<string, map<string, NormalPairing>>)
    returns (unpaired: map<string, NormalUnpaired>)
    requires CanonicalTable(samples)
    ensures forall n :: n in unpaired <==>
      n in samples.entries && Designated(samples.entries[n], "Normal") && n !in normalPaired
    ensures forall n :: n in unpaired ==>
      && n in samples.entries && |samples.entries[n].seqExp.keys| > 0
      && var c := samples.entries[n];
         unpaired[n] == NormalUnpaired(c.seqExp.keys[0], c.seqExp.entries[c.seqExp.keys[0]].analysisId)
  {
    unpaired := map[];
    var i := 0;
    while i < |samples.keys|
      invariant 0 <= i <= |samples.keys|
      invariant forall n :: n in unpaired <==>
        n in samples.keys[..i] && Designated(samples.entries[n], "Normal") && n !in normalPaired
      invariant forall n :: n in unpaired ==>
        && n in samples.entries && |samples.entries[n].seqExp.keys| > 0
        && var c := samples.entries[n];
           unpaired[n] == NormalUnpaired(c.seqExp.keys[0], c.seqExp.entries[c.seqExp.keys[0]].analysisId)
    {
      var s := samples.keys[i];
      var c := samples.entries[s];
      assert s !in samples.keys[..i];
      if Designated(c, "Normal") && c.sampleId !in normalPaired {
        var strategies := c.seqExp.keys;
        ghost var before := unpaired;
        var j := 0;
        while j < |strategies|
          invariant 0 <= j <= |strategies|
          invariant j == 0 ==> unpaired == before
          invariant j > 0 ==> unpaired == before[s := NormalUnpaired(strategies[0], c.seqExp.entries[strategies[0]].analysisId)]
        {
          var st := strategies[j];
          if c.sampleId !in unpaired {
            unpaired := unpaired[c.sampleId := NormalUnpaired(st, c.seqExp.entries[st].analysisId)];
          }
          j := j + 1;
        }
      }
      assert samples.keys[..i + 1] == samples.keys[..i] + [s];
      i := i + 1;
    }
    assert samples.keys[..i] == samples.keys;
  }

  // ---------------------------------------------------------------------
  // The whole function, and what it promises per tumour and per normal.

  /** Tumour t has sequencing data under st, so the first pass decides it. */
  predicate Considered(samples: Dict<CanonicalSample>, t: string, st: string)
  {
    t in samples.entries && Designated(samples.entries[t], "Tumour") && st in samples.entries[t].seqExp.entries
  }

  /** The outcome for tumour t under strategy st. */
  function Decision(samples: Dict<CanonicalSample>, index: map<Value, string>, t: string, st: string): Outcome
    requires Considered(samples, t, st)
  {
    OutcomeOf(samples, index, st, samples.entries[t].seqExp.entries[st])
  }

  /** issues[t]: the unresolved strategies of tumour t, in its strategy order. */
  function TumourIssues(samples: Dict<CanonicalSample>, index: map<Value, string>, t: string): seq<PairingIssue>
    requires t in samples.entries
  {
    var c := samples.entries[t];
    IssuesOf(StrategyVisits(samples, index, t, c.seqExp.keys, c.seqExp.entries), t)
  }

  /** The tumour analyses paired with normal n under st, in visiting order. */
  function MatchedTumours(samples: Dict<CanonicalSample>, index: map<Value, string>, n: string, st: string): seq<string>
  {
    MatchedOf(TumourVisits(samples, index, samples.keys), n, st)
  }

  /** Some issue of tumour t is about strategy st. */
  predicate IssueRaised(issues: map<string, seq<PairingIssue>>, t: string, st: string)
  {
    t in issues && exists iss :: iss in issues[t] && iss.strategy == st
  }

  /** The tumour side of the result. */
  ghost predicate TumourOutcomes(samples: Dict<CanonicalSample>, index: map<Value, string>, r: Pairing)
  {
    && PairsOutcome(samples, index, r.pairs)
    && NotPairedOutcome(samples, index, r.tumourNotPaired)
    && IssuesOutcome(samples, index, r.issues)
  }

  ghost predicate PairsOutcome(samples: Dict<CanonicalSample>, index: map<Value, string>,
                               pairs: map<string, map<string, TumourNormalPair>>)
  {
    && (forall t, st :: t in pairs && st in pairs[t] <==>
          Considered(samples, t, st) && Decision(samples, index, t, st).Paired?)
    && (forall t, st :: t in pairs && st in pairs[t] ==>
          Considered(samples, t, st) && pairs[t][st] == Decision(samples, index, t, st).pair)
    && (forall t :: t in pairs ==> |pairs[t]| > 0)
  }

  ghost predicate NotPairedOutcome(samples: Dict<CanonicalSample>, index: map<Value, string>,
                                   notPaired: map<string, map<string, TumourUnpaired>>)
  {
    && (forall t, st :: t in notPaired && st in notPaired[t] <==>
          Considered(samples, t, st) && Decision(samples, index, t, st).Unmatched?)
    && (forall t, st :: t in notPaired && st in notPaired[t] ==>
          Considered(samples, t, st) && notPaired[t][st] == Decision(samples, index, t, st).unpaired)
    && (forall t :: t in notPaired ==> |notPaired[t]| > 0)
  }

  ghost predicate IssuesOutcome(samples: Dict<CanonicalSample>, index: map<Value, string>,
                                issues: map<string, seq<PairingIssue>>)
  {
    && (forall t :: t in issues <==>
          t in samples.entries && Designated(samples.entries[t], "Tumour") && TumourIssues(samples, index, t) != [])
    && (forall t :: t in issues ==> t in samples.entries && issues[t] == TumourIssues(samples, index, t))
  }

  /** The normal side of the result. */
  ghost predicate NormalOutcomes(samples: Dict<CanonicalSample>, index: map<Value, string>, r: Pairing)
    requires CanonicalTable(samples)
  {
    && (forall n, st :: n in r.normalPaired && st in r.normalPaired[n] <==> MatchedTumours(samples, index, n, st) != [])
    && (forall n, st :: n in r.normalPaired && st in r.normalPaired[n] ==>
          && n in samples.entries && st in samples.entries[n].seqExp.entries
          && r.normalPaired[n][st] ==
             NormalPairing(samples.entries[n].seqExp.entries[st].analysisId, MatchedTumours(samples, index, n, st)))
    && (forall n :: n in r.normalPaired ==> |r.normalPaired[n]| > 0)
    && (forall n :: n in r.normalNotPaired <==>
          n in samples.entries && Designated(samples.entries[n], "Normal") && n !in r.normalPaired)
    && (forall n :: n in r.normalNotPaired ==>
          && n in samples.entries && |samples.entries[n].seqExp.keys| > 0
          && var c := samples.entries[n];
             r.normalNotPaired[n] == NormalUnpaired(c.seqExp.keys[0], c.seqExp.entries[c.seqExp.keys[0]].analysisId))
  }

  /** resolve_tumour_normal_pairs. */
  method ResolvePairs(samples: Dict<CanonicalSample>, index: map<Value, string>) returns (r: Pairing)
    requires CanonicalTable(samples)
    ensures TumourOutcomes(samples, index, r)
    ensures NormalOutcomes(samples, index, r)
  {
    var p := PairTumours(samples, index);
    var unpaired := CollectUnpairedNormals(samples, p.normalPaired);
    r := Pairing(p.pairs, p.tumourNotPaired, unpaired, p.normalPaired, p.issues);
    TumourPassOutcomes(samples, index, p, r);
    NormalsFinal(samples, index, p.normalPaired);
  }

  /** A Normal sample with data that no tumour was paired with under any
      strategy is reported as not paired, with its first strategy. */
  lemma UnpairedNormalReported(samples: Dict<CanonicalSample>, index: map<Value, string>, r: Pairing, n: string)
    requires CanonicalTable(samples) && NormalOutcomes(samples, index, r)
    requires n in samples.entries && Designated(samples.entries[n], "Normal")
    requires forall st :: MatchedTumours(samples, index, n, st) == []
    ensures n in r.normalNotPaired
    ensures r.normalNotPaired[n].strategy == samples.entries[n].seqExp.keys[0]
  {
  }

  lemma NormalsFinal(samples: Dict<CanonicalSample>, index: map<Value, string>,
                     np: map<string, map<string, NormalPairing>>)
    requires NormalsAfter(samples, TumourVisits(samples, index, samples.keys), np)
    ensures forall n, st :: n in np && st in np[n] <==> MatchedTumours(samples, index, n, st) != []
    ensures forall n, st :: n in np && st in np[n] ==>
      && n in samples.entries && st in samples.entries[n].seqExp.entries
      && np[n][st] == NormalPairing(samples.entries[n].seqExp.entries[st].analysisId, MatchedTumours(samples, index, n, st))
    ensures forall n :: n in np ==> |np[n]| > 0
  {
    forall n, st
      ensures n in np && st in np[n] <==> MatchedTumours(samples, index, n, st) != []
      ensures n in np && st in np[n] ==>
        && n in samples.entries && st in samples.entries[n].seqExp.entries
        && np[n][st] == NormalPairing(samples.entries[n].seqExp.entries[st].analysisId, MatchedTumours(samples, index, n, st))
    {
      assert NormalAt(samples, TumourVisits(samples, index, samples.keys), np, n, st);
    }
  }

  lemma TumourPassOutcomes(samples: Dict<CanonicalSample>, index: map<Value, string>, p: TumourPass, r: Pairing)
    requires CanonicalTable(samples)
    requires PassAfter(samples, TumourVisits(samples, index, samples.keys), p)
    requires r.pairs == p.pairs && r.tumourNotPaired == p.tumourNotPaired && r.issues == p.issues
    ensures TumourOutcomes(samples, index, r)
  {
    var vs := TumourVisits(samples, index, samples.keys);
    PairsFinal(samples, index, vs, p.pairs);
    NotPairedFinal(samples, index, vs, p.tumourNotPaired);
    IssuesFinal(samples, index, p.issues);
  }

  lemma PairsFinal(samples: Dict<CanonicalSample>, index: map<Value, string>, vs: seq<Visit>,
                   pairs: map<string, map<string, TumourNormalPair>>)
    requires CanonicalTable(samples) && vs == TumourVisits(samples, index, samples.keys)
    requires PairsAfter(vs, pairs)
    ensures PairsOutcome(samples, index, pairs)
  {
    forall t, st
      ensures Find(vs, t, st) ==
        if Considered(samples, t, st) then Some(VisitOf(samples, index, t, st, samples.entries[t].seqExp.entries[st])) else None
    {
      FindVisits(samples, index, samples.keys, t, st);
    }
  }

  lemma NotPairedFinal(samples: Dict<CanonicalSample>, index: map<Value, string>, vs: seq<Visit>,
                       notPaired: map<string, map<string, TumourUnpaired>>)
    requires CanonicalTable(samples) && vs == TumourVisits(samples, index, samples.keys)
    requires NotPairedAfter(vs, notPaired)
    ensures NotPairedOutcome(samples, index, notPaired)
  {
    forall t, st
      ensures Find(vs, t, st) ==
        if Considered(samples, t, st) then Some(VisitOf(samples, index, t, st, samples.entries[t].seqExp.entries[st])) else None
    {
      FindVisits(samples, index, samples.keys, t, st);
    }
  }

  lemma IssuesFinal(samples: Dict<CanonicalSample>, index: map<Value, string>, issues: map<string, seq<PairingIssue>>)
    requires CanonicalTable(samples)
    requires IssuesAfter(TumourVisits(samples, index, samples.keys), issues)
    ensures IssuesOutcome(samples, index, issues)
  {
    forall t
      ensures t in issues <==>
        t in samples.entries && Designated(samples.entries[t], "Tumour") && TumourIssues(samples, index, t) != []
      ensures t in issues ==> t in samples.entries && issues[t] == TumourIssues(samples, index, t)
    {
      IssuesOfVisits(samples, index, samples.keys, t);
    }
  }

  /** Every considered (tumour, strategy) ends in exactly one of the three
      places, as its decision says. */
  lemma OutcomesExclusive(samples: Dict<CanonicalSample>, index: map<Value, string>, r: Pairing, t: string, st: string)
    requires CanonicalTable(samples) && TumourOutcomes(samples, index, r) && Considered(samples, t, st)
    ensures IssueRaised(r.issues, t, st) <==> Decision(samples, index, t, st).Unresolved?
    ensures t in r.pairs && st in r.pairs[t] <==> Decision(samples, index, t, st).Paired?
    ensures t in r.tumourNotPaired && st in r.tumourNotPaired[t] <==> Decision(samples, index, t, st).Unmatched?
    ensures (if IssueRaised(r.issues, t, st) then 1 else 0)
          + (if t in r.pairs && st in r.pairs[t] then 1 else 0)
          + (if t in r.tumourNotPaired && st in r.tumourNotPaired[t] then 1 else 0) == 1
  {
    IssueRaisedIff(samples, index, r.issues, t, st);
  }

  /** issues[t] speaks of st exactly when st was unresolved. */
  lemma IssueRaisedIff(samples: Dict<CanonicalSample>, index: map<Value, string>,
                       issues: map<string, seq<PairingIssue>>, t: string, st: string)
    requires CanonicalTable(samples) && IssuesOutcome(samples, index, issues) && Considered(samples, t, st)
    ensures IssueRaised(issues, t, st) <==> Decision(samples, index, t, st).Unresolved?
  {
    if Decision(samples, index, t, st).Unresolved? {
      UnresolvedIsIssue(samples, index, t, st);
      assert Decision(samples, index, t, st).issue in issues[t];
    }
    if IssueRaised(issues, t, st) {
      var iss :| iss in issues[t] && iss.strategy == st;
      IssueIsUnresolved(samples, index, t, iss);
    }
  }

  lemma UnresolvedIsIssue(samples: Dict<CanonicalSample>, index: map<Value, string>, t: string, st: string)
    requires CanonicalTable(samples) && Considered(samples, t, st) && Decision(samples, index, t, st).Unresolved?
    ensures Decision(samples, index, t, st).issue in TumourIssues(samples, index, t)
    ensures Decision(samples, index, t, st).issue.strategy == st
  {
    var c := samples.entries[t];
    var v := VisitOf(samples, index, t, st, c.seqExp.entries[st]);
    assert v in StrategyVisits(samples, index, t, c.seqExp.keys, c.seqExp.entries);
  }

  /** Every issue of tumour t is the decision on one of its strategies. */
  lemma IssueIsUnresolved(samples: Dict<CanonicalSample>, index: map<Value, string>, t: string, iss: PairingIssue)
    requires CanonicalTable(samples) && t in samples.entries && iss in TumourIssues(samples, index, t)
    ensures iss.strategy in samples.entries[t].seqExp.entries
    ensures Designated(samples.entries[t], "Tumour") ==> Decision(samples, index, t, iss.strategy) == Unresolved(iss)
  {
    var c := samples.entries[t];
    var vs := StrategyVisits(samples, index, t, c.seqExp.keys, c.seqExp.entries);
    var w :| w in vs && w.tumour == t && w.outcome == Unresolved(iss);
    assert w == VisitOf(samples, index, t, w.strategy, c.seqExp.entries[w.strategy]);
  }

  // ---------------------------------------------------------------------
  // The visits of the first pass, characterised.

  lemma {:induction false} FindComplete(vs: seq<Visit>, v: Visit)
    requires v in vs
    ensures Find(vs, v.tumour, v.strategy).Some?
  {
    var init := vs[..|vs| - 1];
    assert vs == init + [vs[|vs| - 1]];
    if vs[|vs| - 1] != v {
      FindComplete(init, v);
    }
  }

  lemma FindStrategyVisits(samples: Dict<CanonicalSample>, index: map<Value, string>, u: string,
                           keys: seq<string>, entries: map<string, SeqEntry>, t: string, st: string)
    ensures Find(StrategyVisits(samples, index, u, keys, entries), t, st) ==
      if t == u && st in keys && st in entries then Some(VisitOf(samples, index, u, st, entries[st])) else None
  {
    var vs := StrategyVisits(samples, index, u, keys, entries);
    if t == u && st in keys && st in entries {
      FindComplete(vs, VisitOf(samples, index, u, st, entries[st]));
    }
  }

  lemma {:induction false} FindVisits(samples: Dict<CanonicalSample>, index: map<Value, string>, ts: seq<string>, t: string, st: string)
    requires CanonicalTable(samples)
    ensures Find(TumourVisits(samples, index, ts), t, st) ==
      if t in ts && Considered(samples, t, st)
      then Some(VisitOf(samples, index, t, st, samples.entries[t].seqExp.entries[st])) else None
  {
    if ts != [] {
      var init := ts[..|ts| - 1];
      var u := ts[|ts| - 1];
      assert ts == init + [u];
      FindVisits(samples, index, init, t, st);
      FindAppend(TumourVisits(samples, index, init), TumourVisitsOf(samples, index, u), t, st);
      if u in samples.entries && Designated(samples.entries[u], "Tumour") {
        FindStrategyVisits(samples, index, u, samples.entries[u].seqExp.keys, samples.entries[u].seqExp.entries, t, st);
      }
    }
  }

  /** The visits of the first pass over ts: one per considered (tumour, strategy). */
  lemma {:induction false} InTumourVisits(samples: Dict<CanonicalSample>, index: map<Value, string>, ts: seq<string>, v: Visit)
    requires CanonicalTable(samples)
    ensures v in TumourVisits(samples, index, ts) <==>
      && v.tumour in ts && Considered(samples, v.tumour, v.strategy)
      && v == VisitOf(samples, index, v.tumour, v.strategy, samples.entries[v.tumour].seqExp.entries[v.strategy])
  {
    if ts != [] {
      var init := ts[..|ts| - 1];
      var u := ts[|ts| - 1];
      assert ts == init + [u];
      InTumourVisits(samples, index, init, v);
      assert v in TumourVisits(samples, index, ts) <==>
        v in TumourVisits(samples, index, init) || v in TumourVisitsOf(samples, index, u);
      if u in samples.entries && Designated(samples.entries[u], "Tumour") {
        assert samples.entries[u].seqExp.Valid();
      }
    }
  }

  /** normal_paired[n][st] lists exactly the tumour analyses whose decision
      under st paired them with n. */
  lemma MatchedTumoursIff(samples: Dict<CanonicalSample>, index: map<Value, string>, n: string, st: string, x: string)
    requires CanonicalTable(samples)
    ensures x in MatchedTumours(samples, index, n, st) <==>
      exists t :: && Considered(samples, t, st)
                  && Decision(samples, index, t, st).Paired?
                  && Decision(samples, index, t, st).pair.matchedNormalSampleId == n
                  && x == samples.entries[t].seqExp.entries[st].analysisId
  {
    if x in MatchedTumours(samples, index, n, st) {
      MatchedTumourSound(samples, index, n, st, x);
    }
    if exists t :: && Considered(samples, t, st)
                   && Decision(samples, index, t, st).Paired?
                   && Decision(samples, index, t, st).pair.matchedNormalSampleId == n
                   && x == samples.entries[t].seqExp.entries[st].analysisId {
      var t :| && Considered(samples, t, st)
               && Decision(samples, index, t, st).Paired?
               && Decision(samples, index, t, st).pair.matchedNormalSampleId == n
               && x == samples.entries[t].seqExp.entries[st].analysisId;
      MatchedTumourComplete(samples, index, n, st, t);
    }
  }

  lemma MatchedTumourSound(samples: Dict<CanonicalSample>, index: map<Value, string>, n: string, st: string, x: string)
    requires CanonicalTable(samples) && x in MatchedTumours(samples, index, n, st)
    ensures exists t :: && Considered(samples, t, st)
                        && Decision(samples, index, t, st).Paired?
                        && Decision(samples, index, t, st).pair.matchedNormalSampleId == n
                        && x == samples.entries[t].seqExp.entries[st].analysisId
  {
    var vs := TumourVisits(samples, index, samples.keys);
    var v :| v in vs && v.strategy == st && PairsWith(v, n) && x == v.entry.analysisId;
    InTumourVisits(samples, index, samples.keys, v);
    assert Considered(samples, v.tumour, st);
  }

  lemma MatchedTumourComplete(samples: Dict<CanonicalSample>, index: map<Value, string>, n: string, st: string, t: string)
    requires CanonicalTable(samples) && Considered(samples, t, st)
    requires Decision(samples, index, t, st).Paired? && Decision(samples, index, t, st).pair.matchedNormalSampleId == n
    ensures samples.entries[t].seqExp.entries[st].analysisId in MatchedTumours(samples, index, n, st)
  {
    var v := VisitOf(samples, index, t, st, samples.entries[t].seqExp.entries[st]);
    InTumourVisits(samples, index, samples.keys, v);
    assert v in TumourVisits(samples, index, samples.keys) && v.strategy == st && PairsWith(v, n);
  }

  lemma {:induction false} IssuesOfAppend(vs: seq<Visit>, ws: seq<Visit>, t: string)
    ensures IssuesOf(vs + ws, t) == IssuesOf(vs, t) + IssuesOf(ws, t)
  {
    if ws != [] {
      var init := ws[..|ws| - 1];
      var w := ws[|ws| - 1];
      assert ws == init + [w];
      assert vs + ws == (vs + init) + [w];
      IssuesOfSnoc(vs + init, w, t);
      IssuesOfSnoc(init, w, t);
      IssuesOfAppend(vs, init, t);
    } else {
      assert vs + ws == vs;
    }
  }

  /** A tumour's issues all come from its own visits. */
  lemma {:induction false} IssuesOfVisits(samples: Dict<CanonicalSample>, index: map<Value, string>, ts: seq<string>, t: string)
    requires forall i, j :: 0 <= i < j < |ts| ==> ts[i] != ts[j]
    ensures IssuesOf(TumourVisits(samples, index, ts), t) ==
      if t in ts && t in samples.entries && Designated(samples.entries[t], "Tumour") then TumourIssues(samples, index, t) else []
  {
    if ts != [] {
      var init := ts[..|ts| - 1];
      var u := ts[|ts| - 1];
      DistinctInit(ts, init, u);
      var earlier := TumourVisits(samples, index, init);
      var own := TumourVisitsOf(samples, index, u);
      assert TumourVisits(samples, index, ts) == earlier + own;
      IssuesOfVisits(samples, index, init, t);
      IssuesOfAppend(earlier, own, t);
      IssuesOfSample(samples, index, u, t);
      var cond := t in samples.entries && Designated(samples.entries[t], "Tumour");
      var x := if cond then TumourIssues(samples, index, t) else [];
      assert IssuesOf(earlier, t) == if t in init then x else [];
      assert IssuesOf(own, t) == if u == t then x else [];
      CombineIssues(IssuesOf(earlier, t), IssuesOf(own, t), x, t in init, u == t);
    }
  }

  /** Issues of two disjoint parts of the pass, at most one of which holds t's. */
  lemma CombineIssues(a: seq<PairingIssue>, b: seq<PairingIssue>, x: seq<PairingIssue>, p: bool, q: bool)
    requires a == (if p then x else []) && b == (if q then x else []) && !(p && q)
    ensures a + b == if p || q then x else []
  {
    if p {
      assert x + [] == x;
    } else {
      assert [] + b == b;
    }
  }

  /** Dropping the last of distinct keys leaves distinct keys without it. */
  lemma DistinctInit(ts: seq<string>, init: seq<string>, u: string)
    requires ts == init + [u] && forall i, j :: 0 <= i < j < |ts| ==> ts[i] != ts[j]
    ensures forall i, j :: 0 <= i < j < |init| ==> init[i] != init[j]
    ensures u !in init
    ensures forall x :: x in ts <==> x in init || x == u
  {
    forall i, j | 0 <= i < j < |init| ensures init[i] != init[j] {
      assert init[i] == ts[i] && init[j] == ts[j];
    }
    forall k | 0 <= k < |init| ensures init[k] != u {
      assert init[k] == ts[k] && u == ts[|ts| - 1];
    }
  }

  /** The visits of sample u raise issues for t only when u is t. */
  lemma IssuesOfSample(samples: Dict<CanonicalSample>, index: map<Value, string>, u: string, t: string)
    ensures IssuesOf(TumourVisitsOf(samples, index, u), t) ==
      if u == t && t in samples.entries && Designated(samples.entries[t], "Tumour") then TumourIssues(samples, index, t) else []
  {
    if u != t {
      OthersRaiseNoIssues(TumourVisitsOf(samples, index, u), t);
    }
  }

  lemma OthersRaiseNoIssues(vs: seq<Visit>, t: string)
    requires forall v :: v in vs ==> v.tumour != t
    ensures IssuesOf(vs, t) == []
  {
  }

  // ---------------------------------------------------------------------
  // Step lemmas of the first pass.

  lemma FindSnoc(vs: seq<Visit>, v: Visit, t: string, st: string)
    ensures Find(vs + [v], t, st) == if v.tumour == t && v.strategy == st then Some(v) else Find(vs, t, st)
  {
    assert (vs + [v])[..|vs|] == vs;
  }

  lemma IssuesOfSnoc(vs: seq<Visit>, v: Visit, t: string)
    ensures IssuesOf(vs + [v], t) == IssuesOf(vs, t) +
      (if v.tumour == t && v.outcome.Unresolved? then [v.outcome.issue] else [])
  {
    assert (vs + [v])[..|vs|] == vs;
  }

  lemma MatchedOfSnoc(vs: seq<Visit>, v: Visit, n: string, st: string)
    ensures MatchedOf(vs + [v], n, st) == MatchedOf(vs, n, st) +
      (if v.strategy == st && PairsWith(v, n) then [v.entry.analysisId] else [])
  {
    assert (vs + [v])[..|vs|] == vs;
  }

  lemma PairsAdd(vs: seq<Visit>, v: Visit,
                 pairs: map<string, map<string, TumourNormalPair>>, pairs': map<string, map<string, TumourNormalPair>>)
    requires PairsAfter(vs, pairs) && Find(vs, v.tumour, v.strategy).None? && v.outcome.Paired?
    requires pairs' == pairs[v.tumour := (if v.tumour in pairs then pairs[v.tumour] else map[])[v.strategy := v.outcome.pair]]
    ensures PairsAfter(vs + [v], pairs')
  {
    forall t, st
      ensures t in pairs' && st in pairs'[t] <==> IsPaired(Find(vs + [v], t, st))
      ensures t in pairs' && st in pairs'[t] ==> pairs'[t][st] == Find(vs + [v], t, st).value.outcome.pair
    {
      FindSnoc(vs, v, t, st);
      if t == v.tumour && st == v.strategy {
      } else if t == v.tumour {
        assert st in pairs'[t] <==> t in pairs && st in pairs[t];
      } else {
        assert (t in pairs' && st in pairs'[t]) <==> (t in pairs && st in pairs[t]);
      }
    }
    forall t | t in pairs' ensures |pairs'[t]| > 0 {
      if t == v.tumour {
        assert v.strategy in pairs'[t];
      }
    }
  }

  lemma PairsOther(vs: seq<Visit>, v: Visit, pairs: map<string, map<string, TumourNormalPair>>)
    requires PairsAfter(vs, pairs) && Find(vs, v.tumour, v.strategy).None? && !v.outcome.Paired?
    ensures PairsAfter(vs + [v], pairs)
  {
    forall t, st ensures Find(vs + [v], t, st) == if v.tumour == t && v.strategy == st then Some(v) else Find(vs, t, st) {
      FindSnoc(vs, v, t, st);
    }
  }

  lemma NotPairedAdd(vs: seq<Visit>, v: Visit,
                     notPaired: map<string, map<string, TumourUnpaired>>, notPaired': map<string, map<string, TumourUnpaired>>)
    requires NotPairedAfter(vs, notPaired) && Find(vs, v.tumour, v.strategy).None? && v.outcome.Unmatched?
    requires notPaired' == notPaired[v.tumour :=
      (if v.tumour in notPaired then notPaired[v.tumour] else map[])[v.strategy := v.outcome.unpaired]]
    ensures NotPairedAfter(vs + [v], notPaired')
  {
    forall t, st
      ensures t in notPaired' && st in notPaired'[t] <==> IsUnmatched(Find(vs + [v], t, st))
      ensures t in notPaired' && st in notPaired'[t] ==> notPaired'[t][st] == Find(vs + [v], t, st).value.outcome.unpaired
    {
      FindSnoc(vs, v, t, st);
      if t == v.tumour && st == v.strategy {
      } else if t == v.tumour {
        assert st in notPaired'[t] <==> t in notPaired && st in notPaired[t];
      } else {
        assert (t in notPaired' && st in notPaired'[t]) <==> (t in notPaired && st in notPaired[t]);
      }
    }
    forall t | t in notPaired' ensures |notPaired'[t]| > 0 {
      if t == v.tumour {
        assert v.strategy in notPaired'[t];
      }
    }
  }

  lemma NotPairedOther(vs: seq<Visit>, v: Visit, notPaired: map<string, map<string, TumourUnpaired>>)
    requires NotPairedAfter(vs, notPaired) && Find(vs, v.tumour, v.strategy).None? && !v.outcome.Unmatched?
    ensures NotPairedAfter(vs + [v], notPaired)
  {
    forall t, st ensures Find(vs + [v], t, st) == if v.tumour == t && v.strategy == st then Some(v) else Find(vs, t, st) {
      FindSnoc(vs, v, t, st);
    }
  }

  lemma NormalsAdd(samples: Dict<CanonicalSample>, vs: seq<Visit>, v: Visit,
                   np: map<string, map<string, NormalPairing>>, np': map<string, map<string, NormalPairing>>)
    requires NormalsAfter(samples, vs, np) && v.outcome.Paired?
    requires var n := v.outcome.pair.matchedNormalSampleId;
      && n in samples.entries && v.strategy in samples.entries[n].seqExp.entries
      && v.outcome.pair.normalAnalysisId == samples.entries[n].seqExp.entries[v.strategy].analysisId
    requires var n := v.outcome.pair.matchedNormalSampleId;
      var row := if n in np then np[n] else map[];
      np' == np[n := row[v.strategy :=
        if v.strategy in row
        then row[v.strategy].(matchedTumourAnalysisIds := row[v.strategy].matchedTumourAnalysisIds + [v.entry.analysisId])
        else NormalPairing(v.outcome.pair.normalAnalysisId, [v.entry.analysisId])]]
    ensures NormalsAfter(samples, vs + [v], np')
  {
    var n0 := v.outcome.pair.matchedNormalSampleId;
    forall n, st ensures NormalAt(samples, vs + [v], np', n, st) {
      NormalsAddAt(samples, vs, v, np, np', n, st);
    }
    forall n | n in np' ensures |np'[n]| > 0 {
      if n == n0 {
        assert v.strategy in np'[n];
      }
    }
  }

  lemma NormalsAddAt(samples: Dict<CanonicalSample>, vs: seq<Visit>, v: Visit,
                     np: map<string, map<string, NormalPairing>>, np': map<string, map<string, NormalPairing>>,
                     n: string, st: string)
    requires NormalAt(samples, vs, np, n, st) && v.outcome.Paired?
    requires var n := v.outcome.pair.matchedNormalSampleId;
      && n in samples.entries && v.strategy in samples.entries[n].seqExp.entries
      && v.outcome.pair.normalAnalysisId == samples.entries[n].seqExp.entries[v.strategy].analysisId
    requires var n := v.outcome.pair.matchedNormalSampleId;
      var row := if n in np then np[n] else map[];
      np' == np[n := row[v.strategy :=
        if v.strategy in row
        then row[v.strategy].(matchedTumourAnalysisIds := row[v.strategy].matchedTumourAnalysisIds + [v.entry.analysisId])
        else NormalPairing(v.outcome.pair.normalAnalysisId, [v.entry.analysisId])]]
    ensures NormalAt(samples, vs + [v], np', n, st)
  {
    var n0 := v.outcome.pair.matchedNormalSampleId;
    MatchedOfSnoc(vs, v, n, st);
    if n == n0 && st == v.strategy {
      NormalsAddHere(samples, vs, v, np, np');
    } else if n == n0 {
      assert st in np'[n] <==> n in np && st in np[n];
    } else {
      assert (n in np' && st in np'[n]) <==> (n in np && st in np[n]);
    }
  }

  /** The entry of normal_paired that a pairing visit changes. */
  lemma NormalsAddHere(samples: Dict<CanonicalSample>, vs: seq<Visit>, v: Visit,
                       np: map<string, map<string, NormalPairing>>, np': map<string, map<string, NormalPairing>>)
    requires v.outcome.Paired?
    requires NormalAt(samples, vs, np, v.outcome.pair.matchedNormalSampleId, v.strategy)
    requires var n := v.outcome.pair.matchedNormalSampleId;
      && n in samples.entries && v.strategy in samples.entries[n].seqExp.entries
      && v.outcome.pair.normalAnalysisId == samples.entries[n].seqExp.entries[v.strategy].analysisId
    requires var n := v.outcome.pair.matchedNormalSampleId;
      var row := if n in np then np[n] else map[];
      np' == np[n := row[v.strategy :=
        if v.strategy in row
        then row[v.strategy].(matchedTumourAnalysisIds := row[v.strategy].matchedTumourAnalysisIds + [v.entry.analysisId])
        else NormalPairing(v.outcome.pair.normalAnalysisId, [v.entry.analysisId])]]
    ensures var n := v.outcome.pair.matchedNormalSampleId;
      np'[n][v.strategy] == NormalPairing(samples.entries[n].seqExp.entries[v.strategy].analysisId, MatchedOf(vs + [v], n, v.strategy))
  {
    var n := v.outcome.pair.matchedNormalSampleId;
    MatchedOfSnoc(vs, v, n, v.strategy);
    if n in np && v.strategy in np[n] {
      assert np[n][v.strategy].matchedTumourAnalysisIds == MatchedOf(vs, n, v.strategy);
    } else {
      assert MatchedOf(vs, n, v.strategy) == [];
    }
  }

  lemma NormalsOther(samples: Dict<CanonicalSample>, vs: seq<Visit>, v: Visit, np: map<string, map<string, NormalPairing>>)
    requires NormalsAfter(samples, vs, np) && !v.outcome.Paired?
    ensures NormalsAfter(samples, vs + [v], np)
  {
    forall n, st ensures NormalAt(samples, vs + [v], np, n, st) {
      MatchedOfSnoc(vs, v, n, st);
      assert NormalAt(samples, vs, np, n, st);
    }
  }

  lemma IssuesAdd(vs: seq<Visit>, v: Visit, issues: map<string, seq<PairingIssue>>, issues': map<string, seq<PairingIssue>>)
    requires IssuesAfter(vs, issues) && v.outcome.Unresolved?
    requires issues' == issues[v.tumour := (if v.tumour in issues then issues[v.tumour] else []) + [v.outcome.issue]]
    ensures IssuesAfter(vs + [v], issues')
  {
    forall t ensures IssuesOf(vs + [v], t) == IssuesOf(vs, t) + (if v.tumour == t then [v.outcome.issue] else []) {
      IssuesOfSnoc(vs, v, t);
    }
  }

  lemma IssuesOther(vs: seq<Visit>, v: Visit, issues: map<string, seq<PairingIssue>>)
    requires IssuesAfter(vs, issues) && !v.outcome.Unresolved?
    ensures IssuesAfter(vs + [v], issues)
  {
    forall t ensures IssuesOf(vs + [v], t) == IssuesOf(vs, t) {
      IssuesOfSnoc(vs, v, t);
    }
  }

  lemma StrategyVisitsSnoc(samples: Dict<CanonicalSample>, index: map<Value, string>, t: string,
                           keys: seq<string>, st: string, entries: map<string, SeqEntry>)
    requires st in entries
    ensures StrategyVisits(samples, index, t, keys + [st], entries) ==
      StrategyVisits(samples, index, t, keys, entries) + [VisitOf(samples, index, t, st, entries[st])]
  {
    assert (keys + [st])[..|keys|] == keys;
  }

  /** The last visit of (t, st) in vs + ws is in ws when ws has one. */
  lemma {:induction false} FindAppend(vs: seq<Visit>, ws: seq<Visit>, t: string, st: string)
    ensures Find(vs + ws, t, st) == if Find(ws, t, st).Some? then Find(ws, t, st) else Find(vs, t, st)
  {
    if ws == [] {
      assert vs + ws == vs;
    } else {
      var init := ws[..|ws| - 1];
      var w := ws[|ws| - 1];
      assert ws == init + [w];
      assert vs + ws == (vs + init) + [w];
      FindSnoc(vs + init, w, t, st);
      FindSnoc(init, w, t, st);
      FindAppend(vs, init, t, st);
    }
  }

  /** The visits of the samples ts are visits of those samples only. */
  lemma {:induction false} VisitsOfOthers(samples: Dict<CanonicalSample>, index: map<Value, string>,
                                          ts: seq<string>, t: string, st: string)
    requires t !in ts
    ensures Find(TumourVisits(samples, index, ts), t, st).None?
  {
    if ts != [] {
      var init := ts[..|ts| - 1];
      var u := ts[|ts| - 1];
      assert u in ts;
      VisitsOfOthers(samples, index, init, t, st);
      FindAppend(TumourVisits(samples, index, init), TumourVisitsOf(samples, index, u), t, st);
    }
  }
}
