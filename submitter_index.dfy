/** mapping_sumbitter_sample_id_to_sample_id: an index from the canonical
    submitter sample id of every sample that resolved one to its sample id.
    When two samples share a submitter id, the later one overwrites. */
module SubmitterIndex {
  import opened Records
  import opened Dicts
  import opened Discrepancy

  /** Canonical sample c resolved its submitter sample id, and it is k. */
  predicate Carries(c: CanonicalSample, k: Value)
  {
    SubmitterSampleId in c.fields && c.fields[SubmitterSampleId] == k
  }

  /** The sample id the index holds for k after visiting keys: that of the
      last sample in keys carrying k. */
  function LastCarrying(keys: seq<string>, entries: map<string, CanonicalSample>, k: Value): (r: Option<string>)
    ensures r.Some? <==> exists s :: s in keys && s in entries && Carries(entries[s], k)
  {
    if keys == [] then None
    else
      var s := keys[|keys| - 1];
      assert keys == keys[..|keys| - 1] + [s];
      if s in entries && Carries(entries[s], k) then Some(entries[s].sampleId)
      else LastCarrying(keys[..|keys| - 1], entries, k)
  }

  /** Last writer wins: the index maps k to the sample id of a sample that
      carries k, and no later sample carries k. */
  lemma {:induction false} LastCarryingIsLast(keys: seq<string>, entries: map<string, CanonicalSample>, k: Value)
    requires LastCarrying(keys, entries, k).Some?
    ensures exists i ::
      && 0 <= i < |keys| && keys[i] in entries && Carries(entries[keys[i]], k)
      && LastCarrying(keys, entries, k).value == entries[keys[i]].sampleId
      && forall j :: i < j < |keys| ==> !(keys[j] in entries && Carries(entries[keys[j]], k))
  {
    var n := |keys| - 1;
    var s := keys[n];
    if s in entries && Carries(entries[s], k) {
      assert keys[n] in entries && Carries(entries[keys[n]], k);
    } else {
      var init := keys[..n];
      LastCarryingIsLast(init, entries, k);
      var i :|
        && 0 <= i < |init| && init[i] in entries && Carries(entries[init[i]], k)
        && LastCarrying(init, entries, k).value == entries[init[i]].sampleId
        && forall j :: i < j < |init| ==> !(init[j] in entries && Carries(entries[init[j]], k));
      assert keys[i] == init[i];
      forall j | i < j < |keys|
        ensures !(keys[j] in entries && Carries(entries[keys[j]], k))
      {
        if j < n {
          assert keys[j] == init[j];
        }
      }
    }
  }

  lemma LastCarryingSnoc(keys: seq<string>, s: string, entries: map<string, CanonicalSample>, k: Value)
    ensures LastCarrying(keys + [s], entries, k) ==
      if s in entries && Carries(entries[s], k) then Some(entries[s].sampleId) else LastCarrying(keys, entries, k)
  {
    assert (keys + [s])[..|keys|] == keys;
  }

  /** The loop over the canonical samples. */
  method IndexSubmitters(samples: Dict<CanonicalSample>) returns (index: map<Value, string>)
    requires samples.Valid()
    ensures forall k :: k in index <==> exists s :: s in samples.entries && Carries(samples.entries[s], k)
    ensures forall k :: k in index ==> Some(index[k]) == LastCarrying(samples.keys, samples.entries, k)
  {
    index := map[];
    var i := 0;
    while i < |samples.keys|
      invariant 0 <= i <= |samples.keys|
      invariant forall k :: k in index <==> LastCarrying(samples.keys[..i], samples.entries, k).Some?
      invariant forall k :: k in index ==> Some(index[k]) == LastCarrying(samples.keys[..i], samples.entries, k)
    {
      var s := samples.keys[i];
      var c := samples.entries[s];
      if SubmitterSampleId in c.fields {
        index := index[c.fields[SubmitterSampleId] := c.sampleId];
      }
      assert samples.keys[..i + 1] == samples.keys[..i] + [s];
      forall k ensures LastCarrying(samples.keys[..i + 1], samples.entries, k) ==
        if Carries(c, k) then Some(c.sampleId) else LastCarrying(samples.keys[..i], samples.entries, k)
      {
        LastCarryingSnoc(samples.keys[..i], s, samples.entries, k);
      }
      i := i + 1;
    }
    assert samples.keys[..i] == samples.keys;
  }

  /** On a canonical table the index maps each submitter id to a sample that
      carries it. */
  lemma IndexedSampleCarries(samples: Dict<CanonicalSample>, k: Value)
    requires CanonicalTable(samples)
    requires LastCarrying(samples.keys, samples.entries, k).Some?
    ensures var n := LastCarrying(samples.keys, samples.entries, k).value;
      n in samples.entries && Carries(samples.entries[n], k)
  {
    LastCarryingIsLast(samples.keys, samples.entries, k);
  }
}
