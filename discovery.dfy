/** Allele discovery (`Service::discover_alleles`): for every record of every
    data set, count hard-called observations per allele, emit the alleles
    that are plain DNA, merge each data set's alleles into the answer and
    finally check that every range has exactly one reference allele. */
module Discovery {
  import opened Ranges
  import opened Statuses
  import opened Dna
  import opened Alleles
  import opened RefCheck

  /** A genotype entry as decoded from a record: the vector-end sentinel, or
      the allele index of one call (negative when the call is missing). */
  datatype GtEntry = VectorEnd | Call(index: int)

  /** A variant record: its range, its allele strings (index 0 is the
      reference) and its decoded genotype entries. */
  datatype Record = Record(rng: Range, alleles: seq<string>, gts: seq<GtEntry>)

  /** Every record carries at least its reference allele. */
  predicate WellFormed(rec: Record)
  {
    |rec.alleles| >= 1
  }

  predicate AllWellFormed(records: seq<Record>)
  {
    forall i :: 0 <= i < |records| ==> WellFormed(records[i])
  }

  // ---------------------------------------------------------------------
  // Observation counting

  /** How many entries of `gts` are a call of allele `a`. */
  function Observations(gts: seq<GtEntry>, a: int): (n: nat)
    ensures n <= |gts|
  {
    if gts == [] then 0
    else Observations(gts[..|gts| - 1], a) + (if gts[|gts| - 1] == Call(a) then 1 else 0)
  }

  /** How many entries of `gts` are a call of some allele in `[0, n)`. */
  function CountedCalls(gts: seq<GtEntry>, n: nat): (c: nat)
    ensures c <= |gts|
  {
    if gts == [] then 0
    else
      var last := gts[|gts| - 1];
      CountedCalls(gts[..|gts| - 1], n) + (if last.Call? && 0 <= last.index < n then 1 else 0)
  }

  /** The per-allele observation counts of a record with `n` alleles. */
  function ObsCounts(gts: seq<GtEntry>, n: nat): (obs: seq<nat>)
    ensures |obs| == n
    ensures forall a :: 0 <= a < n ==> obs[a] == Observations(gts, a)
  {
    if n == 0 then [] else ObsCounts(gts, n - 1) + [Observations(gts, n - 1)]
  }

  function Sum(s: seq<nat>): nat
  {
    if s == [] then 0 else Sum(s[..|s| - 1]) + s[|s| - 1]
  }

  lemma {:induction false} CountedCallsNone(gts: seq<GtEntry>)
    ensures CountedCalls(gts, 0) == 0
  {
    if gts != [] {
      CountedCallsNone(gts[..|gts| - 1]);
    }
  }

  lemma {:induction false} CountedCallsStep(gts: seq<GtEntry>, n: nat)
    ensures CountedCalls(gts, n + 1) == CountedCalls(gts, n) + Observations(gts, n)
  {
    if gts != [] {
      CountedCallsStep(gts[..|gts| - 1], n);
    }
  }

  /** The counts add up to the number of calls whose allele index is in
      range: sentinels, missing calls and out-of-range indices are not
      counted, so the total never exceeds the number of entries. */
  lemma {:induction false} ObsCountsTotal(gts: seq<GtEntry>, n: nat)
    ensures Sum(ObsCounts(gts, n)) == CountedCalls(gts, n) <= |gts|
  {
    if n == 0 {
      CountedCallsNone(gts);
    } else {
      var obs := ObsCounts(gts, n);
      assert obs[..n - 1] == ObsCounts(gts, n - 1);
      ObsCountsTotal(gts, n - 1);
      CountedCallsStep(gts, n - 1);
    }
  }

  /** The counting loop: one counter per allele, incremented for every entry
      that is not the vector-end sentinel and whose index is a valid allele. */
  method CountObservations(gts: seq<GtEntry>, nAllele: nat) returns (obs: seq<nat>)
    ensures |obs| == nAllele
    ensures forall a :: 0 <= a < nAllele ==> obs[a] == Observations(gts, a)
    ensures Sum(obs) == CountedCalls(gts, nAllele) <= |gts|
  {
    var counts := new nat[nAllele](_ => 0);
    var i := 0;
    while i < |gts|
      invariant 0 <= i <= |gts|
      invariant forall a :: 0 <= a < nAllele ==> counts[a] == Observations(gts[..i], a)
    {
      assert gts[..i + 1][..i] == gts[..i];
      if gts[i] != VectorEnd {
        var al := gts[i].index;
        if 0 <= al < nAllele {
          counts[al] := counts[al] + 1;
        }
      }
      i := i + 1;
    }
    assert gts[..|gts|] == gts;
    obs := counts[..];
    assert obs == ObsCounts(gts, nAllele);
    ObsCountsTotal(gts, nAllele);
  }

  // ---------------------------------------------------------------------
  // Per-record emission

  /** Some alternate allele among indices `[1, k)` passes the DNA filter. */
  predicate HasAlt(alleles: seq<string>, k: nat)
    requires k <= |alleles|
  {
    exists i :: 1 <= i < k && Qualifies(alleles[i])
  }

  /** The alleles the alternate alleles `[1, k)` of a record at `rng` are
      keyed by. */
  function AltKeys(rng: Range, alleles: seq<string>, k: nat): set<Allele>
    requires k <= |alleles|
  {
    set i | 1 <= i < k && Qualifies(alleles[i]) :: Allele(rng, Upper(alleles[i]))
  }

  /** Alternate allele `i` is the first among `[1, i]` that is kept with its
      uppercased string. */
  predicate FirstAlt(alleles: seq<string>, i: nat)
    requires i < |alleles|
  {
    && 1 <= i
    && Qualifies(alleles[i])
    && forall j :: 1 <= j < i ==> !(Qualifies(alleles[j]) && Upper(alleles[j]) == Upper(alleles[i]))
  }

  /** The map after the alternate-allele loop has handled indices `[1, k)`. */
  function AltEntries(rng: Range, alleles: seq<string>, obs: seq<nat>, k: nat, m: DiscoveredAlleles): DiscoveredAlleles
    requires k <= |alleles| == |obs|
  {
    if k <= 1 then m
    else
      var prev := AltEntries(rng, alleles, obs, k - 1, m);
      if Qualifies(alleles[k - 1])
      then Insert(prev, Allele(rng, Upper(alleles[k - 1])), AlleleInfo(false, obs[k - 1]))
      else prev
  }

  function RefKey(rec: Record): Allele
    requires WellFormed(rec)
  {
    Allele(rec.rng, Upper(rec.alleles[0]))
  }

  /** What one record does to the data set's map `m`, given its counts. */
  function RecordAlleles(dataset: string, rec: Record, obs: seq<nat>, m: DiscoveredAlleles): Result<DiscoveredAlleles>
    requires WellFormed(rec) && |obs| == |rec.alleles|
  {
    var n := |rec.alleles|;
    var withAlts := AltEntries(rec.rng, rec.alleles, obs, n, m);
    if !Qualifies(rec.alleles[0]) then
      Err(Error(Invalid, InvalidReference(dataset, Upper(rec.alleles[0]))))
    else if HasAlt(rec.alleles, n) then
      Ok(Insert(withAlts, RefKey(rec), AlleleInfo(true, obs[0])))
    else
      Ok(withAlts)
  }

  /** The alternate-allele loop adds exactly the keys of the qualifying
      alternate alleles and never changes an entry already present. */
  lemma {:induction false} AltEntriesKeys(rng: Range, alleles: seq<string>, obs: seq<nat>, k: nat, m: DiscoveredAlleles)
    requires k <= |alleles| == |obs|
    ensures AltEntries(rng, alleles, obs, k, m).Keys == m.Keys + AltKeys(rng, alleles, k)
    ensures forall a :: a in m ==> AltEntries(rng, alleles, obs, k, m)[a] == m[a]
    ensures forall a :: a in AltEntries(rng, alleles, obs, k, m) && a !in m ==> !AltEntries(rng, alleles, obs, k, m)[a].isRef
  {
    if k > 1 {
      AltEntriesKeys(rng, alleles, obs, k - 1, m);
      if Qualifies(alleles[k - 1]) {
        assert AltKeys(rng, alleles, k) == AltKeys(rng, alleles, k - 1) + {Allele(rng, Upper(alleles[k - 1]))};
      } else {
        assert AltKeys(rng, alleles, k) == AltKeys(rng, alleles, k - 1);
      }
    }
  }

  /** The entry of a kept alternate allele is `{is_ref = false}` with that
      allele's count, unless an earlier alternate allele (or an earlier
      record) already inserted the same key. */
  lemma {:induction false} AltEntriesFirst(rng: Range, alleles: seq<string>, obs: seq<nat>, k: nat, m: DiscoveredAlleles, i: nat)
    requires k <= |alleles| == |obs|
    requires i < k && FirstAlt(alleles, i) && Allele(rng, Upper(alleles[i])) !in m
    ensures Allele(rng, Upper(alleles[i])) in AltEntries(rng, alleles, obs, k, m)
    ensures AltEntries(rng, alleles, obs, k, m)[Allele(rng, Upper(alleles[i]))] == AlleleInfo(false, obs[i])
  {
    var key := Allele(rng, Upper(alleles[i]));
    if k - 1 == i {
      AltEntriesKeys(rng, alleles, obs, i, m);
      assert key !in AltKeys(rng, alleles, i);
    } else {
      AltEntriesFirst(rng, alleles, obs, k - 1, m, i);
    }
  }

  /** Which keys one record adds: an invalid reference fails the record
      whether or not an alternate allele qualifies; otherwise the qualifying
      alternate alleles are added, the reference only when at least one of
      them was, and entries already present are never changed. */
  lemma RecordAllelesKeys(dataset: string, rec: Record, obs: seq<nat>, m: DiscoveredAlleles)
    requires WellFormed(rec) && |obs| == |rec.alleles|
    ensures var r := RecordAlleles(dataset, rec, obs, m);
      && (r.Err? <==> !Qualifies(rec.alleles[0]))
      && (r.Err? ==> r.error == Error(Invalid, InvalidReference(dataset, Upper(rec.alleles[0]))))
      && (r.Ok? ==> r.value.Keys == m.Keys + AltKeys(rec.rng, rec.alleles, |rec.alleles|)
                                    + (if HasAlt(rec.alleles, |rec.alleles|) then {RefKey(rec)} else {}))
      && (r.Ok? ==> forall a :: a in m ==> r.value[a] == m[a])
      && (r.Ok? && !HasAlt(rec.alleles, |rec.alleles|) ==> r.value == m)
  {
    var n := |rec.alleles|;
    AltEntriesKeys(rec.rng, rec.alleles, obs, n, m);
    if !HasAlt(rec.alleles, n) {
      assert AltKeys(rec.rng, rec.alleles, n) == {};
      assert AltEntries(rec.rng, rec.alleles, obs, n, m) == m;
    }
  }

  /** The entries one record creates: `{is_ref = false, count}` for the first
      alternate allele with a given string, and `{is_ref = true, count of
      allele 0}` for the reference when an alternate allele was kept and no
      alternate allele has the reference's string. */
  lemma RecordAllelesValues(dataset: string, rec: Record, obs: seq<nat>, m: DiscoveredAlleles)
    requires WellFormed(rec) && |obs| == |rec.alleles| && Qualifies(rec.alleles[0])
    ensures var r := RecordAlleles(dataset, rec, obs, m);
      && r.Ok?
      && (forall i :: 0 <= i < |rec.alleles| && FirstAlt(rec.alleles, i) && Allele(rec.rng, Upper(rec.alleles[i])) !in m ==>
            && Allele(rec.rng, Upper(rec.alleles[i])) in r.value
            && r.value[Allele(rec.rng, Upper(rec.alleles[i]))] == AlleleInfo(false, obs[i]))
      && (HasAlt(rec.alleles, |rec.alleles|) && RefKey(rec) !in m && RefKey(rec) !in AltKeys(rec.rng, rec.alleles, |rec.alleles|) ==>
            RefKey(rec) in r.value && r.value[RefKey(rec)] == AlleleInfo(true, obs[0]))
  {
    var n := |rec.alleles|;
    AltEntriesKeys(rec.rng, rec.alleles, obs, n, m);
    forall i | 0 <= i < n && FirstAlt(rec.alleles, i) && Allele(rec.rng, Upper(rec.alleles[i])) !in m
      ensures Allele(rec.rng, Upper(rec.alleles[i])) in RecordAlleles(dataset, rec, obs, m).value
      ensures RecordAlleles(dataset, rec, obs, m).value[Allele(rec.rng, Upper(rec.alleles[i]))] == AlleleInfo(false, obs[i])
    {
      AltEntriesFirst(rec.rng, rec.alleles, obs, n, m, i);
    }
  }

  /** The body of the record loop: the alternate-allele loop with its
      `any_alt` flag, then the reference allele. */
  method AddRecordAlleles(dataset: string, rec: Record, obs: seq<nat>, dsals: DiscoveredAlleles)
    returns (r: Result<DiscoveredAlleles>)
    requires WellFormed(rec) && |obs| == |rec.alleles|
    ensures r == RecordAlleles(dataset, rec, obs, dsals)
  {
    var m := dsals;
    var anyAlt := false;
    var i := 1;
    while i < |rec.alleles|
      invariant 1 <= i <= |rec.alleles|
      invariant m == AltEntries(rec.rng, rec.alleles, obs, i, dsals)
      invariant anyAlt == HasAlt(rec.alleles, i)
    {
      var aldna := Upper(rec.alleles[i]);
      if |aldna| > 0 && IsDna(aldna) {
        m := Insert(m, Allele(rec.rng, aldna), AlleleInfo(false, obs[i]));
        anyAlt := true;
      }
      i := i + 1;
    }
    var refdna := Upper(rec.alleles[0]);
    if |refdna| > 0 && IsDna(refdna) {
      if anyAlt {
        m := Insert(m, Allele(rec.rng, refdna), AlleleInfo(true, obs[0]));
      }
      r := Ok(m);
    } else {
      r := Err(Error(Invalid, InvalidReference(dataset, refdna)));
    }
  }

  // ---------------------------------------------------------------------
  // Per data set

  /** The alleles one data set contributes, starting from map `m`: records in
      order, stopping at the first invalid reference. */
  function DatasetAlleles(dataset: string, records: seq<Record>, m: DiscoveredAlleles): Result<DiscoveredAlleles>
    requires AllWellFormed(records)
    decreases |records|
  {
    if records == [] then Ok(m)
    else
      var rec := records[0];
      match RecordAlleles(dataset, rec, ObsCounts(rec.gts, |rec.alleles|), m)
      case Err(e) => Err(e)
      case Ok(m') => DatasetAlleles(dataset, records[1..], m')
  }

  /** Record `f` is the first whose reference is not plain DNA. */
  predicate FirstBadReference(records: seq<Record>, f: int)
    requires AllWellFormed(records)
  {
    && 0 <= f < |records|
    && !Qualifies(records[f].alleles[0])
    && forall j :: 0 <= j < f ==> Qualifies(records[j].alleles[0])
  }

  /** Discovery fails for a data set exactly when one of its records has a
      reference that is not plain DNA, and the error names the first such
      reference. */
  lemma {:induction false} DatasetFailsIff(dataset: string, records: seq<Record>, m: DiscoveredAlleles)
    requires AllWellFormed(records)
    ensures DatasetAlleles(dataset, records, m).Err? <==>
            exists i :: 0 <= i < |records| && !Qualifies(records[i].alleles[0])
    ensures DatasetAlleles(dataset, records, m).Err? ==>
            exists f :: FirstBadReference(records, f)
              && DatasetAlleles(dataset, records, m).error == Error(Invalid, InvalidReference(dataset, Upper(records[f].alleles[0])))
    decreases |records|
  {
    if records != [] {
      var rec := records[0];
      var r := RecordAlleles(dataset, rec, ObsCounts(rec.gts, |rec.alleles|), m);
      if r.Ok? {
        var rest := records[1..];
        DatasetFailsIff(dataset, rest, r.value);
        if DatasetAlleles(dataset, rest, r.value).Err? {
          var f :| FirstBadReference(rest, f)
              && DatasetAlleles(dataset, rest, r.value).error == Error(Invalid, InvalidReference(dataset, Upper(rest[f].alleles[0])));
          forall j | 0 <= j < f + 1 ensures Qualifies(records[j].alleles[0]) {
            if j > 0 { assert records[j] == rest[j - 1]; }
          }
          assert records[f + 1] == rest[f];
          assert FirstBadReference(records, f + 1);
        } else {
          forall i | 0 <= i < |records| ensures Qualifies(records[i].alleles[0]) {
            if i > 0 { assert records[i] == rest[i - 1]; }
          }
        }
      } else {
        assert FirstBadReference(records, 0);
      }
    }
  }

  /** Every allele a data set adds is plain uppercase DNA at the range of one
      of its records, and the entries present before are kept unchanged. */
  lemma {:induction false} DatasetAllelesValid(dataset: string, records: seq<Record>, m: DiscoveredAlleles)
    requires AllWellFormed(records)
    requires DatasetAlleles(dataset, records, m).Ok?
    ensures var m' := DatasetAlleles(dataset, records, m).value;
      && m.Keys <= m'.Keys
      && (forall a :: a in m ==> m'[a] == m[a])
      && (forall a :: a in m' && a !in m ==>
            |a.dna| > 0 && IsDna(a.dna) && exists i :: 0 <= i < |records| && records[i].rng == a.pos)
    decreases |records|
  {
    if records != [] {
      var rec := records[0];
      var obs := ObsCounts(rec.gts, |rec.alleles|);
      RecordAllelesKeys(dataset, rec, obs, m);
      var m1 := RecordAlleles(dataset, rec, obs, m).value;
      DatasetAllelesValid(dataset, records[1..], m1);
      var m' := DatasetAlleles(dataset, records, m).value;
      forall a | a in m' && a !in m
        ensures |a.dna| > 0 && IsDna(a.dna) && exists i :: 0 <= i < |records| && records[i].rng == a.pos
      {
        if a in m1 {
          assert a.pos == records[0].rng;
        } else {
          var i :| 0 <= i < |records[1..]| && records[1..][i].rng == a.pos;
          assert records[i + 1].rng == a.pos;
        }
      }
    }
  }

  /** The record loop of one data set. */
  method DiscoverDataset(dataset: string, records: seq<Record>) returns (r: Result<DiscoveredAlleles>)
    requires AllWellFormed(records)
    ensures r == DatasetAlleles(dataset, records, map[])
  {
    var dsals: DiscoveredAlleles := map[];
    var i := 0;
    while i < |records|
      invariant 0 <= i <= |records|
      invariant DatasetAlleles(dataset, records, map[]) == DatasetAlleles(dataset, records[i..], dsals)
    {
      var rec := records[i];
      assert records[i..][0] == rec && records[i..][1..] == records[i + 1..];
      var obs := CountObservations(rec.gts, |rec.alleles|);
      assert obs == ObsCounts(rec.gts, |rec.alleles|);
      var rr := AddRecordAlleles(dataset, rec, obs, dsals);
      if rr.Err? {
        return rr;
      }
      dsals := rr.value;
      i := i + 1;
    }
    r := Ok(dsals);
  }

  // ---------------------------------------------------------------------
  // All data sets

  /** A data set of the sample set, with what storage returned for the
      queried range: its records, or the error status the fetch failed with. */
  datatype Dataset = Dataset(name: string, fetched: Result<seq<Record>>)

  predicate DatasetsWellFormed(datasets: seq<Dataset>)
  {
    forall i :: 0 <= i < |datasets| && datasets[i].fetched.Ok? ==> AllWellFormed(datasets[i].fetched.value)
  }

  /** `merge_discovered_alleles(dsals, ans)`: its status and the merged map. */
  type Merge = (DiscoveredAlleles, DiscoveredAlleles) -> (Status, DiscoveredAlleles)

  /** The data-set loop, from answer `ans`: its status and the answer it
      leaves behind (partial when a data set fails). */
  function Accumulate(datasets: seq<Dataset>, merge: Merge, ans: DiscoveredAlleles): (Status, DiscoveredAlleles)
    requires DatasetsWellFormed(datasets)
    decreases |datasets|
  {
    if datasets == [] then (OK, ans)
    else
      var d := datasets[0];
      match d.fetched
      case Err(e) => (Bad(e), ans)
      case Ok(records) =>
        match DatasetAlleles(d.name, records, map[])
        case Err(e) => (Bad(e), ans)
        case Ok(dsals) =>
          var (ms, merged) := merge(dsals, ans);
          if ms.Bad? then (ms, merged)
          else Accumulate(datasets[1..], merge, merged)
  }

  /** Every data set was fetched and every record's reference passes the
      DNA filter. */
  predicate AllReferencesValid(datasets: seq<Dataset>)
    requires DatasetsWellFormed(datasets)
  {
    forall i :: 0 <= i < |datasets| ==>
      && datasets[i].fetched.Ok?
      && forall r :: 0 <= r < |datasets[i].fetched.value| ==> Qualifies(datasets[i].fetched.value[r].alleles[0])
  }

  /** The data-set loop succeeds only when every data set was fetched and
      every record's reference is plain DNA: one invalid reference in any
      data set fails the whole call, whatever the merge does. */
  lemma {:induction false} AccumulateOkNeedsValidReferences(datasets: seq<Dataset>, merge: Merge, ans: DiscoveredAlleles)
    requires DatasetsWellFormed(datasets)
    ensures Accumulate(datasets, merge, ans).0.OK? ==> AllReferencesValid(datasets)
    decreases |datasets|
  {
    if datasets != [] && Accumulate(datasets, merge, ans).0.OK? {
      var d := datasets[0];
      var records := d.fetched.value;
      DatasetFailsIff(d.name, records, map[]);
      var merged := merge(DatasetAlleles(d.name, records, map[]).value, ans).1;
      var rest := datasets[1..];
      AccumulateOkNeedsValidReferences(rest, merge, merged);
      forall i | 0 <= i < |datasets|
        ensures datasets[i].fetched.Ok?
        ensures forall r :: 0 <= r < |datasets[i].fetched.value| ==> Qualifies(datasets[i].fetched.value[r].alleles[0])
      {
        if i > 0 { assert datasets[i] == rest[i - 1]; }
      }
    }
  }

  /** Once every data set has been merged without error, the status is the
      reference check's; otherwise it is the first error met. On success
      every range of the answer has exactly one reference allele, and every
      data set was fetched with only plain-DNA references. */
  method DiscoverAlleles(datasets: seq<Dataset>, merge: Merge) returns (s: Status, ans: DiscoveredAlleles)
    requires DatasetsWellFormed(datasets)
    ensures ans == Accumulate(datasets, merge, map[]).1
    ensures Accumulate(datasets, merge, map[]).0.Bad? ==> s == Accumulate(datasets, merge, map[]).0
    ensures Accumulate(datasets, merge, map[]).0.OK? ==> RefCheckOutcome(ans, s)
    ensures s.OK? ==> Consistent(ans)
    ensures s.OK? ==> AllReferencesValid(datasets)
  {
    AccumulateOkNeedsValidReferences(datasets, merge, map[]);
    ans := map[];
    var k := 0;
    while k < |datasets|
      invariant 0 <= k <= |datasets|
      invariant Accumulate(datasets, merge, map[]) == Accumulate(datasets[k..], merge, ans)
    {
      var d := datasets[k];
      assert datasets[k..][0] == d && datasets[k..][1..] == datasets[k + 1..];
      if d.fetched.Err? {
        return Bad(d.fetched.error), ans;
      }
      var dsals := DiscoverDataset(d.name, d.fetched.value);
      if dsals.Err? {
        return Bad(dsals.error), ans;
      }
      var (ms, merged) := merge(dsals.value, ans);
      ans := merged;
      if ms.Bad? {
        return ms, ans;
      }
      k := k + 1;
    }
    s := CheckReferences(ans);
  }
}
