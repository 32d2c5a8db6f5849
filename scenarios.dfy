/** Worked cases of allele discovery, the reference check and the drain,
    each stated over the model's own definitions. */
module Scenarios {
  import opened Ranges
  import opened Statuses
  import opened Dna
  import opened Alleles
  import opened RefCheck
  import opened Discovery
  import opened Genotyping

  /** Three samples called 0/0, 0/1 and 1/1 at a biallelic A/G site. */
  function BiallelicCalls(): seq<GtEntry>
  {
    [Call(0), Call(0), Call(0), Call(1), Call(1), Call(1)]
  }

  /** Counting one more entry adds one exactly when it is a call of `a`. */
  lemma ObservationsSnoc(gts: seq<GtEntry>, e: GtEntry, a: int)
    ensures Observations(gts + [e], a) == Observations(gts, a) + (if e == Call(a) then 1 else 0)
  {
    assert (gts + [e])[..|gts|] == gts;
  }

  lemma BiallelicObservations(a: int)
    requires 0 <= a < 2
    ensures Observations(BiallelicCalls(), a) == 3
  {
    var c0, c1 := Call(0), Call(1);
    var p0: seq<GtEntry> := [];
    var p1 := p0 + [c0];
    var p2 := p1 + [c0];
    var p3 := p2 + [c0];
    var p4 := p3 + [c1];
    var p5 := p4 + [c1];
    assert p5 + [c1] == BiallelicCalls();
    ObservationsSnoc(p0, c0, a);
    ObservationsSnoc(p1, c0, a);
    ObservationsSnoc(p2, c0, a);
    ObservationsSnoc(p3, c1, a);
    ObservationsSnoc(p4, c1, a);
    ObservationsSnoc(p5, c1, a);
  }

  /** Single-letter alleles in either case qualify, keyed by their
      uppercase letter. */
  lemma SingleBaseQualifies(c: char)
    requires IsNucleotide(c)
    ensures Qualifies([c]) && Upper([c]) == [UpperChar(c)]
  {
    QualifiesIff([c]);
  }

  /** The symbolic allele `<NON_REF>` does not qualify. */
  lemma NonRefDoesNotQualify()
    ensures !Qualifies("<NON_REF>")
  {
    var u := Upper("<NON_REF>");
    assert u[0] == UpperChar('<') == '<';
    assert !IsDnaChar(u[0]);
  }

  /** The alternate allele is observed three times (one heterozygous and two
      homozygous calls), and because it was emitted the reference is
      emitted too. */
  lemma BiallelicRecord(dataset: string, rng: Range)
    ensures ObsCounts(BiallelicCalls(), 2) == [3, 3]
    ensures RecordAlleles(dataset, Record(rng, ["A", "g"], BiallelicCalls()), [3, 3], map[])
            == Ok(map[Allele(rng, "G") := AlleleInfo(false, 3), Allele(rng, "A") := AlleleInfo(true, 3)])
  {
    BiallelicObservations(0);
    BiallelicObservations(1);
    SingleBaseQualifies('A');
    SingleBaseQualifies('g');
    var alleles := ["A", "g"];
    assert alleles[0] == "A" && alleles[1] == "g";
    assert HasAlt(alleles, 2);
    var alts := AltEntries(rng, alleles, [3, 3], 2, map[]);
    assert AltEntries(rng, alleles, [3, 3], 1, map[]) == map[];
    assert alts == map[Allele(rng, "G") := AlleleInfo(false, 3)];
  }

  /** A reference containing `N` fails the record with `Invalid`, even though
      its alternate allele is plain DNA. */
  lemma NonDnaReference(dataset: string, rng: Range, gts: seq<GtEntry>)
    ensures RecordAlleles(dataset, Record(rng, ["AN", "A"], gts), [0, 0], map[])
            == Err(Error(Invalid, InvalidReference(dataset, "AN")))
  {
    assert !IsNucleotide("AN"[1]);
    QualifiesIff("AN");
    assert Upper("AN") == "AN";
  }

  /** A gVCF reference block, whose only alternate is the symbolic
      `<NON_REF>`, contributes nothing. */
  lemma ReferenceBlockAddsNothing(dataset: string, rng: Range, gts: seq<GtEntry>, m: DiscoveredAlleles)
    ensures RecordAlleles(dataset, Record(rng, ["C", "<NON_REF>"], gts), [1, 0], m) == Ok(m)
  {
    SingleBaseQualifies('C');
    NonRefDoesNotQualify();
    var rec := Record(rng, ["C", "<NON_REF>"], gts);
    assert rec.alleles[0] == "C" && rec.alleles[1] == "<NON_REF>";
    assert !HasAlt(rec.alleles, 2);
    RecordAllelesKeys(dataset, rec, [1, 0], m);
  }

  /** Two data sets that disagree on the reference at one range, A against
      G, make the check fail naming both reference strings. */
  lemma ConflictingReferences(rng: Range, s: Status)
    requires RefCheckOutcome(map[Allele(rng, "A") := AlleleInfo(true, 2),
                                 Allele(rng, "G") := AlleleInfo(true, 1),
                                 Allele(rng, "T") := AlleleInfo(false, 1)], s)
    ensures s == Bad(Error(Invalid, InconsistentReferences(rng, {"A", "G"})))
  {
    var ans := map[Allele(rng, "A") := AlleleInfo(true, 2),
                   Allele(rng, "G") := AlleleInfo(true, 1),
                   Allele(rng, "T") := AlleleInfo(false, 1)];
    assert RangesOf(ans) == {rng} by {
      assert Allele(rng, "A") in ans;
    }
    assert RefsAt(ans, rng) == {"A", "G"} by {
      assert Allele(rng, "A") in ans && Allele(rng, "G") in ans;
      assert Allele(rng, "T") in ans && !ans[Allele(rng, "T")].isRef;
    }
    assert "A" != "G";
    assert |RefsAt(ans, rng)| == 2;
  }

  /** When the first site's genotyping fails, the drain reports that error,
      writes nothing and raises the abort flag, however the tasks were
      scheduled. */
  lemma FirstSiteFails<R>(g: seq<Genotyped<R>>, startsAt: seq<nat>, writeOk: seq<bool>)
    requires Schedule(g, startsAt, writeOk) && |g| > 0 && g[0].GenotyperFailed?
    ensures Drained(g, startsAt, writeOk, |g|) == DrainState(Bad(g[0].error), true, [])
  {
    DrainedIsExpected(g, startsAt, writeOk, |g|);
    assert FirstFailure(g, writeOk) == 0;
  }

  /** When every site is genotyped and written, the drain reports OK and
      writes every record in site order, however the tasks were scheduled. */
  lemma AllSitesSucceed<R>(g: seq<Genotyped<R>>, startsAt: seq<nat>, writeOk: seq<bool>)
    requires Schedule(g, startsAt, writeOk)
    requires forall i :: 0 <= i < |g| ==> g[i].Called? && writeOk[i]
    ensures var d := Drained(g, startsAt, writeOk, |g|);
      && d.status == OK && !d.abort
      && |d.written| == |g|
      && forall i :: 0 <= i < |g| ==> d.written[i] == g[i].rec
  {
    DrainedIsExpected(g, startsAt, writeOk, |g|);
  }
}
