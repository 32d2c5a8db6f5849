/** The check run once all data sets have been merged: every range among the
    discovered alleles must carry exactly one reference allele. Ranges are
    visited in ascending order and the first offending one is reported. */
module RefCheck {
  import opened Ranges
  import opened Statuses
  import opened Alleles

  /** The distinct ranges among the discovered alleles. */
  function RangesOf(ans: DiscoveredAlleles): set<Range>
  {
    set k | k in ans :: k.pos
  }

  /** The reference strings recorded at one range. Keys are unique, so this
      set has as many members as there are reference entries at `rng`. */
  function RefsAt(ans: DiscoveredAlleles, rng: Range): set<string>
  {
    set k | k in ans && k.pos == rng && ans[k].isRef :: k.dna
  }

  predicate Consistent(ans: DiscoveredAlleles)
  {
    forall rng :: rng in RangesOf(ans) ==> |RefsAt(ans, rng)| == 1
  }

  predicate Offending(ans: DiscoveredAlleles, rng: Range)
  {
    rng in RangesOf(ans) && |RefsAt(ans, rng)| != 1
  }

  /** `rng` is the least range that violates the exactly-one-reference rule. */
  predicate FirstOffending(ans: DiscoveredAlleles, rng: Range)
  {
    && Offending(ans, rng)
    && forall r :: r in RangesOf(ans) && Offending(ans, r) ==> Le(rng, r)
  }

  /** The statuses the check may return for `ans`. */
  predicate RefCheckOutcome(ans: DiscoveredAlleles, s: Status)
  {
    match s
    case OK => Consistent(ans)
    case Bad(Error(Invalid, InconsistentReferences(rng, refs))) =>
      FirstOffending(ans, rng) && |RefsAt(ans, rng)| > 1 && refs == RefsAt(ans, rng)
    case Bad(Error(Invalid, NoReference(rng))) =>
      FirstOffending(ans, rng) && |RefsAt(ans, rng)| == 0
    case _ => false
  }

  /** The outcome is determined by `ans`: at most one status fits it. */
  lemma RefCheckOutcomeUnique(ans: DiscoveredAlleles, s1: Status, s2: Status)
    requires RefCheckOutcome(ans, s1) && RefCheckOutcome(ans, s2)
    ensures s1 == s2
  {
    if s1.Bad? && s2.Bad? {
      var r1 := s1.error.message.rng;
      var r2 := s2.error.message.rng;
      assert Le(r1, r2) && Le(r2, r1);
    }
  }

  /** An empty allele map passes the check. */
  lemma EmptyIsConsistent(s: Status)
    requires RefCheckOutcome(map[], s)
    ensures s == OK
  {
  }

  /** The references listed for a range, read from the (range, dna, is_ref)
      triples the check collects, are those of `RefsAt`. */
  lemma RefsFromTriples(ans: DiscoveredAlleles, triples: set<(Range, string, bool)>, rng: Range)
    requires triples == set k | k in ans :: (k.pos, k.dna, ans[k].isRef)
    ensures (set e | e in triples && e.0 == rng && e.2 :: e.1) == RefsAt(ans, rng)
  {
    var lhs := set e | e in triples && e.0 == rng && e.2 :: e.1;
    forall d | d in RefsAt(ans, rng) ensures d in lhs {
      var k :| k in ans && k.pos == rng && ans[k].isRef && k.dna == d;
      assert (k.pos, k.dna, ans[k].isRef) in triples;
    }
  }

  /** One pass over the discovered alleles collecting their distinct ranges
      and a (range, dna, is_ref) multimap. */
  method CollectTriples(ans: DiscoveredAlleles) returns (ranges: set<Range>, refcheck: set<(Range, string, bool)>)
    ensures ranges == RangesOf(ans)
    ensures refcheck == set k | k in ans :: (k.pos, k.dna, ans[k].isRef)
  {
    ranges, refcheck := {}, {};
    var unseen := ans.Keys;
    while unseen != {}
      invariant unseen <= ans.Keys
      invariant ranges == set k | k in ans && k !in unseen :: k.pos
      invariant refcheck == set k | k in ans && k !in unseen :: (k.pos, k.dna, ans[k].isRef)
      decreases unseen
    {
      var k :| k in unseen;
      refcheck := refcheck + {(k.pos, k.dna, ans[k].isRef)};
      ranges := ranges + {k.pos};
      unseen := unseen - {k};
    }
  }

  /** The reference strings the multimap lists for one range. */
  method CollectRefs(refcheck: set<(Range, string, bool)>, rng: Range) returns (refs: set<string>)
    ensures refs == set e | e in refcheck && e.0 == rng && e.2 :: e.1
  {
    refs := {};
    var entries := refcheck;
    while entries != {}
      invariant entries <= refcheck
      invariant refs == set e | e in refcheck && e !in entries && e.0 == rng && e.2 :: e.1
      decreases entries
    {
      var e :| e in entries;
      if e.0 == rng && e.2 {
        refs := refs + {e.1};
      }
      entries := entries - {e};
    }
  }

  /** The check as the service runs it: collect the ranges and a
      (range, dna, is_ref) multimap from `ans`, then for each range in
      ascending order gather its reference strings. */
  method CheckReferences(ans: DiscoveredAlleles) returns (s: Status)
    ensures RefCheckOutcome(ans, s)
  {
    var ranges, refcheck := CollectTriples(ans);
    var pending := ranges;
    while pending != {}
      invariant pending <= RangesOf(ans)
      invariant forall r :: r in RangesOf(ans) && r !in pending ==> |RefsAt(ans, r)| == 1
      decreases pending
    {
      LeastExists(pending);
      var rng :| IsLeast(rng, pending);
      var refs := CollectRefs(refcheck, rng);
      RefsFromTriples(ans, refcheck, rng);
      if |refs| > 1 {
        return Bad(Error(Invalid, InconsistentReferences(rng, refs)));
      } else if |refs| == 0 {
        return Bad(Error(Invalid, NoReference(rng)));
      }
      pending := pending - {rng};
    }
    s := OK;
  }
}
