/** The allele model: an allele is a range and its uppercased DNA string,
    and discovery maps each allele to whether it is a reference allele and
    how often it was observed. */
module Alleles {
  import opened Ranges

  datatype Allele = Allele(pos: Range, dna: string)

  /** Observation counts are only ever incremented by one, so a natural
      number stands for the source's float. */
  datatype AlleleInfo = AlleleInfo(isRef: bool, observations: nat)

  type DiscoveredAlleles = map<Allele, AlleleInfo>

  /** `std::map::insert`: an allele already present keeps its entry. */
  function Insert(m: DiscoveredAlleles, k: Allele, v: AlleleInfo): (r: DiscoveredAlleles)
    ensures r.Keys == m.Keys + {k}
    ensures forall a :: a in m ==> r[a] == m[a]
    ensures k !in m ==> r[k] == v
  {
    if k in m then m else m[k := v]
  }
}
