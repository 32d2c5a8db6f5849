/** Allele strings: `is_dna`, the C-locale `toupper` applied to each
    character, and the filter both alt and ref alleles pass through. */
module Dna {

  predicate IsDnaChar(c: char)
  {
    c == 'A' || c == 'C' || c == 'G' || c == 'T'
  }

  /** `is_dna`: every character is one of A, C, G, T (so the empty string
      qualifies vacuously). */
  function IsDna(s: string): (b: bool)
    ensures b <==> forall i :: 0 <= i < |s| ==> IsDnaChar(s[i])
  {
    if s == [] then true else IsDnaChar(s[0]) && IsDna(s[1..])
  }

  /** `::toupper` in the C locale: only 'a'..'z' change. */
  function UpperChar(c: char): char
  {
    if 'a' <= c <= 'z' then (c as int - 32) as char else c
  }

  /** `transform(..., ::toupper)` over a whole string. */
  function Upper(s: string): (u: string)
    ensures |u| == |s|
    ensures forall i :: 0 <= i < |s| ==> u[i] == UpperChar(s[i])
  {
    if s == [] then [] else [UpperChar(s[0])] + Upper(s[1..])
  }

  /** The test an allele string must pass: non-empty once uppercased and
      made only of A/C/G/T. */
  predicate Qualifies(s: string)
  {
    var u := Upper(s);
    |u| > 0 && IsDna(u)
  }

  predicate IsNucleotide(c: char)
  {
    c in "ACGTacgt"
  }

  /** An allele string qualifies exactly when it is non-empty and every
      character is a nucleotide letter in either case; so symbolic alleles
      such as "<NON_REF>", ambiguity codes such as "N" and the empty string
      never do. */
  lemma QualifiesIff(s: string)
    ensures Qualifies(s) <==> |s| > 0 && forall i :: 0 <= i < |s| ==> IsNucleotide(s[i])
  {
    var u := Upper(s);
    if Qualifies(s) {
      forall i | 0 <= i < |s| ensures IsNucleotide(s[i]) {
        assert IsDnaChar(u[i]);
      }
    }
  }

  /** A qualifying string is stored in its uppercase form, which
      uppercasing leaves unchanged. */
  lemma QualifyingUpperIsDna(s: string)
    requires Qualifies(s)
    ensures Upper(Upper(s)) == Upper(s)
  {
  }
}
