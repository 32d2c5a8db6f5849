/** Genomic ranges: a contig id and a begin/end position, ordered first by
    contig, then by begin, then by end. */
module Ranges {

  datatype Range = Range(contig: int, beg: int, end: int)

  /** The order in which a `std::set<range>` is traversed. */
  predicate Le(a: Range, b: Range)
  {
    || a.contig < b.contig
    || (a.contig == b.contig && a.beg < b.beg)
    || (a.contig == b.contig && a.beg == b.beg && a.end <= b.end)
  }

  predicate IsLeast(m: Range, s: set<Range>)
  {
    m in s && forall r :: r in s ==> Le(m, r)
  }

  lemma LeTransitive(a: Range, b: Range, c: Range)
    requires Le(a, b) && Le(b, c)
    ensures Le(a, c)
  {
  }

  /** Every non-empty finite set of ranges has a least element, so the
      ranges of a set can be visited in ascending order. */
  lemma {:induction false} LeastExists(s: set<Range>)
    requires s != {}
    ensures exists m :: IsLeast(m, s)
    decreases s
  {
    var x :| x in s;
    if s == {x} {
      assert IsLeast(x, s);
    } else {
      LeastExists(s - {x});
      var m :| IsLeast(m, s - {x});
      if Le(x, m) {
        forall r | r in s ensures Le(x, r) {
          if r != x { LeTransitive(x, m, r); }
        }
        assert IsLeast(x, s);
      } else {
        assert IsLeast(m, s);
      }
    }
  }
}
