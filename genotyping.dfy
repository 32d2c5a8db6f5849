/** The ordered drain of `Service::genotype_sites`: one task per site checks
    a shared abort flag and, if it is clear, calls the genotyper and stores
    its record in the site's slot; the drain then visits the slots in site
    order, writes records while everything has succeeded, records the first
    error, raises the abort flag on a task error and empties every slot.

    Concurrency is replaced by a schedule: task `i` checks the abort flag
    once the drain has finished `startsAt[i]` steps. The future handshake
    forces `startsAt[i] <= i`, since the drain waits for task `i` before it
    reads slot `i`. */
module Genotyping {
  import opened Statuses

  /** What the genotyper returns for a site when it is called. */
  datatype Genotyped<R> = Called(rec: R) | GenotyperFailed(error: Error)

  /** A result slot: the shared pointer, empty or holding a record. */
  datatype Slot<R> = Empty | Filled(rec: R)

  /** A task's future: not yet run, or finished with a status. */
  datatype Future = Pending | Done(status: Status)

  /** The drain loop's variables: `s`, the abort flag and the records handed
      to `bcf_write`, in order. */
  datatype DrainState<R> = DrainState(status: Status, abort: bool, written: seq<R>)

  predicate Schedule<R>(g: seq<Genotyped<R>>, startsAt: seq<nat>, writeOk: seq<bool>)
  {
    && |startsAt| == |g|
    && |writeOk| == |g|
    && forall i :: 0 <= i < |g| ==> startsAt[i] <= i
  }

  /** The status a task returns: `Invalid` without calling the genotyper when
      it sees the abort flag, otherwise the genotyper's status. */
  function TaskStatus<R>(abort: bool, g: Genotyped<R>): (s: Status)
    ensures s.OK? <==> !abort && g.Called?
    ensures abort ==> s == Bad(Error(Invalid, Aborted))
  {
    if abort then Bad(Error(Invalid, Aborted))
    else match g
      case Called(_) => OK
      case GenotyperFailed(e) => Bad(e)
  }

  /** The task body: the slot is filled only when the genotyper was called
      and succeeded. */
  method RunTask<R>(results: array<Slot<R>>, i: nat, abort: bool, g: Genotyped<R>) returns (s: Status, invoked: bool)
    requires i < results.Length
    modifies results
    ensures invoked == !abort
    ensures s == TaskStatus(abort, g)
    ensures results[i] == if s.OK? then Filled(g.rec) else old(results[i])
    ensures forall k :: 0 <= k < results.Length && k != i ==> results[k] == old(results[k])
  {
    if abort {
      return Bad(Error(Invalid, Aborted)), false;
    }
    invoked := true;
    match g
    case GenotyperFailed(e) =>
      s := Bad(e);
    case Called(rec) =>
      results[i] := Filled(rec);
      s := OK;
  }

  /** One step of the drain for slot `i`, given the task's status `si`. */
  function DrainStep<R>(st: DrainState<R>, si: Status, gi: Genotyped<R>, ok: bool): DrainState<R>
    requires si.OK? ==> gi.Called?
  {
    if st.status.OK? && si.OK? then
      DrainState(if ok then OK else Bad(Error(IOError, WriteFailed)), st.abort, st.written + [gi.rec])
    else if st.status.OK? && si.Bad? then
      DrainState(si, true, st.written)
    else
      st
  }

  /** The drain's variables after `j` steps. */
  function Drained<R>(g: seq<Genotyped<R>>, startsAt: seq<nat>, writeOk: seq<bool>, j: nat): DrainState<R>
    requires Schedule(g, startsAt, writeOk) && j <= |g|
    decreases j, 1
  {
    if j == 0 then DrainState(OK, false, [])
    else
      DrainStep(Drained(g, startsAt, writeOk, j - 1), SeenStatus(g, startsAt, writeOk, j - 1), g[j - 1], writeOk[j - 1])
  }

  /** The status task `i` returns, having seen the abort flag as it was after
      `startsAt[i]` drain steps. */
  function SeenStatus<R>(g: seq<Genotyped<R>>, startsAt: seq<nat>, writeOk: seq<bool>, i: nat): Status
    requires Schedule(g, startsAt, writeOk) && i < |g|
    decreases i + 1, 0
  {
    TaskStatus(Drained(g, startsAt, writeOk, startsAt[i]).abort, g[i])
  }

  /** Task `i` calls the genotyper. */
  predicate CallsGenotyper<R>(g: seq<Genotyped<R>>, startsAt: seq<nat>, writeOk: seq<bool>, i: nat)
    requires Schedule(g, startsAt, writeOk) && i < |g|
  {
    !Drained(g, startsAt, writeOk, startsAt[i]).abort
  }

  function SlotOf<R>(g: seq<Genotyped<R>>, startsAt: seq<nat>, writeOk: seq<bool>, i: nat): Slot<R>
    requires Schedule(g, startsAt, writeOk) && i < |g|
  {
    if SeenStatus(g, startsAt, writeOk, i).OK? then Filled(g[i].rec) else Empty
  }

  // ---------------------------------------------------------------------
  // A reference definition of the drain's outcome

  predicate Fails<R>(g: seq<Genotyped<R>>, writeOk: seq<bool>, i: nat)
    requires i < |g| == |writeOk|
  {
    g[i].GenotyperFailed? || !writeOk[i]
  }

  /** The first site, from `i` on, whose genotyping or write fails
      (`|g|` when there is none). */
  function FirstFailureFrom<R>(g: seq<Genotyped<R>>, writeOk: seq<bool>, i: nat): (f: nat)
    requires i <= |g| == |writeOk|
    ensures i <= f <= |g|
    ensures forall k :: i <= k < f ==> g[k].Called? && writeOk[k]
    ensures f < |g| ==> Fails(g, writeOk, f)
    decreases |g| - i
  {
    if i == |g| then i
    else if Fails(g, writeOk, i) then i
    else FirstFailureFrom(g, writeOk, i + 1)
  }

  function FirstFailure<R>(g: seq<Genotyped<R>>, writeOk: seq<bool>): nat
    requires |g| == |writeOk|
  {
    FirstFailureFrom(g, writeOk, 0)
  }

  /** The records of the first `k` sites, all of which were genotyped. */
  function CalledPrefix<R>(g: seq<Genotyped<R>>, k: nat): (rs: seq<R>)
    requires k <= |g| && forall i :: 0 <= i < k ==> g[i].Called?
    ensures |rs| == k
    ensures forall i :: 0 <= i < k ==> rs[i] == g[i].rec
  {
    if k == 0 then [] else CalledPrefix(g, k - 1) + [g[k - 1].rec]
  }

  /** The status reported for a failing site. */
  function FailureStatus<R>(gf: Genotyped<R>): Status
  {
    match gf
    case GenotyperFailed(e) => Bad(e)
    case Called(_) => Bad(Error(IOError, WriteFailed))
  }

  /** The drain's variables after `j` steps, in closed form: everything is
      fine before the first failing site; at it the status becomes that
      site's error, and the abort flag is raised only for a task error. */
  function ExpectedDrain<R>(g: seq<Genotyped<R>>, writeOk: seq<bool>, j: nat): DrainState<R>
    requires |writeOk| == |g| && j <= |g|
  {
    var f := FirstFailure(g, writeOk);
    if j <= f then DrainState(OK, false, CalledPrefix(g, j))
    else DrainState(FailureStatus(g[f]), g[f].GenotyperFailed?,
                    CalledPrefix(g, f) + (if g[f].Called? then [g[f].rec] else []))
  }

  /** The drain agrees with the closed form after every step, whatever the
      schedule. */
  lemma {:induction false} DrainedIsExpected<R>(g: seq<Genotyped<R>>, startsAt: seq<nat>, writeOk: seq<bool>, j: nat)
    requires Schedule(g, startsAt, writeOk) && j <= |g|
    ensures Drained(g, startsAt, writeOk, j) == ExpectedDrain(g, writeOk, j)
    decreases j
  {
    if j > 0 {
      var f := FirstFailure(g, writeOk);
      DrainedIsExpected(g, startsAt, writeOk, j - 1);
      DrainedIsExpected(g, startsAt, writeOk, startsAt[j - 1]);
      if j - 1 < f {
        assert CalledPrefix(g, j) == CalledPrefix(g, j - 1) + [g[j - 1].rec];
      }
    }
  }

  // ---------------------------------------------------------------------
  // Properties of the drain

  /** Written records appear in site order: the output is a prefix of the
      sites' records. */
  lemma WrittenInSiteOrder<R>(g: seq<Genotyped<R>>, startsAt: seq<nat>, writeOk: seq<bool>)
    requires Schedule(g, startsAt, writeOk)
    ensures var w := Drained(g, startsAt, writeOk, |g|).written;
      |w| <= |g| && forall i :: 0 <= i < |w| ==> g[i].Called? && w[i] == g[i].rec
  {
    DrainedIsExpected(g, startsAt, writeOk, |g|);
  }

  /** Record `i` is handed to the writer exactly when every site up to `i`
      was genotyped and every earlier write succeeded. */
  lemma WrittenIff<R>(g: seq<Genotyped<R>>, startsAt: seq<nat>, writeOk: seq<bool>, i: nat)
    requires Schedule(g, startsAt, writeOk) && i < |g|
    ensures i < |Drained(g, startsAt, writeOk, |g|).written| <==>
            (forall k :: 0 <= k <= i ==> g[k].Called?) && (forall k :: 0 <= k < i ==> writeOk[k])
  {
    DrainedIsExpected(g, startsAt, writeOk, |g|);
    var f := FirstFailure(g, writeOk);
    if i > f {
      assert Fails(g, writeOk, f);
    }
  }

  /** The drain reports OK exactly when every site was genotyped and written;
      otherwise it reports the first failure in site order, which is a
      genotyper error or a write error, never the abort signal of a later
      task. */
  lemma StatusIsFirstFailure<R>(g: seq<Genotyped<R>>, startsAt: seq<nat>, writeOk: seq<bool>)
    requires Schedule(g, startsAt, writeOk)
    ensures var s := Drained(g, startsAt, writeOk, |g|).status;
      && (s.OK? <==> forall i :: 0 <= i < |g| ==> g[i].Called? && writeOk[i])
      && (s.Bad? ==> exists f :: 0 <= f < |g| && Fails(g, writeOk, f)
                       && (forall k :: 0 <= k < f ==> !Fails(g, writeOk, k))
                       && s == FailureStatus(g[f]))
  {
    DrainedIsExpected(g, startsAt, writeOk, |g|);
    var f := FirstFailure(g, writeOk);
    if f < |g| {
      assert !(g[f].Called? && writeOk[f]);
    }
  }

  /** The abort flag is raised exactly when the first failure is a task
      error: a write error sets the status but does not raise it. */
  lemma AbortIff<R>(g: seq<Genotyped<R>>, startsAt: seq<nat>, writeOk: seq<bool>)
    requires Schedule(g, startsAt, writeOk)
    ensures var f := FirstFailure(g, writeOk);
      Drained(g, startsAt, writeOk, |g|).abort <==> f < |g| && g[f].GenotyperFailed?
  {
    DrainedIsExpected(g, startsAt, writeOk, |g|);
  }

  /** The abort flag only ever goes from false to true. */
  lemma AbortMonotone<R>(g: seq<Genotyped<R>>, startsAt: seq<nat>, writeOk: seq<bool>, j: nat, k: nat)
    requires Schedule(g, startsAt, writeOk) && j <= k <= |g|
    ensures Drained(g, startsAt, writeOk, j).abort ==> Drained(g, startsAt, writeOk, k).abort
  {
    DrainedIsExpected(g, startsAt, writeOk, j);
    DrainedIsExpected(g, startsAt, writeOk, k);
  }

  /** Task `i` skips the genotyper exactly when the first failure in site
      order is a task error and it had already been drained when the task
      checked the flag (a task error drained after a write error raises
      nothing); in particular every task up to the first failing site calls
      the genotyper. */
  lemma CallsGenotyperIff<R>(g: seq<Genotyped<R>>, startsAt: seq<nat>, writeOk: seq<bool>, i: nat)
    requires Schedule(g, startsAt, writeOk) && i < |g|
    ensures var f := FirstFailure(g, writeOk);
      CallsGenotyper(g, startsAt, writeOk, i) <==> !(f < startsAt[i] && g[f].GenotyperFailed?)
    ensures i <= FirstFailure(g, writeOk) ==> CallsGenotyper(g, startsAt, writeOk, i)
  {
    DrainedIsExpected(g, startsAt, writeOk, startsAt[i]);
  }

  /** The order in which tasks run changes neither the status, nor the abort
      flag, nor what is written. */
  lemma ScheduleIndependent<R>(g: seq<Genotyped<R>>, startsAt1: seq<nat>, startsAt2: seq<nat>, writeOk: seq<bool>)
    requires Schedule(g, startsAt1, writeOk) && Schedule(g, startsAt2, writeOk)
    ensures Drained(g, startsAt1, writeOk, |g|) == Drained(g, startsAt2, writeOk, |g|)
  {
    DrainedIsExpected(g, startsAt1, writeOk, |g|);
    DrainedIsExpected(g, startsAt2, writeOk, |g|);
  }

  // ---------------------------------------------------------------------
  // The scheduler

  /** The futures and slots of sites `[lo, hi)` once exactly the tasks with
      `startsAt[k] < bound` have run. */
  ghost predicate Undrained<R>(g: seq<Genotyped<R>>, startsAt: seq<nat>, writeOk: seq<bool>, lo: nat, hi: nat, bound: nat,
                             results: array<Slot<R>>, futures: array<Future>)
    requires Schedule(g, startsAt, writeOk) && lo <= hi <= |g| && results.Length == futures.Length == |g|
    reads results, futures
  {
    forall k :: lo <= k < hi ==>
      && futures[k] == (if startsAt[k] < bound then Done(SeenStatus(g, startsAt, writeOk, k)) else Pending)
      && results[k] == (if startsAt[k] < bound then SlotOf(g, startsAt, writeOk, k) else Empty)
  }

  /** The first `j` sites are drained: their futures hold their task's
      status and their slots are empty. */
  ghost predicate DrainedPrefix<R>(g: seq<Genotyped<R>>, startsAt: seq<nat>, writeOk: seq<bool>, j: nat,
                                 results: array<Slot<R>>, futures: array<Future>)
    requires Schedule(g, startsAt, writeOk) && j <= |g| && results.Length == futures.Length == |g|
    reads results, futures
  {
    forall k :: 0 <= k < j ==> futures[k] == Done(SeenStatus(g, startsAt, writeOk, k)) && results[k] == Empty
  }

  /** The shared arrays after `j` drain steps, once exactly the tasks with
      `startsAt[k] < bound` have run: drained futures hold their task's
      status and drained slots are empty, the others hold what their task
      left, and `calls` records which tasks called the genotyper. */
  ghost predicate Slots<R>(g: seq<Genotyped<R>>, startsAt: seq<nat>, writeOk: seq<bool>, j: nat, bound: nat,
                         results: array<Slot<R>>, futures: array<Future>, calls: array<bool>)
    reads results, futures, calls
  {
    && Schedule(g, startsAt, writeOk)
    && j <= |g|
    && results.Length == futures.Length == calls.Length == |g|
    && DrainedPrefix(g, startsAt, writeOk, j, results, futures)
    && Undrained(g, startsAt, writeOk, j, |g|, bound, results, futures)
    && (forall k :: 0 <= k < |g| ==> calls[k] == (startsAt[k] < bound && CallsGenotyper(g, startsAt, writeOk, k)))
  }

  /** Run, in site order, the tasks that check the abort flag once `j` drain
      steps are done. */
  method StartTasks<R>(g: seq<Genotyped<R>>, startsAt: seq<nat>, writeOk: seq<bool>, j: nat, abort: bool,
                       results: array<Slot<R>>, futures: array<Future>, calls: array<bool>)
    requires Slots(g, startsAt, writeOk, j, j, results, futures, calls) && j < |g|
    requires abort == Drained(g, startsAt, writeOk, j).abort
    modifies results, futures, calls
    ensures Slots(g, startsAt, writeOk, j, j + 1, results, futures, calls)
  {
    var i := j;
    while i < |g|
      invariant j <= i <= |g|
      invariant DrainedPrefix(g, startsAt, writeOk, j, results, futures)
      invariant Undrained(g, startsAt, writeOk, j, i, j + 1, results, futures)
      invariant Undrained(g, startsAt, writeOk, i, |g|, j, results, futures)
      invariant forall k :: 0 <= k < |g| ==>
        calls[k] == ((startsAt[k] < j || (startsAt[k] == j && k < i)) && CallsGenotyper(g, startsAt, writeOk, k))
    {
      if startsAt[i] == j {
        var st, inv := RunTask(results, i, abort, g[i]);
        futures[i] := Done(st);
        calls[i] := inv;
      }
      i := i + 1;
    }
  }

  /** One iteration of the drain loop: wait for task `j`, move the record
      out of slot `j`, then write it if all is well so far, or record the
      task's error and raise the abort flag. */
  method DrainSlot<R>(g: seq<Genotyped<R>>, startsAt: seq<nat>, writeOk: seq<bool>, j: nat,
                      s: Status, abort: bool, written: seq<R>,
                      results: array<Slot<R>>, futures: array<Future>, calls: array<bool>)
    returns (s': Status, abort': bool, written': seq<R>)
    requires Slots(g, startsAt, writeOk, j, j + 1, results, futures, calls) && j < |g|
    requires DrainState(s, abort, written) == Drained(g, startsAt, writeOk, j)
    modifies results
    ensures Slots(g, startsAt, writeOk, j + 1, j + 1, results, futures, calls)
    ensures DrainState(s', abort', written') == Drained(g, startsAt, writeOk, j + 1)
  {
    assert futures[j] == Done(SeenStatus(g, startsAt, writeOk, j));
    assert results[j] == SlotOf(g, startsAt, writeOk, j);
    s', abort', written' := s, abort, written;
    var sj := futures[j].status;
    var bcf := results[j];
    results[j] := Empty;
    if s.OK? && sj.OK? {
      written' := written + [bcf.rec];
      if !writeOk[j] {
        s' := Bad(Error(IOError, WriteFailed));
      }
    } else if s.OK? && sj.Bad? {
      s' := sj;
      abort' := true;
    }
  }

  /** Run one task per site under the schedule `startsAt`, drain the slots in
      site order and close the output. `writeOk[i]` is what `bcf_write`
      returns for site `i`, `closeOk` what `bcf_close` returns. Besides the
      status, the written records and the abort flag, the method returns the
      final slots (all emptied), which tasks called the genotyper, and the
      futures, every one of which has completed. */
  method GenotypeSites<R>(g: seq<Genotyped<R>>, startsAt: seq<nat>, writeOk: seq<bool>, closeOk: bool)
    returns (s: Status, written: seq<R>, abort: bool, slots: seq<Slot<R>>, invoked: seq<bool>, finished: seq<Future>)
    requires Schedule(g, startsAt, writeOk)
    ensures var st := Drained(g, startsAt, writeOk, |g|);
      && written == st.written
      && abort == st.abort
      && s == (if st.status.Bad? then st.status else if closeOk then OK else Bad(Error(IOError, CloseFailed)))
    ensures |slots| == |g| && forall i :: 0 <= i < |g| ==> slots[i] == Empty
    ensures |invoked| == |g| && forall i :: 0 <= i < |g| ==> invoked[i] == CallsGenotyper(g, startsAt, writeOk, i)
    ensures |finished| == |g| && forall i :: 0 <= i < |g| ==> finished[i] == Done(SeenStatus(g, startsAt, writeOk, i))
  {
    var n := |g|;
    var results := new Slot<R>[n](_ => Empty);
    var futures := new Future[n](_ => Pending);
    var calls := new bool[n](_ => false);
    s, abort, written := OK, false, [];
    var j := 0;
    while j < n
      invariant 0 <= j <= n
      invariant DrainState(s, abort, written) == Drained(g, startsAt, writeOk, j)
      invariant Slots(g, startsAt, writeOk, j, j, results, futures, calls)
    {
      // start the tasks that check the abort flag after j drain steps
      StartTasks(g, startsAt, writeOk, j, abort, results, futures, calls);

      // drain slot j
      s, abort, written := DrainSlot(g, startsAt, writeOk, j, s, abort, written, results, futures, calls);
      j := j + 1;
    }
    slots := results[..];
    invoked := calls[..];
    finished := futures[..];
    if s.OK? && !closeOk {
      s := Bad(Error(IOError, CloseFailed));
    }
  }
}
