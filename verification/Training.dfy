/**
 Resumable training (examples/training/resnet_cifar.py). A training step is an abstract
 function of the state, the schedule and the batch; what is proved is which batches it is
 given, in what order, and what a resumed attempt continues from.
 */
module Training {
  import opened Prelude

  type Batch = seq<nat>

  /** The settings of a run; `order` is each epoch's permutation of the training set. */
  datatype Config<!S> = Config(size: nat, batchSize: nat, epochs: nat, maxSteps: nat, checkpointEvery: nat,
                               order: nat -> seq<nat>, learn: (S, nat, Batch) -> S, initial: S)
  {
    function StepsPerEpoch(): nat
      requires batchSize > 0
    {
      size / batchSize
    }

    function FullSteps(): nat
      requires batchSize > 0
    {
      epochs * StepsPerEpoch()
    }

    /** What the schedule is made for. */
    function TotalSteps(): nat
      requires batchSize > 0
    {
      if maxSteps > 0 then maxSteps else FullSteps()
    }

    /** Where an uninterrupted run stops. */
    function Target(): nat
      requires batchSize > 0
    {
      if maxSteps > 0 then Min(maxSteps, FullSteps()) else FullSteps()
    }
  }

  ghost predicate Permutation(s: seq<nat>, n: nat) {
    |s| == n && (forall i :: 0 <= i < n ==> s[i] < n) && forall i, j :: 0 <= i < j < n ==> s[i] != s[j]
  }

  /** At least one batch an epoch and one epoch, without which there is no schedule. */
  ghost predicate Sensible<S>(c: Config<S>) {
    && 0 < c.batchSize <= c.size && c.epochs > 0
    && forall e: nat :: Permutation(c.order(e), c.size)
  }

  lemma AtLeastOneStep<S>(c: Config<S>)
    requires Sensible(c)
    ensures c.StepsPerEpoch() >= 1 && c.FullSteps() >= 1 && c.Target() >= 1 && c.TotalSteps() >= 1
  {
    DivisionParts(c.size, c.batchSize);
    QuotientOrder(c.batchSize, 1, 0, c.size / c.batchSize, c.size % c.batchSize);
    AtLeastOneTimes(c.epochs, c.StepsPerEpoch());
  }

  // ------------------------------------------------------------- batches and order

  /** Batch `i` of an order cut into batches, the incomplete one dropped. */
  function Cut(order: seq<nat>, batchSize: nat, i: nat): Batch
    requires 0 <= i * batchSize <= i * batchSize + batchSize <= |order|
  {
    order[i * batchSize..i * batchSize + batchSize]
  }

  lemma CutFits(i: nat, size: nat, batchSize: nat)
    requires batchSize > 0 && i < size / batchSize
    ensures 0 <= i * batchSize <= i * batchSize + batchSize <= size
  {
    DivisionParts(size, batchSize);
    TimesMonotone(batchSize, i + 1, size / batchSize);
  }

  /** The batch trained on at global step `s`. */
  function BatchAt<S>(c: Config<S>, s: nat): Batch
    requires Sensible(c)
  {
    AtLeastOneStep(c);
    var spe := c.StepsPerEpoch();
    CutFits(s % spe, c.size, c.batchSize);
    Cut(c.order(s / spe), c.batchSize, s % spe)
  }

  function Batches(order: seq<nat>, batchSize: nat): (batches: seq<Batch>)
    requires batchSize > 0
    ensures |batches| == |order| / batchSize
  {
    seq(|order| / batchSize, i requires 0 <= i < |order| / batchSize => CutFits(i, |order|, batchSize); Cut(order, batchSize, i))
  }

  /** What is left of an epoch's order after `skip` batches, as the loader cuts it. */
  function Loader(order: seq<nat>, batchSize: nat, skip: nat): seq<Batch>
    requires batchSize > 0
  {
    Batches(if skip * batchSize <= |order| then order[skip * batchSize..] else [], batchSize)
  }

  lemma LoaderSize(size: nat, batchSize: nat, skip: nat)
    requires batchSize > 0 && skip <= size / batchSize
    ensures 0 <= skip * batchSize <= size
    ensures (size - skip * batchSize) / batchSize == size / batchSize - skip
  {
    var q, r := size / batchSize, size % batchSize;
    DivisionParts(size, batchSize);
    TimesMonotone(batchSize, skip, q);
    assert batchSize * (q - skip) == batchSize * q - batchSize * skip;
    var left := size - skip * batchSize;
    DivisionParts(left, batchSize);
    QuotientOrder(batchSize, left / batchSize, left % batchSize, q - skip, r);
    QuotientOrder(batchSize, q - skip, r, left / batchSize, left % batchSize);
  }

  /** Skipping the batches already trained on leaves exactly the others, in order. */
  lemma LoaderResumes(order: seq<nat>, batchSize: nat, skip: nat, i: nat)
    requires batchSize > 0 && skip + i < |order| / batchSize
    ensures |Loader(order, batchSize, skip)| == |order| / batchSize - skip
    ensures 0 <= (skip + i) * batchSize <= (skip + i) * batchSize + batchSize <= |order|
    ensures Loader(order, batchSize, skip)[i] == Cut(order, batchSize, skip + i)
  {
    LoaderSize(|order|, batchSize, skip);
    CutFits(skip + i, |order|, batchSize);
    assert (skip + i) * batchSize == skip * batchSize + i * batchSize;
    var rest := order[skip * batchSize..];
    CutFits(i, |rest|, batchSize);
    assert Batches(rest, batchSize)[i] == Cut(rest, batchSize, i);
  }

  lemma CutsDisjoint(order: seq<nat>, batchSize: nat, i: nat, j: nat, image: nat)
    requires Permutation(order, |order|) && i < j
    requires 0 <= i * batchSize <= i * batchSize + batchSize <= j * batchSize <= j * batchSize + batchSize <= |order|
    ensures !(image in Cut(order, batchSize, i) && image in Cut(order, batchSize, j))
  {
    var a, b := i * batchSize, j * batchSize;
    var u, v := Cut(order, batchSize, i), Cut(order, batchSize, j);
    forall x, y | 0 <= x < |u| && 0 <= y < |v| ensures u[x] != v[y] {
      assert order[a + x] != order[b + y];
    }
  }

  /** Within an epoch no image is trained on twice, however often the epoch was resumed. */
  lemma NoImageTwice<S>(c: Config<S>, s: nat, t: nat, image: nat)
    requires Sensible(c) && s < t && c.StepsPerEpoch() > 0 && s / c.StepsPerEpoch() == t / c.StepsPerEpoch()
    ensures !(image in BatchAt(c, s) && image in BatchAt(c, t))
  {
    hide Cut;
    AtLeastOneStep(c);
    var spe, b := c.StepsPerEpoch(), c.batchSize;
    DivisionParts(s, spe);
    DivisionParts(t, spe);
    var i, j := s % spe, t % spe;
    CutFits(i, c.size, b);
    CutFits(j, c.size, b);
    TimesMonotone(b, i + 1, j);
    assert Permutation(c.order(s / spe), c.size);
    CutsDisjoint(c.order(s / spe), b, i, j, image);
  }

  // -------------------------------------------------------------- the training state

  /** All a checkpoint restores: the model with its optimizer, the schedule, the step. */
  datatype Snapshot<S> = Snapshot(model: S, schedule: nat, step: nat)

  function Begin<S>(c: Config<S>): Snapshot<S> {
    Snapshot(c.initial, 0, 0)
  }

  /** The optimizer's step, the schedule's, and the counter's. */
  function Learned<S>(c: Config<S>, st: Snapshot<S>, batch: Batch): Snapshot<S>
    requires c.batchSize > 0
  {
    Snapshot(c.learn(st.model, st.schedule, batch),
             if st.step + 1 < c.TotalSteps() then st.schedule + 1 else st.schedule,
             st.step + 1)
  }

  function OneStep<S>(c: Config<S>, st: Snapshot<S>): Snapshot<S>
    requires Sensible(c)
  {
    Learned(c, st, BatchAt(c, st.step))
  }

  function Advance<S>(c: Config<S>, st: Snapshot<S>, n: nat): Snapshot<S>
    requires Sensible(c)
  {
    if n == 0 then st else OneStep(c, Advance(c, st, n - 1))
  }

  lemma {:induction false} AdvanceSteps<S>(c: Config<S>, st: Snapshot<S>, n: nat)
    requires Sensible(c)
    ensures Advance(c, st, n).step == st.step + n
  {
    if n > 0 {
      AdvanceSteps(c, st, n - 1);
    }
  }

  lemma {:induction false} AdvanceAdds<S>(c: Config<S>, st: Snapshot<S>, m: nat, n: nat)
    requires Sensible(c)
    ensures Advance(c, Advance(c, st, m), n) == Advance(c, st, m + n)
  {
    if n > 0 {
      AdvanceAdds(c, st, m, n - 1);
    }
  }

  /** The schedule moves with the step and stops one short of its end, which it may not pass. */
  lemma {:induction false} ScheduleFits<S>(c: Config<S>, n: nat)
    requires Sensible(c)
    ensures var total := if c.maxSteps > 0 then c.maxSteps else c.epochs * (c.size / c.batchSize);
      Advance(c, Begin(c), n).schedule == Min(n, total - 1) < total
  {
    AtLeastOneStep(c);
    if n > 0 {
      ScheduleFits(c, n - 1);
      AdvanceSteps(c, Begin(c), n - 1);
    }
  }

  // ------------------------------------------------------------------- an attempt

  /** How many steps an attempt takes from where it starts, if nothing stops it. */
  function Remaining<S>(c: Config<S>, step: nat): nat
    requires Sensible(c)
  {
    if step >= c.FullSteps() then 0
    else if c.maxSteps == 0 then c.FullSteps() - step
    else if step >= c.maxSteps then 1
    else c.Target() - step
  }

  /** What an attempt did: the batch of each step, the checkpoints uploaded, and how it ended. */
  datatype Attempt<S> = Attempt(start: Snapshot<S>, log: seq<Batch>, saved: seq<Snapshot<S>>, final: Option<Snapshot<S>>)

  predicate DueMidEpoch<S>(c: Config<S>, step: nat)
    requires c.batchSize > 0
  {
    c.checkpointEvery > 0 && step % c.checkpointEvery == 0 && step < c.TotalSteps()
  }

  /** A checkpoint is taken at the end of an epoch, every so many steps short of the end, and at the limit. */
  predicate CheckpointDue<S>(c: Config<S>, step: nat)
    requires Sensible(c)
  {
    AtLeastOneStep(c);
    || step % c.StepsPerEpoch() == 0
    || DueMidEpoch(c, step)
    || (c.maxSteps > 0 && step >= c.maxSteps)
  }

  /** A state gone through within `n` steps of `start`, where a checkpoint is due. */
  ghost predicate Passed<S>(c: Config<S>, start: Snapshot<S>, n: nat, st: Snapshot<S>)
    requires Sensible(c)
  {
    exists m: nat :: 0 < m <= n && st == Advance(c, start, m) && CheckpointDue(c, start.step + m)
  }

  /** The state after `m` steps has been uploaded, if it was to be. */
  ghost predicate Kept<S>(c: Config<S>, start: Snapshot<S>, m: nat, saved: seq<Snapshot<S>>)
    requires Sensible(c)
  {
    CheckpointDue(c, start.step + m) ==> Advance(c, start, m) in saved
  }

  ghost predicate AllKept<S>(c: Config<S>, start: Snapshot<S>, n: nat, saved: seq<Snapshot<S>>)
    requires Sensible(c)
  {
    forall m: nat :: 0 < m < n ==> Kept(c, start, m, saved)
  }

  /**
   The log so far is the batches due from `start` on; what was uploaded was gone through, at steps
   where a checkpoint is due; and every checkpoint due before the last step was uploaded.
   */
  ghost predicate SoFar<S>(c: Config<S>, start: Snapshot<S>, st: Snapshot<S>, log: seq<Batch>, saved: seq<Snapshot<S>>)
    requires Sensible(c)
  {
    && |log| <= Remaining(c, start.step)
    && st == Advance(c, start, |log|) && st.step == start.step + |log|
    && (forall i :: 0 <= i < |log| ==> log[i] == BatchAt(c, start.step + i))
    && (forall k :: 0 <= k < |saved| ==> Passed(c, start, |log|, saved[k]))
    && AllKept(c, start, |log|, saved)
  }

  /** The state reached needs no checkpoint, or has one. */
  ghost predicate UpToDate<S>(c: Config<S>, start: Snapshot<S>, st: Snapshot<S>, log: seq<Batch>, saved: seq<Snapshot<S>>)
    requires Sensible(c)
  {
    log != [] && CheckpointDue(c, st.step) ==> st in saved
  }

  /**
   An attempt trains on exactly the batches due, uploads exactly the checkpoints due, and ends, if
   it is not killed, where it should, with a checkpoint of where that is.
   */
  ghost predicate Faithful<S>(c: Config<S>, a: Attempt<S>)
    requires Sensible(c)
  {
    && SoFar(c, a.start, Advance(c, a.start, |a.log|), a.log, a.saved)
    && (a.final.Some? ==>
         |a.log| == Remaining(c, a.start.step) && a.final.value == Advance(c, a.start, |a.log|)
         && (a.log != [] ==> a.final.value in a.saved))
  }

  lemma Uploads<S>(c: Config<S>, start: Snapshot<S>, st: Snapshot<S>, log: seq<Batch>, saved: seq<Snapshot<S>>)
    requires Sensible(c) && SoFar(c, start, st, log, saved) && log != [] && CheckpointDue(c, st.step)
    ensures SoFar(c, start, st, log, saved + [st])
  {
    hide Advance, BatchAt, Remaining, CheckpointDue;
    assert Passed(c, start, |log|, st);
    forall m: nat | 0 < m < |log| ensures Kept(c, start, m, saved + [st]) {
      assert Kept(c, start, m, saved);
    }
  }

  lemma Trains<S>(c: Config<S>, start: Snapshot<S>, st: Snapshot<S>, log: seq<Batch>, saved: seq<Snapshot<S>>)
    requires Sensible(c) && SoFar(c, start, st, log, saved) && UpToDate(c, start, st, log, saved)
    requires |log| < Remaining(c, start.step)
    ensures SoFar(c, start, OneStep(c, st), log + [BatchAt(c, st.step)], saved)
  {
    hide BatchAt, Remaining, Passed, CheckpointDue;
    forall k | 0 <= k < |saved| ensures Passed(c, start, |log| + 1, saved[k]) {
      StillPassed(c, start, |log|, saved[k]);
    }
    forall m: nat | 0 < m < |log| + 1 ensures Kept(c, start, m, saved) {
      if m < |log| { assert Kept(c, start, m, saved); }
    }
  }

  lemma StillPassed<S>(c: Config<S>, start: Snapshot<S>, n: nat, st: Snapshot<S>)
    requires Sensible(c) && Passed(c, start, n, st)
    ensures Passed(c, start, n + 1, st)
  {
    hide Advance, CheckpointDue;
  }

  /** The step an epoch starts at. */
  function EpochStart<S>(c: Config<S>, epoch: nat): nat
    requires c.batchSize > 0
  {
    TimesMonotone(c.StepsPerEpoch(), 0, epoch);
    epoch * c.StepsPerEpoch()
  }

  /** The batch the loader gives at its place `done` is the one due at the step reached. */
  lemma LoaderGivesDue<S>(c: Config<S>, epoch: nat, skip: nat, done: nat)
    requires Sensible(c) && skip + done < c.StepsPerEpoch()
    ensures |Loader(c.order(epoch), c.batchSize, skip)| == c.StepsPerEpoch() - skip
    ensures Loader(c.order(epoch), c.batchSize, skip)[done] == BatchAt(c, EpochStart(c, epoch) + skip + done)
  {
    hide Cut, Loader;
    AtLeastOneStep(c);
    var spe := c.StepsPerEpoch();
    assert Permutation(c.order(epoch), c.size);
    LoaderResumes(c.order(epoch), c.batchSize, skip, done);
    var s := epoch * spe + (skip + done);
    DivisionParts(s, spe);
    TimesMonotone(spe, 0, epoch);
    QuotientOrder(spe, epoch, skip + done, s / spe, s % spe);
    QuotientOrder(spe, s / spe, s % spe, epoch, skip + done);
  }

  /** Where the limit is still to be reached, or the attempt has yet to take a step. */
  predicate MayTrain<S>(c: Config<S>, start: Snapshot<S>, step: nat)
    requires Sensible(c)
  {
    step < c.FullSteps() && (c.maxSteps == 0 || step < c.maxSteps || step == start.step)
  }

  /** How an attempt's loops are left when it is not killed. */
  predicate Over<S>(c: Config<S>, start: Snapshot<S>, step: nat)
    requires Sensible(c)
  {
    step == c.FullSteps() || (c.maxSteps > 0 && step >= c.maxSteps && step > start.step)
  }

  lemma OverMeansNoneRemaining<S>(c: Config<S>, start: Snapshot<S>, st: Snapshot<S>, log: seq<Batch>, saved: seq<Snapshot<S>>)
    requires Sensible(c) && SoFar(c, start, st, log, saved) && start.step <= c.FullSteps() && Over(c, start, st.step)
    ensures |log| == Remaining(c, start.step)
  {
    hide Advance, BatchAt, Passed;
  }

  lemma EpochWithin<S>(c: Config<S>, epoch: nat)
    requires Sensible(c) && epoch < c.epochs
    ensures EpochStart(c, epoch) + c.StepsPerEpoch() == EpochStart(c, epoch + 1) <= c.FullSteps()
    ensures c.StepsPerEpoch() > 0 && EpochStart(c, c.epochs) == c.FullSteps()
  {
    AtLeastOneStep(c);
    TimesMonotone(c.StepsPerEpoch(), epoch + 1, c.epochs);
    assert (epoch + 1) * c.StepsPerEpoch() == epoch * c.StepsPerEpoch() + c.StepsPerEpoch();
  }

  lemma BatchesAreCut<S>(c: Config<S>)
    requires Sensible(c)
    ensures c.batchSize > 0
  {
  }

  lemma SoFarStep<S>(c: Config<S>, start: Snapshot<S>, st: Snapshot<S>, log: seq<Batch>, saved: seq<Snapshot<S>>)
    requires Sensible(c) && SoFar(c, start, st, log, saved)
    ensures st.step == start.step + |log| && |log| <= Remaining(c, start.step)
    ensures st == Advance(c, start, |log|)
  {
  }

  lemma Starts<S>(c: Config<S>, start: Snapshot<S>)
    requires Sensible(c)
    ensures SoFar(c, start, start, [], [])
  {
  }

  /** How far an epoch's loop got: still running, stopped, or killed. */
  datatype Progress<S> = Progress(st: Snapshot<S>, log: seq<Batch>, saved: seq<Snapshot<S>>, life: nat, killed: bool) {
    function Spent(): nat {
      |log| + |saved|
    }
  }

  /** Inside an epoch and short of the limit, the only checkpoint due is one every so many steps. */
  lemma DueInside<S>(c: Config<S>, epoch: nat, step: nat)
    requires Sensible(c) && EpochStart(c, epoch) < step < EpochStart(c, epoch) + c.StepsPerEpoch()
    requires c.maxSteps == 0 || step < c.maxSteps
    ensures CheckpointDue(c, step) <==> DueMidEpoch(c, step)
  {
    hide DueMidEpoch;
    AtLeastOneStep(c);
    var spe := c.StepsPerEpoch();
    DivisionParts(step, spe);
    QuotientOrder(spe, epoch, step - epoch * spe, step / spe, step % spe);
    QuotientOrder(spe, step / spe, step % spe, epoch, step - epoch * spe);
  }

  lemma DueAtTheEnd<S>(c: Config<S>, epoch: nat, step: nat)
    requires Sensible(c)
    requires step == EpochStart(c, epoch) + c.StepsPerEpoch() || (c.maxSteps > 0 && step >= c.maxSteps)
    ensures CheckpointDue(c, step)
  {
    hide DueMidEpoch;
    AtLeastOneStep(c);
    var spe := c.StepsPerEpoch();
    if step == EpochStart(c, epoch) + spe {
      DivisionParts(step, spe);
      assert step == spe * (epoch + 1);
      QuotientOrder(spe, epoch + 1, 0, step / spe, step % spe);
      QuotientOrder(spe, step / spe, step % spe, epoch + 1, 0);
    }
  }

  lemma DueOften<S>(c: Config<S>, step: nat)
    requires Sensible(c) && DueMidEpoch(c, step)
    ensures CheckpointDue(c, step)
  {
  }

  lemma NothingDueYet<S>(c: Config<S>, start: Snapshot<S>, st: Snapshot<S>, log: seq<Batch>, saved: seq<Snapshot<S>>)
    requires Sensible(c) && (log == [] || st in saved || !CheckpointDue(c, st.step))
    ensures UpToDate(c, start, st, log, saved)
  {
    hide CheckpointDue;
  }

  /** One pass of the inner loop: the step, then the checkpoint that may be due after it. */
  method TrainBatch<S>(c: Config<S>, ghost start: Snapshot<S>, p: Progress<S>, batch: Batch) returns (q: Progress<S>)
    requires Sensible(c) && SoFar(c, start, p.st, p.log, p.saved) && !p.killed
    requires UpToDate(c, start, p.st, p.log, p.saved)
    requires MayTrain(c, start, p.st.step) && batch == BatchAt(c, p.st.step)
    ensures SoFar(c, start, q.st, q.log, q.saved)
    ensures !q.killed ==> q.st.step == p.st.step + 1 && q.log != [] && (DueMidEpoch(c, q.st.step) ==> q.st in q.saved)
    ensures q.Spent() + q.life == p.Spent() + p.life && (q.killed ==> q.life == 0)
  {
    hide SoFar, BatchAt, Sensible, UpToDate;
    BatchesAreCut(c);
    if p.life == 0 {
      return p.(killed := true);
    }
    SoFarStep(c, start, p.st, p.log, p.saved);
    Trains(c, start, p.st, p.log, p.saved);
    q := Progress(Learned(c, p.st, batch), p.log + [batch], p.saved, p.life - 1, false);
    if c.checkpointEvery > 0 && q.st.step % c.checkpointEvery == 0 && q.st.step < c.TotalSteps() {
      if q.life == 0 {
        return q.(killed := true);
      }
      DueOften(c, q.st.step);
      Uploads(c, start, q.st, q.log, q.saved);
      q := q.(saved := q.saved + [q.st], life := q.life - 1);
    }
  }

  /**
   One epoch of an attempt. Each step and each upload costs one of `life`, and the attempt is
   killed when there is none left, so that it may be killed anywhere.
   */
  method TrainEpoch<S>(c: Config<S>, start: Snapshot<S>, epoch: nat, before: Progress<S>) returns (p: Progress<S>)
    requires Sensible(c) && SoFar(c, start, before.st, before.log, before.saved) && !before.killed
    requires before.log == [] || before.st in before.saved
    requires epoch < c.epochs && EpochStart(c, epoch) <= before.st.step < EpochStart(c, epoch) + c.StepsPerEpoch()
    requires MayTrain(c, start, before.st.step)
    ensures SoFar(c, start, p.st, p.log, p.saved)
    ensures p.Spent() + p.life == before.Spent() + before.life && (p.killed ==> p.life == 0)
    ensures !p.killed ==>
      p.st.step > start.step && p.st in p.saved
      && (p.st.step == EpochStart(c, epoch) + c.StepsPerEpoch()
          || (c.maxSteps > 0 && c.maxSteps <= p.st.step <= EpochStart(c, epoch) + c.StepsPerEpoch()))
  {
    hide SoFar, Loader, BatchAt, Sensible, EpochStart, UpToDate, CheckpointDue, DueMidEpoch;
    BatchesAreCut(c);
    EpochWithin(c, epoch);
    var spe := c.StepsPerEpoch();
    var doneBefore := before.st.step - EpochStart(c, epoch);
    var budget := spe - doneBefore;
    var loader := Loader(c.order(epoch), c.batchSize, doneBefore);
    LoaderGivesDue(c, epoch, doneBefore, 0);
    SoFarStep(c, start, before.st, before.log, before.saved);
    NothingDueYet(c, start, before.st, before.log, before.saved);
    p := before;
    var done := 0;
    while done < |loader|
      invariant 0 <= done <= |loader| == budget && !p.killed && p.Spent() + p.life == before.Spent() + before.life
      invariant SoFar(c, start, p.st, p.log, p.saved) && (done > 0 ==> p.log != [])
      invariant p.st.step == before.st.step + done && before.st.step >= start.step
      invariant done < budget ==> MayTrain(c, start, p.st.step) && UpToDate(c, start, p.st, p.log, p.saved)
    {
      if done >= budget {
        break;
      }
      LoaderGivesDue(c, epoch, doneBefore, done);
      p := TrainBatch(c, start, p, loader[done]);
      if p.killed {
        return;
      }
      done := done + 1;
      if c.maxSteps > 0 && p.st.step >= c.maxSteps {
        break;
      }
      if done < budget {
        DueInside(c, epoch, p.st.step);
        NothingDueYet(c, start, p.st, p.log, p.saved);
      }
    }
    // The epoch's own checkpoint.
    if p.life == 0 {
      p := p.(killed := true);
      return;
    }
    DueAtTheEnd(c, epoch, p.st.step);
    Uploads(c, start, p.st, p.log, p.saved);
    p := p.(saved := p.saved + [p.st], life := p.life - 1);
  }

  /** Where a resume picks up: the epoch its step belongs to. */
  lemma ResumeEpoch<S>(c: Config<S>, step: nat)
    requires Sensible(c) && step <= c.FullSteps()
    ensures c.batchSize > 0 && c.StepsPerEpoch() > 0
    ensures var epoch := step / c.StepsPerEpoch();
      && 0 <= epoch <= c.epochs && EpochStart(c, epoch) <= step < EpochStart(c, epoch) + c.StepsPerEpoch()
      && (epoch == c.epochs <==> step == c.FullSteps())
  {
    AtLeastOneStep(c);
    var spe := c.StepsPerEpoch();
    var epoch := step / spe;
    DivisionParts(step, spe);
    QuotientOrder(spe, 0, 0, epoch, step % spe);
    QuotientOrder(spe, epoch, step % spe, c.epochs, 0);
    if epoch < c.epochs {
      EpochWithin(c, epoch);
    }
  }

  /** One attempt, from where it starts until it is done or, each step and upload costing one, `life` runs out. */
  method Train<S>(c: Config<S>, start: Snapshot<S>, life: nat) returns (a: Attempt<S>)
    requires Sensible(c) && start.step <= c.FullSteps()
    ensures a.start == start && Faithful(c, a)
    ensures |a.log| + |a.saved| <= life && (a.final.None? <==> |a.log| + |a.saved| == life)
  {
    hide SoFar, Sensible, Advance, BatchAt, Remaining, EpochStart;
    ResumeEpoch(c, start.step);
    Starts(c, start);
    var epoch := start.step / c.StepsPerEpoch();
    var p := Progress(start, [], [], life, false);
    while epoch < c.epochs
      invariant 0 <= epoch <= c.epochs && !p.killed && p.Spent() + p.life == life
      invariant SoFar(c, start, p.st, p.log, p.saved) && (p.log == [] || p.st in p.saved)
      invariant epoch < c.epochs ==>
        EpochStart(c, epoch) <= p.st.step < EpochStart(c, epoch) + c.StepsPerEpoch() && MayTrain(c, start, p.st.step)
      invariant epoch == c.epochs ==> p.st.step == c.FullSteps()
    {
      EpochWithin(c, epoch);
      p := TrainEpoch(c, start, epoch, p);
      if p.killed {
        SoFarStep(c, start, p.st, p.log, p.saved);
        return Attempt(start, p.log, p.saved, None);
      }
      if c.maxSteps > 0 && p.st.step >= c.maxSteps {
        break;
      }
      epoch := epoch + 1;
      if epoch < c.epochs {
        EpochWithin(c, epoch);
      }
    }
    SoFarStep(c, start, p.st, p.log, p.saved);
    OverMeansNoneRemaining(c, start, p.st, p.log, p.saved);
    return Attempt(start, p.log, p.saved, if p.life == 0 then None else Some(p.st));
  }

  // ------------------------------------------------------- any number of attempts

  /** The checkpoint to resume from: of those confirmed, the one of the greatest step. */
  function Latest<S>(saved: seq<Snapshot<S>>, n: nat): (k: Option<nat>)
    requires n <= |saved|
    ensures k.Some? ==> k.value < n
  {
    if n == 0 then None
    else
      var before := Latest(saved, n - 1);
      if before.Some? && saved[before.value].step > saved[n - 1].step then before else Some(n - 1)
  }

  lemma {:induction false} LatestIsGreatest<S>(saved: seq<Snapshot<S>>, n: nat)
    requires n <= |saved|
    ensures Latest(saved, n).None? <==> n == 0
    ensures Latest(saved, n).Some? ==> forall i :: 0 <= i < n ==> saved[i].step <= saved[Latest(saved, n).value].step
    ensures Latest(saved, n).Some? ==>
      forall i :: Latest(saved, n).value < i < n ==> saved[i].step < saved[Latest(saved, n).value].step
  {
    if n > 0 {
      LatestIsGreatest(saved, n - 1);
    }
  }

  /**
   An attempt that trained past the start of an epoch it began before has left a checkpoint there,
   so the one a retry resumes from is no earlier; and one that was killed loses no more than the
   steps since the last checkpoint due.
   */
  lemma EpochsAreKept<S>(c: Config<S>, a: Attempt<S>, step: nat)
    requires Sensible(c) && Faithful(c, a)
    requires a.start.step < step < a.start.step + |a.log| && CheckpointDue(c, step)
    ensures a.saved != [] && Latest(a.saved, |a.saved|).Some?
    ensures a.saved[Latest(a.saved, |a.saved|).value].step >= step
    ensures Advance(c, a.start, step - a.start.step) in a.saved
  {
    hide Advance, CheckpointDue, Latest, BatchAt, Remaining, Passed;
    var m := step - a.start.step;
    assert Kept(c, a.start, m, a.saved);
    AdvanceSteps(c, a.start, m);
    LatestIsGreatest(a.saved, |a.saved|);
    var i :| 0 <= i < |a.saved| && a.saved[i] == Advance(c, a.start, m);
  }

  /**
   Of the steps an attempt went past, the states uploaded are exactly those at the end of an epoch,
   at every so many steps short of where the schedule ends, and from the limit on.
   */
  lemma CheckpointsMean<S>(c: Config<S>, a: Attempt<S>, m: nat)
    requires Sensible(c) && Faithful(c, a) && 0 < m < |a.log|
    ensures c.size / c.batchSize >= 1
    ensures var step, ends := a.start.step + m, if c.maxSteps > 0 then c.maxSteps else c.epochs * (c.size / c.batchSize);
      Advance(c, a.start, m) in a.saved <==>
        || step % (c.size / c.batchSize) == 0
        || (c.checkpointEvery > 0 && step % c.checkpointEvery == 0 && step < ends)
        || (c.maxSteps > 0 && step >= c.maxSteps)
  {
    hide CheckpointDue, Faithful;
    AtLeastOneStep(c);
    UploadedIffDue(c, a, m);
    DueMeans(c, a.start.step + m);
  }

  lemma UploadedIffDue<S>(c: Config<S>, a: Attempt<S>, m: nat)
    requires Sensible(c) && Faithful(c, a) && 0 < m < |a.log|
    ensures Advance(c, a.start, m) in a.saved <==> CheckpointDue(c, a.start.step + m)
  {
    assert Kept(c, a.start, m, a.saved);
    hide Advance, BatchAt, Remaining, CheckpointDue;
    AdvanceSteps(c, a.start, m);
    if Advance(c, a.start, m) in a.saved {
      var i :| 0 <= i < |a.saved| && a.saved[i] == Advance(c, a.start, m);
      assert Passed(c, a.start, |a.log|, a.saved[i]);
      var n :| 0 < n <= |a.log| && a.saved[i] == Advance(c, a.start, n) && CheckpointDue(c, a.start.step + n);
      AdvanceSteps(c, a.start, n);
    }
  }

  lemma DueMeans<S>(c: Config<S>, step: nat)
    requires Sensible(c) && c.size / c.batchSize >= 1
    ensures CheckpointDue(c, step) <==>
      || step % (c.size / c.batchSize) == 0
      || (c.checkpointEvery > 0 && step % c.checkpointEvery == 0
          && step < if c.maxSteps > 0 then c.maxSteps else c.epochs * (c.size / c.batchSize))
      || (c.maxSteps > 0 && step >= c.maxSteps)
  {
  }

  lemma EpochStartsAreDue<S>(c: Config<S>, epoch: nat)
    requires Sensible(c)
    ensures CheckpointDue(c, EpochStart(c, epoch))
  {
    hide DueMidEpoch;
    AtLeastOneStep(c);
    var spe, step := c.StepsPerEpoch(), EpochStart(c, epoch);
    DivisionParts(step, spe);
    QuotientOrder(spe, epoch, 0, step / spe, step % spe);
    QuotientOrder(spe, step / spe, step % spe, epoch, 0);
  }

  /** Killed in an epoch it did not begin in, an attempt has left a checkpoint no earlier than the epoch's start. */
  lemma KilledEpochResumes<S>(c: Config<S>, a: Attempt<S>, epoch: nat)
    requires Sensible(c) && Faithful(c, a)
    requires a.start.step < EpochStart(c, epoch) < a.start.step + |a.log|
    ensures Latest(a.saved, |a.saved|).Some?
    ensures a.saved[Latest(a.saved, |a.saved|).value].step >= EpochStart(c, epoch)
  {
    hide Faithful, CheckpointDue, Latest;
    EpochStartsAreDue(c, epoch);
    EpochsAreKept(c, a, EpochStart(c, epoch));
  }

  ghost predicate OnTrack<S>(c: Config<S>, st: Snapshot<S>)
    requires Sensible(c)
  {
    st == Advance(c, Begin(c), st.step) && st.step <= c.Target()
  }

  /** With a step limit, a resume must be from below it; a run that is complete has nothing to train. */
  predicate BelowLimit<S>(c: Config<S>, step: nat)
    requires c.batchSize > 0
  {
    c.maxSteps == 0 || step < c.maxSteps || step >= c.FullSteps()
  }

  /** A run: each attempt starts from the beginning, or from a checkpoint an earlier one uploaded. */
  ghost predicate Resumes<S>(c: Config<S>, attempts: seq<Attempt<S>>)
    requires Sensible(c)
  {
    forall i :: 0 <= i < |attempts| ==>
      && Faithful(c, attempts[i])
      && StartsWell(c, attempts[..i], attempts[i].start)
  }

  ghost predicate StartsWell<S>(c: Config<S>, earlier: seq<Attempt<S>>, start: Snapshot<S>)
    requires c.batchSize > 0
  {
    start == Begin(c) ||
    (exists j, k :: 0 <= j < |earlier| && 0 <= k < |earlier[j].saved| && start == earlier[j].saved[k]
                    && BelowLimit(c, start.step))
  }

  /** From below the limit an attempt goes as far as an uninterrupted run would, and from at it one step too far. */
  lemma ReachesTargetIff<S>(c: Config<S>, step: nat)
    requires Sensible(c) && step <= c.Target()
    ensures step + Remaining(c, step) == c.Target() <==> BelowLimit(c, step)
    ensures !BelowLimit(c, step) ==> step + Remaining(c, step) == c.Target() + 1
  {
    AtLeastOneStep(c);
  }

  lemma TrackContinues<S>(c: Config<S>, a: Attempt<S>, n: nat)
    requires Sensible(c) && OnTrack(c, a.start) && BelowLimit(c, a.start.step) && n <= Remaining(c, a.start.step)
    ensures OnTrack(c, Advance(c, a.start, n)) && Advance(c, a.start, n).step == a.start.step + n
  {
    hide BatchAt, Remaining;
    AdvanceAdds(c, Begin(c), a.start.step, n);
    AdvanceSteps(c, a.start, n);
    ReachesTargetIff(c, a.start.step);
  }

  lemma {:induction false} StartsOnTrack<S>(c: Config<S>, attempts: seq<Attempt<S>>, i: nat)
    requires Sensible(c) && Resumes(c, attempts) && i < |attempts|
    ensures OnTrack(c, attempts[i].start) && BelowLimit(c, attempts[i].start.step)
  {
    hide Remaining, Advance, BatchAt, OnTrack, Learned;
    AtLeastOneStep(c);
    assert StartsWell(c, attempts[..i], attempts[i].start);
    if attempts[i].start == Begin(c) {
      BeginsOnTrack(c);
    } else {
      var j, k :| 0 <= j < i && 0 <= k < |attempts[..i][j].saved| && attempts[i].start == attempts[..i][j].saved[k]
                  && BelowLimit(c, attempts[i].start.step);
      StartsOnTrack(c, attempts, j);
      var a := attempts[j];
      assert Passed(c, a.start, |a.log|, a.saved[k]);
      var m: nat :| 0 < m <= |a.log| && a.saved[k] == Advance(c, a.start, m);
      TrackContinues(c, a, m);
    }
  }

  lemma BeginsOnTrack<S>(c: Config<S>)
    requires Sensible(c)
    ensures OnTrack(c, Begin(c)) && BelowLimit(c, 0)
  {
    AtLeastOneStep(c);
  }

  /**
   However often a run is killed and resumed, every step of every attempt trains on the batch due
   at that step, and an attempt that ends, ends in the very state an uninterrupted run ends in:
   the same model, schedule and step.
   */
  lemma ResumedRunIsTheSameRun<S>(c: Config<S>, attempts: seq<Attempt<S>>, i: nat)
    requires Sensible(c) && Resumes(c, attempts) && i < |attempts|
    ensures forall k :: 0 <= k < |attempts[i].log| ==> attempts[i].log[k] == BatchAt(c, attempts[i].start.step + k)
    ensures forall k :: 0 <= k < |attempts[i].saved| ==> OnTrack(c, attempts[i].saved[k])
    ensures attempts[i].final.Some? ==> attempts[i].final.value == Advance(c, Begin(c), c.Target())
  {
    hide Remaining, Advance, BatchAt, OnTrack, Learned, BelowLimit;
    var a := attempts[i];
    StartsOnTrack(c, attempts, i);
    forall k | 0 <= k < |a.saved| ensures OnTrack(c, a.saved[k]) {
      assert Passed(c, a.start, |a.log|, a.saved[k]);
      var m: nat :| 0 < m <= |a.log| && a.saved[k] == Advance(c, a.start, m);
      TrackContinues(c, a, m);
    }
    TrackContinues(c, a, |a.log|);
    if a.final.Some? {
      EndsAtTarget(c, a);
    }
  }

  lemma EndsAtTarget<S>(c: Config<S>, a: Attempt<S>)
    requires Sensible(c) && OnTrack(c, a.start) && BelowLimit(c, a.start.step)
    requires |a.log| == Remaining(c, a.start.step)
    ensures Advance(c, a.start, |a.log|) == Advance(c, Begin(c), c.Target())
  {
    hide Advance;
    ReachesTargetIff(c, a.start.step);
    TrackContinues(c, a, |a.log|);
  }

  /** An attempt that reads its checkpoint at the limit ends one step past an uninterrupted run. */
  lemma ResumingAtTheLimit<S>(c: Config<S>, a: Attempt<S>)
    requires Sensible(c) && OnTrack(c, a.start) && Faithful(c, a) && a.final.Some?
    ensures a.final.value.step == c.Target() <==> BelowLimit(c, a.start.step)
    ensures !BelowLimit(c, a.start.step) ==> a.log == [BatchAt(c, c.Target())]
  {
    hide Advance, BatchAt, Learned;
    ReachesTargetIff(c, a.start.step);
    AdvanceSteps(c, a.start, |a.log|);
  }

  /** Two epochs of two batches, stopped after one step: resuming from its checkpoint trains a second. */
  lemma OneStepTooMany()
    ensures var c := Config(4, 2, 2, 1, 0, e => [0, 1, 2, 3], (s: int, k, b) => s + 1, 0);
      Sensible(c) && c.Target() == 1 && OnTrack(c, Advance(c, Begin(c), 1)) && !BelowLimit(c, 1)
      && Advance(c, Begin(c), 1).step + Remaining(c, 1) == 2
  {
    var c := Config(4, 2, 2, 1, 0, e => [0, 1, 2, 3], (s: int, k, b) => s + 1, 0);
    AdvanceSteps(c, Begin(c), 1);
  }
}
