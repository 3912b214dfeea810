/** What holds of every run of the concurrent loader. */
module Loader {
  import opened Declcfg
  import opened Builder
  import opened Interleaving
  import opened Pipeline

  lemma {:induction false} RunInv(job: Job, s: State, steps: seq<Step>)
    requires Inv(job, s) && IsRun(job, s, steps)
    ensures Inv(job, After(job, s, steps))
    decreases |steps|
  {
    if |steps| != 0 {
      StepInv(job, s, steps[0]);
      RunInv(job, Apply(job, s, steps[0]), steps[1..]);
    }
  }

  lemma ReachableInv(job: Job, steps: seq<Step>)
    requires IsRun(job, Init(job), steps)
    ensures Inv(job, After(job, Init(job), steps))
  {
    InitInv(job);
    RunInv(job, Init(job), steps);
  }

  // ----- Termination -----

  function Blobs(file: File): nat {
    if file.Readable? then |file.metas| else 0
  }

  function Left(job: Job, i: nat, k: nat): nat {
    if i < |job.files| && k <= Blobs(job.files[i]) then 5 * (Blobs(job.files[i]) - k) else 0
  }

  function WorkerCost(job: Job, worker: Worker): nat {
    match worker
    case Selecting => 2
    case Opening(i) => 4 + Left(job, i, 0)
    case Reading(i, k) => 3 + Left(job, i, k)
    case Waiting(i, k) => 2 + Left(job, i, k)
    case Locked(i, k) => 1 + Left(job, i, k)
    case Fetched(i, k, _) => Left(job, i, k)
    case Stored(i, k) => if Left(job, i, k) == 0 then 0 else Left(job, i, k) - 1
    case Returning(_) => 1
    case Exited => 0
  }

  function WorkersCost(job: Job, workers: seq<Worker>): nat {
    if |workers| == 0 then 0
    else WorkersCost(job, workers[..|workers| - 1]) + WorkerCost(job, workers[|workers| - 1])
  }

  function QueueCost(job: Job, queue: seq<nat>): nat {
    if |queue| == 0 then 0 else 3 + Left(job, queue[0], 0) + QueueCost(job, queue[1..])
  }

  function UnsentCost(job: Job, next: nat): nat
    decreases |job.files| - next
  {
    if next >= |job.files| then 0 else 4 + Left(job, next, 0) + UnsentCost(job, next + 1)
  }

  function ProducerCost(job: Job, producer: Producer): nat {
    match producer
    case Sending(next) => 2 + UnsentCost(job, next)
    case Sent(_) => 1
    case Gone => 0
  }

  function Cost(job: Job, s: State): nat {
    ProducerCost(job, s.producer) + QueueCost(job, s.queue) + WorkersCost(job, s.workers)
      + if s.parentCanceled then 0 else 1
  }

  lemma {:induction false} WorkersCostUpdate(job: Job, workers: seq<Worker>, w: nat, worker: Worker)
    requires w < |workers|
    ensures WorkersCost(job, workers[w := worker]) + WorkerCost(job, workers[w])
         == WorkersCost(job, workers) + WorkerCost(job, worker)
  {
    var n := |workers| - 1;
    if w == n {
      assert workers[w := worker][..n] == workers[..n];
    } else {
      assert workers[w := worker][..n] == workers[..n][w := worker];
      WorkersCostUpdate(job, workers[..n], w, worker);
    }
  }

  lemma {:induction false} QueueCostAppend(job: Job, queue: seq<nat>, i: nat)
    ensures QueueCost(job, queue + [i]) == QueueCost(job, queue) + 3 + Left(job, i, 0)
  {
    if |queue| == 0 {
      assert queue + [i] == [i] && [i][1..] == [];
    } else {
      assert (queue + [i])[1..] == queue[1..] + [i];
      QueueCostAppend(job, queue[1..], i);
    }
  }

  lemma ReadStepCost(job: Job, s: State, step: Step)
    requires Enabled(job, s, step)
    requires step.Open? || step.ReceiveClosed? || step.ReceiveCanceled? || step.WorkerExit?
    ensures WorkerCost(job, Apply(job, s, step).workers[step.w]) < WorkerCost(job, s.workers[step.w])
  {
  }

  lemma NextMetaCost(job: Job, s: State, w: nat)
    requires Enabled(job, s, NextMeta(w))
    ensures WorkerCost(job, Apply(job, s, NextMeta(w)).workers[w]) < WorkerCost(job, s.workers[w])
  {
  }

  lemma MutexStepCost(job: Job, s: State, step: Step)
    requires Enabled(job, s, step)
    requires step.Lock? || step.Fetch? || step.Store? || step.Unlock?
    ensures WorkerCost(job, Apply(job, s, step).workers[step.w]) < WorkerCost(job, s.workers[step.w])
  {
  }

  lemma ReceiveCost(job: Job, s: State, w: nat)
    requires Enabled(job, s, Receive(w))
    ensures Cost(job, Apply(job, s, Receive(w))) < Cost(job, s)
  {
    WorkersCostUpdate(job, s.workers, w, Opening(s.queue[0]));
  }

  lemma ProducerStepCost(job: Job, s: State, step: Step)
    requires Enabled(job, s, step)
    requires step.ParentCancel? || step.Send? || step.SendCanceled? || step.WalkEnd? || step.ProducerExit?
    ensures Cost(job, Apply(job, s, step)) < Cost(job, s)
  {
    if step.Send? {
      QueueCostAppend(job, s.queue, s.producer.next);
    }
  }

  lemma StepCost(job: Job, s: State, step: Step)
    requires Enabled(job, s, step)
    ensures Cost(job, Apply(job, s, step)) < Cost(job, s)
  {
    if step.ParentCancel? || step.Send? || step.SendCanceled? || step.WalkEnd? || step.ProducerExit? {
      ProducerStepCost(job, s, step);
    } else if step.Receive? {
      ReceiveCost(job, s, step.w);
    } else {
      if step.Lock? || step.Fetch? || step.Store? || step.Unlock? {
        MutexStepCost(job, s, step);
      } else if step.NextMeta? {
        NextMetaCost(job, s, step.w);
      } else {
        ReadStepCost(job, s, step);
      }
      WorkersCostUpdate(job, s.workers, step.w, Apply(job, s, step).workers[step.w]);
    }
  }

  lemma {:induction false} RunCost(job: Job, s: State, steps: seq<Step>)
    requires IsRun(job, s, steps)
    ensures |steps| + Cost(job, After(job, s, steps)) <= Cost(job, s)
    decreases |steps|
  {
    if |steps| != 0 {
      StepCost(job, s, steps[0]);
      RunCost(job, Apply(job, s, steps[0]), steps[1..]);
    }
  }

  function Sum(ns: seq<nat>): nat {
    if |ns| == 0 then 0 else ns[0] + Sum(ns[1..])
  }

  /** No run is longer than a bound linear in the files, their blobs and the workers. */
  function RunBound(job: Job): nat {
    3 + 2 * job.concurrency + Sum(seq(|job.files|, i requires 0 <= i < |job.files| => 4 + 5 * Blobs(job.files[i])))
  }

  lemma {:induction false} UnsentIsSum(job: Job, next: nat)
    requires next <= |job.files|
    ensures UnsentCost(job, next)
            == Sum(seq(|job.files|, i requires 0 <= i < |job.files| => 4 + 5 * Blobs(job.files[i]))[next..])
    decreases |job.files| - next
  {
    var costs := seq(|job.files|, i requires 0 <= i < |job.files| => 4 + 5 * Blobs(job.files[i]));
    if next < |job.files| {
      UnsentIsSum(job, next + 1);
      assert costs[next..][1..] == costs[next + 1..];
    }
  }

  lemma {:induction false} IdleCost(job: Job, workers: seq<Worker>)
    requires forall w :: 0 <= w < |workers| ==> workers[w].Selecting?
    ensures WorkersCost(job, workers) == 2 * |workers|
  {
    if |workers| != 0 {
      IdleCost(job, workers[..|workers| - 1]);
    }
  }

  /** The loader always terminates, whatever is scheduled and whatever fails. */
  lemma Terminates(job: Job, steps: seq<Step>)
    requires IsRun(job, Init(job), steps)
    ensures |steps| <= RunBound(job)
  {
    RunCost(job, Init(job), steps);
    UnsentIsSum(job, 0);
    IdleCost(job, Init(job).workers);
    var costs := seq(|job.files|, i requires 0 <= i < |job.files| => 4 + 5 * Blobs(job.files[i]));
    assert costs[0..] == costs;
  }

  // ----- No deadlock -----

  ghost predicate CanStep(job: Job, s: State) {
    exists step :: Enabled(job, s, step) && !step.ParentCancel?
  }

  lemma WorkerCanStep(job: Job, s: State, w: nat)
    requires Inv(job, s) && w < |s.workers| && !s.workers[w].Exited?
    requires s.workers[w].Selecting? ==> |s.queue| > 0 || s.closed || CtxDone(s)
    ensures CanStep(job, s)
  {
    assert WorkerInv(job, w, s.workers[w], s.owner, s.finished, s.progress);
    match s.workers[w]
    case Selecting =>
      if |s.queue| > 0 {
        assert Enabled(job, s, Receive(w));
      } else if s.closed {
        assert Enabled(job, s, ReceiveClosed(w));
      } else {
        assert Enabled(job, s, ReceiveCanceled(w));
      }
    case Opening(_) => assert Enabled(job, s, Open(w));
    case Reading(_, _) => assert Enabled(job, s, NextMeta(w));
    case Waiting(i, k) => WaiterCanStep(job, s, w);
    case Locked(_, _) => HolderCanStep(job, s, w);
    case Fetched(_, _, _) => HolderCanStep(job, s, w);
    case Stored(_, _) => HolderCanStep(job, s, w);
    case Returning(_) => assert Enabled(job, s, WorkerExit(w));
  }

  /** A worker waiting for a mutex can go on, or the holder of that mutex can. */
  lemma WaiterCanStep(job: Job, s: State, w: nat)
    requires Inv(job, s) && w < |s.workers| && s.workers[w].Waiting?
    ensures CanStep(job, s)
  {
    assert WorkerInv(job, w, s.workers[w], s.owner, s.finished, s.progress);
    var section := SectionAt(job, s.workers[w].file, s.workers[w].index);
    if section !in s.mutexes {
      assert Enabled(job, s, Lock(w));
    } else {
      HolderCanStep(job, s, s.mutexes[section]);
    }
  }

  lemma HolderCanStep(job: Job, s: State, h: nat)
    requires Inv(job, s) && h < |s.workers| && InSection(s.workers[h])
    ensures CanStep(job, s)
  {
    assert WorkerInv(job, h, s.workers[h], s.owner, s.finished, s.progress);
    match s.workers[h]
    case Locked(_, _) => assert Enabled(job, s, Fetch(h));
    case Fetched(_, _, _) => assert Enabled(job, s, Store(h));
    case Stored(_, _) => assert Enabled(job, s, Unlock(h));
  }

  lemma NoDeadlock(job: Job, s: State)
    requires Inv(job, s) && !AllReturned(s) && (job.concurrency >= 1 || |job.files| == 0)
    ensures CanStep(job, s)
  {
    match s.producer
    case Sent(_) => assert Enabled(job, s, ProducerExit);
    case Gone =>
      var w :| 0 <= w < |s.workers| && !s.workers[w].Exited?;
      WorkerCanStep(job, s, w);
    case Sending(next) =>
      if next == |job.files| {
        assert Enabled(job, s, WalkEnd);
      } else if CtxDone(s) {
        assert Enabled(job, s, SendCanceled);
      } else if |s.queue| < job.concurrency {
        assert Enabled(job, s, Send);
      } else {
        assert !s.workers[0].Exited?;
        WorkerCanStep(job, s, 0);
      }
  }

  ghost predicate DeadlockFree(job: Job) {
    forall steps :: IsRun(job, Init(job), steps) && !AllReturned(After(job, Init(job), steps)) ==>
                      CanStep(job, After(job, Init(job), steps))
  }

  /** The loader cannot deadlock exactly when it has a worker, or nothing to read. */
  lemma DeadlockFreedom(job: Job)
    ensures DeadlockFree(job) <==> job.concurrency >= 1 || |job.files| == 0
  {
    if job.concurrency >= 1 || |job.files| == 0 {
      forall steps | IsRun(job, Init(job), steps) && !AllReturned(After(job, Init(job), steps))
        ensures CanStep(job, After(job, Init(job), steps))
      {
        ReachableInv(job, steps);
        NoDeadlock(job, After(job, Init(job), steps));
      }
    } else {
      assert IsRun(job, Init(job), []) && After(job, Init(job), []) == Init(job);
      assert !CanStep(job, Init(job));
    }
  }

  /** With no workers and one file the loader hangs. */
  lemma HangExample(decode: Decoder, file: File)
    ensures !DeadlockFree(Job(decode, [file], true, 0))
  {
    DeadlockFreedom(Job(decode, [file], true, 0));
  }

  // ----- What a finished run returns -----

  ghost function Erase(entries: seq<Entry>): seq<Item> {
    seq(|entries|, j requires 0 <= j < |entries| => entries[j].item)
  }

  ghost function Origins(entries: seq<Entry>): seq<nat> {
    seq(|entries|, j requires 0 <= j < |entries| => entries[j].origin)
  }

  /** The configuration held in the slices. */
  ghost function ConfigOf(slices: Slices): Config {
    Config(Collect(Erase(At(slices, Packages))).packages,
           Collect(Erase(At(slices, Channels))).channels,
           Collect(Erase(At(slices, Bundles))).bundles,
           Collect(Erase(At(slices, Deprecations))).deprecations,
           Collect(Erase(At(slices, Others))).others)
  }

  /** What the caller gets once every goroutine has returned: a whole configuration or the group's error. */
  ghost function LoadResult(s: State): Result<Config, LoadError> {
    if s.groupErr.Some? then Err(s.groupErr.value) else Ok(ConfigOf(s.slices))
  }

  ghost function FileSections(job: Job, section: Section): seq<seq<Item>>
    requires AllLoad(job)
  {
    seq(|job.files|, i requires 0 <= i < |job.files| => SectionItems(FileConfig(job.decode, job.files[i]), section))
  }

  lemma SequentialSection(job: Job, section: Section)
    requires AllLoad(job)
    ensures SectionItems(Sequential(job), section) == Concat(FileSections(job, section))
  {
    var cfgs := seq(|job.files|, i requires 0 <= i < |job.files| => FileConfig(job.decode, job.files[i]));
    SectionItemsMergeAll(cfgs, section);
    assert FileSections(job, section) == seq(|cfgs|, i requires 0 <= i < |cfgs| => SectionItems(cfgs[i], section));
  }

  /** All blobs of all files, in walk order. */
  ghost function AllItems(job: Job): seq<Item>
    requires AllLoad(job)
  {
    Concat(seq(|job.files|, i requires 0 <= i < |job.files| => ItemsOf(job.decode, job.files[i].metas)))
  }

  lemma {:induction false} MergeIsCollect(parts: seq<seq<Item>>)
    ensures MergeAll(seq(|parts|, i requires 0 <= i < |parts| => Collect(parts[i]))) == Collect(Concat(parts))
  {
    if |parts| != 0 {
      var n := |parts| - 1;
      var cfgs := seq(|parts|, i requires 0 <= i < |parts| => Collect(parts[i]));
      MergeIsCollect(parts[..n]);
      assert cfgs[..n] == seq(n, i requires 0 <= i < n => Collect(parts[..n][i]));
      CollectConcat(Concat(parts[..n]), parts[n]);
    }
  }

  /** Merging the files is the same as adding all their blobs one after the other. */
  lemma SequentialIsCollect(job: Job)
    requires AllLoad(job)
    ensures Sequential(job) == Collect(AllItems(job))
  {
    var parts := seq(|job.files|, i requires 0 <= i < |job.files| => ItemsOf(job.decode, job.files[i].metas));
    MergeIsCollect(parts);
    assert seq(|parts|, i requires 0 <= i < |parts| => Collect(parts[i]))
        == seq(|job.files|, i requires 0 <= i < |job.files| => FileConfig(job.decode, job.files[i]));
  }

  lemma {:induction false} FromFileIsTagged(entries: seq<Entry>, i: nat)
    ensures FromFile(entries, i) == Tagged(Erase(entries), Origins(entries), i)
  {
    if |entries| != 0 {
      var n := |entries| - 1;
      FromFileIsTagged(entries[..n], i);
      assert Erase(entries)[..n] == Erase(entries[..n]) && Origins(entries)[..n] == Origins(entries[..n]);
    }
  }

  lemma ConfigOfSection(slices: Slices, section: Section)
    requires forall j :: 0 <= j < |At(slices, section)| ==> SectionOf(At(slices, section)[j].item) == section
    ensures SectionItems(ConfigOf(slices), section) == Erase(At(slices, section))
  {
    var items := Erase(At(slices, section));
    SectionItemsCollect(items, section);
    SelectAll(items, section);
  }

  /** Once all goroutines returned without error, every path was received once and its file read to the end. */
  lemma AllFinished(job: Job, s: State)
    requires Inv(job, s) && AllReturned(s) && s.groupErr.None? && job.concurrency >= 1
    ensures |s.owner| == |job.files| && AllLoad(job)
    ensures forall i :: 0 <= i < |job.files| ==> i in s.finished && s.progress[i] == |job.files[i].metas|
  {
    assert s.workers[0].Exited?;
    forall i | 0 <= i < |job.files|
      ensures i in s.finished
    {
      assert s.workers[s.owner[i]].Exited?;
    }
  }

  lemma SectionInterleaves(job: Job, s: State, section: Section)
    requires Inv(job, s) && AllReturned(s) && s.groupErr.None? && job.concurrency >= 1
    ensures AllLoad(job)
    ensures Splits(SectionItems(ConfigOf(s.slices), section), Origins(At(s.slices, section)),
                   FileSections(job, section))
  {
    AllFinished(job, s);
    ConfigOfSection(s.slices, section);
    forall i | 0 <= i < |job.files|
      ensures Tagged(Erase(At(s.slices, section)), Origins(At(s.slices, section)), i) == FileSections(job, section)[i]
    {
      TaggedSection(job, s, section, i);
    }
  }

  lemma TaggedSection(job: Job, s: State, section: Section, i: nat)
    requires Inv(job, s) && AllLoad(job) && i < |job.files| && s.progress[i] == |job.files[i].metas|
    ensures Tagged(Erase(At(s.slices, section)), Origins(At(s.slices, section)), i) == FileSections(job, section)[i]
  {
    FromFileIsTagged(At(s.slices, section), i);
    FileSection(job, s, section, i);
  }

  lemma FileSection(job: Job, s: State, section: Section, i: nat)
    requires Inv(job, s) && i < |job.files| && Loads(job.decode, job.files[i]) && s.progress[i] == |job.files[i].metas|
    ensures FromFile(At(s.slices, section), i) == SectionItems(FileConfig(job.decode, job.files[i]), section)
  {
    var metas := job.files[i].metas;
    assert metas[..|metas|] == metas;
    assert HasPrefix(job, i, s.progress[i]);
    assert Prefix(job, i, |metas|) == ItemsOf(job.decode, metas);
    SectionItemsCollect(ItemsOf(job.decode, metas), section);
  }

  // ----- The theorems -----

  /** In every schedule, a load that succeeds received each path exactly once, and each section of its
      result is an interleaving of the sections of the files: what loading the files in walk order gives,
      reordered only across files. */
  lemma LoadIsInterleaving(job: Job, steps: seq<Step>)
    requires job.concurrency >= 1 && IsRun(job, Init(job), steps)
    requires AllReturned(After(job, Init(job), steps)) && LoadResult(After(job, Init(job), steps)).Ok?
    ensures var s := After(job, Init(job), steps);
            var cfg := LoadResult(s).value;
            && AllLoad(job)
            && |s.owner| == |job.files|
            && (forall section: Section ::
                  Interleaves(SectionItems(cfg, section), FileSections(job, section))
                  && multiset(SectionItems(cfg, section)) == multiset(SectionItems(Sequential(job), section)))
  {
    ReachableInv(job, steps);
    var s := After(job, Init(job), steps);
    AllFinished(job, s);
    forall section: Section
      ensures Interleaves(SectionItems(ConfigOf(s.slices), section), FileSections(job, section))
      ensures multiset(SectionItems(ConfigOf(s.slices), section)) == multiset(SectionItems(Sequential(job), section))
    {
      SectionInterleaves(job, s, section);
      InterleavesMultiset(SectionItems(ConfigOf(s.slices), section), FileSections(job, section));
      SequentialSection(job, section);
    }
  }

  /** Unless the caller cancels, every schedule succeeds or fails alike: it succeeds exactly when the walk
      and every file do. A failure is the fault of the walk or of a file, and the loader never answers
      with a cancellation of its own making. */
  lemma LoadOutcome(job: Job, steps: seq<Step>)
    requires job.concurrency >= 1 && IsRun(job, Init(job), steps) && AllReturned(After(job, Init(job), steps))
    ensures var s := After(job, Init(job), steps);
            && (LoadResult(s).Ok? ==> AllLoad(job))
            && (!s.parentCanceled ==> (LoadResult(s).Ok? <==> AllLoad(job)))
            && (LoadResult(s).Err? ==>
                  Genuine(job, LoadResult(s).error) || (LoadResult(s).error.Canceled? && s.parentCanceled))
  {
    ReachableInv(job, steps);
    var s := After(job, Init(job), steps);
    if s.groupErr.None? {
      AllFinished(job, s);
    }
  }

  /** With one worker the result is the fold of `Merge` over the files, exactly. */
  lemma SingleWorkerIsSequential(job: Job, steps: seq<Step>)
    requires job.concurrency == 1 && IsRun(job, Init(job), steps)
    requires AllReturned(After(job, Init(job), steps)) && LoadResult(After(job, Init(job), steps)).Ok?
    ensures AllLoad(job) && LoadResult(After(job, Init(job), steps)).value == Sequential(job)
  {
    ReachableInv(job, steps);
    var s := After(job, Init(job), steps);
    AllFinished(job, s);
    forall section: Section
      ensures SectionItems(ConfigOf(s.slices), section) == SectionItems(Sequential(job), section)
    {
      var whole, tags, parts := SectionItems(ConfigOf(s.slices), section), Origins(At(s.slices, section)),
          FileSections(job, section);
      SectionInterleaves(job, s, section);
      assert Ascending(At(s.slices, section));
      InOrderIsConcat(whole, tags, parts);
      SequentialSection(job, section);
    }
    SameSections(ConfigOf(s.slices), Sequential(job));
  }
}
