/** The concurrent loader: one goroutine walks the file tree and sends paths into a bounded
    channel, `concurrency` workers receive them, read the blobs of each file and append them
    to shared slices, each under its own mutex. The first error cancels the others.

    A path is identified by its position in the walk. Every shared access is a step of its
    own: a slice is read and written back in two steps, so only the mutex keeps concurrent
    appends from losing updates. */
module Pipeline {
  import opened Declcfg
  import opened Builder

  /** A file that cannot be opened, or the blobs it yields and whether the decoder then
      reaches the end of the file (`clean`) or stops on a decoding error. */
  datatype File = Unopenable | Readable(metas: seq<Meta>, clean: bool)

  /** `files` are the walked files in walk order; `walkOk` is false when the walk fails after them. */
  datatype Job = Job(decode: Decoder, files: seq<File>, walkOk: bool, concurrency: nat)

  datatype LoadError =
    | WalkFailed
    | OpenFailed(file: nat)
    | DecodeFailed(file: nat)
    | AddFailed(file: nat, index: nat, reason: AddError)
    | Canceled

  // ----- The sequential reference -----

  ghost predicate Loads(decode: Decoder, file: File) {
    file.Readable? && file.clean && Decodable(decode, file.metas)
  }

  ghost function FileConfig(decode: Decoder, file: File): Config
    requires Loads(decode, file)
  {
    Collect(ItemsOf(decode, file.metas))
  }

  ghost predicate AllLoad(job: Job) {
    job.walkOk && forall i :: 0 <= i < |job.files| ==> Loads(job.decode, job.files[i])
  }

  /** What loading the files one after the other and merging the results gives. */
  ghost function Sequential(job: Job): Config
    requires AllLoad(job)
  {
    MergeAll(seq(|job.files|, i requires 0 <= i < |job.files| => FileConfig(job.decode, job.files[i])))
  }

  /** Reads the blobs of one file until the end of the file or the first error. */
  method LoadFile(codec: Codec, file: File) returns (r: Option<Config>)
    ensures r.Some? <==> Loads(DecoderOf(codec), file)
    ensures r.Some? ==> r.value == FileConfig(DecoderOf(codec), file)
  {
    if file.Unopenable? {
      return None;
    }
    var builder := new FbcBuilder();
    ghost var decode := DecoderOf(codec);
    var k := 0;
    while k < |file.metas|
      invariant k <= |file.metas| && Decodable(decode, file.metas[..k])
      invariant builder.cfg == Collect(ItemsOf(decode, file.metas[..k]))
    {
      var err := builder.AddMeta(codec, file.metas[k]);
      if err.Some? {
        return None;
      }
      CollectNext(decode, file.metas, k);
      k := k + 1;
    }
    assert file.metas[..k] == file.metas;
    return if file.clean then Some(builder.cfg) else None;
  }

  // ----- States -----

  /** A stored item, with the file it came from. */
  datatype Entry = Entry(origin: nat, item: Item)

  type Slices = m: map<Section, seq<Entry>> |
    Packages in m && Channels in m && Bundles in m && Deprecations in m && Others in m
    witness map[Packages := [], Channels := [], Bundles := [], Deprecations := [], Others := []]

  function At(slices: Slices, section: Section): seq<Entry> {
    assert section.Packages? || section.Channels? || section.Bundles? || section.Deprecations? || section.Others?;
    slices[section]
  }

  function WithSlice(slices: Slices, section: Section, slice: seq<Entry>): Slices {
    slices[section := slice]
  }

  const NO_ENTRIES: Slices := map[Packages := [], Channels := [], Bundles := [], Deprecations := [], Others := []]

  datatype Producer =
    | Sending(next: nat)
    | Sent(err: Option<LoadError>)
    | Gone

  /** `index` counts the blobs of `file` handled so far. */
  datatype Worker =
    | Selecting
    | Opening(file: nat)
    | Reading(file: nat, index: nat)
    | Waiting(file: nat, index: nat)
    | Locked(file: nat, index: nat)
    | Fetched(file: nat, index: nat, slice: seq<Entry>)
    | Stored(file: nat, index: nat)
    | Returning(err: Option<LoadError>)
    | Exited

  /** `queue` and `closed` are the channel, `mutexes` maps a locked section to the worker holding
      its mutex and `groupErr` is the first error the group recorded. `owner`, `progress` and
      `finished` record history: who received each path, how many blobs of each file are stored,
      and which files were read to their end. */
  datatype State = State(
    producer: Producer, workers: seq<Worker>, queue: seq<nat>, closed: bool, parentCanceled: bool,
    groupErr: Option<LoadError>, slices: Slices, mutexes: map<Section, nat>,
    owner: seq<nat>, progress: seq<nat>, finished: set<nat>)

  function Init(job: Job): State {
    State(Sending(0), seq(job.concurrency, _ => Selecting), [], false, false, None, NO_ENTRIES, map[],
          [], seq(|job.files|, _ => 0), {})
  }

  /** The context handed to the goroutines is done. */
  predicate CtxDone(s: State) {
    s.parentCanceled || s.groupErr.Some?
  }

  predicate AllReturned(s: State) {
    s.producer.Gone? && forall w :: 0 <= w < |s.workers| ==> s.workers[w].Exited?
  }

  // ----- Steps -----

  datatype Step =
    | ParentCancel
    | Send
    | SendCanceled
    | WalkEnd
    | ProducerExit
    | Receive(w: nat)
    | ReceiveClosed(w: nat)
    | ReceiveCanceled(w: nat)
    | Open(w: nat)
    | NextMeta(w: nat)
    | Lock(w: nat)
    | Fetch(w: nat)
    | Store(w: nat)
    | Unlock(w: nat)
    | WorkerExit(w: nat)

  /** Blob `k` of file `i` exists and can be added. */
  ghost predicate Addable(job: Job, i: nat, k: nat) {
    i < |job.files| && job.files[i].Readable? && k < |job.files[i].metas|
    && job.decode(job.files[i].metas[k]).Ok?
  }

  ghost function ItemAt(job: Job, i: nat, k: nat): Item
    requires Addable(job, i, k)
  {
    job.decode(job.files[i].metas[k]).value
  }

  ghost function SectionAt(job: Job, i: nat, k: nat): Section
    requires Addable(job, i, k)
  {
    SectionOf(ItemAt(job, i, k))
  }

  ghost predicate Enabled(job: Job, s: State, step: Step) {
    match step
    case ParentCancel => !s.parentCanceled
    case Send => s.producer.Sending? && s.producer.next < |job.files| && |s.queue| < job.concurrency
    case SendCanceled => s.producer.Sending? && s.producer.next < |job.files| && CtxDone(s)
    case WalkEnd => s.producer.Sending? && s.producer.next == |job.files|
    case ProducerExit => s.producer.Sent?
    case Receive(w) => w < |s.workers| && s.workers[w].Selecting? && |s.queue| > 0
    case ReceiveClosed(w) => w < |s.workers| && s.workers[w].Selecting? && |s.queue| == 0 && s.closed
    case ReceiveCanceled(w) => w < |s.workers| && s.workers[w].Selecting? && CtxDone(s)
    case Open(w) => w < |s.workers| && s.workers[w].Opening? && s.workers[w].file < |job.files|
    case NextMeta(w) =>
      w < |s.workers| && s.workers[w].Reading? && s.workers[w].file < |job.files|
      && job.files[s.workers[w].file].Readable? && s.workers[w].index <= |job.files[s.workers[w].file].metas|
    case Lock(w) =>
      w < |s.workers| && s.workers[w].Waiting? && Addable(job, s.workers[w].file, s.workers[w].index)
      && SectionAt(job, s.workers[w].file, s.workers[w].index) !in s.mutexes
    case Fetch(w) => w < |s.workers| && s.workers[w].Locked? && Addable(job, s.workers[w].file, s.workers[w].index)
    case Store(w) =>
      w < |s.workers| && s.workers[w].Fetched? && Addable(job, s.workers[w].file, s.workers[w].index)
      && s.workers[w].file < |s.progress|
    case Unlock(w) => w < |s.workers| && s.workers[w].Stored? && Addable(job, s.workers[w].file, s.workers[w].index)
    case WorkerExit(w) => w < |s.workers| && s.workers[w].Returning?
  }

  /** A goroutine's result reaches the group, which keeps the first error. */
  function Record(groupErr: Option<LoadError>, err: Option<LoadError>): Option<LoadError> {
    if groupErr.None? then err else groupErr
  }

  ghost function Apply(job: Job, s: State, step: Step): State
    requires Enabled(job, s, step)
  {
    match step
    case ParentCancel => s.(parentCanceled := true)
    case Send => s.(producer := Sending(s.producer.next + 1), queue := s.queue + [s.producer.next])
    case SendCanceled => s.(producer := Sent(Some(Canceled)), closed := true)
    case WalkEnd => s.(producer := Sent(if job.walkOk then None else Some(WalkFailed)), closed := true)
    case ProducerExit => s.(producer := Gone, groupErr := Record(s.groupErr, s.producer.err))
    case Receive(w) =>
      s.(workers := s.workers[w := Opening(s.queue[0])], queue := s.queue[1..], owner := s.owner + [w])
    case ReceiveClosed(w) => s.(workers := s.workers[w := Returning(None)])
    case ReceiveCanceled(w) => s.(workers := s.workers[w := Returning(Some(Canceled))])
    case Open(w) =>
      var i := s.workers[w].file;
      if job.files[i].Readable? then s.(workers := s.workers[w := Reading(i, 0)])
      else s.(workers := s.workers[w := Returning(Some(OpenFailed(i)))])
    case NextMeta(w) =>
      var i, k := s.workers[w].file, s.workers[w].index;
      if k < |job.files[i].metas| then
        match job.decode(job.files[i].metas[k])
        case Ok(_) => s.(workers := s.workers[w := Waiting(i, k)])
        case Err(e) => s.(workers := s.workers[w := Returning(Some(AddFailed(i, k, e)))])
      else if job.files[i].clean then
        s.(workers := s.workers[w := Selecting], finished := s.finished + {i})
      else s.(workers := s.workers[w := Returning(Some(DecodeFailed(i)))])
    case Lock(w) =>
      var i, k := s.workers[w].file, s.workers[w].index;
      s.(workers := s.workers[w := Locked(i, k)], mutexes := s.mutexes[SectionAt(job, i, k) := w])
    case Fetch(w) =>
      var i, k := s.workers[w].file, s.workers[w].index;
      s.(workers := s.workers[w := Fetched(i, k, At(s.slices, SectionAt(job, i, k)))])
    case Store(w) =>
      var i, k := s.workers[w].file, s.workers[w].index;
      s.(workers := s.workers[w := Stored(i, k)],
         slices := s.slices[SectionAt(job, i, k) := s.workers[w].slice + [Entry(i, ItemAt(job, i, k))]],
         progress := s.progress[i := k + 1])
    case Unlock(w) =>
      var i, k := s.workers[w].file, s.workers[w].index;
      s.(workers := s.workers[w := Reading(i, k + 1)], mutexes := s.mutexes - {SectionAt(job, i, k)})
    case WorkerExit(w) =>
      s.(workers := s.workers[w := Exited], groupErr := Record(s.groupErr, s.workers[w].err))
  }

  ghost predicate IsRun(job: Job, s: State, steps: seq<Step>)
    decreases |steps|
  {
    |steps| == 0 || (Enabled(job, s, steps[0]) && IsRun(job, Apply(job, s, steps[0]), steps[1..]))
  }

  ghost function After(job: Job, s: State, steps: seq<Step>): State
    requires IsRun(job, s, steps)
    decreases |steps|
  {
    if |steps| == 0 then s else After(job, Apply(job, s, steps[0]), steps[1..])
  }

  // ----- The invariant -----

  /** The items of the first `k` blobs of file `i`. */
  ghost predicate HasPrefix(job: Job, i: nat, k: nat) {
    i < |job.files| && (k == 0 || (job.files[i].Readable? && k <= |job.files[i].metas|
                                   && Decodable(job.decode, job.files[i].metas[..k])))
  }

  ghost function Prefix(job: Job, i: nat, k: nat): seq<Item>
    requires HasPrefix(job, i, k)
  {
    if k == 0 then [] else ItemsOf(job.decode, job.files[i].metas[..k])
  }

  lemma PrefixExtend(job: Job, i: nat, k: nat)
    requires HasPrefix(job, i, k) && Addable(job, i, k)
    ensures HasPrefix(job, i, k + 1)
    ensures Prefix(job, i, k + 1) == Prefix(job, i, k) + [ItemAt(job, i, k)]
  {
    var metas := job.files[i].metas;
    assert forall j :: 0 <= j < k ==> metas[..k + 1][j] == metas[..k][j];
  }

  /** The items of `entries` that came from file `i`, in order. */
  function FromFile(entries: seq<Entry>, i: nat): seq<Item> {
    if |entries| == 0 then []
    else
      var last := entries[|entries| - 1];
      FromFile(entries[..|entries| - 1], i) + if last.origin == i then [last.item] else []
  }

  lemma FromFileAppend(entries: seq<Entry>, e: Entry, i: nat)
    ensures FromFile(entries + [e], i) == FromFile(entries, i) + if e.origin == i then [e.item] else []
  {
    assert (entries + [e])[..|entries|] == entries;
  }

  predicate OnFile(worker: Worker) {
    worker.Opening? || worker.Reading? || worker.Waiting? || worker.Locked? || worker.Fetched? || worker.Stored?
  }

  predicate InSection(worker: Worker) {
    worker.Locked? || worker.Fetched? || worker.Stored?
  }

  /** Paths travel in walk order: received ones, then queued ones, then those still to send. */
  ghost predicate QueueInv(job: Job, producer: Producer, queue: seq<nat>, closed: bool, owner: seq<nat>) {
    && |queue| <= job.concurrency
    && |owner| + |queue| <= |job.files|
    && (forall j :: 0 <= j < |queue| ==> queue[j] == |owner| + j)
    && (forall i :: 0 <= i < |owner| ==> owner[i] < job.concurrency)
    && (producer.Sending? ==> !closed && producer.next == |owner| + |queue|)
    && (!producer.Sending? ==> closed)
  }

  ghost predicate WorkerInv(job: Job, w: nat, worker: Worker, owner: seq<nat>, finished: set<nat>, progress: seq<nat>) {
    OnFile(worker) ==>
      var i := worker.file;
      && i < |owner| && owner[i] == w && i !in finished && i < |progress|
      && (worker.Opening? ==> progress[i] == 0)
      && (!worker.Opening? ==> i < |job.files| && job.files[i].Readable? && worker.index <= |job.files[i].metas|)
      && (worker.Reading? || worker.Waiting? || worker.Locked? || worker.Fetched? ==> progress[i] == worker.index)
      && (worker.Waiting? || InSection(worker) ==> Addable(job, i, worker.index))
      && (worker.Stored? ==> progress[i] == worker.index + 1)
  }

  ghost predicate WorkersInv(job: Job, workers: seq<Worker>, owner: seq<nat>, finished: set<nat>, progress: seq<nat>) {
    && |workers| == job.concurrency
    && forall w :: 0 <= w < |workers| ==> WorkerInv(job, w, workers[w], owner, finished, progress)
  }

  /** What is stored of each file is exactly a prefix of it, split by section. */
  ghost predicate SlicesInv(job: Job, slices: Slices, owner: seq<nat>, progress: seq<nat>) {
    && |progress| == |job.files|
    && (forall i :: 0 <= i < |progress| ==> HasPrefix(job, i, progress[i]))
    && (forall i :: |owner| <= i < |progress| ==> progress[i] == 0)
    && (forall section: Section, i :: 0 <= i < |progress| ==>
          FromFile(At(slices, section), i) == Select(Prefix(job, i, progress[i]), section))
    && (forall section: Section, j :: 0 <= j < |At(slices, section)| ==>
          At(slices, section)[j].origin < |owner| && SectionOf(At(slices, section)[j].item) == section)
  }

  ghost predicate FinishedInv(job: Job, owner: seq<nat>, finished: set<nat>, progress: seq<nat>) {
    |owner| <= |job.files| == |progress|
    && forall i :: i in finished ==>
      i < |owner| && Loads(job.decode, job.files[i]) && progress[i] == |job.files[i].metas|
  }

  /** A mutex is held by exactly the worker inside its section, and nobody else writes the slice
      between that worker's read and its write. */
  ghost predicate MutexInv(job: Job, workers: seq<Worker>, mutexes: map<Section, nat>, slices: Slices) {
    && (forall w :: 0 <= w < |workers| && InSection(workers[w]) ==>
          Addable(job, workers[w].file, workers[w].index)
          && SectionAt(job, workers[w].file, workers[w].index) in mutexes
          && mutexes[SectionAt(job, workers[w].file, workers[w].index)] == w
          && (workers[w].Fetched? ==>
                workers[w].slice == At(slices, SectionAt(job, workers[w].file, workers[w].index))))
    && (forall section :: section in mutexes ==>
          mutexes[section] < |workers| && InSection(workers[mutexes[section]])
          && Addable(job, workers[mutexes[section]].file, workers[mutexes[section]].index)
          && SectionAt(job, workers[mutexes[section]].file, workers[mutexes[section]].index) == section)
  }

  /** A received file is finished, in progress, or its worker failed. */
  ghost predicate AccountedInv(workers: seq<Worker>, owner: seq<nat>, finished: set<nat>, groupErr: Option<LoadError>) {
    forall i :: 0 <= i < |owner| ==>
      owner[i] < |workers|
      && (i in finished
          || (OnFile(workers[owner[i]]) && workers[owner[i]].file == i)
          || (workers[owner[i]].Returning? && workers[owner[i]].err.Some?)
          || groupErr.Some?)
  }

  /** The error is a fault of the walk or of one of the files. */
  ghost predicate Genuine(job: Job, err: LoadError) {
    match err
    case WalkFailed => !job.walkOk
    case OpenFailed(i) => i < |job.files| && job.files[i].Unopenable?
    case DecodeFailed(i) => i < |job.files| && job.files[i].Readable? && !job.files[i].clean
    case AddFailed(i, k, e) =>
      i < |job.files| && job.files[i].Readable? && k < |job.files[i].metas|
      && job.decode(job.files[i].metas[k]) == Err(e)
    case Canceled => false
  }

  ghost predicate PendingOk(job: Job, err: Option<LoadError>, groupErr: Option<LoadError>, parentCanceled: bool) {
    err.Some? ==> Genuine(job, err.value) || (err.value.Canceled? && (parentCanceled || groupErr.Some?))
  }

  ghost predicate ErrorInv(job: Job, producer: Producer, workers: seq<Worker>, groupErr: Option<LoadError>,
                           parentCanceled: bool) {
    && (groupErr.Some? ==> Genuine(job, groupErr.value) || (groupErr.value.Canceled? && parentCanceled))
    && (producer.Sent? ==> PendingOk(job, producer.err, groupErr, parentCanceled))
    && (forall w :: 0 <= w < |workers| && workers[w].Returning? ==>
          PendingOk(job, workers[w].err, groupErr, parentCanceled))
  }

  /** A goroutine only returns without error when its share of the work is done. */
  ghost predicate ExitInv(job: Job, producer: Producer, workers: seq<Worker>, queue: seq<nat>, closed: bool,
                          owner: seq<nat>, groupErr: Option<LoadError>) {
    && ((producer.Sent? && producer.err.None?) || (producer.Gone? && groupErr.None?) ==>
          job.walkOk && |owner| + |queue| == |job.files|)
    && (forall w :: 0 <= w < |workers| ==>
          ((workers[w].Returning? && workers[w].err.None?) || (workers[w].Exited? && groupErr.None?) ==>
                closed && |queue| == 0))
  }

  /** With one worker the items arrive in walk order. */
  ghost predicate SerialInv(job: Job, workers: seq<Worker>, owner: seq<nat>, slices: Slices) {
    job.concurrency == 1 ==>
      && (forall w :: 0 <= w < |workers| && OnFile(workers[w]) ==> workers[w].file == |owner| - 1)
      && (forall section: Section :: Ascending(At(slices, section)))
  }

  ghost predicate Ascending(entries: seq<Entry>) {
    forall j, k :: 0 <= j <= k < |entries| ==> entries[j].origin <= entries[k].origin
  }

  ghost predicate Inv(job: Job, s: State) {
    && QueueInv(job, s.producer, s.queue, s.closed, s.owner)
    && WorkersInv(job, s.workers, s.owner, s.finished, s.progress)
    && SlicesInv(job, s.slices, s.owner, s.progress)
    && FinishedInv(job, s.owner, s.finished, s.progress)
    && MutexInv(job, s.workers, s.mutexes, s.slices)
    && AccountedInv(s.workers, s.owner, s.finished, s.groupErr)
    && ErrorInv(job, s.producer, s.workers, s.groupErr, s.parentCanceled)
    && ExitInv(job, s.producer, s.workers, s.queue, s.closed, s.owner, s.groupErr)
    && SerialInv(job, s.workers, s.owner, s.slices)
  }

  // ----- Preservation, part by part -----

  lemma WorkersUpdate(job: Job, workers: seq<Worker>, w: nat, worker: Worker,
                      owner: seq<nat>, finished: set<nat>, progress: seq<nat>,
                      owner': seq<nat>, finished': set<nat>, progress': seq<nat>)
    requires WorkersInv(job, workers, owner, finished, progress)
    requires w < |workers| && WorkerInv(job, w, worker, owner', finished', progress')
    requires owner <= owner' && |progress| == |progress'|
    requires forall i :: 0 <= i < |owner| && owner[i] != w ==>
               (i in finished' ==> i in finished) && (i < |progress| ==> progress[i] == progress'[i])
    ensures WorkersInv(job, workers[w := worker], owner', finished', progress')
  {
    forall v | 0 <= v < |workers| && v != w
      ensures WorkerInv(job, v, workers[v], owner', finished', progress')
    {
      assert WorkerInv(job, v, workers[v], owner, finished, progress);
    }
  }

  lemma AccountedUpdate(workers: seq<Worker>, w: nat, worker: Worker,
                        owner: seq<nat>, finished: set<nat>, groupErr: Option<LoadError>,
                        owner': seq<nat>, finished': set<nat>, groupErr': Option<LoadError>)
    requires AccountedInv(workers, owner, finished, groupErr) && w < |workers|
    requires finished <= finished' && (groupErr.Some? ==> groupErr'.Some?)
    requires owner' == owner || (owner' == owner + [w] && OnFile(worker) && worker.file == |owner|)
    requires OnFile(workers[w]) ==> workers[w].file in finished' || (OnFile(worker) && worker.file == workers[w].file)
                                    || (worker.Returning? && worker.err.Some?)
    requires workers[w].Returning? && workers[w].err.Some? ==> groupErr'.Some?
    ensures AccountedInv(workers[w := worker], owner', finished', groupErr')
  {
  }

  lemma ErrorUpdate(job: Job, producer: Producer, workers: seq<Worker>, w: nat, worker: Worker,
                    groupErr: Option<LoadError>, groupErr': Option<LoadError>, parentCanceled: bool)
    requires ErrorInv(job, producer, workers, groupErr, parentCanceled) && w < |workers|
    requires groupErr' == groupErr || (workers[w].Returning? && groupErr' == Record(groupErr, workers[w].err))
    requires worker.Returning? ==> PendingOk(job, worker.err, groupErr', parentCanceled)
    ensures ErrorInv(job, producer, workers[w := worker], groupErr', parentCanceled)
  {
  }

  lemma ExitUpdate(job: Job, producer: Producer, workers: seq<Worker>, w: nat, worker: Worker,
                   queue: seq<nat>, closed: bool, owner: seq<nat>, groupErr: Option<LoadError>,
                   queue': seq<nat>, owner': seq<nat>, groupErr': Option<LoadError>)
    requires ExitInv(job, producer, workers, queue, closed, owner, groupErr) && w < |workers|
    requires |owner'| + |queue'| == |owner| + |queue| && |queue'| <= |queue|
    requires groupErr.Some? ==> groupErr'.Some?
    requires (worker.Returning? && worker.err.None?) || (worker.Exited? && groupErr'.None?) ==> closed && |queue'| == 0
    ensures ExitInv(job, producer, workers[w := worker], queue', closed, owner', groupErr')
  {
  }

  ghost predicate SamePlace(a: Worker, b: Worker) {
    InSection(a) && InSection(b) && a.file == b.file && a.index == b.index
  }

  lemma MutexMove(job: Job, workers: seq<Worker>, w: nat, worker: Worker, mutexes: map<Section, nat>, slices: Slices)
    requires MutexInv(job, workers, mutexes, slices) && w < |workers|
    requires (!InSection(workers[w]) && !InSection(worker)) || SamePlace(workers[w], worker)
    requires worker.Fetched? ==> Addable(job, worker.file, worker.index)
                                 && worker.slice == At(slices, SectionAt(job, worker.file, worker.index))
    ensures MutexInv(job, workers[w := worker], mutexes, slices)
  {
  }

  lemma MutexLock(job: Job, workers: seq<Worker>, w: nat, i: nat, k: nat, mutexes: map<Section, nat>, slices: Slices)
    requires MutexInv(job, workers, mutexes, slices) && w < |workers| && !InSection(workers[w])
    requires Addable(job, i, k) && SectionAt(job, i, k) !in mutexes
    ensures MutexInv(job, workers[w := Locked(i, k)], mutexes[SectionAt(job, i, k) := w], slices)
  {
  }

  lemma MutexUnlock(job: Job, workers: seq<Worker>, w: nat, worker: Worker, mutexes: map<Section, nat>, slices: Slices)
    requires MutexInv(job, workers, mutexes, slices) && w < |workers| && InSection(workers[w]) && !InSection(worker)
    requires Addable(job, workers[w].file, workers[w].index)
    ensures MutexInv(job, workers[w := worker], mutexes - {SectionAt(job, workers[w].file, workers[w].index)}, slices)
  {
  }

  lemma MutexStore(job: Job, workers: seq<Worker>, w: nat, worker: Worker, mutexes: map<Section, nat>, slices: Slices,
                   slice: seq<Entry>)
    requires MutexInv(job, workers, mutexes, slices) && w < |workers| && SamePlace(workers[w], worker) && worker.Stored?
    requires Addable(job, worker.file, worker.index)
    ensures MutexInv(job, workers[w := worker], mutexes, slices[SectionAt(job, worker.file, worker.index) := slice])
  {
  }

  lemma AtUpdate(slices: Slices, section: Section, slice: seq<Entry>, other: Section)
    ensures At(slices[section := slice], other) == if other == section then slice else At(slices, other)
  {
  }

  lemma FromFileStore(job: Job, slices: Slices, owner: seq<nat>, progress: seq<nat>, i: nat, j: nat, other: Section)
    requires SlicesInv(job, slices, owner, progress) && i < |progress| && j < |progress| && Addable(job, i, progress[i])
    ensures var item := ItemAt(job, i, progress[i]);
            var slice := At(slices, SectionOf(item)) + [Entry(i, item)];
            var k := if j == i then progress[i] + 1 else progress[j];
            HasPrefix(job, j, k)
            && FromFile(At(slices[SectionOf(item) := slice], other), j) == Select(Prefix(job, j, k), other)
  {
    var k, item := progress[i], ItemAt(job, i, progress[i]);
    var section := SectionOf(item);
    assert HasPrefix(job, j, progress[j]) && HasPrefix(job, i, k);
    PrefixExtend(job, i, k);
    SelectAppend(Prefix(job, i, k), item, other);
    FromFileAppend(At(slices, section), Entry(i, item), j);
    AtUpdate(slices, section, At(slices, section) + [Entry(i, item)], other);
    assert FromFile(At(slices, other), j) == Select(Prefix(job, j, progress[j]), other);
  }

  lemma SlicesStore(job: Job, slices: Slices, owner: seq<nat>, progress: seq<nat>, i: nat)
    requires SlicesInv(job, slices, owner, progress) && i < |owner| && i < |progress| && Addable(job, i, progress[i])
    ensures var item := ItemAt(job, i, progress[i]);
            SlicesInv(job, slices[SectionOf(item) := At(slices, SectionOf(item)) + [Entry(i, item)]],
                      owner, progress[i := progress[i] + 1])
  {
    var item := ItemAt(job, i, progress[i]);
    var section := SectionOf(item);
    var slices' := slices[section := At(slices, section) + [Entry(i, item)]];
    forall other: Section, j | 0 <= j < |progress|
      ensures HasPrefix(job, j, progress[i := progress[i] + 1][j])
      ensures FromFile(At(slices', other), j) == Select(Prefix(job, j, progress[i := progress[i] + 1][j]), other)
    {
      FromFileStore(job, slices, owner, progress, i, j, other);
    }
    forall other: Section, j | 0 <= j < |At(slices', other)|
      ensures At(slices', other)[j].origin < |owner| && SectionOf(At(slices', other)[j].item) == other
    {
      AtUpdate(slices, section, At(slices, section) + [Entry(i, item)], other);
    }
  }

  lemma SerialStore(job: Job, workers: seq<Worker>, w: nat, worker: Worker, owner: seq<nat>, progress: seq<nat>,
                    slices: Slices,
                    section: Section, e: Entry)
    requires SerialInv(job, workers, owner, slices) && SlicesInv(job, slices, owner, progress)
    requires w < |workers| && OnFile(workers[w]) && OnFile(worker) && worker.file == workers[w].file == e.origin
    ensures SerialInv(job, workers[w := worker], owner, slices[section := At(slices, section) + [e]])
  {
    if job.concurrency == 1 {
      var slices': Slices := slices[section := At(slices, section) + [e]];
      forall other: Section
        ensures Ascending(At(slices', other))
      {
        AtUpdate(slices, section, At(slices, section) + [e], other);
        assert Ascending(At(slices, section));
      }
    }
  }

  lemma SelectAppend(items: seq<Item>, item: Item, section: Section)
    ensures Select(items + [item], section) == Select(items, section)
            + if SectionOf(item) == section then [item] else []
  {
    assert (items + [item])[..|items|] == items;
  }

  // ----- Preservation, step by step -----

  lemma InitInv(job: Job)
    ensures Inv(job, Init(job))
  {
    forall section: Section
      ensures At(NO_ENTRIES, section) == []
    {
      assert section.Packages? || section.Channels? || section.Bundles? || section.Deprecations? || section.Others?;
    }
  }

  lemma ProducerStepInv(job: Job, s: State, step: Step)
    requires Inv(job, s) && Enabled(job, s, step)
    requires step.ParentCancel? || step.Send? || step.SendCanceled? || step.WalkEnd? || step.ProducerExit?
    ensures Inv(job, Apply(job, s, step))
  {
  }

  lemma ReceiveInv(job: Job, s: State, w: nat)
    requires Inv(job, s) && Enabled(job, s, Receive(w))
    ensures Inv(job, Apply(job, s, Receive(w)))
  {
    var s' := Apply(job, s, Receive(w));
    var worker := s'.workers[w];
    WorkersUpdate(job, s.workers, w, worker, s.owner, s.finished, s.progress, s'.owner, s.finished, s.progress);
    AccountedUpdate(s.workers, w, worker, s.owner, s.finished, s.groupErr, s'.owner, s.finished, s.groupErr);
    ErrorUpdate(job, s.producer, s.workers, w, worker, s.groupErr, s.groupErr, s.parentCanceled);
    ExitUpdate(job, s.producer, s.workers, w, worker, s.queue, s.closed, s.owner, s.groupErr, s'.queue, s'.owner,
               s.groupErr);
    MutexMove(job, s.workers, w, worker, s.mutexes, s.slices);
  }

  /** Steps of a worker that touch nothing but that worker. */
  lemma MoveInv(job: Job, s: State, w: nat, worker: Worker)
    requires Inv(job, s) && w < |s.workers| && !s.workers[w].Returning? && !worker.Exited?
    requires WorkerInv(job, w, worker, s.owner, s.finished, s.progress)
    requires (!InSection(s.workers[w]) && !InSection(worker)) || SamePlace(s.workers[w], worker)
    requires worker.Fetched? ==> Addable(job, worker.file, worker.index)
                                 && worker.slice == At(s.slices, SectionAt(job, worker.file, worker.index))
    requires OnFile(worker) ==> OnFile(s.workers[w]) && worker.file == s.workers[w].file
    requires OnFile(s.workers[w]) ==> OnFile(worker) || (worker.Returning? && worker.err.Some?)
    requires worker.Returning? ==> PendingOk(job, worker.err, s.groupErr, s.parentCanceled)
    requires worker.Returning? && worker.err.None? ==> s.closed && |s.queue| == 0
    ensures Inv(job, s.(workers := s.workers[w := worker]))
  {
    WorkersUpdate(job, s.workers, w, worker, s.owner, s.finished, s.progress, s.owner, s.finished, s.progress);
    AccountedUpdate(s.workers, w, worker, s.owner, s.finished, s.groupErr, s.owner, s.finished, s.groupErr);
    ErrorUpdate(job, s.producer, s.workers, w, worker, s.groupErr, s.groupErr, s.parentCanceled);
    ExitUpdate(job, s.producer, s.workers, w, worker, s.queue, s.closed, s.owner, s.groupErr, s.queue, s.owner,
               s.groupErr);
    MutexMove(job, s.workers, w, worker, s.mutexes, s.slices);
  }

  lemma ReadStepInv(job: Job, s: State, step: Step)
    requires Inv(job, s) && Enabled(job, s, step)
    requires step.ReceiveClosed? || step.ReceiveCanceled? || step.Open?
    ensures Inv(job, Apply(job, s, step))
  {
    assert WorkerInv(job, step.w, s.workers[step.w], s.owner, s.finished, s.progress);
    MoveInv(job, s, step.w, Apply(job, s, step).workers[step.w]);
  }

  lemma FetchInv(job: Job, s: State, w: nat)
    requires Inv(job, s) && Enabled(job, s, Fetch(w))
    ensures Inv(job, Apply(job, s, Fetch(w)))
  {
    assert WorkerInv(job, w, s.workers[w], s.owner, s.finished, s.progress);
    MoveInv(job, s, w, Apply(job, s, Fetch(w)).workers[w]);
  }

  lemma NextMetaInv(job: Job, s: State, w: nat)
    requires Inv(job, s) && Enabled(job, s, NextMeta(w))
    ensures Inv(job, Apply(job, s, NextMeta(w)))
  {
    var s' := Apply(job, s, NextMeta(w));
    var i, k, worker := s.workers[w].file, s.workers[w].index, s'.workers[w];
    assert WorkerInv(job, w, s.workers[w], s.owner, s.finished, s.progress);
    if k < |job.files[i].metas| || !job.files[i].clean {
      MoveInv(job, s, w, worker);
    } else {
      FinishInv(job, s, w);
    }
  }

  lemma FinishInv(job: Job, s: State, w: nat)
    requires Inv(job, s) && w < |s.workers| && s.workers[w].Reading?
    requires var i := s.workers[w].file;
             i < |job.files| && job.files[i].Readable? && job.files[i].clean
                 && s.workers[w].index == |job.files[i].metas|
    ensures Inv(job, s.(workers := s.workers[w := Selecting], finished := s.finished + {s.workers[w].file}))
  {
    var i, finished := s.workers[w].file, s.finished + {s.workers[w].file};
    assert WorkerInv(job, w, s.workers[w], s.owner, s.finished, s.progress);
    assert FinishedInv(job, s.owner, finished, s.progress) by {
      assert HasPrefix(job, i, s.progress[i]);
      assert job.files[i].metas[..s.progress[i]] == job.files[i].metas;
    }
    WorkersUpdate(job, s.workers, w, Selecting, s.owner, s.finished, s.progress, s.owner, finished, s.progress);
    AccountedUpdate(s.workers, w, Selecting, s.owner, s.finished, s.groupErr, s.owner, finished, s.groupErr);
    ErrorUpdate(job, s.producer, s.workers, w, Selecting, s.groupErr, s.groupErr, s.parentCanceled);
    ExitUpdate(job, s.producer, s.workers, w, Selecting, s.queue, s.closed, s.owner, s.groupErr, s.queue, s.owner,
               s.groupErr);
    MutexMove(job, s.workers, w, Selecting, s.mutexes, s.slices);
  }

  /** Taking or releasing a mutex changes a worker and the mutexes. */
  lemma MutexStepInv(job: Job, s: State, w: nat, worker: Worker, mutexes: map<Section, nat>)
    requires Inv(job, s) && w < |s.workers| && OnFile(s.workers[w]) && OnFile(worker)
             && worker.file == s.workers[w].file
    requires WorkerInv(job, w, worker, s.owner, s.finished, s.progress)
    requires MutexInv(job, s.workers[w := worker], mutexes, s.slices)
    ensures Inv(job, s.(workers := s.workers[w := worker], mutexes := mutexes))
  {
    WorkersUpdate(job, s.workers, w, worker, s.owner, s.finished, s.progress, s.owner, s.finished, s.progress);
    AccountedUpdate(s.workers, w, worker, s.owner, s.finished, s.groupErr, s.owner, s.finished, s.groupErr);
    ErrorUpdate(job, s.producer, s.workers, w, worker, s.groupErr, s.groupErr, s.parentCanceled);
    ExitUpdate(job, s.producer, s.workers, w, worker, s.queue, s.closed, s.owner, s.groupErr, s.queue, s.owner,
               s.groupErr);
  }

  lemma LockInv(job: Job, s: State, w: nat)
    requires Inv(job, s) && Enabled(job, s, Lock(w))
    ensures Inv(job, Apply(job, s, Lock(w)))
  {
    var s' := Apply(job, s, Lock(w));
    var worker := s'.workers[w];
    assert WorkerInv(job, w, s.workers[w], s.owner, s.finished, s.progress);
    MutexLock(job, s.workers, w, worker.file, worker.index, s.mutexes, s.slices);
    MutexStepInv(job, s, w, worker, s'.mutexes);
  }

  lemma UnlockInv(job: Job, s: State, w: nat)
    requires Inv(job, s) && Enabled(job, s, Unlock(w))
    ensures Inv(job, Apply(job, s, Unlock(w)))
  {
    var s' := Apply(job, s, Unlock(w));
    var worker := s'.workers[w];
    assert WorkerInv(job, w, s.workers[w], s.owner, s.finished, s.progress);
    MutexUnlock(job, s.workers, w, worker, s.mutexes, s.slices);
    MutexStepInv(job, s, w, worker, s'.mutexes);
  }

  lemma ExitStepInv(job: Job, s: State, w: nat)
    requires Inv(job, s) && Enabled(job, s, WorkerExit(w))
    ensures Inv(job, Apply(job, s, WorkerExit(w)))
  {
    var s' := Apply(job, s, WorkerExit(w));
    WorkersUpdate(job, s.workers, w, Exited, s.owner, s.finished, s.progress, s.owner, s.finished, s.progress);
    AccountedUpdate(s.workers, w, Exited, s.owner, s.finished, s.groupErr, s.owner, s.finished, s'.groupErr);
    ErrorUpdate(job, s.producer, s.workers, w, Exited, s.groupErr, s'.groupErr, s.parentCanceled);
    ExitUpdate(job, s.producer, s.workers, w, Exited, s.queue, s.closed, s.owner, s.groupErr, s.queue, s.owner,
               s'.groupErr);
    MutexMove(job, s.workers, w, Exited, s.mutexes, s.slices);
  }

  /** The write of a fetched slice, as it affects the slices. */
  lemma WriteSlices(job: Job, s: State, w: nat, i: nat, item: Item)
    requires Inv(job, s) && w < |s.workers| && s.workers[w].Fetched? && s.workers[w].file == i < |s.progress|
    requires Addable(job, i, s.workers[w].index) && item == ItemAt(job, i, s.workers[w].index)
    ensures var k := s.workers[w].index;
            var slices := WithSlice(s.slices, SectionOf(item), s.workers[w].slice + [Entry(i, item)]);
            && SlicesInv(job, slices, s.owner, s.progress[i := k + 1])
            && SerialInv(job, s.workers[w := Stored(i, k)], s.owner, slices)
            && MutexInv(job, s.workers[w := Stored(i, k)], s.mutexes, slices)
  {
    var k, worker := s.workers[w].index, Stored(i, s.workers[w].index);
    assert WorkerInv(job, w, s.workers[w], s.owner, s.finished, s.progress);
    assert s.workers[w].slice == At(s.slices, SectionOf(item));
    MutexStore(job, s.workers, w, worker, s.mutexes, s.slices, s.workers[w].slice + [Entry(i, item)]);
    SlicesStore(job, s.slices, s.owner, s.progress, i);
    SerialStore(job, s.workers, w, worker, s.owner, s.progress, s.slices, SectionOf(item), Entry(i, item));
  }

  /** The same write, as it affects the goroutines. */
  lemma WriteWorkers(job: Job, s: State, w: nat)
    requires Inv(job, s) && w < |s.workers| && s.workers[w].Fetched?
    ensures var i, k := s.workers[w].file, s.workers[w].index;
            && i < |s.progress|
            && WorkersInv(job, s.workers[w := Stored(i, k)], s.owner, s.finished, s.progress[i := k + 1])
            && FinishedInv(job, s.owner, s.finished, s.progress[i := k + 1])
            && AccountedInv(s.workers[w := Stored(i, k)], s.owner, s.finished, s.groupErr)
            && ErrorInv(job, s.producer, s.workers[w := Stored(i, k)], s.groupErr, s.parentCanceled)
            && ExitInv(job, s.producer, s.workers[w := Stored(i, k)], s.queue, s.closed, s.owner, s.groupErr)
  {
    var i, k, worker := s.workers[w].file, s.workers[w].index, Stored(s.workers[w].file, s.workers[w].index);
    assert WorkerInv(job, w, s.workers[w], s.owner, s.finished, s.progress);
    WorkersUpdate(job, s.workers, w, worker, s.owner, s.finished, s.progress, s.owner, s.finished,
                  s.progress[i := k + 1]);
    AccountedUpdate(s.workers, w, worker, s.owner, s.finished, s.groupErr, s.owner, s.finished, s.groupErr);
    ErrorUpdate(job, s.producer, s.workers, w, worker, s.groupErr, s.groupErr, s.parentCanceled);
    ExitUpdate(job, s.producer, s.workers, w, worker, s.queue, s.closed, s.owner, s.groupErr, s.queue, s.owner,
               s.groupErr);
  }

  lemma StoreInv(job: Job, s: State, w: nat)
    requires Inv(job, s) && Enabled(job, s, Store(w))
    ensures Inv(job, Apply(job, s, Store(w)))
  {
    WriteSlices(job, s, w, s.workers[w].file, ItemAt(job, s.workers[w].file, s.workers[w].index));
    WriteWorkers(job, s, w);
  }

  lemma StepInv(job: Job, s: State, step: Step)
    requires Inv(job, s) && Enabled(job, s, step)
    ensures Inv(job, Apply(job, s, step))
  {
    match step
    case Receive(w) => ReceiveInv(job, s, w);
    case NextMeta(w) => NextMetaInv(job, s, w);
    case Store(w) => StoreInv(job, s, w);
    case WorkerExit(w) => ExitStepInv(job, s, w);
    case Lock(w) => LockInv(job, s, w);
    case Unlock(w) => UnlockInv(job, s, w);
    case ReceiveClosed(_) => ReadStepInv(job, s, step);
    case ReceiveCanceled(_) => ReadStepInv(job, s, step);
    case Open(_) => ReadStepInv(job, s, step);
    case Fetch(w) => FetchInv(job, s, w);
    case _ => ProducerStepInv(job, s, step);
  }
}
