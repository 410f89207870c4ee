/**
 The worker's handler as its code runs it (worker/handler.py): up to three attempts at fetching the
 blob, drawing the overlay and recording the prediction; only transient errors are tried again.
 */
module Workers {
  import opened Prelude
  import opened Paths
  import opened Database
  import opened Protocol
  import opened PipelineSafety
  import opened Processes
  import S = Services
  import T = Tables
  import K = SharedKeys
  import Uuid

  // ---------------------------------------------------------------------------
  // What a script of endings means for a job
  // ---------------------------------------------------------------------------

  datatype End = Completed | Transient | Broken

  function EndOf(ending: Ending): End {
    if ending.Success? then Completed else if ending.retryable then Transient else Broken
  }

  /** An attempt that begins at position n makes its three calls, and each of them succeeds. */
  predicate CleanAttempt(script: nat -> Slot, n: nat) {
    script(n).ending.Success? && script(n + 1).ending.Success? && script(n + 2).ending.Success?
  }

  /** An attempt that begins at position n stops at its first failing call, just before position `next`. */
  predicate BrokenOff(script: nat -> Slot, n: nat, next: nat) {
    && n < next <= n + 3
    && (forall k: nat :: n <= k < next - 1 ==> script(k).ending.Success?)
    && script(next - 1).ending.Failure?
  }

  /** The failing call is one that is tried again. */
  predicate Retried(script: nat -> Slot, n: nat, next: nat) {
    BrokenOff(script, n, next) && script(next - 1).ending.retryable
  }

  /** The failing call is one that ends the job. */
  predicate Final(script: nat -> Slot, n: nat, next: nat) {
    BrokenOff(script, n, next) && !script(next - 1).ending.retryable
  }

  /** Attempts that begin at these positions, the first at n: each but the last is tried again. */
  predicate Attempts(script: nat -> Slot, n: nat, starts: seq<nat>) {
    && 1 <= |starts| && starts[0] == n
    && forall k :: 1 <= k < |starts| ==> Retried(script, starts[k - 1], starts[k])
  }

  /** Of at most so many attempts one is clean, and every earlier one is tried again. */
  ghost predicate GetsThrough(script: nat -> Slot, n: nat, attempts: nat) {
    exists starts: seq<nat> ::
      Attempts(script, n, starts) && |starts| <= attempts && CleanAttempt(script, starts[|starts| - 1])
  }

  lemma {:induction false} SameAttempts(script: nat -> Slot, n: nat, a: seq<nat>, b: seq<nat>, k: nat)
    requires Attempts(script, n, a) && Attempts(script, n, b) && k < |a| && k < |b|
    ensures a[k] == b[k]
  {
    if k > 0 {
      SameAttempts(script, n, a, b, k - 1);
      assert Retried(script, a[k - 1], a[k]) && Retried(script, b[k - 1], b[k]);
    }
  }

  lemma OneEnd(script: nat -> Slot, n: nat, next: nat, other: nat)
    requires BrokenOff(script, n, next)
    ensures !CleanAttempt(script, n)
    ensures BrokenOff(script, n, other) ==> other == next
  {
  }

  /** When an attempt ends with an error that is final, or none is left after it, no attempt is clean. */
  lemma NoOtherWay(script: nat -> Slot, n: nat, attempts: nat, starts: seq<nat>, next: nat)
    requires Attempts(script, n, starts) && BrokenOff(script, starts[|starts| - 1], next)
    requires |starts| >= attempts || Final(script, starts[|starts| - 1], next)
    ensures !GetsThrough(script, n, attempts)
  {
    forall other: seq<nat> | Attempts(script, n, other) && |other| <= attempts
      ensures !CleanAttempt(script, other[|other| - 1])
    {
      NotThisWay(script, n, attempts, starts, next, other);
    }
  }

  lemma NotThisWay(script: nat -> Slot, n: nat, attempts: nat, starts: seq<nat>, next: nat, other: seq<nat>)
    requires Attempts(script, n, starts) && BrokenOff(script, starts[|starts| - 1], next)
    requires |starts| >= attempts || Final(script, starts[|starts| - 1], next)
    requires Attempts(script, n, other) && |other| <= attempts
    ensures !CleanAttempt(script, other[|other| - 1])
  {
    hide BrokenOff;
    hide CleanAttempt;
    var last := |starts| - 1;
    var common := if |other| <= |starts| then |other| - 1 else last;
    SameAttempts(script, n, starts, other, common);
    var start := starts[common];
    var end := if common < last then starts[common + 1] else next;
    assert BrokenOff(script, start, end);
    OneEnd(script, start, end, if common < |other| - 1 then other[common + 1] else end);
  }

  /** A failing call that is not tried again: the job does not get through, however many attempts it has. */
  lemma FinalErrorEnds(script: nat -> Slot, n: nat, next: nat, attempts: nat)
    requires BrokenOff(script, n, next) && !script(next - 1).ending.retryable
    ensures !GetsThrough(script, n, attempts)
  {
    assert Attempts(script, n, [n]);
    NoOtherWay(script, n, attempts, [n], next);
  }

  /** A failing call that is tried again costs one attempt, and the next one begins just after it. */
  lemma RetryCostsOneAttempt(script: nat -> Slot, n: nat, next: nat, attempts: nat)
    requires BrokenOff(script, n, next) && script(next - 1).ending.retryable && attempts > 0
    ensures GetsThrough(script, n, attempts) <==> GetsThrough(script, next, attempts - 1)
  {
    hide CleanAttempt;
    assert Retried(script, n, next);
    OneEnd(script, n, next, next);
    if starts: seq<nat> :| Attempts(script, n, starts) && |starts| <= attempts
                           && CleanAttempt(script, starts[|starts| - 1]) {
      SameAttempts(script, n, starts, [n, next], 1);
      assert Attempts(script, next, starts[1..]) by {
        forall k | 1 <= k < |starts[1..]|
          ensures Retried(script, starts[1..][k - 1], starts[1..][k])
        {
          assert Retried(script, starts[k], starts[k + 1]);
        }
      }
    }
    if starts: seq<nat> :| Attempts(script, next, starts) && |starts| <= attempts - 1
                           && CleanAttempt(script, starts[|starts| - 1]) {
      FirstAttempt(script, n, next, starts);
    }
  }

  lemma FirstAttempt(script: nat -> Slot, n: nat, next: nat, starts: seq<nat>)
    requires Retried(script, n, next) && Attempts(script, next, starts)
    ensures Attempts(script, n, [n] + starts) && ([n] + starts)[|starts|] == starts[|starts| - 1]
  {
    hide Retried;
    var longer := [n] + starts;
    forall k | 1 <= k < |longer|
      ensures Retried(script, longer[k - 1], longer[k])
    {
      if k > 1 {
        assert Retried(script, starts[k - 2], starts[k - 1]);
      }
    }
  }

  /** An attempt is clean or broken off. */
  lemma AttemptEnds(script: nat -> Slot, n: nat) returns (next: nat)
    ensures CleanAttempt(script, n) || BrokenOff(script, n, next)
    ensures next == if script(n).ending.Failure? then n + 1 else if script(n + 1).ending.Failure? then n + 2 else n + 3
    ensures CleanAttempt(script, n) ==> next == n + 3
  {
    next := if script(n).ending.Failure? then n + 1 else if script(n + 1).ending.Failure? then n + 2 else n + 3;
  }

  lemma {:induction false} Subset<T>(a: set<T>, b: set<T>)
    requires a <= b
    ensures |a| <= |b|
  {
    assert b == a + (b - a);
  }

  /** Beyond a failing call at least one failure fewer is left. */
  lemma FewerLeft(script: nat -> Slot, n: nat, next: nat, m: nat, m': nat)
    requires n < next <= m && m' <= m && script(next - 1).ending.Failure?
    ensures |set k: nat | next <= k < m' && script(k).ending.Failure?|
            < |set k: nat | n <= k < m && script(k).ending.Failure?|
  {
    var all := set k: nat | n <= k < m && script(k).ending.Failure?;
    var rest := set k: nat | next <= k < m' && script(k).ending.Failure?;
    assert next - 1 in all && rest <= all - {next - 1};
    Subset(rest, all - {next - 1});
  }

  /**
   A job gets through when fewer of the calls that it may make fail than it has attempts, and all of
   these are tried again, wherever they strike.
   */
  lemma {:induction false} SurvivesFewFaults(script: nat -> Slot, n: nat, attempts: nat)
    requires forall k: nat :: n <= k < n + 3 * attempts && script(k).ending.Failure? ==> script(k).ending.retryable
    requires |set k: nat | n <= k < n + 3 * attempts && script(k).ending.Failure?| < attempts
    ensures GetsThrough(script, n, attempts)
    decreases attempts
  {
    var next := AttemptEnds(script, n);
    if CleanAttempt(script, n) {
      assert Attempts(script, n, [n]);
    } else {
      FewerLeft(script, n, next, n + 3 * attempts, next + 3 * (attempts - 1));
      hide BrokenOff;
      hide CleanAttempt;
      hide GetsThrough;
      SurvivesFewFaults(script, next, attempts - 1);
      RetryCostsOneAttempt(script, n, next, attempts);
    }
  }

  /** Of the nine calls from position n on at most two fail, and these are tried again. */
  predicate AtMostTwoFaults(script: nat -> Slot, n: nat) {
    && |set k: nat | n <= k < n + 9 && script(k).ending.Failure?| <= 2
    && forall k: nat :: n <= k < n + 9 && script(k).ending.Failure? ==> script(k).ending.retryable
  }

  lemma {:induction false} SurvivesTwoFaults(script: nat -> Slot, n: nat)
    requires AtMostTwoFaults(script, n)
    ensures GetsThrough(script, n, 3)
  {
    assert (set k: nat | n <= k < n + 9 && script(k).ending.Failure?)
        == (set k: nat | n <= k < n + 3 * 3 && script(k).ending.Failure?);
    SurvivesFewFaults(script, n, 3);
  }

  // ---------------------------------------------------------------------------
  // Fresh ids
  // ---------------------------------------------------------------------------

  predicate Unused(rows: seq<Prediction>, id: Id) {
    forall i :: 0 <= i < |rows| ==> rows[i].id != id
  }

  predicate OthersAvoid(es: seq<Event>, id: Id) {
    forall m :: 0 <= m < |es| && es[m].Work? ==> es[m].id != id
  }

  /** From position n up to m, `uuid4()` yields each id once, here and in other workers. */
  predicate FreshIds(script: nat -> Slot, n: nat, m: nat) {
    && (forall j, k :: n <= j < m && n <= k < m && j != k ==> script(j).id != script(k).id)
    && (forall j, k :: n <= j < m && n <= k < m ==> OthersAvoid(script(j).others, script(k).id))
  }

  /** The ids to come up to position m are fresh and in no row. */
  predicate IdsNew(script: nat -> Slot, n: nat, m: nat, w: World) {
    FreshIds(script, n, m) && forall k :: n <= k < m ==> Unused(w.db.predictions, script(k).id)
  }

  /** A script whose ids count upwards. */
  function Counting(endings: nat -> Ending, base: nat): nat -> Slot {
    (k: nat) => Slot([], endings(k), if base + k < Uuid.Pow16(32) then base + k else 0, 0.0, 0)
  }

  /**
   Fresh ids can be had in every world, whatever the endings of the calls, as long as there are ids
   left above those in use.
   */
  lemma FreshIdsExist(w: World, endings: nat -> Ending, base: nat, n: nat, m: nat)
    requires forall i :: 0 <= i < |w.db.predictions| ==> w.db.predictions[i].id < base
    requires base + m <= Uuid.Pow16(32)
    ensures IdsNew(Counting(endings, base), n, m, w)
    ensures forall k: nat :: Counting(endings, base)(k).ending == endings(k)
  {
    hide Uuid.Pow16;
  }

  lemma EnoughIds()
    ensures 9 <= Uuid.Pow16(32)
  {
    assert Uuid.Pow16(32) == 16 * Uuid.Pow16(31);
  }

  /** In particular for a job that has just been taken, and for all the calls that it can make. */
  lemma JobCanHaveFreshIds(config: Config, path: string, content: Content, endings: nat -> Ending)
    requires Validate(path, content, config.maxBytes).Accepted?
    ensures var w := Run(Start(config), K.OneFile(path, content) + [Take(0)]);
            At(w, 0, Fetching) && IdsNew(Counting(endings, 0), 0, 9, w)
  {
    hide Validate;
    hide IdsNew;
    hide Uuid.Pow16;
    hide Step;
    K.OneFileIsProcessed(config, path, content);
    K.RunOn(config, K.OneFile(path, content), Take(0));
    hide Run;
    hide K.OneFile;
    var w := Run(Start(config), K.OneFile(path, content));
    EnoughIds();
    TakeStep(w, 0);
    FreshIdsExist(Step(w, Take(0)), endings, 0, 0, 9);
  }

  lemma CommitUnused(db: Db, t: S.Transaction, id: Id)
    requires Unused(db.predictions, id) && (t.WorkerWrite? ==> t.result.id != id)
    ensures Unused(S.Commit(db, t).predictions, id)
  {
    hide Uuid.Parse;
    hide S.Handle;
    match t
    case IngestRow(_, _, _) =>
    case WorkerWrite(result, now) =>
      hide S.PredictionFor;
      assert S.PredictionFor(result).id == result.id by { WrittenId(result); }
    case Http(r) =>
      T.HttpKeepsRows(db, r);
      hide S.Attempt;
      hide S.Commit;
  }

  lemma WrittenId(result: S.WorkerResult)
    ensures S.PredictionFor(result).id == result.id
  {
  }

  lemma StepUnused(w: World, e: Event, id: Id)
    requires Unused(w.db.predictions, id) && (e.Work? ==> e.id != id)
    ensures Unused(Step(w, e).db.predictions, id)
  {
    CommittedIs(w, e);
    if Committed(w, e).Some? {
      CommitUnused(w.db, Committed(w, e).value, id);
    }
    hide Step;
    hide S.Commit;
  }

  lemma {:induction false} InterludeUnused(p: Process, w: World, es: seq<Event>, id: Id)
    requires Unused(w.db.predictions, id) && OthersAvoid(es, id)
    ensures Unused(Interlude(p, w, es).db.predictions, id)
  {
    hide Step;
    hide Unused;
    hide Foreign;
    if es != [] {
      InterludeUnused(p, w, es[..|es| - 1], id);
      StepUnused(Interlude(p, w, es[..|es| - 1]), es[|es| - 1], id);
    }
  }

  /** After one call with its interlude, the ids after it are as new as before. */
  lemma CallIdsNew(p: Plant, i: nat, n: nat, m: nat, w: World, called: World, e: Event)
    requires n < m && IdsNew(p.script, n, m, w)
    requires called == Interlude(Worker(i), w, p.script(n).others)
    requires e.Work? ==> e.id == p.script(n).id
    ensures Unused(called.db.predictions, p.script(n).id) && IdsNew(p.script, n + 1, m, Step(called, e))
  {
    hide Step;
    hide Unused;
    hide Interlude;
    forall k | n <= k < m
      ensures Unused(called.db.predictions, p.script(k).id)
    {
      assert OthersAvoid(p.script(n).others, p.script(k).id);
      InterludeUnused(Worker(i), w, p.script(n).others, p.script(k).id);
    }
    forall k | n + 1 <= k < m
      ensures Unused(Step(called, e).db.predictions, p.script(k).id)
    {
      StepUnused(called, e, p.script(k).id);
    }
  }

  // ---------------------------------------------------------------------------
  // The three calls of an attempt
  // ---------------------------------------------------------------------------

  /** The row of the job's document holds what the predictor says of the content. */
  predicate Recorded(db: Db, job: Job, content: Content, version: string, latency: real) {
    && Predicted(db, job.batch, job.document)
    && var row := db.predictions[FindKey(db.predictions, Uuid.Parse(job.batch).value, Uuid.Parse(job.document).value)];
       && row.category == content.ranking[0].0 && row.top1 == content.ranking[0].1
       && row.ranking == content.ranking && row.version == version
       && row.overlay == OverlayKey(job.batch, job.document) && row.latency == Some(latency)
  }

  predicate At(w: World, i: nat, progress: Progress) {
    i < |w.jobs| && w.jobs[i].status == Running(progress)
  }

  lemma FetchStep(w: World, i: nat, slot: Slot)
    requires At(w, i, Fetching) && w.jobs[i].job.key in w.documents
    ensures var w' := Step(w, Work(i, slot.ending, slot.id, slot.latency, slot.now));
            At(w', i, if slot.ending.Success? then Drawing(w.documents[w.jobs[i].job.key]) else Fetching)
            && w'.jobs[i].job == w.jobs[i].job
  {
  }

  lemma DrawStep(w: World, i: nat, content: Content, slot: Slot)
    requires At(w, i, Drawing(content))
    ensures var w' := Step(w, Work(i, slot.ending, slot.id, slot.latency, slot.now));
            At(w', i, if slot.ending.Success? then Recording(content) else Drawing(content))
            && w'.jobs[i].job == w.jobs[i].job
            && (slot.ending.Success? ==> OverlayObject(w.jobs[i].job) in w'.overlays
                                         && w'.overlays[OverlayObject(w.jobs[i].job)] == content)
  {
    hide OverlayObject;
  }

  lemma WriteRecords(db: Db, job: Job, content: Content, version: string, result: S.WorkerResult, now: nat)
    requires S.Attempt(db, S.WorkerWrite(result, now)).Ok?
    requires result.batch == job.batch && result.document == job.document
    requires result.ranking == content.ranking && result.version == version
    ensures Recorded(S.Commit(db, S.WorkerWrite(result, now)), job, content, version, result.latency)
  {
    hide Uuid.Parse;
    WrittenIsPredicted(db, result, now);
    var p := S.PredictionFor(result);
    S.RecordEffect(db, p, now);
    hide S.RecordPrediction;
    var b, d := Uuid.Parse(job.batch).value, Uuid.Parse(job.document).value;
    var rows := Upsert(db.predictions, p, b, d, now);
    var i := FindKey(db.predictions, b, d);
    assert rows[i].batch == b && rows[i].document == d;
    assert forall j :: 0 <= j < i ==> rows[j] == db.predictions[j];
    assert FindKey(rows, b, d) == i;
  }

  lemma RecordStep(w: World, i: nat, content: Content, slot: Slot)
    requires At(w, i, Recording(content)) && RowFiled(w.db, w.jobs[i].job.batch, w.jobs[i].job.document)
    ensures var w' := Step(w, Work(i, slot.ending, slot.id, slot.latency, slot.now));
            && i < |w'.jobs| && w'.jobs[i].job == w.jobs[i].job
            && (w'.jobs[i].status.Finished? || At(w', i, Recording(content)))
            && (w'.jobs[i].status.Finished? ==> slot.ending.Success?)
            && (Unused(w.db.predictions, slot.id) && slot.ending.Success? ==> w'.jobs[i].status.Finished?)
            && (w'.jobs[i].status.Finished?
                ==> Recorded(w'.db, w.jobs[i].job, content, w.config.modelVersion, slot.latency))
            && (forall k :: k in w.overlays ==> k in w'.overlays)
  {
    hide Uuid.Parse;
    hide RowFiled;
    hide Recorded;
    hide S.Attempt;
    hide S.Commit;
    hide OverlayObject;
    hide S.PredictionFor;
    var result := ResultOf(w, w.jobs[i].job, content, slot.id, slot.latency);
    var t := S.WorkerWrite(result, slot.now);
    assert Step(w, Work(i, slot.ending, slot.id, slot.latency, slot.now)) == Record(w, i, t, slot.ending);
    hide Step;
    hide WorkStep;
    if Unused(w.db.predictions, slot.id) {
      assert FindId(w.db.predictions, slot.id) == |w.db.predictions|;
      WriteAccepted(w.db, result, slot.now);
    }
    if S.Attempt(w.db, t).Ok? {
      WriteRecords(w.db, w.jobs[i].job, content, w.config.modelVersion, result, slot.now);
    }
  }

  lemma FetchCall(w: World, i: nat, slot: Slot)
    requires Invariant(w) && At(w, i, Fetching)
    ensures w.jobs[i].job.key in w.documents
    ensures var w' := Step(w, Work(i, slot.ending, slot.id, slot.latency, slot.now));
            At(w', i, if slot.ending.Success? then Drawing(w.documents[w.jobs[i].job.key]) else Fetching)
  {
    assert JobGrounded(w, w.jobs[i].job);
    FetchStep(w, i, slot);
    hide Step;
  }

  lemma RecordCall(w: World, i: nat, content: Content, slot: Slot)
    requires Invariant(w) && At(w, i, Recording(content))
    ensures var w' := Step(w, Work(i, slot.ending, slot.id, slot.latency, slot.now));
            && i < |w'.jobs|
            && (w'.jobs[i].status.Finished? || At(w', i, Recording(content)))
            && (w'.jobs[i].status.Finished? ==> slot.ending.Success?)
            && (Unused(w.db.predictions, slot.id) && slot.ending.Success? ==> w'.jobs[i].status.Finished?)
            && (w'.jobs[i].status.Finished?
                ==> Recorded(w'.db, w.jobs[i].job, content, w.config.modelVersion, slot.latency))
  {
    assert JobGrounded(w, w.jobs[i].job);
    RecordStep(w, i, content, slot);
    hide Step;
  }

  // ---------------------------------------------------------------------------
  // One attempt
  // ---------------------------------------------------------------------------

  /** The bytes were the object under a key at some moment between two points of the trace. */
  ghost predicate StoredDuring(config: Config, from: seq<Event>, trace: seq<Event>, key: string, content: Content) {
    exists n: nat :: |from| <= n <= |trace| && HoldsBlob(Run(Start(config), trace[..n]), key, content)
  }

  predicate HoldsBlob(w: World, key: string, content: Content) {
    key in w.documents && w.documents[key] == content
  }

  /** What a call leaves of the situation of a job. */
  ghost predicate Kept(p: Plant, i: nat, w0: World, trace0: seq<Event>)
    reads p
  {
    && p.Valid() && Grows(w0, p.world) && trace0 <= p.trace
    && i < |w0.jobs| && i < |p.world.jobs| && p.world.jobs[i].job == w0.jobs[i].job
  }

  /** One remote call of the job: others run, then the call ends as the script says. */
  method Call(p: Plant, i: nat, ghost m: nat) returns (ending: Ending, ghost called: World)
    requires p.Valid() && i < |p.world.jobs| && p.world.jobs[i].status.Running?
    modifies p
    ensures Kept(p, i, old(p.world), old(p.trace))
    ensures called == Run(Start(p.config), p.trace[..|p.trace| - 1]) && |p.trace| > |old(p.trace)|
    ensures Grows(old(p.world), called) && Invariant(called)
    ensures called.config == old(p.world.config)
    ensures i < |called.jobs| && called.jobs[i] == old(p.world.jobs[i])
    ensures var slot := p.script(old(p.position));
            ending == slot.ending
            && p.world == Step(called, Work(i, slot.ending, slot.id, slot.latency, slot.now))
            && (old(p.position) < m && IdsNew(p.script, old(p.position), m, old(p.world))
                ==> Unused(called.db.predictions, slot.id) && IdsNew(p.script, p.position, m, p.world))
    ensures p.position == old(p.position) + 1
  {
    hide Step;
    hide Run;
    hide Invariant;
    hide IdsNew;
    hide Unused;
    hide TablesGrow;
    hide Interlude;
    ghost var w0 := p.world;
    var slot := p.Await(Worker(i));
    called := p.world;
    Always(p.config, p.trace);
    var e := Work(i, slot.ending, slot.id, slot.latency, slot.now);
    ghost var before := p.trace;
    p.Do(e);
    assert p.trace[..|p.trace| - 1] == before;
    StepGrows(called, e);
    UndisturbedTransitive(Worker(i), w0, called, p.world);
    if old(p.position) < m && IdsNew(p.script, old(p.position), m, w0) {
      CallIdsNew(p, i, old(p.position), m, w0, called, e);
    }
    ending := slot.ending;
  }

  method FetchBlob(p: Plant, i: nat, ghost m: nat) returns (ending: Ending, ghost content: Content)
    requires p.Valid() && At(p.world, i, Fetching)
    modifies p
    ensures Kept(p, i, old(p.world), old(p.trace)) && p.position == old(p.position) + 1
    ensures ending == p.script(old(p.position)).ending
    ensures old(p.position) < m && IdsNew(p.script, old(p.position), m, old(p.world))
            ==> IdsNew(p.script, p.position, m, p.world)
    ensures At(p.world, i, if ending.Success? then Drawing(content) else Fetching)
    ensures StoredDuring(p.config, old(p.trace), p.trace, p.world.jobs[i].job.key, content)
  {
    hide Step;
    hide Run;
    hide Invariant;
    hide IdsNew;
    hide Unused;
    hide Grows;
    hide Plant.Valid;
    ghost var called: World;
    ending, called := Call(p, i, m);
    FetchCall(called, i, p.script(old(p.position)));
    content := called.documents[called.jobs[i].job.key];
    assert HoldsBlob(called, called.jobs[i].job.key, content);
  }

  method DrawOverlay(p: Plant, i: nat, ghost m: nat, ghost content: Content) returns (ending: Ending)
    requires p.Valid() && At(p.world, i, Drawing(content))
    modifies p
    ensures Kept(p, i, old(p.world), old(p.trace)) && p.position == old(p.position) + 1
    ensures ending == p.script(old(p.position)).ending
    ensures old(p.position) < m && IdsNew(p.script, old(p.position), m, old(p.world))
            ==> IdsNew(p.script, p.position, m, p.world)
    ensures At(p.world, i, if ending.Success? then Recording(content) else Drawing(content))
    ensures ending.Success? ==> OverlayObject(p.world.jobs[i].job) in p.world.overlays
  {
    hide Step;
    hide Run;
    hide Invariant;
    hide IdsNew;
    hide Unused;
    hide Grows;
    hide OverlayObject;
    hide Plant.Valid;
    ghost var called: World;
    ending, called := Call(p, i, m);
    DrawStep(called, i, content, p.script(old(p.position)));
  }

  /** The transaction of `_record`; an error of the database other than a broken connection is final. */
  method RecordPrediction(p: Plant, i: nat, ghost m: nat, ghost content: Content) returns (end: End)
    requires p.Valid() && At(p.world, i, Recording(content))
    modifies p
    ensures Kept(p, i, old(p.world), old(p.trace)) && p.position == old(p.position) + 1
    ensures var ending := p.script(old(p.position)).ending;
            && (end.Completed? ==> ending.Success?)
            && (end.Transient? <==> ending.Failure? && ending.retryable)
            && (old(p.position) < m && IdsNew(p.script, old(p.position), m, old(p.world))
                ==> (end.Completed? <==> ending.Success?) && IdsNew(p.script, p.position, m, p.world))
    ensures if end.Completed? then p.world.jobs[i].status.Finished? else At(p.world, i, Recording(content))
    ensures end.Completed? ==> Recorded(p.world.db, p.world.jobs[i].job, content, p.world.config.modelVersion,
                                        p.script(old(p.position)).latency)
  {
    hide Step;
    hide Run;
    hide Invariant;
    hide IdsNew;
    hide Unused;
    hide Grows;
    hide Recorded;
    hide Plant.Valid;
    ghost var called: World;
    var ending;
    ending, called := Call(p, i, m);
    RecordCall(called, i, content, p.script(old(p.position)));
    SameConfig(old(p.world), called, p.world);
    end := if p.world.jobs[i].status.Finished? then Completed
           else if ending.Success? then Broken else EndOf(ending);
  }

  lemma SameConfig(a: World, b: World, c: World)
    requires b.config == a.config && Grows(a, c)
    ensures c.config == b.config
  {
  }

  lemma KeptOn(p: Plant, i: nat, a: World, traceA: seq<Event>, b: World, traceB: seq<Event>)
    requires Grows(a, b) && traceA <= traceB && i < |a.jobs| && i < |b.jobs| && b.jobs[i].job == a.jobs[i].job
    requires Kept(p, i, b, traceB)
    ensures Kept(p, i, a, traceA)
    ensures forall key :: key in b.overlays ==> key in p.world.overlays
  {
  }

  lemma StoredSince(
    config: Config, from: seq<Event>, trace: seq<Event>, trace': seq<Event>, key: string, content: Content)
    requires StoredDuring(config, from, trace, key, content) && trace <= trace'
    ensures StoredDuring(config, from, trace', key, content)
  {
    hide HoldsBlob;
    var n: nat :| |from| <= n <= |trace| && HoldsBlob(Run(Start(config), trace[..n]), key, content);
    assert trace'[..n] == trace[..n];
  }

  /**
   The job has delivered: the row of its document holds the prediction for bytes that were stored
   under the job's key meanwhile, with the latency of the last call, and the overlay is there.
   */
  ghost predicate Delivered(p: Plant, i: nat, from: seq<Event>)
    requires i < |p.world.jobs|
    reads p
  {
    var job := p.world.jobs[i].job;
    && p.position > 0 && OverlayObject(job) in p.world.overlays
    && exists content ::
         Recorded(p.world.db, job, content, p.world.config.modelVersion, p.script(p.position - 1).latency)
         && StoredDuring(p.config, from, p.trace, job.key, content)
  }

  lemma DeliveredSince(p: Plant, i: nat, from: seq<Event>, later: seq<Event>)
    requires i < |p.world.jobs| && Delivered(p, i, later) && from <= later
    ensures Delivered(p, i, from)
  {
    hide Recorded;
    var job := p.world.jobs[i].job;
    var content :| Recorded(p.world.db, job, content, p.world.config.modelVersion, p.script(p.position - 1).latency)
                   && StoredDuring(p.config, later, p.trace, job.key, content);
    assert StoredDuring(p.config, from, p.trace, job.key, content);
  }

  /**
   The body of the retry loop. It completes when its three calls succeed, unless the database refuses
   the row, which fresh ids exclude; else it stops at its first failing call, whose error decides.
   */
  method AttemptJob(p: Plant, i: nat, ghost m: nat) returns (end: End)
    requires p.Valid() && At(p.world, i, Fetching)
    modifies p
    ensures Kept(p, i, old(p.world), old(p.trace))
    ensures (CleanAttempt(p.script, old(p.position)) && p.position == old(p.position) + 3)
            || BrokenOff(p.script, old(p.position), p.position)
    ensures end.Completed? ==> p.script(p.position - 1).ending.Success?
    ensures end.Transient? <==> p.script(p.position - 1).ending.Failure? && p.script(p.position - 1).ending.retryable
    ensures old(p.position) + 3 <= m && IdsNew(p.script, old(p.position), m, old(p.world))
            ==> (end.Completed? <==> p.script(p.position - 1).ending.Success?)
                && IdsNew(p.script, p.position, m, p.world)
    ensures if end.Completed? then p.world.jobs[i].status.Finished? else p.world.jobs[i].status.Running?
    ensures end.Completed? ==> Delivered(p, i, old(p.trace))
  {
    hide Step;
    hide Run;
    hide IdsNew;
    hide Recorded;
    hide OverlayObject;
    hide Plant.Valid;
    hide TablesGrow;
    hide StoredDuring;
    hide Grows;
    hide CleanAttempt;
    hide BrokenOff;
    ghost var next := AttemptEnds(p.script, p.position);
    ghost var w0, trace0 := p.world, p.trace;
    var ending;
    ghost var content;
    ending, content := FetchBlob(p, i, m);
    if !ending.Success? {
      return EndOf(ending);
    }
    ghost var w1, trace1 := p.world, p.trace;
    ending := DrawOverlay(p, i, m, content);
    KeptOn(p, i, w0, trace0, w1, trace1);
    if !ending.Success? {
      return EndOf(ending);
    }
    ghost var w2, trace2 := p.world, p.trace;
    end := RecordPrediction(p, i, m, content);
    KeptOn(p, i, w0, trace0, w2, trace2);
    hide HoldsBlob;
    StoredSince(p.config, trace0, trace1, p.trace, w1.jobs[i].job.key, content);
  }

  /** Fetching starts again, or the job ends in the failed set. */
  lemma RunningStep(w: World, i: nat)
    requires i < |w.jobs| && w.jobs[i].status.Running?
    ensures Step(w, Retry(i)) == WithStatus(w, i, Running(Fetching)) && Step(w, Fail(i)) == WithStatus(w, i, Failed)
    ensures Grows(w, WithStatus(w, i, Running(Fetching))) && Grows(w, WithStatus(w, i, Failed))
  {
  }

  method Mark(p: Plant, i: nat, again: bool)
    requires p.Valid() && i < |p.world.jobs| && p.world.jobs[i].status.Running?
    modifies p
    ensures Kept(p, i, old(p.world), old(p.trace)) && p.position == old(p.position)
    ensures p.world.jobs[i].status == if again then Running(Fetching) else Failed
    ensures p.world.db == old(p.world).db
  {
    RunningStep(p.world, i);
    hide Step;
    hide Grows;
    hide Plant.Valid;
    if again {
      p.Do(Retry(i));
    } else {
      p.Do(Fail(i));
    }
  }

  // ---------------------------------------------------------------------------
  // The handler
  // ---------------------------------------------------------------------------

  lemma SameIds(script: nat -> Slot, n: nat, m: nat, w: World, w': World)
    requires w'.db == w.db
    ensures IdsNew(script, n, m, w) ==> IdsNew(script, n, m, w')
  {
  }

  /** How the last of the attempts so far ended, when the next call is the one at a position. */
  predicate EndedAs(script: nat -> Slot, start: nat, position: nat, end: End, isNew: bool) {
    match end
    case Completed => CleanAttempt(script, start) && position == start + 3
    case Transient => Retried(script, start, position)
    case Broken => Final(script, start, position) || (!isNew && CleanAttempt(script, start) && position == start + 3)
  }

  lemma EndsAs(script: nat -> Slot, start: nat, position: nat, end: End, isNew: bool)
    requires (CleanAttempt(script, start) && position == start + 3) || BrokenOff(script, start, position)
    requires end.Completed? ==> script(position - 1).ending.Success?
    requires end.Transient? <==> script(position - 1).ending.Failure? && script(position - 1).ending.retryable
    requires isNew ==> (end.Completed? <==> script(position - 1).ending.Success?)
    ensures EndedAs(script, start, position, end, isNew) && start < position <= start + 3
  {
  }

  lemma WeakerEnd(script: nat -> Slot, start: nat, position: nat, end: End)
    ensures EndedAs(script, start, position, end, true) ==> EndedAs(script, start, position, end, false)
  {
  }

  /** What the end of the last attempt means for the job. */
  lemma JobEnds(script: nat -> Slot, n: nat, starts: seq<nat>, position: nat, end: End, isNew: bool)
    requires Attempts(script, n, starts) && |starts| <= 3 && position > 0
    requires EndedAs(script, starts[|starts| - 1], position, end, isNew) && (end.Transient? ==> |starts| == 3)
    ensures end.Completed? ==> CleanAttempt(script, starts[|starts| - 1]) && position == starts[|starts| - 1] + 3
    ensures isNew ==>
              (end.Completed? <==> GetsThrough(script, n, 3))
              && (!end.Completed? ==> BrokenOff(script, starts[|starts| - 1], position)
                                      && (|starts| == 3 || !script(position - 1).ending.retryable))
  {
    if isNew && !end.Completed? {
      NoOtherWay(script, n, 3, starts, position);
    }
  }

  lemma AttemptsOn(script: nat -> Slot, n: nat, starts: seq<nat>, position: nat, isNew: bool)
    requires starts == [] ==> position == n
    requires starts != [] ==>
               Attempts(script, n, starts) && EndedAs(script, starts[|starts| - 1], position, Transient, isNew)
    ensures Attempts(script, n, starts + [position])
  {
    hide Retried;
  }

  /** Starting an attempt: the first one finds the job ready, later ones send it back to the start. */
  method StartAttempt(p: Plant, i: nat, first: bool)
    requires p.Valid() && i < |p.world.jobs|
    requires if first then At(p.world, i, Fetching) else p.world.jobs[i].status.Running?
    modifies p
    ensures Kept(p, i, old(p.world), old(p.trace)) && At(p.world, i, Fetching)
    ensures p.position == old(p.position) && p.world.db == old(p.world).db
  {
    UndisturbedTransitive(Worker(i), p.world, p.world, p.world);
    hide Grows;
    hide Plant.Valid;
    if !first {
      Mark(p, i, true);
    }
  }

  /** One round of the retry loop. */
  method NextAttempt(p: Plant, i: nat, ghost m: nat, first: bool) returns (end: End)
    requires p.Valid() && i < |p.world.jobs|
    requires if first then At(p.world, i, Fetching) else p.world.jobs[i].status.Running?
    modifies p
    ensures Kept(p, i, old(p.world), old(p.trace))
    ensures old(p.position) < p.position <= old(p.position) + 3
    ensures var isNew := IdsNew(p.script, old(p.position), m, old(p.world)) && old(p.position) + 3 <= m;
            EndedAs(p.script, old(p.position), p.position, end, isNew)
            && (isNew ==> IdsNew(p.script, p.position, m, p.world))
    ensures if end.Completed? then p.world.jobs[i].status.Finished? else p.world.jobs[i].status.Running?
    ensures end.Completed? ==> Delivered(p, i, old(p.trace))
  {
    hide *;
    ghost var w0, trace0, start := p.world, p.trace, p.position;
    StartAttempt(p, i, first);
    SameIds(p.script, start, m, w0, p.world);
    ghost var w1, trace1 := p.world, p.trace;
    KeptPrefix(p, i, w0, trace0);
    end := AttemptJob(p, i, m);
    EndsAs(p.script, start, p.position, end, IdsNew(p.script, start, m, w0) && start + 3 <= m);
    KeptOn(p, i, w0, trace0, w1, trace1);
    KeptPrefix(p, i, w0, trace0);
    if end.Completed? {
      DeliveredSince(p, i, trace0, trace1);
    }
  }

  lemma KeptPrefix(p: Plant, i: nat, w0: World, trace0: seq<Event>)
    requires Kept(p, i, w0, trace0)
    ensures p.Valid() && Grows(w0, p.world) && trace0 <= p.trace
    ensures i < |w0.jobs| && i < |p.world.jobs| && p.world.jobs[i].job == w0.jobs[i].job
  {
  }

  lemma KeptNow(p: Plant, i: nat)
    requires p.Valid() && i < |p.world.jobs|
    ensures Kept(p, i, p.world, p.trace)
  {
    UndisturbedTransitive(Worker(i), p.world, p.world, p.world);
  }

  /** The retry loop. */
  method RunAttempts(p: Plant, i: nat, ghost m: nat) returns (end: End, ghost starts: seq<nat>)
    requires p.Valid() && At(p.world, i, Fetching)
    modifies p
    ensures Kept(p, i, old(p.world), old(p.trace))
    ensures if end.Completed? then p.world.jobs[i].status.Finished? else p.world.jobs[i].status.Running?
    ensures end.Completed? ==> Delivered(p, i, old(p.trace))
    ensures |starts| <= 3 && (end.Transient? ==> |starts| == 3) && Attempts(p.script, old(p.position), starts)
    ensures var isNew := IdsNew(p.script, old(p.position), m, old(p.world)) && old(p.position) + 9 <= m;
            EndedAs(p.script, starts[|starts| - 1], p.position, end, isNew)
            && (isNew ==> IdsNew(p.script, p.position, m, p.world))
    ensures old(p.position) < p.position <= old(p.position) + 9
  {
    assert i < |p.world.jobs|;
    hide *;
    ghost var w0, trace0, n := p.world, p.trace, p.position;
    ghost var isNew := IdsNew(p.script, n, m, w0) && n + 9 <= m;
    KeptNow(p, i);
    starts := [];
    var attempt := 0;
    end := Transient;
    while attempt < 3 && end.Transient?
      invariant 0 <= attempt <= 3 && attempt == |starts| && (attempt == 0 ==> end.Transient?)
      invariant Kept(p, i, w0, trace0) && i < |p.world.jobs|
      invariant if attempt == 0 then At(p.world, i, Fetching)
                else if end.Completed? then p.world.jobs[i].status.Finished? else p.world.jobs[i].status.Running?
      invariant n + attempt <= p.position <= n + 3 * attempt
      invariant isNew ==> IdsNew(p.script, p.position, m, p.world)
      invariant attempt > 0 ==>
                  Attempts(p.script, n, starts) && EndedAs(p.script, starts[attempt - 1], p.position, end, isNew)
      invariant end.Completed? ==> Delivered(p, i, trace0)
    {
      KeptPrefix(p, i, w0, trace0);
      ghost var w1, trace1, start := p.world, p.trace, p.position;
      AttemptsOn(p.script, n, starts, start, isNew);
      end := NextAttempt(p, i, m, attempt == 0);
      WeakerEnd(p.script, start, p.position, end);
      KeptOn(p, i, w0, trace0, w1, trace1);
      if end.Completed? {
        DeliveredSince(p, i, trace0, trace1);
      }
      starts := starts + [start];
      attempt := attempt + 1;
    }
  }

  /**
   `classify_job`: attempts, at most three, each but the last broken off by an error that is tried
   again. The job is finished when the last attempt is clean, and in the failed set otherwise. With
   fresh ids for its at most nine calls (up to position m) it is finished exactly when one of three
   attempts can be clean, whatever ingest, other workers and requests do in between.
   */
  method ClassifyJob(p: Plant, i: nat, ghost m: nat) returns (ok: bool, ghost starts: seq<nat>)
    requires p.Valid() && At(p.world, i, Fetching)
    modifies p
    ensures Kept(p, i, old(p.world), old(p.trace))
    ensures p.world.jobs[i].status == if ok then Finished else Failed
    ensures ok ==> Delivered(p, i, old(p.trace))
    ensures |starts| <= 3 && Attempts(p.script, old(p.position), starts)
    ensures ok ==> CleanAttempt(p.script, starts[|starts| - 1]) && p.position == starts[|starts| - 1] + 3
    ensures IdsNew(p.script, old(p.position), m, old(p.world)) && old(p.position) + 9 <= m
            ==> IdsNew(p.script, p.position, m, p.world)
                && (ok <==> GetsThrough(p.script, old(p.position), 3))
                && (AtMostTwoFaults(p.script, old(p.position)) ==> ok)
                && (!ok ==> BrokenOff(p.script, starts[|starts| - 1], p.position)
                            && (|starts| == 3 || !p.script(p.position - 1).ending.retryable))
    ensures old(p.position) < p.position <= old(p.position) + 9
  {
    hide *;
    ghost var w0, trace0, n := p.world, p.trace, p.position;
    ghost var isNew := IdsNew(p.script, n, m, w0) && n + 9 <= m;
    var end;
    end, starts := RunAttempts(p, i, m);
    JobEnds(p.script, n, starts, p.position, end, isNew);
    ok := end.Completed?;
    if AtMostTwoFaults(p.script, n) {
      SurvivesTwoFaults(p.script, n);
    }
    if !ok {
      KeptPrefix(p, i, w0, trace0);
      ghost var w1, trace1 := p.world, p.trace;
      Mark(p, i, false);
      KeptOn(p, i, w0, trace0, w1, trace1);
      SameIds(p.script, p.position, m, w1, p.world);
    }
  }

  // ---------------------------------------------------------------------------
  // The queue
  // ---------------------------------------------------------------------------

  /** How a worker found a job at its turn, and where in the script the turn began. */
  datatype JobTurn = JobTurn(found: Status, start: nat)

  /** The job was finished already, or waiting and got through. */
  ghost predicate Served(script: nat -> Slot, turn: JobTurn) {
    turn.found.Finished? || (turn.found.Queued? && GetsThrough(script, turn.start, 3))
  }

  lemma TakeStep(w: World, i: nat)
    requires i < |w.jobs| && w.jobs[i].status.Queued?
    ensures At(Step(w, Take(i)), i, Fetching) && Step(w, Take(i)).jobs[i].job == w.jobs[i].job
    ensures Grows(w, Step(w, Take(i))) && Step(w, Take(i)).db == w.db
  {
    StepGrows(w, Take(i));
  }

  lemma FinishedIsPredicted(config: Config, es: seq<Event>, i: nat)
    requires var w := Run(Start(config), es); i < |w.jobs| && w.jobs[i].status.Finished?
    ensures var w := Run(Start(config), es); Predicted(w.db, w.jobs[i].job.batch, w.jobs[i].job.document)
  {
    Always(config, es);
    hide Run;
    hide Predicted;
    assert StatusGrounded(Run(Start(config), es), Run(Start(config), es).jobs[i]);
  }

  /** One turn: a waiting job is taken and run, any other is left alone. */
  method ServeJob(p: Plant, i: nat, ghost m: nat) returns (ghost turn: JobTurn)
    requires p.Valid() && i < |p.world.jobs|
    modifies p
    ensures p.Valid() && Grows(old(p.world), p.world)
    ensures turn == JobTurn(old(p.world).jobs[i].status, old(p.position))
    ensures old(p.position) <= p.position <= old(p.position) + 9
    ensures IdsNew(p.script, old(p.position), m, old(p.world)) && old(p.position) + 9 <= m
            ==> IdsNew(p.script, p.position, m, p.world)
                && (Served(p.script, turn)
                    ==> Predicted(p.world.db, old(p.world).jobs[i].job.batch, old(p.world).jobs[i].job.document))
  {
    hide Step;
    hide Run;
    hide IdsNew;
    hide Plant.Valid;
    hide Predicted;
    hide TablesGrow;
    hide GetsThrough;
    ghost var w0 := p.world;
    turn := JobTurn(w0.jobs[i].status, p.position);
    UndisturbedTransitive(Worker(i), w0, w0, w0);
    if p.world.jobs[i].status.Queued? {
      TakeStep(w0, i);
      p.Do(Take(i));
      ghost var w1 := p.world;
      SameIds(p.script, p.position, m, w0, w1);
      var ok, _ := ClassifyJob(p, i, m);
      UndisturbedTransitive(Worker(i), w0, w1, p.world);
      assert p.world.jobs[i].job == w0.jobs[i].job;
    }
    if p.world.jobs[i].status.Finished? {
      FinishedNow(p, i);
    }
    hide Grows;
  }

  lemma FinishedNow(p: Plant, i: nat)
    requires p.Valid() && i < |p.world.jobs| && p.world.jobs[i].status.Finished?
    ensures Predicted(p.world.db, p.world.jobs[i].job.batch, p.world.jobs[i].job.document)
  {
    hide Run;
    hide Predicted;
    ValidConfig(p);
    FinishedIsPredicted(p.config, p.trace, i);
  }

  lemma ValidConfig(p: Plant)
    requires p.Valid()
    ensures p.world == Run(Start(p.config), p.trace)
  {
  }

  /** How far a worker has come with the queue: what it has served stays predicted. */
  ghost predicate ServedTo(script: nat -> Slot, w0: World, db: Db, turns: seq<JobTurn>)
    requires |turns| <= |w0.jobs|
  {
    forall i :: 0 <= i < |turns| && Served(script, turns[i])
      ==> Predicted(db, w0.jobs[i].job.batch, w0.jobs[i].job.document)
  }

  lemma ServedOn(script: nat -> Slot, w0: World, w: World, w': World, turns: seq<JobTurn>, turn: JobTurn)
    requires |turns| < |w0.jobs| && Grows(w0, w) && Grows(w, w') && ServedTo(script, w0, w.db, turns)
    requires var job := w0.jobs[|turns|].job;
             Served(script, turn) ==> Predicted(w'.db, job.batch, job.document)
    ensures ServedTo(script, w0, w'.db, turns + [turn])
  {
    hide Served;
    hide TablesGrow;
    hide Predicted;
    hide JobsGrow;
    var turns' := turns + [turn];
    forall i | 0 <= i < |turns'| && Served(script, turns'[i])
      ensures Predicted(w'.db, w0.jobs[i].job.batch, w0.jobs[i].job.document)
    {
      if i < |turns| {
        assert turns'[i] == turns[i];
        PredictedStays(w.db, w'.db, w0.jobs[i].job.batch, w0.jobs[i].job.document);
      }
    }
  }

  /**
   A worker goes once through the queue. With fresh ids every job that it finds finished, or finds
   waiting and gets through, has its prediction in the table at the end, whatever others do meanwhile.
   */
  method ServeQueue(p: Plant, ghost m: nat) returns (ghost turns: seq<JobTurn>)
    requires p.Valid()
    modifies p
    ensures p.Valid() && Grows(old(p.world), p.world)
    ensures |turns| == |old(p.world).jobs|
    ensures IdsNew(p.script, old(p.position), m, old(p.world))
            && old(p.position) + 9 * |old(p.world).jobs| <= m
            ==> ServedTo(p.script, old(p.world), p.world.db, turns)
  {
    hide Step;
    hide Run;
    hide IdsNew;
    hide Plant.Valid;
    hide Predicted;
    hide TablesGrow;
    hide Served;
    ghost var w0, from := p.world, p.position;
    ghost var isNew := IdsNew(p.script, from, m, w0) && from + 9 * |w0.jobs| <= m;
    UndisturbedTransitive(Ingestion, w0, w0, w0);
    turns := [];
    var n := |p.world.jobs|;
    for i := 0 to n
      invariant p.Valid() && Grows(w0, p.world) && |turns| == i && n == |w0.jobs|
      invariant p.position <= from + 9 * i
      invariant isNew ==> IdsNew(p.script, p.position, m, p.world) && ServedTo(p.script, w0, p.world.db, turns)
    {
      ghost var w := p.world;
      ghost var turn := ServeJob(p, i, m);
      if isNew {
        ServedOn(p.script, w0, w, p.world, turns, turn);
      }
      UndisturbedTransitive(Ingestion, w0, w, p.world);
      turns := turns + [turn];
    }
  }
}
