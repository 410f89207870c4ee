/**
 The running system as an object: the state of the pipeline, and a script that fixes, call by call,
 what other processes do meanwhile and how each remote call ends. The two long-running processes,
 ingest and worker, are methods over it; every change goes through a step of the protocol, so a run
 of them is a run of the protocol, whatever the script.
 */
module Processes {
  import opened Prelude
  import opened Paths
  import opened Database
  import opened Protocol
  import opened PipelineSafety
  import S = Services
  import T = Tables

  /** What happens while one remote call is made, and how the call ends. */
  datatype Slot = Slot(others: seq<Event>, ending: Ending, id: Id, latency: real, now: nat)

  /** The process that makes the calls. */
  datatype Process = Ingestion | Worker(job: nat)

  /** Events of everybody else. */
  predicate Foreign(p: Process, e: Event) {
    match p
    case Ingestion => !e.Fetch? && !e.Call? && !e.GiveUp?
    case Worker(i) => !((e.Take? || e.Work? || e.Retry? || e.Fail? || e.Requeue?) && e.job == i)
  }

  /** Each event belongs to one process at most, and what is nobody's is foreign to all. */
  lemma ForeignToAllButOne(p: Process, q: Process, e: Event)
    requires p != q
    ensures Foreign(p, e) || Foreign(q, e)
    ensures e.Drop? || e.Serve? || e.Duplicate? ==> Foreign(p, e) && Foreign(q, e)
  {
  }

  // ---------------------------------------------------------------------------
  // What others leave alone
  // ---------------------------------------------------------------------------

  /** Files stay where they are; only the vendor may have added some. */
  predicate FilesUndisturbed(files: map<Location, File>, files': map<Location, File>) {
    && (forall place :: place in files ==> place in files' && files'[place] == files[place])
    && (forall place :: place in files' && place !in files ==> place.Incoming?)
  }

  /** What the ingest process finds unchanged after others have run. */
  predicate IngestUndisturbed(w: World, w': World) {
    && w'.config == w.config && w'.ingest == w.ingest
    && w'.db.documents == w.db.documents
    && FilesUndisturbed(w.files, w'.files)
  }

  /** What a worker finds unchanged after others have run. */
  predicate JobUndisturbed(i: nat, w: World, w': World) {
    && w'.config == w.config
    && (i < |w.jobs| ==> i < |w'.jobs| && w'.jobs[i] == w.jobs[i])
  }

  predicate Undisturbed(p: Process, w: World, w': World) {
    match p
    case Ingestion => IngestUndisturbed(w, w')
    case Worker(i) => JobUndisturbed(i, w, w')
  }

  lemma DocumentsUntouched(db: Db, t: S.Transaction)
    requires !t.IngestRow?
    ensures S.Commit(db, t).documents == db.documents
  {
    match t
    case WorkerWrite(_, _) =>
    case Http(r) =>
      T.HttpKeepsRows(db, r);
      hide S.Commit;
  }

  lemma WorkLeavesIngest(w: World, i: nat, ending: Ending, id: Id, latency: real, now: nat)
    requires i < |w.jobs| && w.jobs[i].status.Running?
    ensures var w' := WorkStep(w, i, ending, id, latency, now);
            w'.config == w.config && w'.files == w.files && w'.ingest == w.ingest
    ensures forall j :: 0 <= j < |w.jobs| && j != i ==>
              j < |WorkStep(w, i, ending, id, latency, now).jobs|
              && WorkStep(w, i, ending, id, latency, now).jobs[j] == w.jobs[j]
  {
    hide S.Attempt;
    hide S.Commit;
    hide OverlayObject;
    hide ResultOf;
  }

  lemma ForeignToIngest(w: World, e: Event)
    requires Foreign(Ingestion, e)
    ensures IngestUndisturbed(w, Step(w, e))
  {
    CommittedIs(w, e);
    if Committed(w, e).Some? {
      DocumentsUntouched(w.db, Committed(w, e).value);
    }
    assert Step(w, e).db.documents == w.db.documents;
    hide S.Commit;
    hide Committed;
    if e.Work? && e.job < |w.jobs| && w.jobs[e.job].status.Running? {
      WorkLeavesIngest(w, e.job, e.ending, e.id, e.latency, e.now);
    }
    hide WorkStep;
  }

  lemma CallLeavesJobs(w: World, ending: Ending, i: nat)
    requires i < |w.jobs|
    ensures i < |IngestStep(w, ending).jobs| && IngestStep(w, ending).jobs[i] == w.jobs[i]
    ensures IngestStep(w, ending).config == w.config
  {
    hide S.Attempt;
    hide S.Commit;
    hide Basename;
    hide Rename;
    hide CanRename;
  }

  lemma ForeignToWorker(i: nat, w: World, e: Event)
    requires Foreign(Worker(i), e)
    ensures JobUndisturbed(i, w, Step(w, e))
  {
    StepGrows(w, e);
    hide TablesGrow;
    if i < |w.jobs| {
      if e.Work? && e.job < |w.jobs| && w.jobs[e.job].status.Running? {
        WorkLeavesIngest(w, e.job, e.ending, e.id, e.latency, e.now);
      } else if e.Call? {
        CallLeavesJobs(w, e.ending, i);
      }
    }
    hide S.Commit;
    hide AfterFetch;
    hide WorkStep;
    hide IngestStep;
  }

  lemma ForeignStep(p: Process, w: World, e: Event)
    requires Foreign(p, e)
    ensures Undisturbed(p, w, Step(w, e))
  {
    match p
    case Ingestion => ForeignToIngest(w, e);
    case Worker(i) => ForeignToWorker(i, w, e);
  }

  /** The others' turn: their events, and none that only the process itself can cause. */
  function Interlude(p: Process, w: World, es: seq<Event>): World {
    if es == [] then w
    else
      var before, e := Interlude(p, w, es[..|es| - 1]), es[|es| - 1];
      if Foreign(p, e) then Step(before, e) else before
  }

  lemma InterludeOn(p: Process, w: World, es: seq<Event>, k: nat)
    requires k < |es|
    ensures Interlude(p, w, es[..0]) == w
    ensures Interlude(p, w, es[..k + 1])
            == if Foreign(p, es[k]) then Step(Interlude(p, w, es[..k]), es[k]) else Interlude(p, w, es[..k])
  {
    hide Step;
    hide Foreign;
    assert es[..k + 1][..k] == es[..k];
  }

  lemma UndisturbedTransitive(p: Process, a: World, b: World, c: World)
    ensures Undisturbed(p, a, a) && Grows(a, a)
    ensures Undisturbed(p, a, b) && Undisturbed(p, b, c) ==> Undisturbed(p, a, c)
    ensures Grows(a, b) && Grows(b, c) ==> Grows(a, c)
  {
  }

  // ---------------------------------------------------------------------------
  // The object
  // ---------------------------------------------------------------------------

  class Plant {
    var world: World
    var position: nat
    const config: Config
    const script: nat -> Slot
    /** Every event so far. */
    ghost var trace: seq<Event>

    /** The state is one that the protocol reaches. */
    ghost predicate Valid()
      reads this
    {
      world == Run(Start(config), trace)
    }

    constructor (config: Config, script: nat -> Slot)
      ensures Valid() && world == Start(config) && position == 0
      ensures this.config == config && this.script == script
    {
      this.config := config;
      this.script := script;
      world := Start(config);
      position := 0;
      trace := [];
    }

    method Do(e: Event)
      requires Valid()
      modifies this`world, this`trace
      ensures Valid() && world == Step(old(world), e)
      ensures trace == old(trace) + [e]
    {
      world := Step(world, e);
      trace := trace + [e];
      assert trace[..|trace| - 1] == old(trace);
    }

    /** Let the others run until the next remote call of the process comes back. */
    method Await(p: Process) returns (slot: Slot)
      requires Valid()
      modifies this
      ensures Valid() && Undisturbed(p, old(world), world) && Grows(old(world), world)
      ensures world == Interlude(p, old(world), slot.others) && old(trace) <= trace
      ensures slot == script(old(position)) && position == old(position) + 1
    {
      slot := script(position);
      position := position + 1;
      UndisturbedTransitive(p, world, world, world);
      assert Interlude(p, world, []) == world && slot.others[..0] == [];
      hide *;
      var k := 0;
      while k < |slot.others|
        invariant 0 <= k <= |slot.others|
        invariant Valid() && Undisturbed(p, old(world), world) && Grows(old(world), world)
        invariant position == old(position) + 1 && old(trace) <= trace
        invariant world == Interlude(p, old(world), slot.others[..k])
      {
        var e := slot.others[k];
        InterludeOn(p, old(world), slot.others, k);
        if Foreign(p, e) {
          ghost var before := world;
          Do(e);
          ForeignStep(p, before, e);
          StepGrows(before, e);
          UndisturbedTransitive(p, old(world), before, world);
        }
        k := k + 1;
      }
      assert slot.others[..k] == slot.others;
    }
  }
}
