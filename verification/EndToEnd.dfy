/**
 From the drop folder to the prediction table: a poll of the ingest process followed by a worker's
 way through the queue, with everybody else active in between.
 */
module EndToEnd {
  import opened Prelude
  import opened Paths
  import opened Database
  import opened Protocol
  import opened PipelineSafety
  import opened Processes
  import opened Provenance
  import I = Ingest
  import W = Workers
  import Uuid

  /**
   The document has arrived: its prediction is in the table, was made from a file with its ids, and
   the API finds its own overlay.
   */
  ghost predicate Arrived(w: World, doc: IngestedDocument) {
    && Predicted(w.db, doc.batch, doc.document)
    && var i := FindKey(w.db.predictions, Uuid.Parse(doc.batch).value, Uuid.Parse(doc.document).value);
       var row := w.db.predictions[i];
       HasOrigin(w, row) && OverlayIsOwn(w, row)
  }

  ghost predicate SomeJobServed(script: nat -> Slot, polled: World, doc: IngestedDocument, turns: seq<W.JobTurn>)
    requires |turns| == |polled.jobs|
  {
    exists i :: 0 <= i < |turns| && polled.jobs[i].job == JobFor(doc) && W.Served(script, turns[i])
  }

  /**
   What becomes of a listed file: a valid one not refused for its batch has a job, and once that is
   served it has arrived.
   */
  ghost predicate Outcome(script: nat -> Slot, path: string, f: File, polled: World, turns: seq<W.JobTurn>, w: World)
    requires |turns| == |polled.jobs|
  {
    var v := Validate(path, f.content, polled.config.maxBytes);
    v.Accepted? && !I.Stuck(polled, path, f) ==>
      HasJob(polled, v.doc) && (SomeJobServed(script, polled, v.doc, turns) ==> Arrived(w, v.doc))
  }

  // ---------------------------------------------------------------------------
  // After the poll
  // ---------------------------------------------------------------------------

  lemma WaitingPath(config: Config, es: seq<Event>, path: string)
    requires Incoming(path) in Run(Start(config), es).files
    ensures Run(Start(config), es).files[Incoming(path)].path == path
  {
    Always(config, es);
    hide Run;
    hide Validate;
    hide Secured;
    assert Placed(Run(Start(config), es), Incoming(path));
  }

  /** A settled file that is valid and not refused has its job in the queue. */
  lemma SettledHasJob(config: Config, es: seq<Event>, path: string, f: File)
    requires var w := Run(Start(config), es);
             I.Settled(w, path, f) && !I.Stuck(w, path, f) && f.path == path
             && Validate(path, f.content, w.config.maxBytes).Accepted?
    ensures var w := Run(Start(config), es); HasJob(w, Validate(path, f.content, w.config.maxBytes).doc)
  {
    ConfigStays(config, es);
    hide Validate;
    hide Basename;
    hide Uuid.Parse;
    hide Run;
    NoDocumentLost(config, es, Basename(path));
    hide I.Refused;
    var w := Run(Start(config), es);
    var doc := Validate(path, f.content, config.maxBytes).doc;
    var i :| 0 <= i < |w.jobs| && w.jobs[i].job == JobFor(doc);
  }

  // ---------------------------------------------------------------------------
  // After the worker
  // ---------------------------------------------------------------------------

  lemma PredictedHasArrived(config: Config, es: seq<Event>, doc: IngestedDocument)
    requires Predicted(Run(Start(config), es).db, doc.batch, doc.document)
    ensures Arrived(Run(Start(config), es), doc)
  {
    hide Uuid.Parse;
    var rows := Run(Start(config), es).db.predictions;
    var i := FindKey(rows, Uuid.Parse(doc.batch).value, Uuid.Parse(doc.document).value);
    PredictionsFromFiles(config, es, i);
    PredictionsHaveTheirOverlay(config, es, i);
    hide Run;
    hide HasOrigin;
    hide OverlayIsOwn;
  }

  lemma OutcomeHolds(
    config: Config, es: seq<Event>, es': seq<Event>, script: nat -> Slot, path: string, f: File,
    turns: seq<W.JobTurn>)
    requires var polled := Run(Start(config), es);
             |turns| == |polled.jobs| && W.ServedTo(script, polled, Run(Start(config), es').db, turns)
             && I.Settled(polled, path, f) && f.path == path
    ensures Outcome(script, path, f, Run(Start(config), es), turns, Run(Start(config), es'))
  {
    hide Validate;
    hide W.Served;
    hide Predicted;
    hide Arrived;
    hide I.Settled;
    hide I.Stuck;
    hide Run;
    var polled, w := Run(Start(config), es), Run(Start(config), es');
    var v := Validate(path, f.content, polled.config.maxBytes);
    if v.Accepted? && !I.Stuck(polled, path, f) {
      SettledHasJob(config, es, path, f);
      hide HasJob;
      if SomeJobServed(script, polled, v.doc, turns) {
        var i :| 0 <= i < |turns| && polled.jobs[i].job == JobFor(v.doc) && W.Served(script, turns[i]);
        assert Predicted(w.db, polled.jobs[i].job.batch, polled.jobs[i].job.document);
        PredictedHasArrived(config, es', v.doc);
      }
    }
  }

  // ---------------------------------------------------------------------------
  // The way through
  // ---------------------------------------------------------------------------

  /**
   Poll, then serve the queue. For each listed file whose own turn meets no fault: when it is valid and
   not refused for its batch, it has a job; and when that job is found finished, or is found waiting and
   the endings of its own calls let it through, the file's prediction and overlay are there at the end,
   whatever becomes of the other files and jobs and whatever the other processes do.
   */
  method DeliverAll(p: Plant, listing: seq<string>, ghost m: nat)
    returns (ghost starts: seq<nat>, ghost turns: seq<W.JobTurn>, ghost polled: World)
    requires p.Valid() && p.world.ingest.Idle?
    modifies p
    ensures p.Valid() && |starts| == |listing| + 1 && |turns| == |polled.jobs|
    ensures I.Drainable(old(p.world), listing)
            && W.IdsNew(p.script, starts[|listing|], m, polled)
            && starts[|listing|] + 9 * |polled.jobs| <= m
            ==> forall k :: 0 <= k < |listing| && I.FaultFree(p.script, starts[k], starts[k + 1]) ==>
                  Outcome(p.script, listing[k], old(p.world).files[Incoming(listing[k])], polled, turns, p.world)
  {
    ghost var w0, trace0 := p.world, p.trace;
    starts := I.PollOnce(p, listing);
    polled := p.world;
    ghost var trace1 := p.trace;
    turns := W.ServeQueue(p, m);
    hide Run;
    hide Outcome;
    hide W.IdsNew;
    hide W.ServedTo;
    hide I.FaultFree;
    hide I.Settled;
    hide I.TargetsFree;
    hide Basename;
    hide Grows;
    if I.Drainable(w0, listing) && W.IdsNew(p.script, starts[|listing|], m, polled)
       && starts[|listing|] + 9 * |polled.jobs| <= m {
      forall k | 0 <= k < |listing| && I.FaultFree(p.script, starts[k], starts[k + 1])
        ensures Outcome(p.script, listing[k], w0.files[Incoming(listing[k])], polled, turns, p.world)
      {
        WaitingPath(p.config, trace0, listing[k]);
        OutcomeHolds(p.config, trace1, p.trace, p.script, listing[k], w0.files[Incoming(listing[k])], turns);
      }
    }
  }
}
