/**
 Files are never lost, copied or changed by the pipeline, and stored blobs hold the bytes of files.
 */
module FileConservation {
  import opened Prelude
  import opened Paths
  import opened Protocol
  import opened PipelineSafety
  import D = Database
  import S = Services

  // ---------------------------------------------------------------------------
  // Every file lies in exactly one place
  // ---------------------------------------------------------------------------

  lemma RenameConserves(files: map<Location, File>, dropped: nat, from: Location, to: Location)
    requires Conserved(files, dropped)
    ensures Conserved(Rename(files, from, to), dropped)
  {
    var files' := Rename(files, from, to);
    if CanRename(files, from, to) {
      forall n: nat | n < dropped
        ensures Lies(files', n)
      {
        assert Lies(files, n);
        var place :| place in files && files[place].serial == n;
        if place == from {
          assert files'[to].serial == n;
        } else {
          assert files'[place].serial == n;
        }
      }
    }
  }

  lemma DropConserves(files: map<Location, File>, dropped: nat, path: string, content: Content)
    requires Conserved(files, dropped) && Incoming(path) !in files
    ensures Conserved(files[Incoming(path) := File(dropped, path, content)], dropped + 1)
  {
    var files' := files[Incoming(path) := File(dropped, path, content)];
    forall n: nat | n < dropped + 1
      ensures Lies(files', n)
    {
      if n == dropped {
        assert files'[Incoming(path)].serial == n;
      } else {
        assert Lies(files, n);
        var place :| place in files && files[place].serial == n;
        assert files'[place].serial == n;
      }
    }
  }

  /** How a step changes the server: not at all, by one drop, or by one rename into a target folder. */
  ghost predicate FilesMove(w: World, e: Event) {
    var w' := Step(w, e);
    || (w'.files == w.files && w'.dropped == w.dropped)
    || (e.Drop? && Incoming(e.path) !in w.files && w'.dropped == w.dropped + 1
        && w'.files == w.files[Incoming(e.path) := File(w.dropped, e.path, e.content)])
    || (w'.dropped == w.dropped
        && exists path: string, to: Location :: !to.Incoming? && w'.files == Rename(w.files, Incoming(path), to))
  }

  lemma MoveMovesFile(w: World, ending: Ending, path: string, to: Location)
    ensures var w' := MoveTo(w, Incoming(path), to, ending);
            w'.dropped == w.dropped
            && (w'.files == w.files || w'.files == Rename(w.files, Incoming(path), to))
  {
  }

  lemma StepMovesFiles(w: World, e: Event)
    ensures FilesMove(w, e)
  {
    hide S.Attempt;
    hide S.Commit;
    hide AfterFetch;
    hide OverlayObject;
    hide ResultOf;
    hide RowTransaction;
    if e.Call? {
      match w.ingest
      case ToMove(doc) =>
        var to := Processed(Basename(doc.path));
        assert Step(w, e) == MoveTo(w, Incoming(doc.path), to, e.ending);
        MoveMovesFile(w, e.ending, doc.path, to);
        assert !to.Incoming?;
      case ToQuarantine(path) =>
        var to := Quarantine(Basename(path));
        assert Step(w, e) == MoveTo(w, Incoming(path), to, e.ending);
        MoveMovesFile(w, e.ending, path, to);
        assert !to.Incoming?;
      case _ =>
    } else if e.Work? && e.job < |w.jobs| && w.jobs[e.job].status.Running? {
      WorkLeavesFiles(w, e.job, e.ending, e.id, e.latency, e.now);
      hide WorkStep;
    }
  }

  lemma WorkLeavesFiles(w: World, i: nat, ending: Ending, id: D.Id, latency: real, now: nat)
    requires i < |w.jobs| && w.jobs[i].status.Running?
    ensures var w' := WorkStep(w, i, ending, id, latency, now);
            w'.files == w.files && w'.dropped == w.dropped && w'.documents == w.documents
  {
    hide S.Attempt;
    hide S.Commit;
    hide OverlayObject;
    hide ResultOf;
  }

  /** Every file ever dropped lies in exactly one place, in every reachable state. */
  lemma {:induction false} FilesConserved(config: Config, es: seq<Event>)
    ensures var w := Run(Start(config), es); Conserved(w.files, w.dropped)
  {
    hide Step;
    if es != [] {
      var w, e := Run(Start(config), es[..|es| - 1]), es[|es| - 1];
      FilesConserved(config, es[..|es| - 1]);
      StepMovesFiles(w, e);
      hide Conserved;
      var w' := Step(w, e);
      if e.Drop? && Incoming(e.path) !in w.files
         && w'.files == w.files[Incoming(e.path) := File(w.dropped, e.path, e.content)]
         && w'.dropped == w.dropped + 1 {
        DropConserves(w.files, w.dropped, e.path, e.content);
      } else if w'.files != w.files {
        var path: string, to: Location :| !to.Incoming? && w'.files == Rename(w.files, Incoming(path), to);
        RenameConserves(w.files, w.dropped, Incoming(path), to);
      }
    }
  }

  /** The same file in a later state: it stays where it is or goes from the drop folder to a target. */
  predicate StillThere(files: map<Location, File>, place: Location, files': map<Location, File>)
    requires place in files
  {
    exists place' :: place' in files' && files'[place'] == files[place]
                     && (place' == place || (place.Incoming? && !place'.Incoming?))
  }

  /** Along every run each file keeps its serial, its path and its bytes, and never leaves a target folder. */
  lemma {:induction false} FilesNeverLost(w: World, es: seq<Event>, place: Location)
    requires place in w.files
    ensures StillThere(w.files, place, Run(w, es).files)
  {
    hide Step;
    if es != [] {
      var before, e := Run(w, es[..|es| - 1]), es[|es| - 1];
      FilesNeverLost(w, es[..|es| - 1], place);
      var mid :| mid in before.files && before.files[mid] == w.files[place]
                 && (mid == place || (place.Incoming? && !mid.Incoming?));
      StepMovesFiles(before, e);
      var after := Step(before, e);
      if after.files == before.files {
        assert mid in after.files;
      } else if e.Drop? && Incoming(e.path) !in before.files
                && after.files == before.files[Incoming(e.path) := File(before.dropped, e.path, e.content)] {
        assert mid in after.files && after.files[mid] == w.files[place];
      } else {
        var path: string, to: Location :| !to.Incoming? && after.files == Rename(before.files, Incoming(path), to);
        var now := if mid == Incoming(path) then to else mid;
        assert now in after.files && after.files[now] == w.files[place];
      }
    }
  }

  // ---------------------------------------------------------------------------
  // Blobs hold the bytes of files
  // ---------------------------------------------------------------------------

  /** The file was accepted under the key and has these bytes. */
  predicate SourceOf(w: World, place: Location, key: string, content: Content) {
    && place in w.files && w.files[place].content == content
    && var v := Validate(w.files[place].path, content, w.config.maxBytes);
       v.Accepted? && v.doc.key == key
  }

  ghost predicate BlobsHonest(w: World) {
    forall key :: key in w.documents ==> exists place :: SourceOf(w, place, key, w.documents[key])
  }

  lemma SourceStays(w: World, e: Event, place: Location, key: string, content: Content)
    requires SourceOf(w, place, key, content)
    ensures exists place' :: SourceOf(Step(w, e), place', key, content)
  {
    hide Validate;
    var w' := Step(w, e);
    StepGrows(w, e);
    hide Step;
    assert [e][..0] == [];
    assert Run(w, [e]) == Step(Run(w, [e][..0]), e);
    FilesNeverLost(w, [e], place);
    hide Run;
    var place' :| place' in w'.files && w'.files[place'] == w.files[place]
                  && (place' == place || (place.Incoming? && !place'.Incoming?));
    assert SourceOf(w', place', key, content);
  }

  /** Only an upload changes the documents bucket. */
  lemma StepUploads(w: World, e: Event)
    ensures Step(w, e).documents
            == if e.Call? && w.ingest.ToUpload? && TakesEffect(e.ending)
               then w.documents[w.ingest.doc.key := w.ingest.doc.content] else w.documents
  {
    hide S.Attempt;
    hide S.Commit;
    hide AfterFetch;
    hide Rename;
    hide CanRename;
    hide OverlayObject;
    hide ResultOf;
    hide RowTransaction;
    hide Basename;
    if e.Work? && e.job < |w.jobs| && w.jobs[e.job].status.Running? {
      WorkLeavesFiles(w, e.job, e.ending, e.id, e.latency, e.now);
      hide WorkStep;
    }
  }

  lemma {:induction false} BlobsAlwaysHonest(config: Config, es: seq<Event>)
    ensures BlobsHonest(Run(Start(config), es))
  {
    hide Step;
    if es != [] {
      var w, e := Run(Start(config), es[..|es| - 1]), es[|es| - 1];
      var w' := Run(Start(config), es);
      BlobsAlwaysHonest(config, es[..|es| - 1]);
      Always(config, es[..|es| - 1]);
      StepUploads(w, e);
      hide Run;
      forall key | key in w'.documents
        ensures exists place :: SourceOf(w', place, key, w'.documents[key])
      {
        if key in w.documents && w'.documents[key] == w.documents[key] {
          var place :| SourceOf(w, place, key, w.documents[key]);
          SourceStays(w, e, place, key, w.documents[key]);
        } else {
          var doc := w.ingest.doc;
          assert Chosen(w, doc);
          assert SourceOf(w, Incoming(doc.path), key, doc.content);
          SourceStays(w, e, Incoming(doc.path), key, doc.content);
        }
      }
    }
  }
}
