/** A run in which the uploader completes a recording of which no call was ever stored. */
module EndToEndExamples {
  import opened Basics
  import opened EndToEnd
  import Spool
  import SpoolOrigins
  import Server = Ingestion
  import Uploads = EndToEndUploads
  import Examples = IngestionExamples

  const ORIGIN := Start(Examples.CFG, 0)
  const QUEUED := Spool.QueueCall("file.mp3", "f", Spool.Recording(Examples.REQUEST, [7], "mp3"), 0, 0, 0)
  const MANIFEST := Spool.NewManifest(QUEUED)

  predicate Reached(w: World, steps: seq<Step>) {
    Possible(ORIGIN, steps) && InTime(ORIGIN, steps) && Run(ORIGIN, steps) == w
  }

  lemma Go(w: World, steps: seq<Step>, step: Step)
    requires Reached(w, steps) && Enabled(w, step) && Timely(w, step)
    ensures Reached(Apply(w, step), steps + [step])
  {
    hide Enabled, Apply, Timely;
    OneMore(ORIGIN, steps, step);
  }

  lemma {:induction false} OneMore(from: World, steps: seq<Step>, step: Step)
    requires Possible(from, steps) && InTime(from, steps)
    requires Enabled(Run(from, steps), step) && Timely(Run(from, steps), step)
    ensures Possible(from, steps + [step]) && InTime(from, steps + [step])
    ensures Run(from, steps + [step]) == Apply(Run(from, steps), step)
    decreases |steps|
  {
    hide Enabled, Apply, Timely;
    if steps == [] {
      assert [step][1..] == [];
    } else {
      assert (steps + [step])[1..] == steps[1..] + [step];
      OneMore(Apply(from, steps[0]), steps[1..], step);
    }
  }

  /** A server run in time happens in the larger run as well. */
  lemma {:induction false} GoServer(w: World, steps: seq<Step>, server: seq<Server.Step>) returns (steps': seq<Step>)
    requires Reached(w, steps) && Server.Possible(w.server, server) && Server.InTime(w.server, server)
    ensures Reached(w.(server := Server.Run(w.server, server)), steps')
    decreases |server|
  {
    hide Reached, Server.Enabled, Server.Next, Server.Timely;
    steps' := steps;
    if server != [] {
      var step := ServerStep(server[0]);
      assert Timely(w, step);
      Go(w, steps, step);
      steps' := GoServer(Apply(w, step), steps + [step], server[1..]);
      assert Apply(w, step) == w.(server := Server.Next(w.server, server[0]));
    }
  }

  lemma Queued() returns (w: World, steps: seq<Step>)
    ensures Reached(w, steps) && w.server == Server.Start(Examples.CFG, 0) && w.completed == [] && w.phases == map[]
    ensures w.spool.s.memory.Some? && w.spool.held == map[] && w.spool.s.disk.ledger == []
    ensures w.spool.s.memory.value.items == map[MANIFEST.id := Spool.Item(MANIFEST, Spool.Named(MANIFEST.id))]
    ensures w.spool.s.memory.value.inFlight == {}
  {
    w, steps := ORIGIN, [];
    assert Reached(w, steps);
    hide Reached;
    var step := SpoolStep(Spool.Open(Spool.Plain));
    Go(w, steps, step);
    w, steps := Apply(w, step), steps + [step];
    SpoolOrigins.OpensEmpty();
    step := SpoolStep(Spool.Queue(QUEUED, Spool.Queued));
    Go(w, steps, step);
    w, steps := Apply(w, step), steps + [step];
  }

  lemma Claimed() returns (w: World, steps: seq<Step>)
    ensures Reached(w, steps) && w.server == Server.Start(Examples.CFG, 0) && w.completed == []
    ensures w.phases == map[0 := Asking(Examples.REQUEST)] && Holds(w.spool, 0) && Held(w.spool, 0) == MANIFEST
    ensures w.spool.s.disk.ledger == []
  {
    hide Reached;
    w, steps := Queued();
    var step := WorkerClaims(0, 0, MANIFEST.id, "S");
    assert Spool.FirstDue(w.spool.s.memory.value, 0, MANIFEST.id);
    Go(w, steps, step);
    w, steps := Apply(w, step), steps + [step];
  }

  lemma Finished(w: World, w': World)
    requires Holds(w.spool, 0) && Held(w.spool, 0).fingerprint == "f" && w.spool.s.disk.ledger == []
    requires w.completed == []
    requires w.phases == map[0 := Confirmed(Examples.REQUEST)] && 0 in w.spool.held
    requires Spool.Enabled(w.spool, Spool.Complete(0, Spool.Completed))
    requires w' == Apply(w, WorkerCompletes(0, Spool.Completed))
    ensures w'.completed == [Entry("f", Examples.REQUEST)] && w'.server == w.server
    ensures "f" in Ledger(w'.spool)
  {
    assert w'.spool.s.disk.ledger == [Spool.Record("f")];
  }

  predicate Confirms(w: World, phase: Phase) {
    && w.completed == [] && w.phases == map[0 := phase] && Holds(w.spool, 0) && Held(w.spool, 0) == MANIFEST
    && w.spool.s.disk.ledger == [] && w.server.history.committed == []
  }

  /** The worker has its token, and the server's run has come to its end. */
  lemma Asked() returns (w: World, steps: seq<Step>)
    ensures Reached(w, steps) && Confirms(w, Sending(Examples.REQUEST, 1))
    ensures Server.AudioDone(1, Server.Quarantined) in w.server.history.replies
  {
    w, steps := Claimed();
    var s, server := Examples.ToldDone();
    Examples.InTimeRun(s, server);
    steps := GoServer(w, steps, server);
    w := w.(server := s);
    hide Reached;
    var step := WorkerHearsMetadata(0, Server.CreatedToken(Examples.REQUEST, 1));
    Go(w, steps, step);
    w, steps := Apply(w, step), steps + [step];
  }

  lemma Told() returns (w: World, steps: seq<Step>)
    ensures Reached(w, steps) && Confirms(w, Confirmed(Examples.REQUEST))
  {
    w, steps := Asked();
    hide Reached;
    var step := WorkerHearsAudio(0, Server.AudioDone(1, Server.Quarantined));
    Go(w, steps, step);
    w, steps := Apply(w, step), steps + [step];
  }

  /** With the default configuration: ten legacy requests with the upload's token fail to decode and the upload is
      quarantined; the uploader's own request is then told that it is done, and `Complete` writes the ledger although
      no call was ever committed. */
  lemma CompletedWithoutCall() returns (steps: seq<Step>)
    ensures Server.Loadable(Examples.CFG) && Possible(ORIGIN, steps) && InTime(ORIGIN, steps)
    ensures var w := Run(ORIGIN, steps);
      && w.completed == [Entry("f", Examples.REQUEST)] && "f" in Ledger(w.spool)
      && w.server.history.committed == [] && !Uploads.HadCallOrNear(w.server, Examples.REQUEST)
  {
    var w: World;
    w, steps := Told();
    hide Reached;
    var step := WorkerCompletes(0, Spool.Completed);
    Go(w, steps, step);
    Finished(w, Apply(w, step));
    w, steps := Apply(w, step), steps + [step];
    ReachedRun(w, steps);
  }

  lemma ReachedRun(w: World, steps: seq<Step>)
    requires Reached(w, steps)
    ensures Possible(ORIGIN, steps) && InTime(ORIGIN, steps) && Run(ORIGIN, steps) == w
  {
  }
}
