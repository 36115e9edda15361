/** The startup pass over the heap: the two listings, and the goroutines of each in any schedule. */
module Factory {
  import opened Storage
  import opened Fsm
  import opened Lifecycle
  import opened Repository
  import opened Startup
  import opened Importing
  import Filing
  import Application
  import Broker
  import Mock
  import StartupResults

  const TRANSITIONAL: set<State> := {
    Creating, Attaching, Detaching, Deleting, CreatingFailed, AttachingFailed, DetachingFailed, DeletingFailed
  }

  // ----- A complete schedule -----

  /** Each goroutine in turn, with all its stages. */
  function InOrder(n: nat): seq<nat> {
    if n == 0 then [] else InOrder(n - 1) + [n - 1, n - 1, n - 1]
  }

  lemma {:induction false} InOrderIsWithin(m: nat, n: nat)
    requires m <= n
    ensures Within(InOrder(m), n)
  {
    if m > 0 {
      InOrderIsWithin(m - 1, n);
    }
  }

  ghost function Sequentially(policy: DbOnly, w: World, listed: seq<Volume>, oracle: Oracle, n: nat): Fleet
    requires n <= |listed|
  {
    InOrderIsWithin(n, |listed|);
    StartupResults.PassResult(policy, w, listed, oracle, InOrder(n))
  }

  /** Three turns of one goroutine are that goroutine on its own. */
  lemma ThreeTurns(policy: DbOnly, s: Fleet, oracle: Oracle, i: nat)
    requires WellFormed(s) && i < |s.jobs| && s.turns[i] == 0
    ensures var s' := GiveTurn(policy, GiveTurn(policy, GiveTurn(policy, s, oracle, i), oracle, i), oracle, i);
            && (s'.world, s'.jobs[i]) == Alone(policy, s.world, s.jobs[i], oracle(i), 3)
            && s'.turns == s.turns[i := 3]
            && s'.jobs == s.jobs[i := s'.jobs[i]]
  {
    assert Alone(policy, s.world, s.jobs[i], oracle(i), 0) == (s.world, s.jobs[i]);
    var s1 := GiveTurn(policy, s, oracle, i);
    assert (s1.world, s1.jobs[i]) == Alone(policy, s.world, s.jobs[i], oracle(i), 1);
    var s2 := GiveTurn(policy, s1, oracle, i);
    assert (s2.world, s2.jobs[i]) == Alone(policy, s.world, s.jobs[i], oracle(i), 2);
  }

  lemma ScheduledExtends(policy: DbOnly, s: Fleet, oracle: Oracle, schedule: seq<nat>, i: nat)
    requires WellFormed(s) && Within(schedule, |s.jobs|) && i < |s.jobs|
    ensures Within(schedule + [i], |s.jobs|)
    ensures Scheduled(policy, s, oracle, schedule + [i])
         == GiveTurn(policy, Scheduled(policy, s, oracle, schedule), oracle, i)
  {
    assert (schedule + [i])[..|schedule|] == schedule;
  }

  /** The next goroutine in order runs on its own. */
  lemma InOrderExtends(policy: DbOnly, s: Fleet, oracle: Oracle, i: nat)
    requires WellFormed(s) && i < |s.jobs| && Within(InOrder(i), |s.jobs|) && Within(InOrder(i + 1), |s.jobs|)
    requires Scheduled(policy, s, oracle, InOrder(i)).turns[i] == 0
    ensures var before, after := Scheduled(policy, s, oracle, InOrder(i)), Scheduled(policy, s, oracle, InOrder(i + 1));
            && (after.world, after.jobs[i]) == Alone(policy, before.world, before.jobs[i], oracle(i), 3)
            && after.turns == before.turns[i := 3]
            && after.jobs == before.jobs[i := after.jobs[i]]
  {
    var order := InOrder(i);
    assert InOrder(i + 1) == order + [i] + [i] + [i];
    ScheduledExtends(policy, s, oracle, order, i);
    ScheduledExtends(policy, s, oracle, order + [i], i);
    ScheduledExtends(policy, s, oracle, order + [i] + [i], i);
    ThreeTurns(policy, Scheduled(policy, s, oracle, order), oracle, i);
  }

  /** After the first n goroutines, the others have not begun. */
  lemma {:induction false} SequentialTurns(policy: DbOnly, w: World, listed: seq<Volume>, oracle: Oracle, n: nat)
    requires n <= |listed|
    ensures var s := Sequentially(policy, w, listed, oracle, n);
            && |s.jobs| == |s.turns| == |listed|
            && forall i | n <= i < |listed| :: s.turns[i] == 0 && s.jobs[i] == Begin(listed[i])
  {
    InOrderIsWithin(n, |listed|);
    if n > 0 {
      InOrderIsWithin(n - 1, |listed|);
      SequentialTurns(policy, w, listed, oracle, n - 1);
      InOrderExtends(policy, Launch(w, listed), oracle, n - 1);
    }
  }

  /** Listing by state finds exactly the transitional records. */
  lemma ListingFindsTransitional(w: World, listed: seq<Volume>)
    requires Lists(listed, w.db, TRANSITIONAL)
    requires (forall n <- w.db :: w.db[n].name == n)
    requires Filing.DistinctIds(w.db)
    ensures StartupResults.ListsTransitional(w, listed)
  {
    forall n | n in w.db ensures IsTransitional(w.db[n].state) <==> w.db[n] in listed {
      assert w.db[n].state in TRANSITIONAL <==> IsTransitional(w.db[n].state);
    }
  }

  /** Complete schedules exist: one goroutine after the other. */
  lemma {:induction false} SequentialIsComplete(policy: DbOnly, w: World, listed: seq<Volume>, oracle: Oracle, n: nat)
    requires n <= |listed|
    ensures var s := Sequentially(policy, w, listed, oracle, n);
            |s.jobs| == |listed| && forall i | 0 <= i < n :: s.jobs[i].stage.Over?
  {
    InOrderIsWithin(n, |listed|);
    SequentialTurns(policy, w, listed, oracle, n);
    if n > 0 {
      InOrderIsWithin(n - 1, |listed|);
      SequentialIsComplete(policy, w, listed, oracle, n - 1);
      SequentialTurns(policy, w, listed, oracle, n - 1);
      InOrderExtends(policy, Launch(w, listed), oracle, n - 1);
      StartupResults.AloneEnds(policy, Sequentially(policy, w, listed, oracle, n - 1).world, Begin(listed[n - 1]),
                               oracle(n - 1), 3);
    }
  }

  class VolumeFeature {
    const app: Application.Application

    constructor (app: Application.Application)
      ensures this.app == app
    {
      this.app := app;
    }

    method Erase(name: string, f: Faults)
      requires app.Valid()
      modifies app.repo
      ensures app.Valid() && app.repo.Repr == old(app.repo.Repr)
      ensures app.Now() == if f.write.Refused? then old(app.Now())
                           else old(app.Now()).(db := old(app.Now()).db - {name})
    {
      if !f.write.Refused? {
        app.repo.DeleteVolume(name);
      }
    }

    /** An event that is applied only when valid; its failure is ignored. */
    method ApplyIfValid(v: VolumeRecord, event: Event, f: Faults)
      requires app.Valid() && app.Apart(v)
      modifies v, app.repo, app.broker`feed, app.broker.Repr
      ensures app.Valid() && fresh(app.repo.Repr - old(app.repo.Repr))
      ensures app.Now() == Startup.ApplyIfValid(old(app.Now()), old(v.Value()), event, f)
    {
      hide Application.Application.Valid, Application.Application.Now;
      if CanTransition(v.state, event) {
        var _ := app.ApplyEvent(v, event, f);
      }
    }

    /** The first stage of reconcileToError. */
    method ToBroken(ghost policy: DbOnly, vol: Volume, c: Luck) returns (more: bool)
      requires app.Valid()
      modifies app.repo, app.broker`feed, app.broker.Repr
      ensures app.Valid() && fresh(app.repo.Repr - old(app.repo.Repr))
      ensures (app.Now(), Job(vol, if more then Stage.ToError else Over))
           == RunStage(policy, old(app.Now()), Job(vol, Stage.ToBroken), c)
    {
      hide Application.Application.Valid, Application.Application.Now;
      more := false;
      var v := app.Load(vol.name, c.faults.load);
      if v != null {
        more := CanTransition(v.state, EventError);
        ApplyIfValid(v, if more then EventError else EventFail, c.faults);
      }
    }

    /** The second stage of reconcileToError. */
    method ToError(ghost policy: DbOnly, vol: Volume, c: Luck)
      requires app.Valid()
      modifies app.repo, app.broker`feed, app.broker.Repr
      ensures app.Valid() && fresh(app.repo.Repr - old(app.repo.Repr))
      ensures (app.Now(), Job(vol, Over)) == RunStage(policy, old(app.Now()), Job(vol, Stage.ToError), c)
    {
      hide Application.Application.Valid, Application.Application.Now;
      var v := app.Load(vol.name, c.faults.load);
      if v != null {
        ApplyIfValid(v, EventFail, c.faults);
      }
    }

    /** To the failed state first if need be, and from there to the error state. */
    method ReconcileToError(ghost policy: DbOnly, vol: Volume, luck: nat -> Luck)
      requires app.Valid()
      modifies app.repo, app.broker`feed, app.broker.Repr
      ensures app.Valid() && fresh(app.repo.Repr - old(app.repo.Repr))
      ensures var (w, j) := RunStage(policy, old(app.Now()), Job(vol, Stage.ToBroken), luck(1));
              app.Now() == RunStage(policy, w, j, luck(2)).0
    {
      hide Application.Application.Valid, Application.Application.Now;
      var more := ToBroken(policy, vol, luck(1));
      if more {
        ToError(policy, vol, luck(2));
      }
    }

    method Align(name: string, listed: State, nodeID: string, f: Faults)
      requires app.Valid()
      modifies app.repo
      ensures app.Valid() && fresh(app.repo.Repr - old(app.repo.Repr))
      ensures match Lifecycle.Load(old(app.Now()), name, f.load)
              case None => app.Now() == old(app.Now())
              case Some(v) => app.Now() == Aligned(old(app.Now()), v, listed, nodeID, f)
    {
      hide Application.Application.Valid, Application.Application.Now;
      var v := app.Load(name, f.load);
      if v != null {
        v.state, v.nodeID := Available, nodeID;
        assert app.Now() == old(app.Now());
        WriteAnyway(v, listed, f);
      }
    }

    /** Both errors are ignored, so the entry is logged even when the record was not written. */
    method WriteAnyway(v: VolumeRecord, listed: State, f: Faults)
      requires app.Valid() && v.state == Available
      modifies app.repo
      ensures app.Valid() && fresh(app.repo.Repr - old(app.repo.Repr))
      ensures app.Now() == Aligned(old(app.Now()), v.Value(), listed, v.nodeID, f)
    {
      hide Application.Application.Valid, Application.Application.Now;
      var _ := app.Update(v, f.update);
      app.Record(Entry(v.id, Reconciled, listed, Available), f.saved);
    }

    /** What the backend holds under a name, when it answers. */
    method Query(name: string) returns (held: Option<Volume>)
      requires app.Valid()
      ensures held == Held(app.Now(), name)
    {
      var actual := app.backend.GetVolume(name);
      held := if actual == null then None else Some(actual.Value());
    }

    /** Reconciles one listed volume: what its goroutine does on its own. */
    method ReconcileDBVolume(vol: Volume, policy: DbOnly, luck: nat -> Luck)
      requires app.Valid()
      modifies app.repo, app.broker`feed, app.broker.Repr
      ensures app.Valid() && fresh(app.repo.Repr - old(app.repo.Repr))
      ensures app.Now() == Alone(policy, old(app.Now()), Begin(vol), luck, 3).0
    {
      hide Application.Application.Valid, Application.Application.Now;
      AloneUnfolds(policy, app.Now(), vol, luck);
      if !luck(0).reachable {
        return;
      }
      var actual := Query(vol.name);
      match Decide(policy, vol.state, actual)
      case Erase => Erase(vol.name, luck(1).faults);
      case ToBroken =>
        ReconcileToError(policy, vol, luck);
      case Align(nodeID) => Align(vol.name, vol.state, nodeID, luck(1).faults);
      case _ =>
    }

    lemma AloneUnfolds(policy: DbOnly, w: World, vol: Volume, luck: nat -> Luck)
      ensures var (w1, j1) := RunStage(policy, w, Begin(vol), luck(0));
              var (w2, j2) := RunStage(policy, w1, j1, luck(1));
              Alone(policy, w, Begin(vol), luck, 3) == RunStage(policy, w2, j2, luck(2))
    {
      assert Alone(policy, w, Begin(vol), luck, 0) == (w, Begin(vol));
      assert Alone(policy, w, Begin(vol), luck, 1) == RunStage(policy, w, Begin(vol), luck(0));
    }

    // ----- The fan-out -----

    /** One goroutine has its next stage. */
    method TakeTurn(policy: DbOnly, j: Job, c: Luck) returns (j': Job)
      requires app.Valid()
      modifies app.repo, app.broker`feed, app.broker.Repr
      ensures app.Valid() && fresh(app.repo.Repr - old(app.repo.Repr))
      ensures (app.Now(), j') == RunStage(policy, old(app.Now()), j, c)
    {
      hide Application.Application.Valid, Application.Application.Now;
      j' := j.(stage := Over);
      match j.stage
      case Query =>
        if c.reachable {
          var actual := Query(j.volume.name);
          j' := j.(stage := Decide(policy, j.volume.state, actual));
        }
      case Erase => Erase(j.volume.name, c.faults);
      case ToBroken =>
        var more := ToBroken(policy, j.volume, c);
        j' := j.(stage := if more then Stage.ToError else Over);
      case ToError => ToError(policy, j.volume, c);
      case Align(nodeID) => Align(j.volume.name, j.volume.state, nodeID, c.faults);
      case Over =>
    }

    /** The goroutines of these volumes, as they are scheduled. */
    method ReconcileAll(vols: seq<Volume>, policy: DbOnly, oracle: Oracle, schedule: seq<nat>) returns (jobs: seq<Job>)
      requires app.Valid() && Within(schedule, |vols|)
      modifies app.repo, app.broker`feed, app.broker.Repr
      ensures app.Valid() && fresh(app.repo.Repr - old(app.repo.Repr))
      ensures app.Now() == StartupResults.PassResult(policy, old(app.Now()), vols, oracle, schedule).world
      ensures jobs == StartupResults.PassResult(policy, old(app.Now()), vols, oracle, schedule).jobs
    {
      hide Application.Application.Valid, Application.Application.Now;
      hide RunStage;
      ghost var start := Launch(app.Now(), vols);
      var turns := seq(|vols|, i => 0);
      jobs := seq(|vols|, i requires 0 <= i < |vols| => Begin(vols[i]));
      for k := 0 to |schedule|
        invariant app.Valid() && fresh(app.repo.Repr - old(app.repo.Repr)) && |jobs| == |turns| == |vols|
        invariant Within(schedule[..k], |vols|)
        invariant Scheduled(policy, start, oracle, schedule[..k]) == Fleet(app.Now(), jobs, turns)
      {
        var i := schedule[k];
        assert schedule[..k + 1] == schedule[..k] + [i];
        ScheduledExtends(policy, start, oracle, schedule[..k], i);
        var j' := TakeTurn(policy, jobs[i], oracle(i)(turns[i]));
        jobs, turns := jobs[i := j'], turns[i := turns[i] + 1];
      }
      assert schedule[..|schedule|] == schedule;
    }

    /** The values of the transitional records, each once. */
    method ListRecords() returns (vols: seq<Volume>)
      requires app.Valid()
      ensures Lists(vols, app.Now().db, TRANSITIONAL)
    {
      var out, listed := app.repo.ListVolumesByState(TRANSITIONAL);
      vols := Values(out, listed);
    }

    /** Step 1 of the startup pass: every transitional record is listed, and reconciled by a goroutine of its own. */
    method ReconcileListed(policy: DbOnly, oracle: Oracle, scheduler: nat -> seq<nat>)
      returns (ghost listed: seq<Volume>)
      requires app.Valid() && forall n :: Within(scheduler(n), n)
      modifies app.repo, app.broker`feed, app.broker.Repr
      ensures app.Valid() && fresh(app.repo.Repr - old(app.repo.Repr))
      ensures Lists(listed, old(app.Now()).db, TRANSITIONAL)
      ensures app.Now() == StartupResults.PassResult(policy, old(app.Now()), listed, oracle, scheduler(|listed|)).world
    {
      hide Application.Application.Valid, Application.Application.Now;
      var vols := ListRecords();
      listed := vols;
      var _ := ReconcileAll(vols, policy, oracle, scheduler(|vols|));
    }

    /** What the listed objects show; nobody else holds them. */
    method Values(out: seq<VolumeRecord>, ghost shown: seq<Volume>) returns (vols: seq<Volume>)
      requires ShowsValues(out, shown)
      ensures vols == shown
    {
      vols := [];
      for i := 0 to |out|
        invariant vols == shown[..i]
      {
        vols := vols + [out[i].Value()];
      }
    }

    /** One goroutine of step 2 has its next stage. */
    method TakeImportTurn(j: Importer, id: string, f: Faults) returns (j': Importer)
      requires app.Valid()
      modifies app.repo
      ensures app.Valid() && fresh(app.repo.Repr - old(app.repo.Repr))
      ensures (app.Now(), j') == ImportStep(old(app.Now()), j, id, f)
    {
      hide Application.Application.Valid, Application.Application.Now;
      j' := j.(stage := Ended);
      match j.stage
      case Seeking =>
        var existing := app.Load(j.volume.name, f.load);
        if f.load && existing == null {
          j' := j.(stage := Saving);
        }
      case Saving => SaveImported(ImportedRecord(j.volume, id), f);
      case Ended =>
    }

    /** Saves a record, unless its name is taken by now. */
    method SaveImported(v: Volume, f: Faults)
      requires app.Valid()
      modifies app.repo
      ensures app.Valid() && fresh(app.repo.Repr - old(app.repo.Repr))
      ensures app.Now() == if v.name in old(app.Now()).db || f.write.Refused? then old(app.Now())
                           else old(app.Now()).(db := old(app.Now()).db[v.name := v])
    {
      hide Application.Application.Valid, Application.Application.Now;
      var record := new VolumeRecord(v);
      assert app.Now() == old(app.Now());
      SaveRecord(record, f);
    }

    method SaveRecord(record: VolumeRecord, f: Faults)
      requires app.Valid()
      modifies app.repo
      ensures app.Valid() && fresh(app.repo.Repr - old(app.repo.Repr))
      ensures app.Now() == if record.name in old(app.Now()).db || f.write.Refused? then old(app.Now())
                           else old(app.Now()).(db := old(app.Now()).db[record.name := record.Value()])
    {
      hide InMemoryRepository.Contents, Mock.MockBackend.Valid, Mock.MockBackend.Contents, Broker.EventBroker.Valid;
      if !f.write.Refused? {
        var _ := app.repo.SaveVolume(record);
      }
    }

    /** The goroutines of these backend volumes, as they are scheduled. */
    method ImportAll(vols: seq<Volume>, ids: string -> string, faults: string -> Faults, schedule: seq<nat>)
      requires app.Valid() && Within(schedule, |vols|)
      modifies app.repo
      ensures app.Valid() && fresh(app.repo.Repr - old(app.repo.Repr))
      ensures app.Now() == Imported(old(app.Now()), vols, ids, faults, schedule).world
    {
      hide Application.Application.Valid, Application.Application.Now;
      hide ImportStep;
      ghost var start := LaunchImports(app.Now(), vols);
      var jobs := seq(|vols|, i requires 0 <= i < |vols| => Importer(vols[i], Seeking));
      for k := 0 to |schedule|
        invariant app.Valid() && fresh(app.repo.Repr - old(app.repo.Repr)) && |jobs| == |vols|
        invariant Within(schedule[..k], |vols|)
        invariant ImportScheduled(start, ids, faults, schedule[..k]) == Importers(app.Now(), jobs)
      {
        var i := schedule[k];
        assert schedule[..k + 1] == schedule[..k] + [i];
        ImportScheduledExtends(start, ids, faults, schedule[..k], i);
        var j' := TakeImportTurn(jobs[i], ids(jobs[i].volume.name), faults(jobs[i].volume.name));
        jobs := jobs[i := j'];
      }
      assert schedule[..|schedule|] == schedule;
    }

    lemma ImportScheduledExtends(
      s: Importers, ids: string -> string, faults: string -> Faults, schedule: seq<nat>, i: nat)
      requires Within(schedule, |s.jobs|) && i < |s.jobs|
      ensures Within(schedule + [i], |s.jobs|)
      ensures ImportScheduled(s, ids, faults, schedule + [i])
           == ImportTurn(ImportScheduled(s, ids, faults, schedule), ids, faults, i)
    {
      assert (schedule + [i])[..|schedule|] == schedule;
    }

    /** The values of everything the backend holds, in some order. */
    method ListBackend() returns (vols: seq<Volume>)
      requires app.Valid()
      ensures ListsBackend(app.Now(), vols)
    {
      var out, listed := app.backend.ListVolumes();
      vols := Values(out, listed);
      forall n | n in app.Now().backend ensures app.Now().backend[n] in vols {
        EveryStateIsOne(app.Now().backend[n].state);
      }
    }

    /** Step 2 of the startup pass: everything the backend holds is listed, and imported by a goroutine of its own. */
    method ImportBackendVolumes(ids: string -> string, faults: string -> Faults, scheduler: nat -> seq<nat>)
      returns (ghost vols: seq<Volume>)
      requires app.Valid() && forall n :: Within(scheduler(n), n)
      modifies app.repo
      ensures app.Valid() && fresh(app.repo.Repr - old(app.repo.Repr))
      ensures ListsBackend(old(app.Now()), vols)
      ensures app.Now() == Imported(old(app.Now()), vols, ids, faults, scheduler(|vols|)).world
    {
      hide Application.Application.Valid, Application.Application.Now;
      var listed := ListBackend();
      vols := listed;
      ImportAll(listed, ids, faults, scheduler(|listed|));
    }

    /** What the pass was given, with what it listed. */
    ghost function BootOf(policy: DbOnly, oracle: Oracle, scheduler: nat -> seq<nat>, listed: seq<Volume>,
                          importing: bool, ids: string -> string, faults: string -> Faults, importer: nat -> seq<nat>,
                          vols: seq<Volume>): Boot
    {
      Boot(policy, listed, oracle, scheduler(|listed|), importing, vols, ids, faults, importer(|vols|))
    }

    /**
     The whole startup pass: the transitional records first, then, if the policy says so,
     the volumes that only the backend knows.  It ends where a listing fails.
     */
    method ReconcileOnStartup(policy: DbOnly, importing: bool, dbLists: bool, backendLists: bool,
                              oracle: Oracle, scheduler: nat -> seq<nat>,
                              ids: string -> string, faults: string -> Faults, importer: nat -> seq<nat>)
      returns (ghost listed: seq<Volume>, ghost vols: seq<Volume>)
      requires app.Valid() && forall n :: Within(scheduler(n), n) && Within(importer(n), n)
      modifies app.repo, app.broker`feed, app.broker.Repr
      ensures app.Valid() && fresh(app.repo.Repr - old(app.repo.Repr))
      ensures !dbLists ==> app.Now() == old(app.Now())
      ensures dbLists && Filing.DistinctIds(old(app.Now()).db) ==>
                var b :=
                  BootOf(policy, oracle, scheduler, listed, importing && backendLists, ids, faults, importer, vols);
                BootOk(old(app.Now()), b) && app.Now() == Booted(old(app.Now()), b)
    {
      hide Application.Application.Valid, Application.Application.Now;
      listed, vols := [], [];
      if !dbLists {
        return;
      }
      FiledByName();
      listed := ReconcileListed(policy, oracle, scheduler);
      if Filing.DistinctIds(old(app.Now()).db) {
        ListingFindsTransitional(old(app.Now()), listed);
      }
      if importing && backendLists {
        vols := ImportBackendVolumes(ids, faults, importer);
      }
    }

    lemma FiledByName()
      requires app.Valid()
      ensures forall n <- app.Now().db :: app.Now().db[n].name == n
    {
    }
  }
}
