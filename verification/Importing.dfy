/**
 The second step of the startup pass: a goroutine for every volume the backend holds, which
 looks for a record and, if there is none, saves one.
 */
module Importing {
  import opened Storage
  import opened Fsm
  import opened Lifecycle
  import opened Startup
  import Agreement
  import StartupResults

  // ----- The import, as a value -----

  /** The record made for a volume that only the backend knows. */
  function ImportedRecord(v: Volume, id: string): Volume {
    Volume(id, v.name, v.sizeMB, Available, "mock", "")
  }

  /** Records for those of the named backend volumes that have none, as far as the database works. */
  function Import(w: World, names: set<string>, ids: string -> string, faults: string -> Faults): World {
    w.(db := w.db + map n | n in names && n in w.backend && n !in w.db && faults(n).load && !faults(n).write.Refused? ::
              ImportedRecord(w.backend[n], ids(n)))
  }

  /** With a working database every backend volume has a record afterwards, and no record that was there changes. */
  lemma ImportCoversBackend(w: World, ids: string -> string)
    ensures var w' := Import(w, w.backend.Keys, ids, n => NO_FAULTS);
            && w.backend.Keys <= w'.db.Keys
            && (forall n <- w.db :: n in w'.db && w'.db[n] == w.db[n])
            && (forall n <- w'.db | n !in w.db ::
                  && n in w.backend
                  && w'.db[n] == Volume(ids(n), w.backend[n].name, w.backend[n].sizeMB, Available, "mock", ""))
  {
  }

  /** An imported record agrees with the backend exactly when the volume is available there: import does not look. */
  lemma ImportAgreesExactlyWhenIdle(w: World, ids: string -> string, n: string)
    requires n in w.backend && n !in w.db
    ensures Agreement.AgreeAt(Import(w, w.backend.Keys, ids, n => NO_FAULTS), n) <==>
            Agreement.ShapeOf(w.backend, n).Idle?
  {
    ImportAt(w, w.backend.Keys, ids, n => NO_FAULTS, n);
  }

  /** A second import finds nothing to do. */
  lemma ImportIsIdempotent(w: World, ids: string -> string, others: string -> string)
    ensures var w' := Import(w, w.backend.Keys, ids, n => NO_FAULTS);
            Import(w', w'.backend.Keys, others, n => NO_FAULTS) == w'
  {
    var w' := Import(w, w.backend.Keys, ids, n => NO_FAULTS);
    ImportCoversBackend(w, ids);
    assert Import(w', w'.backend.Keys, others, n => NO_FAULTS).db == w'.db;
  }

  /** The record under a name after the import of some names. */
  lemma ImportAt(w: World, names: set<string>, ids: string -> string, faults: string -> Faults, n: string)
    ensures Load(Import(w, names, ids, faults), n, true) ==
            if n in w.db then Some(w.db[n])
            else if n in names && n in w.backend && faults(n).load && !faults(n).write.Refused? then
              Some(ImportedRecord(w.backend[n], ids(n)))
            else None
  {
  }

  lemma SameRecords(a: World, b: World)
    requires forall n :: Load(a, n, true) == Load(b, n, true)
    ensures a.db == b.db
  {
    forall n ensures (n in a.db <==> n in b.db) && (n in a.db ==> a.db[n] == b.db[n]) {
      assert Load(a, n, true) == Load(b, n, true);
    }
  }

  /** Importing in two parts is importing at once, so in which order the volumes are imported does not matter. */
  lemma ImportsCombine(w: World, a: set<string>, b: set<string>, ids: string -> string, faults: string -> Faults)
    ensures Import(Import(w, a, ids, faults), b, ids, faults) == Import(w, a + b, ids, faults)
  {
    var first := Import(w, a, ids, faults);
    forall n ensures Load(Import(first, b, ids, faults), n, true) == Load(Import(w, a + b, ids, faults), n, true) {
      ImportAt(w, a, ids, faults, n);
      ImportAt(first, b, ids, faults, n);
      ImportAt(w, a + b, ids, faults, n);
    }
    SameRecords(Import(first, b, ids, faults), Import(w, a + b, ids, faults));
  }

  // ----- Its goroutines -----

  datatype ImportStage = Seeking | Saving | Ended

  datatype Importer = Importer(volume: Volume, stage: ImportStage)

  /** The next stage of a goroutine: the load, or the save, which fails on a name that is taken. */
  function ImportStep(w: World, j: Importer, id: string, f: Faults): (World, Importer) {
    var name := j.volume.name;
    match j.stage
    case Seeking => (w, j.(stage := if f.load && name !in w.db then Saving else Ended))
    case Saving =>
      (if name in w.db || f.write.Refused? then w else w.(db := w.db[name := ImportedRecord(j.volume, id)]),
       j.(stage := Ended))
    case Ended => (w, j)
  }

  /** Whatever is there when it runs, a stage never changes a record that exists, and nothing but records. */
  lemma ImportSparesRecords(w: World, j: Importer, id: string, f: Faults)
    ensures var w' := ImportStep(w, j, id, f).0;
            && (forall n <- w.db :: n in w'.db && w'.db[n] == w.db[n])
            && w'.backend == w.backend && w'.log == w.log && w'.feed == w.feed
  {
  }

  datatype Importers = Importers(world: World, jobs: seq<Importer>)

  function ImportTurn(s: Importers, ids: string -> string, faults: string -> Faults, i: nat): Importers
    requires i < |s.jobs|
  {
    var name := s.jobs[i].volume.name;
    var (w, j) := ImportStep(s.world, s.jobs[i], ids(name), faults(name));
    Importers(w, s.jobs[i := j])
  }

  function ImportScheduled(
    s: Importers, ids: string -> string, faults: string -> Faults, schedule: seq<nat>): (s': Importers)
    requires Within(schedule, |s.jobs|)
    ensures |s'.jobs| == |s.jobs|
  {
    if schedule == [] then s
    else ImportTurn(ImportScheduled(s, ids, faults, schedule[..|schedule| - 1]), ids, faults, schedule[|schedule| - 1])
  }

  function LaunchImports(w: World, vols: seq<Volume>): Importers {
    Importers(w, seq(|vols|, i requires 0 <= i < |vols| => Importer(vols[i], Seeking)))
  }

  /** The import with its goroutines scheduled in some way. */
  function Imported(
    w: World, vols: seq<Volume>, ids: string -> string, faults: string -> Faults, schedule: seq<nat>): Importers
    requires Within(schedule, |vols|)
  {
    ImportScheduled(LaunchImports(w, vols), ids, faults, schedule)
  }

  ghost predicate AllEnded(s: Importers) {
    forall j <- s.jobs :: j.stage.Ended?
  }

  /** Everything the backend holds, each volume once. */
  ghost predicate ListsBackend(w: World, vols: seq<Volume>) {
    && (forall v <- vols :: v.name in w.backend && w.backend[v.name] == v)
    && (forall i, j | 0 <= i < j < |vols| :: vols[i].name != vols[j].name)
    && (forall n <- w.backend :: w.backend[n].name == n && w.backend[n] in vols)
  }

  /** What a goroutine has done to its name so far. */
  predicate ImporterFits(w: World, now: World, v: Volume, j: Importer, id: string, f: Faults) {
    && j.volume == v
    && match j.stage
       case Seeking => Load(now, v.name, true) == Load(w, v.name, true)
       case Saving => f.load && v.name !in w.db && v.name !in now.db
       case Ended =>
         Load(now, v.name, true) ==
         if v.name in w.db then Some(w.db[v.name])
         else if f.load && !f.write.Refused? then Some(ImportedRecord(v, id))
         else None
  }

  ghost predicate ImportSoFar(
    w: World, vols: seq<Volume>, ids: string -> string, faults: string -> Faults, s: Importers) {
    && |s.jobs| == |vols|
    && (forall i | 0 <= i < |vols| ::
        ImporterFits(w, s.world, vols[i], s.jobs[i], ids(vols[i].name), faults(vols[i].name)))
    && (forall n | Unlisted(vols, n) :: Load(s.world, n, true) == Load(w, n, true))
    && s.world == w.(db := s.world.db)
  }

  lemma ImportStepFits(w: World, now: World, v: Volume, j: Importer, id: string, f: Faults)
    requires ImporterFits(w, now, v, j, id, f)
    ensures var (now', j') := ImportStep(now, j, id, f);
            && ImporterFits(w, now', v, j', id, f)
            && now' == now.(db := now'.db)
            && forall n | n != v.name :: Load(now', n, true) == Load(now, n, true)
  {
  }

  lemma ImportTurnFits(
    w: World, vols: seq<Volume>, ids: string -> string, faults: string -> Faults, s: Importers, i: nat)
    requires ListsBackend(w, vols) && ImportSoFar(w, vols, ids, faults, s) && i < |vols|
    ensures ImportSoFar(w, vols, ids, faults, ImportTurn(s, ids, faults, i))
  {
    var s' := ImportTurn(s, ids, faults, i);
    ImportStepFits(w, s.world, vols[i], s.jobs[i], ids(vols[i].name), faults(vols[i].name));
    forall k | 0 <= k < |vols|
      ensures ImporterFits(w, s'.world, vols[k], s'.jobs[k], ids(vols[k].name), faults(vols[k].name))
    {
      if k != i {
        assert vols[k].name != vols[i].name;
        assert Load(s'.world, vols[k].name, true) == Load(s.world, vols[k].name, true);
      }
    }
    assert !Unlisted(vols, vols[i].name);
  }

  lemma {:induction false} ImportsFit(
    w: World, vols: seq<Volume>, ids: string -> string, faults: string -> Faults, schedule: seq<nat>)
    requires ListsBackend(w, vols) && Within(schedule, |vols|)
    ensures ImportSoFar(w, vols, ids, faults, Imported(w, vols, ids, faults, schedule))
    decreases |schedule|
  {
    if schedule != [] {
      var front := schedule[..|schedule| - 1];
      ImportsFit(w, vols, ids, faults, front);
      ImportTurnFits(w, vols, ids, faults, Imported(w, vols, ids, faults, front), schedule[|schedule| - 1]);
    }
  }

  /**
   No schedule matters.  However the loads and saves of the goroutines interleave, and whatever
   goes wrong at each, once all have ended the world is the one that imports everything at once.
   */
  lemma ImportSchedulesAgree(
    w: World, vols: seq<Volume>, ids: string -> string, faults: string -> Faults, schedule: seq<nat>)
    requires ListsBackend(w, vols) && Within(schedule, |vols|) && AllEnded(Imported(w, vols, ids, faults, schedule))
    ensures Imported(w, vols, ids, faults, schedule).world == Import(w, w.backend.Keys, ids, faults)
  {
    ImportsFit(w, vols, ids, faults, schedule);
    var s := Imported(w, vols, ids, faults, schedule);
    var whole := Import(w, w.backend.Keys, ids, faults);
    forall n ensures Load(s.world, n, true) == Load(whole, n, true) {
      ImportAt(w, w.backend.Keys, ids, faults, n);
      if n in w.backend {
        var i :| 0 <= i < |vols| && vols[i] == w.backend[n];
        assert s.jobs[i] in s.jobs;
      } else {
        assert Unlisted(vols, n);
      }
    }
    SameRecords(s.world, whole);
  }

  // ----- Both steps together -----

  /** What a run of the pass is given: policies, listings, luck and schedules. */
  datatype Boot = Boot(
    policy: DbOnly, listed: seq<Volume>, oracle: Oracle, schedule: seq<nat>,
    importing: bool, vols: seq<Volume>, ids: string -> string, faults: string -> Faults, imports: seq<nat>)

  /** The goroutines are those of the source's two listings; they need not have come to their end. */
  ghost predicate BootOk(w: World, b: Boot) {
    && StartupResults.ListsTransitional(w, b.listed) && Within(b.schedule, |b.listed|)
    && (b.importing ==> ListsBackend(Repair(w, b), b.vols) && Within(b.imports, |b.vols|))
  }

  function Repair(w: World, b: Boot): World
    requires Within(b.schedule, |b.listed|)
  {
    StartupResults.PassResult(b.policy, w, b.listed, b.oracle, b.schedule).world
  }

  ghost function Booted(w: World, b: Boot): World
    requires BootOk(w, b)
  {
    if b.importing then Imported(Repair(w, b), b.vols, b.ids, b.faults, b.imports).world else Repair(w, b)
  }

  /** Every goroutine has come to its end. */
  ghost predicate RunsToEnd(w: World, b: Boot)
    requires BootOk(w, b)
  {
    && StartupResults.Complete(StartupResults.PassResult(b.policy, w, b.listed, b.oracle, b.schedule))
    && (b.importing ==> AllEnded(Imported(Repair(w, b), b.vols, b.ids, b.faults, b.imports)))
  }

  /** Nothing fails: the backend answers and the database works. */
  ghost predicate Smooth(b: Boot) {
    StartupResults.Answers(b.listed, b.oracle, StartupResults.Everywhere) && forall n :: b.faults(n) == NO_FAULTS
  }

  ghost predicate NamedByKey(w: World) {
    (forall n <- w.db :: w.db[n].name == n) && (forall n <- w.backend :: w.backend[n].name == n)
  }

  /** After a smooth pass only ignored, missing volumes are transitional, and every imported name has a record. */
  ghost predicate Rested(policy: DbOnly, importing: bool, w: World) {
    && (forall n <- w.db | IsTransitional(w.db[n].state) :: policy.Ignore? && n !in w.backend)
    && (importing ==> w.backend.Keys <= w.db.Keys)
  }

  lemma SmoothPassRests(w: World, b: Boot)
    requires NamedByKey(w) && BootOk(w, b) && RunsToEnd(w, b) && Smooth(b)
    ensures Rested(b.policy, b.importing, Booted(w, b)) && NamedByKey(Booted(w, b))
  {
    var w1 := Repair(w, b);
    StartupResults.PassRepairsEverything(b.policy, w, b.listed, b.oracle, b.schedule);
    forall n | n in w1.db ensures w1.db[n].name == n {
      assert Load(w1, n, true) == StartupResults.RecordAfter(b.policy, w, StartupResults.Everywhere, n);
    }
    if b.importing {
      ImportSchedulesAgree(w1, b.vols, b.ids, b.faults, b.imports);
      var w2 := Booted(w, b);
      forall n ensures Load(w2, n, true) == if n in w1.db then Some(w1.db[n])
                                            else if n in w1.backend then Some(ImportedRecord(w1.backend[n], b.ids(n)))
                                            else None {
        ImportAt(w1, w1.backend.Keys, b.ids, b.faults, n);
      }
      RestsAfterImport(b.policy, w1, w2, b.ids);
    }
  }

  lemma RestsAfterImport(policy: DbOnly, w1: World, w2: World, ids: string -> string)
    requires forall n <- w1.db | IsTransitional(w1.db[n].state) :: policy.Ignore? && n !in w1.backend
    requires NamedByKey(w1) && w2.backend == w1.backend
    requires forall n :: Load(w2, n, true) == if n in w1.db then Some(w1.db[n])
                                              else if n in w1.backend then Some(ImportedRecord(w1.backend[n], ids(n)))
                                              else None
    ensures Rested(policy, true, w2) && NamedByKey(w2)
  {
    forall n | n in w2.db
      ensures w2.db[n].name == n && (IsTransitional(w2.db[n].state) ==> policy.Ignore? && n !in w2.backend)
    {
      assert Load(w2, n, true) == Some(w2.db[n]);
    }
    forall n | n in w2.backend ensures n in w2.db {
      assert Load(w2, n, true).Some?;
    }
  }

  /**
   A second pass changes nothing: neither records, nor log, nor feed.  The first has to have
   run smoothly to its end; the second may be scheduled in any way, use other IDs, and meet
   with any faults.
   */
  lemma SecondPassChangesNothing(w: World, first: Boot, second: Boot)
    requires NamedByKey(w) && BootOk(w, first) && RunsToEnd(w, first) && Smooth(first)
    requires BootOk(Booted(w, first), second) && second.policy == first.policy && (second.importing ==> first.importing)
    ensures Booted(Booted(w, first), second) == Booted(w, first)
  {
    SmoothPassRests(w, first);
    var w' := Booted(w, first);
    StartupResults.RestedWorldRests(second.policy, w', second.listed, second.oracle, second.schedule);
    if second.importing {
      NothingToImport(w', second.vols, second.ids, second.faults, second.imports);
    }
  }

  lemma NothingToImport(
    w: World, vols: seq<Volume>, ids: string -> string, faults: string -> Faults, schedule: seq<nat>)
    requires ListsBackend(w, vols) && Within(schedule, |vols|) && w.backend.Keys <= w.db.Keys
    ensures Imported(w, vols, ids, faults, schedule).world == w
  {
    ImportsFit(w, vols, ids, faults, schedule);
    var s := Imported(w, vols, ids, faults, schedule);
    forall n ensures Load(s.world, n, true) == Load(w, n, true) {
      if !Unlisted(vols, n) {
        var v :| v in vols && v.name == n;
        var i :| 0 <= i < |vols| && vols[i] == v;
        assert ImporterFits(w, s.world, vols[i], s.jobs[i], ids(n), faults(n));
      }
    }
    SameRecords(s.world, w);
  }
}
