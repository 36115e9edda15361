/**
 A caller of the repository that keeps every object it ever passed in or was given, passes
 them in again, and changes them as it likes in between.
 */
module Isolation {
  import opened Storage
  import opened Lifecycle
  import opened Repository

  /** What a caller does next: with a new object, or with the k-th of those it holds. */
  datatype Op =
    | Make(value: Volume)
    | Change(k: nat, value: Volume)
    | Save(k: nat)
    | Update(k: nat)
    | Load(name: string)
    | List
    | ListByState(states: set<State>)
    | Delete(name: string)
    | SaveEvent(entry: Entry)

  /** The repository as a map of values, its log, and the values of the caller's objects: nothing is shared. */
  datatype ValueStore = ValueStore(records: map<string, Volume>, events: seq<Entry>, held: seq<Volume>)

  /** What an operation does to values; a listing can be in any order. */
  ghost predicate Performs(s: ValueStore, op: Op, s': ValueStore) {
    match op
    case Make(v) => s' == s.(held := s.held + [v])
    case Change(k, v) => s' == if k < |s.held| then s.(held := s.held[k := v]) else s
    case Save(k) =>
      s' == if k < |s.held| && s.held[k].name !in s.records then s.(records := s.records[s.held[k].name := s.held[k]])
            else s
    case Update(k) =>
      s' == if k < |s.held| && s.held[k].name in s.records then s.(records := s.records[s.held[k].name := s.held[k]])
            else s
    case Load(name) => s' == if name in s.records then s.(held := s.held + [s.records[name]]) else s
    case List => exists found :: Lists(found, s.records, AllStates()) && s' == s.(held := s.held + found)
    case ListByState(states) => exists found :: Lists(found, s.records, states) && s' == s.(held := s.held + found)
    case Delete(name) => s' == s.(records := s.records - {name})
    case SaveEvent(e) => s' == s.(events := s.events + [e])
  }

  /** A history of values, one for each operation. */
  ghost predicate IsHistory(history: seq<ValueStore>, ops: seq<Op>) {
    |history| == |ops| + 1 && forall i | 0 <= i < |ops| :: Performs(history[i], ops[i], history[i + 1])
  }

  lemma HistoryGrows(history: seq<ValueStore>, ops: seq<Op>, i: nat, s: ValueStore)
    requires i < |ops| && IsHistory(history, ops[..i]) && Performs(history[i], ops[i], s)
    ensures IsHistory(history + [s], ops[..i + 1])
  {
    forall j | 0 <= j < i + 1 ensures Performs((history + [s])[j], ops[..i + 1][j], (history + [s])[j + 1]) {
      if j < i {
        assert ops[..i][j] == ops[j];
      }
    }
  }

  function Values(objects: seq<VolumeRecord>): seq<Volume>
    reads objects
  {
    seq(|objects|, i requires 0 <= i < |objects| reads objects => objects[i].Value())
  }

  lemma ShownAreValues(objects: seq<VolumeRecord>, values: seq<Volume>)
    requires Repository.ShowsValues(objects, values)
    ensures Values(objects) == values
  {
  }

  class Caller {
    const repo: InMemoryRepository
    var held: seq<VolumeRecord>

    /** Nothing the caller holds is in the representation. */
    ghost predicate Valid()
      reads this, held, repo, repo.Repr
    {
      && repo.Valid()
      && (forall v <- held :: v !in repo.Repr)
      && Separate(held)
    }

    ghost function Now(): ValueStore
      reads this, held, repo, repo.Repr
      requires Valid()
    {
      ValueStore(repo.Contents(), repo.events, Values(held))
    }

    constructor ()
      ensures Valid() && held == [] && fresh(repo) && repo.Repr == {} && Now() == ValueStore(map[], [], [])
    {
      repo := new InMemoryRepository();
      held := [];
    }

    /** Objects that are nobody else's are added to what the caller holds. */
    method Keep(objects: seq<VolumeRecord>)
      requires Valid() && Separate(objects) && forall v <- objects :: v !in repo.Repr && v !in held
      modifies `held
      ensures Valid() && held == old(held) + objects
      ensures Now() == old(Now()).(held := old(Now()).held + Values(objects))
    {
      SeparateParts(held, objects);
      held := held + objects;
      assert Values(held) == old(Values(held)) + Values(objects);
    }

    /** The repository's methods, and what the caller does in between. */
    method Do(op: Op)
      requires Valid()
      modifies this, repo, set v | v in held
      ensures Valid() && fresh(repo.Repr - old(repo.Repr)) && forall v <- held :: v in old(held) || fresh(v)
      ensures Performs(old(Now()), op, Now())
    {
      hide Lists, AllStates;
      match op
      case Make(v) =>
        var made := new VolumeRecord(v);
        Keep([made]);
      case Change(k, v) => Overwrite(k, v);
      case Save(k) => Pass(k, false);
      case Update(k) => Pass(k, true);
      case Load(name) =>
        var v := repo.LoadVolume(name);
        if v != null {
          Keep([v]);
        }
      case List => KeepAll();
      case ListByState(states) => KeepSome(states);
      case Delete(name) => repo.DeleteVolume(name);
      case SaveEvent(e) => repo.SaveEvent(e);
    }

    method KeepAll()
      requires Valid()
      modifies `held
      ensures Valid() && (forall v <- held :: v in old(held) || fresh(v)) && Performs(old(Now()), List, Now())
    {
      hide Lists, AllStates;
      var out, found := repo.ListVolumes();
      ShownAreValues(out, found);
      Keep(out);
    }

    method KeepSome(states: set<State>)
      requires Valid()
      modifies `held
      ensures Valid() && (forall v <- held :: v in old(held) || fresh(v))
      ensures Performs(old(Now()), ListByState(states), Now())
    {
      hide Lists;
      var out, found := repo.ListVolumesByState(states);
      ShownAreValues(out, found);
      Keep(out);
    }

    /** Changes an object that the caller holds, in whatever way. */
    method Overwrite(k: nat, v: Volume)
      requires Valid()
      modifies held
      ensures Valid() && Performs(old(Now()), Change(k, v), Now())
    {
      if k < |held| {
        var o := held[k];
        o.id, o.name, o.sizeMB, o.state, o.backend, o.nodeID := v.id, v.name, v.sizeMB, v.state, v.backend, v.nodeID;
        assert Values(held) == old(Values(held))[k := v];
      }
    }

    /** Passes an object that the caller holds, and goes on holding it. */
    method Pass(k: nat, update: bool)
      requires Valid()
      modifies repo
      ensures Valid() && fresh(repo.Repr - old(repo.Repr))
      ensures Performs(old(Now()), if update then Op.Update(k) else Op.Save(k), Now())
    {
      if k < |held| {
        if update {
          var _ := repo.UpdateVolume(held[k]);
        } else {
          var _ := repo.SaveVolume(held[k]);
        }
      }
      assert Values(held) == old(Values(held));
    }
  }

  lemma SeparateParts(a: seq<VolumeRecord>, b: seq<VolumeRecord>)
    requires Separate(a) && Separate(b) && forall v <- b :: v !in a
    ensures Separate(a + b)
  {
    forall i, j | 0 <= i < j < |a + b| ensures (a + b)[i] != (a + b)[j] {
      if i < |a| <= j {
        assert b[j - |a|] in b;
      }
    }
  }

  /**
   The repository refines a map of values.  Whatever the sequence of calls, and however the
   caller changes the objects it passed in or was given, before and after: records, log and
   objects are at every moment what they would be if every call copied values, so a change to
   an object shows in no record and in no other object; and nothing the caller holds is ever in
   the representation.
   */
  method Play(ops: seq<Op>) returns (caller: Caller, ghost history: seq<ValueStore>)
    ensures caller.Valid() && IsHistory(history, ops)
    ensures history[0] == ValueStore(map[], [], []) && caller.Now() == history[|ops|]
  {
    caller := new Caller();
    history := [caller.Now()];
    for i := 0 to |ops|
      invariant fresh(caller) && fresh(caller.repo) && fresh(caller.repo.Repr) && forall v <- caller.held :: fresh(v)
      invariant caller.Valid() && IsHistory(history, ops[..i])
      invariant history[0] == ValueStore(map[], [], []) && caller.Now() == history[i]
    {
      caller.Do(ops[i]);
      HistoryGrows(history, ops, i, caller.Now());
      history := history + [caller.Now()];
    }
    assert ops[..|ops|] == ops;
  }
}
