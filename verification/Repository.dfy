/** The in-memory repository: a map of records it never shares, and an append-only event log. */
module Repository {
  import opened Storage
  import opened Lifecycle

  /** A volume object, as callers and stores hold it. */
  class VolumeRecord {
    var id: string
    var name: string
    var sizeMB: int
    var state: State
    var backend: string
    var nodeID: string

    constructor (v: Volume)
      ensures Value() == v
    {
      id, name, sizeMB, state, backend, nodeID := v.id, v.name, v.sizeMB, v.state, v.backend, v.nodeID;
    }

    function Value(): Volume
      reads this
    {
      Volume(id, name, sizeMB, state, backend, nodeID)
    }

    method Copy() returns (cp: VolumeRecord)
      ensures fresh(cp) && cp.Value() == Value()
    {
      cp := new VolumeRecord(Value());
    }
  }

  /** The wanted part of a store, each record exactly once, in any order. */
  ghost predicate Lists(out: seq<Volume>, stored: map<string, Volume>, wanted: set<State>) {
    && (forall v <- out :: v.name in stored && v == stored[v.name] && v.state in wanted)
    && (forall i, j | 0 <= i < j < |out| :: out[i].name != out[j].name)
    && (forall n <- stored | stored[n].state in wanted :: stored[n] in out)
  }

  lemma ListsNothing(wanted: set<State>)
    ensures Lists([], map[], wanted)
  {
  }

  lemma ListsOneMore(out: seq<Volume>, stored: map<string, Volume>, wanted: set<State>, v: Volume)
    requires Lists(out, stored, wanted) && v.name !in stored
    ensures Lists(if v.state in wanted then out + [v] else out, stored[v.name := v], wanted)
  {
  }

  function AllStates(): set<State> {
    {
      Pending, Creating, CreatingFailed, Available, Attaching, AttachingFailed, Attached, Detaching, DetachingFailed,
      Deleting, DeletingFailed, Deleted, Error
    }
  }

  lemma EveryStateIsOne(s: State)
    ensures s in AllStates()
  {
  }

  /** The values of a list of objects. */
  ghost predicate ShowsValues(out: seq<VolumeRecord>, values: seq<Volume>)
    reads out
  {
    |out| == |values| && forall i | 0 <= i < |out| :: out[i].Value() == values[i]
  }

  /** No object occurs twice. */
  predicate Separate(objects: seq<VolumeRecord>) {
    forall i, j | 0 <= i < j < |objects| :: objects[i] != objects[j]
  }

  class InMemoryRepository {
    var volumes: map<string, VolumeRecord>
    var events: seq<Entry>
    ghost var Repr: set<VolumeRecord>

    /** Records are filed under their own name, in objects that belong to the repository. */
    ghost predicate Valid()
      reads this, Repr
    {
      forall n <- volumes :: volumes[n] in Repr && volumes[n].name == n
    }

    function Contents(): map<string, Volume>
      reads this, Repr
      requires Valid()
    {
      map n | n in volumes :: volumes[n].Value()
    }

    constructor ()
      ensures Valid() && Repr == {} && Contents() == map[] && events == []
    {
      volumes, events, Repr := map[], [], {};
    }

    method SaveVolume(v: VolumeRecord) returns (ok: bool)
      requires Valid()
      modifies this
      ensures Valid() && fresh(Repr - old(Repr)) && events == old(events)
      ensures ok == (v.name !in old(Contents()))
      ensures Contents() == if ok then old(Contents())[v.name := v.Value()] else old(Contents())
    {
      if v.name in volumes {
        return false;
      }
      Store(v);
      ok := true;
    }

    method UpdateVolume(v: VolumeRecord) returns (ok: bool)
      requires Valid()
      modifies this
      ensures Valid() && fresh(Repr - old(Repr)) && events == old(events)
      ensures ok == (v.name in old(Contents()))
      ensures Contents() == if ok then old(Contents())[v.name := v.Value()] else old(Contents())
    {
      if v.name !in volumes {
        return false;
      }
      Store(v);
      ok := true;
    }

    /** Files a copy, so that the caller's object stays the caller's. */
    method Store(v: VolumeRecord)
      requires Valid()
      modifies this
      ensures Valid() && fresh(Repr - old(Repr)) && events == old(events)
      ensures Contents() == old(Contents())[v.name := v.Value()]
    {
      var cp := v.Copy();
      volumes := volumes[v.name := cp];
      Repr := Repr + {cp};
    }

    /** A missing record is null, and not an error. */
    method LoadVolume(name: string) returns (v: VolumeRecord?)
      requires Valid()
      ensures (v == null) == (name !in Contents())
      ensures v != null ==> fresh(v) && v.Value() == Contents()[name]
    {
      if name !in volumes {
        return null;
      }
      v := volumes[name].Copy();
    }

    /** Objects of the caller's own, showing every record. */
    method ListVolumes() returns (out: seq<VolumeRecord>, ghost values: seq<Volume>)
      requires Valid()
      ensures (forall v <- out :: fresh(v)) && Separate(out)
      ensures ShowsValues(out, values) && Lists(values, Contents(), AllStates())
    {
      hide Lists, AllStates;
      ListsNothing(AllStates());
      out, values := [], [];
      var rest := volumes.Keys;
      ghost var seen: map<string, Volume> := map[];
      while rest != {}
        invariant rest <= volumes.Keys && seen.Keys == volumes.Keys - rest
        invariant forall n <- seen :: seen[n] == volumes[n].Value()
        invariant (forall v <- out :: fresh(v)) && Separate(out)
        invariant ShowsValues(out, values) && Lists(values, seen, AllStates())
        decreases |rest|
      {
        var n :| n in rest;
        var cp := volumes[n].Copy();
        EveryStateIsOne(cp.state);
        ListsOneMore(values, seen, AllStates(), cp.Value());
        out, values := out + [cp], values + [cp.Value()];
        seen := seen[n := cp.Value()];
        rest := rest - {n};
      }
      assert seen == Contents();
    }

    /** Objects of the caller's own, showing the wanted records. */
    method ListVolumesByState(states: set<State>) returns (out: seq<VolumeRecord>, ghost values: seq<Volume>)
      requires Valid()
      ensures (forall v <- out :: fresh(v)) && Separate(out)
      ensures ShowsValues(out, values) && Lists(values, Contents(), states)
    {
      hide Lists;
      ListsNothing(states);
      out, values := [], [];
      var rest := volumes.Keys;
      ghost var seen: map<string, Volume> := map[];
      while rest != {}
        invariant rest <= volumes.Keys && seen.Keys == volumes.Keys - rest
        invariant forall n <- seen :: seen[n] == volumes[n].Value()
        invariant (forall v <- out :: fresh(v)) && Separate(out)
        invariant ShowsValues(out, values) && Lists(values, seen, states)
        decreases |rest|
      {
        var n :| n in rest;
        var cp := volumes[n].Copy();
        ListsOneMore(values, seen, states, cp.Value());
        if cp.state in states {
          out, values := out + [cp], values + [cp.Value()];
        }
        seen := seen[n := cp.Value()];
        rest := rest - {n};
      }
      assert seen == Contents();
    }

    method DeleteVolume(name: string)
      requires Valid()
      modifies this
      ensures Valid() && Repr == old(Repr) && events == old(events)
      ensures Contents() == old(Contents()) - {name}
    {
      volumes := volumes - {name};
    }

    method SaveEvent(e: Entry)
      requires Valid()
      modifies this`events
      ensures Valid() && events == old(events) + [e] && Contents() == old(Contents())
    {
      events := events + [e];
    }
  }
}
