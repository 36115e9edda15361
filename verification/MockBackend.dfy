/** The in-memory backend: it keeps its own records and changes them in place. */
module Mock {
  import opened Storage
  import opened Fsm
  import opened Lifecycle
  import opened Repository

  class MockBackend {
    var volumes: map<string, VolumeRecord>
    ghost var Repr: set<VolumeRecord>

    ghost predicate Valid()
      reads this, Repr
    {
      forall n <- volumes :: volumes[n] in Repr && volumes[n].name == n
    }

    function Contents(): map<string, Volume>
      reads this, Repr
      requires Valid()
    {
      map n | n in volumes :: volumes[n].Value()
    }

    constructor ()
      ensures Valid() && Repr == {} && Contents() == map[]
    {
      volumes, Repr := map[], {};
    }

    method CreateVolume(name: string, sizeMB: int, uuid: string) returns (created: VolumeRecord?)
      requires Valid()
      modifies this
      ensures Valid() && fresh(Repr - old(Repr))
      ensures var served := Serve(old(Contents()), Task(name, CreateOp, sizeMB, ""), uuid);
              && (created != null) == served.Some?
              && Contents() == (if served.Some? then served.value else old(Contents()))
              && (created != null ==> fresh(created) && created !in Repr && created.Value() == Contents()[name])
      ensures (created != null) == (sizeMB > 0 && name !in old(Contents()))
      ensures created != null ==>
                Contents() == old(Contents())[name := Volume(uuid, name, sizeMB, Available, "mock", "")]
    {
      if sizeMB <= 0 || name in volumes {
        return null;
      }
      var v := new VolumeRecord(Volume(uuid, name, sizeMB, Available, "mock", ""));
      volumes := volumes[name := v];
      Repr := Repr + {v};
      created := v.Copy();
    }

    method DeleteVolume(name: string) returns (ok: bool)
      requires Valid()
      modifies this
      ensures Valid() && Repr == old(Repr)
      ensures var served := Serve(old(Contents()), Task(name, DeleteOp, 0, ""), "");
              ok == served.Some? && Contents() == (if ok then served.value else old(Contents()))
      ensures ok == (name in old(Contents()) && old(Contents())[name].state != Attached)
      ensures ok ==> Contents() == old(Contents()) - {name}
    {
      if name !in volumes || volumes[name].state == Attached {
        return false;
      }
      volumes := volumes - {name};
      ok := true;
    }

    /** Reports an absent volume as an error, which is null here. */
    method GetVolume(name: string) returns (v: VolumeRecord?)
      requires Valid()
      ensures (v == null) == (name !in Contents())
      ensures v != null ==> fresh(v) && v.Value() == Contents()[name]
    {
      if name !in volumes {
        return null;
      }
      v := volumes[name].Copy();
    }

    method AttachVolume(name: string, nodeID: string) returns (ok: bool)
      requires Valid()
      modifies Repr
      ensures Valid()
      ensures var served := Serve(old(Contents()), Task(name, AttachOp, 0, nodeID), "");
              ok == served.Some? && Contents() == (if ok then served.value else old(Contents()))
      ensures ok == (name in old(Contents()) && old(Contents())[name].state == Available)
      ensures ok ==> Contents() == old(Contents())[name := old(Contents())[name].(state := Attached, nodeID := nodeID)]
    {
      if name !in volumes || volumes[name].state != Available {
        return false;
      }
      var v := volumes[name];
      v.nodeID := nodeID;
      v.state := Attached;
      ok := true;
    }

    method DetachVolume(name: string) returns (ok: bool)
      requires Valid()
      modifies Repr
      ensures Valid()
      ensures var served := Serve(old(Contents()), Task(name, DetachOp, 0, ""), "");
              ok == served.Some? && Contents() == (if ok then served.value else old(Contents()))
      ensures ok == (name in old(Contents()) && old(Contents())[name].state == Attached)
      ensures ok ==> Contents() == old(Contents())[name := old(Contents())[name].(state := Available, nodeID := "")]
    {
      if name !in volumes || volumes[name].state != Attached {
        return false;
      }
      var v := volumes[name];
      v.nodeID := "";
      v.state := Available;
      ok := true;
    }

    /** Everything held, each volume once, as copies. */
    method ListVolumes() returns (out: seq<VolumeRecord>, ghost values: seq<Volume>)
      requires Valid()
      ensures forall v <- out :: fresh(v)
      ensures ShowsValues(out, values) && Lists(values, Contents(), AllStates())
    {
      hide Lists, AllStates;
      ListsNothing(AllStates());
      out, values := [], [];
      var rest := volumes.Keys;
      ghost var seen: map<string, Volume> := map[];
      while rest != {}
        invariant rest <= volumes.Keys && seen.Keys == volumes.Keys - rest
        invariant forall n <- seen :: seen[n] == volumes[n].Value()
        invariant forall v <- out :: fresh(v)
        invariant ShowsValues(out, values) && Lists(values, seen, AllStates())
        decreases |rest|
      {
        var n :| n in rest;
        assert volumes[n].name == n;
        var cp := volumes[n].Copy();
        EveryStateIsOne(cp.state);
        ListsOneMore(values, seen, AllStates(), cp.Value());
        out, values := out + [cp], values + [cp.Value()];
        seen := seen[n := cp.Value()];
        rest := rest - {n};
      }
      assert seen == Contents();
    }
  }
}
