/** The Docker Engine and the proxy's route endpoint as the orchestrator sees them: every call may
    fail, and a call that reports a failure may still have taken effect. Each choice of replies is
    made by `*`, so what is proved of a caller holds for every schedule of faults. Containers are
    taken to exit by themselves only as they start or between two passes of the reconciler. */
module Engine {
  import opened Text

  datatype ExitDetails = ExitDetails(exitCode: int, oomKilled: bool, error: string)

  /** A managed container: its lotsen.id label names the deployment. */
  datatype Container = Container(name: string, deployment: string, running: bool, exit: ExitDetails)

  datatype ErrorKind = ConnectionFailed | NotFound | NotModified | Other

  datatype CallError = CallError(kind: ErrorKind, text: string)

  /** ContainerJSON.NetworkSettings.Ports: container port and protocol to host ports; None is a nil
      NetworkSettings. */
  type PortMap = map<string, seq<string>>

  datatype Reply<+T> = Ok(value: T) | Err(error: CallError)

  datatype Call =
    | Ping
    | ListManaged
    | Pull(image: string)
    | Inspect(id: string, network: Option<PortMap>)
    | Create(name: string)
    | Start(id: string)
    | ListRunning(id: string, seen: bool)
    | Route(domain: string, upstream: string, acked: bool)
    | Stop(id: string)
    | Remove(id: string)
    | Rename(id: string, name: string)

  /** One call, whether it reported success, and the containers right after it. */
  datatype Moment = Moment(call: Call, ok: bool, containers: map<string, Container>)

  /** The reply was what the caller hopes for. */
  predicate Fine(m: Moment) {
    && m.ok && (m.call.Inspect? ==> m.call.network.Some?) && (m.call.ListRunning? ==> m.call.seen)
    && (m.call.Route? ==> m.call.acked)
  }

  predicate Touches(c: Call, id: string) {
    (c.Stop? || c.Remove? || c.Start? || c.Rename?) && c.id == id
  }

  ghost predicate SameExcept(before: map<string, Container>, after: map<string, Container>, ids: set<string>) {
    forall k :: k !in ids ==> (k in before <==> k in after) && (k in before ==> before[k] == after[k])
  }

  predicate SameAt(before: map<string, Container>, after: map<string, Container>, k: string) {
    (k in before <==> k in after) && (k in before ==> before[k] == after[k])
  }

  /** The container k is as it was, stopped or gone. */
  predicate OnlyWeaker(before: map<string, Container>, after: map<string, Container>, k: string) {
    k in after ==>
      (k in before && (after[k] == before[k] || after[k] == before[k].(running := false, exit := after[k].exit)))
  }

  predicate Gone(failure: Option<CallError>) {
    match failure case None => true case Some(e) => e.kind.NotFound?
  }

  /** The ids of all containers, each once, in any order. */
  ghost predicate ListsIds(ids: seq<string>, containers: map<string, Container>) {
    (forall i, j :: 0 <= i < j < |ids| ==> ids[i] != ids[j]) && (forall id :: id in ids <==> id in containers)
  }

  predicate Labelled(before: Container, after: Container) {
    after.name == before.name && after.deployment == before.deployment
  }

  class Client {
    var containers: map<string, Container>
    /** Every container id ever given out: the engine never gives one twice. */
    var issued: set<string>
    ghost var log: seq<Moment>

    ghost predicate Valid()
      reads this
    {
      containers.Keys <= issued
    }

    ghost predicate Logged(before: seq<Moment>, call: Call, ok: bool)
      reads this
    {
      log == before + [Moment(call, ok, containers)]
    }

    /** Ping and ImagePull, which change no container. */
    method Send(call: Call) returns (failure: Option<CallError>)
      requires Valid()
      modifies this
      ensures Valid() && containers == old(containers) && issued == old(issued) && Logged(old(log), call, failure.None?)
    {
      failure := *;
      log := log + [Moment(call, failure.None?, containers)];
    }

    method ContainerInspect(id: string) returns (r: Reply<Option<PortMap>>)
      requires Valid()
      modifies this
      ensures Valid() && containers == old(containers) && issued == old(issued)
      ensures Logged(old(log), Inspect(id, if r.Ok? then r.value else None), r.Ok?)
    {
      r := *;
      log := log + [Moment(Inspect(id, if r.Ok? then r.value else None), r.Ok?, containers)];
    }

    /** The engine names a new container with an id it never gave out before. A failing create may
        leave the container behind, under an id that the caller does not learn. */
    method ContainerCreate(name: string, deployment: string) returns (r: Reply<string>, ghost made: Option<string>)
      requires Valid()
      modifies this
      ensures Valid() && issued >= old(issued) && Logged(old(log), Create(name), r.Ok?)
      ensures made.None? ==> containers == old(containers)
      ensures made.Some? ==> made.value !in old(issued) && made.value in issued && made.value in containers
      ensures made.Some? ==> SameExcept(old(containers), containers, {made.value})
      ensures made.Some? ==> containers[made.value].name == name && containers[made.value].deployment == deployment
      ensures r.Ok? ==> made == Some(r.value)
    {
      made := None;
      var id: string := *;
      var taken: bool := *;
      r := *;
      if id in issued {
        r, taken := Err(CallError(Other, "no id")), false;
      } else if r.Ok? {
        r, taken := Ok(id), true;
      }
      if taken {
        var exit: ExitDetails := *;
        containers := containers[id := Container(name, deployment, false, exit)];
        issued := issued + {id};
        made := Some(id);
      }
      log := log + [Moment(Create(name), r.Ok?, containers)];
    }

    /** A started container may exit at once. */
    method ContainerStart(id: string) returns (failure: Option<CallError>)
      requires Valid()
      modifies this
      ensures Valid() && issued == old(issued) && Logged(old(log), Start(id), failure.None?)
      ensures containers.Keys == old(containers).Keys && SameExcept(old(containers), containers, {id})
      ensures id in containers ==> Labelled(old(containers)[id], containers[id])
    {
      failure := *;
      if id in containers {
        var running: bool := *;
        containers := containers[id := containers[id].(running := running)];
      }
      log := log + [Moment(Start(id), failure.None?, containers)];
    }

    /** ContainerList of all managed containers. */
    method AllIds() returns (r: Reply<seq<string>>)
      requires Valid()
      modifies this
      ensures Valid() && containers == old(containers) && issued == old(issued)
      ensures Logged(old(log), ListManaged, r.Ok?)
      ensures r.Ok? ==> ListsIds(r.value, containers)
    {
      var fails: bool := *;
      log := log + [Moment(ListManaged, !fails, containers)];
      if fails {
        var error: CallError := *;
        return Err(error);
      }
      var rest, ids: seq<string> := containers.Keys, [];
      while rest != {}
        invariant rest <= containers.Keys && (forall id :: id in ids <==> id in containers && id !in rest)
        invariant forall i, j :: 0 <= i < j < |ids| ==> ids[i] != ids[j]
      {
        var id :| id in rest;
        forall i | 0 <= i < |ids| ensures ids[i] != id { assert ids[i] in ids; }
        rest, ids := rest - {id}, ids + [id];
      }
      r := Ok(ids);
    }

    /** ContainerInspect for the exit details; None when the call fails. */
    method ExitOf(id: string) returns (exit: Option<ExitDetails>)
      requires Valid()
      modifies this
      ensures Valid() && containers == old(containers) && issued == old(issued)
      ensures Logged(old(log), Inspect(id, None), exit.Some?)
      ensures exit.Some? ==> id in containers && exit.value == containers[id].exit
    {
      var fails: bool := *;
      exit := if id in containers && !fails then Some(containers[id].exit) else None;
      log := log + [Moment(Inspect(id, None), exit.Some?, containers)];
    }

    /** ContainerList of the running containers with this id. */
    method RunningWithId(id: string) returns (r: Reply<bool>)
      requires Valid()
      modifies this
      ensures Valid() && containers == old(containers) && issued == old(issued)
      ensures Logged(old(log), ListRunning(id, r == Ok(true)), r.Ok?)
      ensures r == Ok(true) ==> id in containers && containers[id].running
    {
      var fails: bool := *;
      var error: CallError := *;
      r := if fails then Err(error) else Ok(id in containers && containers[id].running);
      log := log + [Moment(ListRunning(id, r == Ok(true)), r.Ok?, containers)];
    }

    method ContainerStop(id: string) returns (failure: Option<CallError>)
      requires Valid()
      modifies this
      ensures Valid() && issued == old(issued) && Logged(old(log), Stop(id), failure.None?)
      ensures SameExcept(old(containers), containers, {id}) && OnlyWeaker(old(containers), containers, id)
      ensures failure.None? && id in containers ==> !containers[id].running
    {
      failure := *;
      var took: bool := *;
      if id in containers && (took || failure.None?) {
        var exit: ExitDetails := *;
        containers := containers[id := containers[id].(running := false, exit := exit)];
      }
      log := log + [Moment(Stop(id), failure.None?, containers)];
    }

    /** The container is gone after a success and after a NotFound reply. */
    method ContainerRemove(id: string) returns (failure: Option<CallError>)
      requires Valid()
      modifies this
      ensures Valid() && issued == old(issued) && Logged(old(log), Remove(id), failure.None?)
      ensures SameExcept(old(containers), containers, {id}) && OnlyWeaker(old(containers), containers, id)
      ensures Gone(failure) ==> id !in containers
    {
      failure := *;
      var took: bool := *;
      if took || Gone(failure) { containers := containers - {id}; }
      log := log + [Moment(Remove(id), failure.None?, containers)];
    }

    method ContainerRename(id: string, name: string) returns (failure: Option<CallError>)
      requires Valid()
      modifies this
      ensures Valid() && issued == old(issued) && Logged(old(log), Rename(id, name), failure.None?)
      ensures containers.Keys == old(containers).Keys && SameExcept(old(containers), containers, {id})
      ensures id in containers ==> containers[id] == old(containers)[id].(name := containers[id].name)
      ensures id in containers && failure.None? ==> containers[id].name == name
    {
      failure := *;
      var took: bool := *;
      if id in containers && (took || failure.None?) {
        containers := containers[id := containers[id].(name := name)];
      }
      log := log + [Moment(Rename(id, name), failure.None?, containers)];
    }

    /** POST /internal/routes to the proxy. */
    method PostRoute(domain: string, upstream: string) returns (acked: bool)
      requires Valid()
      modifies this
      ensures Valid() && containers == old(containers) && issued == old(issued)
      ensures Logged(old(log), Route(domain, upstream, acked), acked)
    {
      acked := *;
      log := log + [Moment(Route(domain, upstream, acked), acked, containers)];
    }
  }
}
