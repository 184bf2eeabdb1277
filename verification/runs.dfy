// Whole runs of the controller on one service: how many load balancers it has at every moment, safety as
// long as the annotation is good, and what happens once it is stale.
module Runs {
  import opened Config
  import opened Nodes
  import opened Cloud
  import opened Creation
  import opened Manager
  import opened Ownership
  import opened Counting

  // The cloud and the stored service object at one moment.
  datatype State = State(world: World, service: KubeService)

  // What can happen between two moments: an ensure, an update of the hosts, a delete, a user editing the
  // service, or anything that others do in the cloud.
  datatype Event = Ensure(nodes: seq<Node>, result: EnsureResult) | UpdateHosts(nodes: seq<Node>, ok: bool) | Delete(ok: bool)
                 | Edit | Others

  ghost predicate Step(e: Env, given: string, s: State, v: Event, s': State) {
    match v
    case Ensure(nodes, result) => EnsureRun(e, s.world, s.service, nodes, given, s'.world, s'.service, result)
    case UpdateHosts(nodes, ok) => s'.service == s.service && UpdateHostsRun(e, s.world, s.service, nodes, given, s'.world, ok)
    case Delete(ok) => s'.service == s.service && (s'.world, ok) == EnsureDeletedRun(e, s.world, s.service, given)
    case Edit => s'.world == s.world && OwnerOf(s'.service.spec) == OwnerOf(s.service.spec)
                 && s'.service == s.service.(spec := s'.service.spec)
    case Others => s'.service == s.service && Consistent(s'.world) && NoneNameless(s'.world) && NoneReused(s.world, s'.world)
                   && Owned(s'.world, OwnerOf(s.service.spec)) == Owned(s.world, OwnerOf(s.service.spec))
  }

  // Identifiers that were given out before are not given out again.
  ghost predicate NoneReused(w: World, w': World) {
    w'.issued >= w.issued && forall id :: id in w'.lbs && id < w.issued ==> id in w.lbs
  }

  // ----- how many load balancers there are -----

  predicate MakesAt(e: Env, given: string, s: State, v: Event) {
    v.Ensure? && Makes(e, s.world, s.service, v.nodes, given)
  }

  predicate RemovesAt(e: Env, given: string, s: State, v: Event) {
    v.Delete? && Removes(e, s.world, s.service, given)
  }

  function Made(e: Env, given: string, states: seq<State>, events: seq<Event>): (n: nat)
    requires |states| > |events|
    decreases |events|
  {
    if events == [] then 0
    else
      var i := |events| - 1;
      Made(e, given, states, events[..i]) + if MakesAt(e, given, states[i], events[i]) then 1 else 0
  }

  function Removed(e: Env, given: string, states: seq<State>, events: seq<Event>): (n: nat)
    requires |states| > |events|
    decreases |events|
  {
    if events == [] then 0
    else
      var i := |events| - 1;
      Removed(e, given, states, events[..i]) + if RemovesAt(e, given, states[i], events[i]) then 1 else 0
  }

  function OwnedAt(s: State): set<Uuid> {
    Owned(s.world, OwnerOf(s.service.spec))
  }

  // The annotations are both there or both not, and the identifier is one of this service.
  ghost predicate OwnAnnotations(s: State) {
    Annotated(s.world, s.service) && NamesOwn(s.world, s.service)
  }

  lemma StepStaysAnnotated(e: Env, given: string, s: State, v: Event, s': State)
    requires Annotated(s.world, s.service) && Step(e, given, s, v, s')
    ensures Annotated(s'.world, s'.service) && OwnerOf(s'.service.spec) == OwnerOf(s.service.spec)
  {
    match v
    case Ensure(nodes, result) => EnsureCounts(e, s.world, s.service, nodes, given, s'.world, s'.service, result);
    case UpdateHosts(nodes, ok) => HostsCount(e, s.world, s.service, nodes, given, s'.world, ok);
    case Delete(ok) => DeleteKeepsAnnotated(e, s.world, s.service, given);
    case Edit =>
    case Others =>
  }

  // One step adds the load balancer that it makes and removes the annotated one.
  lemma StepCounts(e: Env, given: string, s: State, v: Event, s': State)
    requires OwnAnnotations(s) && Step(e, given, s, v, s')
    ensures OwnAnnotations(s') && OwnerOf(s'.service.spec) == OwnerOf(s.service.spec)
    ensures s.service.id.Id? ==> s'.service.id == s.service.id
    ensures s.world.issued !in OwnedAt(s) && (RemovesAt(e, given, s, v) ==> s.service.id.Id? && s.service.id.uuid in OwnedAt(s))
    ensures OwnedAt(s') == OwnedAt(s) + (if MakesAt(e, given, s, v) then {s.world.issued} else {})
                                      - (if RemovesAt(e, given, s, v) then {s.service.id.uuid} else {})
  {
    match v
    case Ensure(nodes, result) => EnsureCounts(e, s.world, s.service, nodes, given, s'.world, s'.service, result);
    case UpdateHosts(nodes, ok) => HostsCount(e, s.world, s.service, nodes, given, s'.world, ok);
    case Delete(ok) =>
      DeleteKeepsAnnotated(e, s.world, s.service, given);
      DeleteCounts(e, s.world, s.service, given);
    case Edit =>
    case Others => OthersKeepOwn(s, s');
  }

  lemma OthersKeepOwn(s: State, s': State)
    requires OwnAnnotations(s) && s'.service == s.service && NoneReused(s.world, s'.world) && OwnedAt(s') == OwnedAt(s)
    ensures NamesOwn(s'.world, s.service)
  {
    if s.service.id.Id? && s.service.id.uuid in s'.world.lbs {
      assert s.service.id.uuid in OwnedAt(s) ==> s.service.id.uuid in OwnedAt(s');
    }
  }

  lemma StepCountsMembers(e: Env, given: string, s: State, v: Event, s': State)
    requires OwnAnnotations(s) && Step(e, given, s, v, s')
    ensures |OwnedAt(s')| == |OwnedAt(s)| + (if MakesAt(e, given, s, v) then 1 else 0) - (if RemovesAt(e, given, s, v) then 1 else 0)
  {
    StepCounts(e, given, s, v, s');
  }

  ghost predicate Run(e: Env, given: string, states: seq<State>, events: seq<Event>) {
    |states| == |events| + 1 && forall i :: 0 <= i < |events| ==> Step(e, given, states[i], events[i], states[i + 1])
  }

  lemma RunPrefix(e: Env, given: string, states: seq<State>, events: seq<Event>, n: nat)
    requires Run(e, given, states, events) && n <= |events|
    ensures Run(e, given, states[..n + 1], events[..n])
  {
  }

  // Over every run, whatever fails and whether or not the annotation is up to date, the service has as many
  // load balancers as it had, plus those that its ensures made, minus those that its deletes removed.
  lemma {:induction false} RunCounts(e: Env, given: string, states: seq<State>, events: seq<Event>)
    requires Run(e, given, states, events) && OwnAnnotations(states[0])
    ensures var last := states[|events|];
            && OwnAnnotations(last) && OwnerOf(last.service.spec) == OwnerOf(states[0].service.spec)
            && (states[0].service.id.Id? ==> last.service.id == states[0].service.id)
            && |OwnedAt(last)| == |OwnedAt(states[0])| + Made(e, given, states, events) - Removed(e, given, states, events)
    decreases |events|
  {
    if |events| > 0 {
      var i := |events| - 1;
      RunPrefix(e, given, states, events, i);
      RunCounts(e, given, states[..i + 1], events[..i]);
      CountsPrefix(e, given, states, i + 1, events[..i]);
      StepCounts(e, given, states[i], events[i], states[i + 1]);
      StepCountsMembers(e, given, states[i], events[i], states[i + 1]);
    }
  }

  // The counts do not look at states after the events.
  lemma {:induction false} CountsPrefix(e: Env, given: string, states: seq<State>, n: nat, events: seq<Event>)
    requires |events| < n <= |states|
    ensures Made(e, given, states[..n], events) == Made(e, given, states, events)
    ensures Removed(e, given, states[..n], events) == Removed(e, given, states, events)
    decreases |events|
  {
    if events != [] {
      CountsPrefix(e, given, states, n, events[..|events| - 1]);
    }
  }

  // ----- the annotation tracks the load balancer -----

  ghost predicate KeepsReference(e: Env, given: string, s: State, v: Event) {
    && (v.Ensure? ==> !LosesReference(e, s.world, s.service, v.nodes, given))
    && !RemovesAt(e, given, s, v)
  }

  lemma TrackedIsOwn(s: State)
    requires Tracked(s.world, s.service)
    ensures OwnAnnotations(s)
  {
  }

  lemma StepStaysTracked(e: Env, given: string, s: State, v: Event, s': State)
    requires Tracked(s.world, s.service) && Step(e, given, s, v, s')
    ensures Tracked(s'.world, s'.service) <==> KeepsReference(e, given, s, v)
  {
    if v.Ensure? {
      EnsureStaysTracked(e, s.world, s.service, v.nodes, given, s'.world, s'.service, v.result);
    } else {
      StepCounts(e, given, s, v, s');
    }
  }

  // Over every run, with any calls failing at any point and others changing the cloud in between, the
  // annotation tracks the load balancer of the service exactly as long as no ensure loses a reference and
  // no delete removes the load balancer.
  lemma {:induction false} RunStaysTracked(e: Env, given: string, states: seq<State>, events: seq<Event>)
    requires Run(e, given, states, events) && Tracked(states[0].world, states[0].service)
    ensures (forall i :: 0 <= i < |states| ==> Tracked(states[i].world, states[i].service))
            <==> (forall i :: 0 <= i < |events| ==> KeepsReference(e, given, states[i], events[i]))
    decreases |events|
  {
    if |events| > 0 {
      StepStaysTracked(e, given, states[0], events[0], states[1]);
      var rest, later := states[1..], events[1..];
      assert Run(e, given, rest, later) by {
        forall i | 0 <= i < |later| ensures Step(e, given, rest[i], later[i], rest[i + 1]) {
          assert Step(e, given, states[i + 1], events[i + 1], states[i + 2]);
        }
      }
      if Tracked(states[1].world, states[1].service) {
        RunStaysTracked(e, given, rest, later);
        TrackedShift(states);
        assert (forall i :: 0 <= i < |events| ==> KeepsReference(e, given, states[i], events[i])) <==>
               KeepsReference(e, given, states[0], events[0]) && forall i :: 0 <= i < |later| ==> KeepsReference(e, given, rest[i], later[i]);
      }
    }
  }

  // So the service then has at most one load balancer at any moment, and an annotation names it.
  lemma AtMostOneLoadBalancer(e: Env, given: string, states: seq<State>, events: seq<Event>, i: nat)
    requires Run(e, given, states, events) && Tracked(states[0].world, states[0].service)
    requires i < |states| && forall k :: 0 <= k < i ==> KeepsReference(e, given, states[k], events[k])
    ensures var owned := Owned(states[i].world, OwnerOf(states[i].service.spec));
            && |owned| <= 1
            && (forall id :: id in owned ==> states[i].service.id == Id(id))
            && (states[i].service.id.NoId? ==> owned == {})
  {
    RunStaysTracked(e, given, states[..i + 1], events[..i]);
  }

  lemma TrackedShift(states: seq<State>)
    requires |states| > 0
    ensures (forall i :: 0 <= i < |states| ==> Tracked(states[i].world, states[i].service)) <==>
            && Tracked(states[0].world, states[0].service)
            && forall i :: 0 <= i < |states[1..]| ==> Tracked(states[1..][i].world, states[1..][i].service)
  {
    assert forall i :: 1 <= i < |states| ==> states[i] == states[1..][i - 1];
  }

  // ----- a stale annotation -----

  // The annotation names a load balancer that is gone, as after a deletion: deleting does not clear it.
  ghost predicate Stale(s: State) {
    OwnAnnotations(s) && s.service.id.Id? && s.service.id.uuid !in s.world.lbs
  }

  lemma DeletionLeavesStale(e: Env, given: string, s: State, s': State)
    requires Tracked(s.world, s.service) && s.service.id.Id?
    requires Step(e, given, s, Delete(true), s')
    ensures Stale(s') && OwnedAt(s') == {}
  {
    DeleteKeepsAnnotated(e, s.world, s.service, given);
    DeleteCounts(e, s.world, s.service, given);
  }

  // Read off the schedule and the inputs: an ensure with a stale annotation makes a load balancer exactly if the
  // lookup, by an identifier that is gone, is answered, the nodes can be selected, a request can be derived, and
  // the create call is not refused.
  lemma StaleMakes(e: Env, given: string, s: State, nodes: seq<Node>)
    requires Stale(s)
    ensures var ns := EnsuredNodes(e, s.service.spec, nodes);
            Makes(e, s.world, s.service, nodes, given) <==>
            e.faults(s.world.calls).Fine? && ns.Some?
            && CreationMakes(e, Called(s.world), s.service.spec, ns.value, ClusterName(e.settings, given))
  {
  }

  // Nothing repairs a stale annotation, and no delete removes anything any more.
  lemma StaleStep(e: Env, given: string, s: State, v: Event, s': State)
    requires Stale(s) && Step(e, given, s, v, s')
    ensures Stale(s') && !RemovesAt(e, given, s, v) && OwnedAt(s) <= OwnedAt(s')
  {
    StepCounts(e, given, s, v, s');
    var id := s.service.id.uuid;
    assert id in s'.world.lbs ==> id in OwnedAt(s');
  }

  lemma {:induction false} StaleRun(e: Env, given: string, states: seq<State>, events: seq<Event>)
    requires Run(e, given, states, events) && Stale(states[0])
    ensures Stale(states[|events|]) && Removed(e, given, states, events) == 0 && OwnedAt(states[0]) <= OwnedAt(states[|events|])
    decreases |events|
  {
    if |events| > 0 {
      var i := |events| - 1;
      RunPrefix(e, given, states, events, i);
      StaleRun(e, given, states[..i + 1], events[..i]);
      CountsPrefix(e, given, states, i + 1, events[..i]);
      StaleStep(e, given, states[i], events[i], states[i + 1]);
    }
  }

  // So over every run that starts from a stale annotation, with any calls failing, the load balancers only
  // become more, by exactly the number of ensures that make one.
  lemma StaleAnnotationLeaks(e: Env, given: string, states: seq<State>, events: seq<Event>)
    requires Run(e, given, states, events) && Stale(states[0])
    ensures var first, last := states[0], states[|events|];
            && Stale(last) && last.service.id == first.service.id && OwnedAt(first) <= OwnedAt(last)
            && |OwnedAt(last)| == |OwnedAt(first)| + Made(e, given, states, events)
  {
    StaleRun(e, given, states, events);
    RunCounts(e, given, states, events);
  }

  // After a successful delete the service has at most one load balancer exactly if at most one of the
  // ensures since makes one.
  lemma AtMostOneAfterDeletion(e: Env, given: string, s: State, states: seq<State>, events: seq<Event>)
    requires Run(e, given, states, events)
    requires Tracked(s.world, s.service) && s.service.id.Id? && Step(e, given, s, Delete(true), states[0])
    ensures |OwnedAt(states[|events|])| <= 1 <==> Made(e, given, states, events) <= 1
  {
    DeletionLeavesStale(e, given, s, states[0]);
    StaleAnnotationLeaks(e, given, states, events);
  }
}
