/** Coordinators sharing transports: commands one at a time per coordinator, receives at any time. */
module LifecycleRuns {
  import opened Contracts
  import opened LifecycleCoordinators

  /** What holds the Control Tower's command lock; `Restarting` stands between the stop and the start of a restart. */
  datatype Command =
    | NoCommand
    | Running(at: Await, restart: Option<Policy>)
    | Restarting(policy: Policy)

  /**
    `readmitted`: a start was admitted without ownership; `undercut`: an exception escaped from a waiting
    stop and gave the transport away while receives were in flight; `awaited`: how the awaits of the
    last start or stop have ended so far.
   */
  datatype History = History(readmitted: bool, undercut: bool, awaited: seq<AwaitOutcome>)

  datatype Node = Node(transport: string, life: Lifecycle, command: Command, history: History)

  datatype System = System(nodes: seq<Node>, owners: map<string, nat>)

  const START := System([], map[])

  datatype Event =
    | Build(transport: string, constructed: bool)
    | StartLive(node: nat, policy: Policy, calls: Calls)
    | StopLive(node: nat, calls: Calls)
    | RestartLive(node: nat, policy: Policy, calls: Calls)
    | RestartStarts(node: nat, calls: Calls)
    | Resume(node: nat, outcome: AwaitOutcome, calls: Calls)
    | BeginReceive(node: nat)
    | EndReceive(node: nat)

  /** The outcomes an await can have; a drain completes only when no receive is left. */
  predicate CanEnd(life: Lifecycle, at: Await, outcome: AwaitOutcome) {
    at.WaitsForDrain() ==> outcome != Failed && (outcome == Completed ==> life.drained)
  }

  /** What can happen to a coordinator: the lock lets a command begin only when no other is under way. */
  predicate Possible(node: Node, event: Event) {
    match event
    case Build(_, _) => false
    case StartLive(_, _, _) | StopLive(_, _) | RestartLive(_, _, _) => node.command == NoCommand
    case RestartStarts(_, _) => node.command.Restarting?
    case Resume(_, outcome, _) => node.command.Running? && CanEnd(node.life, node.command.at, outcome)
    case BeginReceive(_) => true
    case EndReceive(_) => node.life.activeReceives > 0
  }

  function CommandAfter(progress: Progress, restart: Option<Policy>): Command {
    match progress
    case Suspended(at) => Running(at, restart)
    case Returned => if restart.Some? then Restarting(restart.value) else NoCommand
    case Raised(_) => NoCommand
  }

  function AfterSegment(node: Node, segment: (Lifecycle, Progress), restart: Option<Policy>): Node {
    node.(life := segment.0, command := CommandAfter(segment.1, restart))
  }

  function AfterStart(node: Node, policy: Policy, calls: Calls): Node {
    var unowned := RestartAdmitted(node.life) && !node.life.holdsRelease;
    AfterSegment(node, Started(node.life, policy, calls), None)
      .(history := node.history.(readmitted := node.history.readmitted || unowned, awaited := []))
  }

  function AfterStop(node: Node, calls: Calls, restart: Option<Policy>): Node {
    AfterSegment(node, StopRequested(node.life, calls), restart).(history := node.history.(awaited := []))
  }

  /**
    An exception that no handler catches ends a wait of `stop` before any failure to close was recorded,
    and both calls of the `finally` block succeed.
   */
  predicate EscapesWaitingStop(node: Node, outcome: AwaitOutcome, calls: Calls) {
    && outcome == Interrupted
    && node.command.Running? && !node.command.at.OfStart()
    && (node.command.at.ClosingExecution? || !node.command.at.closeFailed)
    && calls.controllerStops && calls.releases
  }

  predicate Escapes(node: Node, event: Event) {
    event.Resume? && EscapesWaitingStop(node, event.outcome, event.calls)
  }

  function AfterResume(node: Node, outcome: AwaitOutcome, calls: Calls): Node
    requires node.command.Running?
  {
    var undercut := node.life.holdsRelease && node.life.activeReceives > 0 && EscapesWaitingStop(node, outcome, calls);
    AfterSegment(node, Resumed(node.life, node.command.at, outcome, calls), node.command.restart)
      .(history := node.history.(undercut := node.history.undercut || undercut,
                                 awaited := node.history.awaited + [outcome]))
  }

  function AfterEvent(node: Node, event: Event): Node
    requires Possible(node, event)
  {
    match event
    case StartLive(_, policy, calls) => AfterStart(node, policy, calls)
    case StopLive(_, calls) => AfterStop(node, calls, None)
    case RestartLive(_, policy, calls) => AfterStop(node, calls, Some(policy))
    case RestartStarts(_, calls) => AfterStart(node, node.command.policy, calls)
    case Resume(_, outcome, calls) => AfterResume(node, outcome, calls)
    case BeginReceive(_) => node.(life := ReceiveBegun(node.life))
    case EndReceive(_) => node.(life := ReceiveEnded(node.life))
  }

  predicate Happens(system: System, event: Event) {
    !event.Build? && event.node < |system.nodes| && Possible(system.nodes[event.node], event)
  }

  predicate Releases(before: Node, after: Node) {
    before.life.holdsRelease && !after.life.holdsRelease
  }

  function Step(system: System, event: Event): System {
    if event.Build? then
      // a coordinator that cannot be constructed gives its claim back at once
      if event.transport in system.owners || !event.constructed then system
      else System(system.nodes + [Node(event.transport, FRESH, NoCommand, History(false, false, []))],
                  system.owners[event.transport := |system.nodes|])
    else if !Happens(system, event) then system
    else
      var before := system.nodes[event.node];
      var after := AfterEvent(before, event);
      System(system.nodes[event.node := after],
             if Releases(before, after) then Released(system.owners, before.transport, event.node) else system.owners)
  }

  function Execute(events: seq<Event>): System {
    if events == [] then START else Step(Execute(events[..|events| - 1]), events[|events| - 1])
  }

  // ----- the invariant of one coordinator -----

  /** Flags, command and technical state fit together. */
  ghost predicate Coherent(node: Node) {
    var Node(_, life, command, _) := node;
    && (life.drained <==> life.activeReceives == 0)
    && (life.technicalState.Some? ==> !life.started && life.stopping && command == NoCommand)
    && (life.stopping && life.technicalState.None? ==> life.started && command.Running? && !command.at.OfStart())
    && (command.Running? && !command.at.OfStart() ==> life.started && life.stopping)
    && (command.Running? && command.at.OfStart() ==> RestartAdmitted(life) && command.restart.None?)
    && (command.Restarting? ==> RestartAdmitted(life))
  }

  /** A stopped coordinator that still owns its transport is receiving nothing. */
  ghost predicate QuietWhenStopped(node: Node) {
    RestartAdmitted(node.life) && node.life.holdsRelease ==> node.life.activeReceives == 0
  }

  /** Who starts or receives without owning the transport has been restarted, or undercut. */
  ghost predicate OwnsWhatItUses(node: Node) {
    !node.life.holdsRelease ==>
      && (node.life.started || (node.command.Running? && node.command.at.StartingExecution?) ==>
            node.history.readmitted)
      && (node.life.activeReceives > 0 ==> node.history.readmitted || node.history.undercut)
  }

  ghost predicate NodeInvariant(node: Node) {
    Coherent(node) && QuietWhenStopped(node) && OwnsWhatItUses(node)
  }

  lemma StartKeepsNode(node: Node, policy: Policy, calls: Calls)
    requires NodeInvariant(node) && !node.command.Running?
    ensures NodeInvariant(AfterStart(node, policy, calls))
  {
  }

  lemma StopKeepsNode(node: Node, calls: Calls, restart: Option<Policy>)
    requires NodeInvariant(node) && node.command == NoCommand
    ensures NodeInvariant(AfterStop(node, calls, restart))
  {
  }

  lemma ResumedStartKeepsNode(node: Node, outcome: AwaitOutcome, calls: Calls)
    requires NodeInvariant(node) && node.command.Running? && node.command.at.OfStart()
    ensures NodeInvariant(AfterResume(node, outcome, calls))
  {
  }

  lemma ResumedStopKeepsNode(node: Node, outcome: AwaitOutcome, calls: Calls)
    requires NodeInvariant(node) && node.command.Running? && !node.command.at.OfStart()
    requires CanEnd(node.life, node.command.at, outcome)
    ensures NodeInvariant(AfterResume(node, outcome, calls))
  {
    ResumedStopIsCoherent(node, outcome, calls);
    ResumedStopIsQuiet(node, outcome, calls);
  }

  lemma ResumedStopIsCoherent(node: Node, outcome: AwaitOutcome, calls: Calls)
    requires Coherent(node) && node.command.Running? && !node.command.at.OfStart()
    requires CanEnd(node.life, node.command.at, outcome)
    ensures Coherent(AfterResume(node, outcome, calls))
  {
  }

  lemma ResumedStopIsQuiet(node: Node, outcome: AwaitOutcome, calls: Calls)
    requires NodeInvariant(node) && node.command.Running? && !node.command.at.OfStart()
    requires CanEnd(node.life, node.command.at, outcome)
    ensures QuietWhenStopped(AfterResume(node, outcome, calls)) && OwnsWhatItUses(AfterResume(node, outcome, calls))
  {
  }

  lemma ReceiveKeepsNode(node: Node, event: Event)
    requires NodeInvariant(node) && Possible(node, event) && (event.BeginReceive? || event.EndReceive?)
    ensures NodeInvariant(AfterEvent(node, event))
  {
  }

  lemma EventKeepsNode(node: Node, event: Event)
    requires NodeInvariant(node) && Possible(node, event)
    ensures NodeInvariant(AfterEvent(node, event))
  {
    match event
    case StartLive(_, policy, calls) => StartKeepsNode(node, policy, calls);
    case StopLive(_, calls) => StopKeepsNode(node, calls, None);
    case RestartLive(_, policy, calls) => StopKeepsNode(node, calls, Some(policy));
    case RestartStarts(_, calls) => StartKeepsNode(node, node.command.policy, calls);
    case Resume(_, outcome, calls) =>
      if node.command.at.OfStart() {
        ResumedStartKeepsNode(node, outcome, calls);
      } else {
        ResumedStopKeepsNode(node, outcome, calls);
      }
    case BeginReceive(_) => ReceiveKeepsNode(node, event);
    case EndReceive(_) => ReceiveKeepsNode(node, event);
  }

  // ----- the invariant of all -----

  ghost predicate Owns(system: System, i: nat) {
    i < |system.nodes| && system.nodes[i].life.holdsRelease
  }

  /** The registry and the coordinators agree: a transport is taken exactly by who can still release it. */
  ghost predicate RegistryAgrees(system: System) {
    && (forall transport :: transport in system.owners ==>
          Owns(system, system.owners[transport]) && system.nodes[system.owners[transport]].transport == transport)
    && (forall i :: 0 <= i < |system.nodes| && system.nodes[i].life.holdsRelease ==>
          system.nodes[i].transport in system.owners && system.owners[system.nodes[i].transport] == i)
  }

  ghost predicate Invariant(system: System) {
    RegistryAgrees(system) && forall i :: 0 <= i < |system.nodes| ==> NodeInvariant(system.nodes[i])
  }

  /** What no event changes, gives back or takes away. */
  ghost predicate Follows(before: Node, after: Node) {
    && after.transport == before.transport
    && (after.life.holdsRelease ==> before.life.holdsRelease)
    && (before.history.readmitted ==> after.history.readmitted)
    && (before.history.undercut ==> after.history.undercut)
  }

  lemma EventFollows(node: Node, event: Event)
    requires Possible(node, event)
    ensures Follows(node, AfterEvent(node, event))
  {
  }

  lemma StepKeepsInvariant(system: System, event: Event)
    requires Invariant(system)
    ensures Invariant(Step(system, event))
  {
    if Happens(system, event) {
      EventKeepsNode(system.nodes[event.node], event);
      EventFollows(system.nodes[event.node], event);
      StepKeepsRegistry(system, event.node, AfterEvent(system.nodes[event.node], event));
    }
  }

  lemma StepKeepsRegistry(system: System, i: nat, after: Node)
    requires RegistryAgrees(system) && i < |system.nodes| && Follows(system.nodes[i], after)
    ensures var before := system.nodes[i];
            RegistryAgrees(System(system.nodes[i := after],
              if Releases(before, after) then Released(system.owners, before.transport, i) else system.owners))
  {
  }

  lemma {:induction false} RunsKeepInvariant(events: seq<Event>)
    ensures Invariant(Execute(events))
  {
    if events != [] {
      RunsKeepInvariant(events[..|events| - 1]);
      StepKeepsInvariant(Execute(events[..|events| - 1]), events[|events| - 1]);
    }
  }

  // ----- safety -----

  /** With no command under way callers find a failed coordinator, a running one, or one that admits a start. */
  lemma CoordinatorShapes(events: seq<Event>, i: nat)
    requires i < |Execute(events).nodes|
    ensures var Node(_, life, command, _) := Execute(events).nodes[i];
            && (life.technicalState.Some? ==> !life.started && life.stopping && command == NoCommand)
            && (command == NoCommand && life.technicalState.None? ==> life.started || RestartAdmitted(life))
            && (command == NoCommand && life.started ==> !life.stopping && life.technicalState.None?)
            && (life.drained <==> life.activeReceives == 0)
  {
    RunsKeepInvariant(events);
  }

  /**
    When ownership is given up with receives in flight, exactly: in every run, an event takes the
    transport from under a coordinator's receives if and only if it owns the transport, has receives
    in flight, and the event is an exception escaping from its waiting stop.
   */
  lemma ReleasedUnderReceiversExactly(events: seq<Event>, event: Event, i: nat)
    requires i < |Execute(events).nodes|
    ensures var before, after := Execute(events).nodes[i], Step(Execute(events), event).nodes[i];
            Releases(before, after) && before.life.activeReceives > 0 <==>
              && before.life.activeReceives > 0 && before.life.holdsRelease
              && Happens(Execute(events), event) && event.node == i && Escapes(before, event)
  {
    RunsKeepInvariant(events);
    if Happens(Execute(events), event) && event.node == i && Execute(events).nodes[i].life.activeReceives > 0 {
      EventReleasesUnderReceivers(Execute(events).nodes[i], event);
    }
  }

  /**
    Ownership ends at one point only: when a start or stop has come to its end without a terminal
    state, with no receive in flight, except for an exception escaping from a waiting stop; and the
    registry forgets the claim.
   */
  lemma OwnershipEndsQuietly(events: seq<Event>, event: Event, i: nat)
    requires i < |Execute(events).nodes|
    requires Releases(Execute(events).nodes[i], Step(Execute(events), event).nodes[i])
    ensures var before, after := Execute(events).nodes[i], Step(Execute(events), event).nodes[i];
            && (before.life.activeReceives == 0 || Escapes(before, event))
            && RestartAdmitted(after.life)
            && !after.command.Running?
            && before.transport !in Step(Execute(events), event).owners
  {
    RunsKeepInvariant(events);
    assert Happens(Execute(events), event) && event.node == i;
    EventReleasesAtEnd(Execute(events).nodes[i], event);
    ReleasedUnderReceiversExactly(events, event, i);
  }

  lemma EventReleasesAtEnd(node: Node, event: Event)
    requires NodeInvariant(node) && Possible(node, event) && Releases(node, AfterEvent(node, event))
    ensures RestartAdmitted(AfterEvent(node, event).life) && !AfterEvent(node, event).command.Running?
  {
  }

  lemma EventReleasesUnderReceivers(node: Node, event: Event)
    requires NodeInvariant(node) && Possible(node, event) && node.life.activeReceives > 0
    ensures Releases(node, AfterEvent(node, event)) <==> node.life.holdsRelease && Escapes(node, event)
  {
    match event
    case Resume(_, outcome, calls) => ResumeReleasesUnderReceivers(node, outcome, calls);
    case _ =>
  }

  lemma ResumeReleasesUnderReceivers(node: Node, outcome: AwaitOutcome, calls: Calls)
    requires NodeInvariant(node) && node.command.Running? && node.life.activeReceives > 0
    requires CanEnd(node.life, node.command.at, outcome)
    ensures Releases(node, AfterResume(node, outcome, calls)) <==>
              node.life.holdsRelease && EscapesWaitingStop(node, outcome, calls)
  {
  }

  /** Start, stop and receive leave a terminal state alone; receives still in flight may end. */
  ghost predicate StillTerminal(before: Lifecycle, after: Lifecycle) {
    && after.technicalState == before.technicalState && !after.started && after.stopping
    && after.holdsRelease == before.holdsRelease
    && after.activeReceives <= before.activeReceives
  }

  lemma TerminalAbsorbs(node: Node, event: Event)
    requires Coherent(node) && node.life.technicalState.Some? && Possible(node, event)
    ensures StillTerminal(node.life, AfterEvent(node, event).life)
  {
  }

  lemma StepFollows(system: System, event: Event, i: nat)
    requires Invariant(system) && i < |system.nodes|
    ensures var after := Step(system, event);
            && i < |after.nodes|
            && Follows(system.nodes[i], after.nodes[i])
            && (system.nodes[i].life.technicalState.Some? ==> StillTerminal(system.nodes[i].life, after.nodes[i].life))
  {
    if Happens(system, event) && event.node == i {
      EventFollows(system.nodes[i], event);
      if system.nodes[i].life.technicalState.Some? {
        TerminalAbsorbs(system.nodes[i], event);
      }
    }
  }

  /** Who can no longer release never claims again, and who has failed for good stays as it is. */
  lemma {:induction false} LaterRunsFollow(events: seq<Event>, more: seq<Event>, i: nat)
    requires i < |Execute(events).nodes|
    ensures i < |Execute(events + more).nodes|
    ensures Follows(Execute(events).nodes[i], Execute(events + more).nodes[i])
    ensures Execute(events).nodes[i].life.technicalState.Some? ==>
              StillTerminal(Execute(events).nodes[i].life, Execute(events + more).nodes[i].life)
  {
    RunsKeepInvariant(events);
    if more == [] {
      assert events + more == events;
    } else {
      var front, last := more[..|more| - 1], more[|more| - 1];
      LaterRunsFollow(events, front, i);
      ExecuteOneMore(events + front, last);
      assert events + more == events + front + [last];
      RunsKeepInvariant(events + front);
      StepFollows(Execute(events + front), last, i);
    }
  }

  lemma ExecuteOneMore(events: seq<Event>, next: Event)
    ensures Execute(events + [next]) == Step(Execute(events), next)
  {
    assert (events + [next])[..|events + [next]| - 1] == events;
  }

  /** How often a run gives up the ownership of one coordinator. */
  ghost function ReleaseCount(events: seq<Event>, i: nat): nat {
    if events == [] then 0
    else
      var before, after := Execute(events[..|events| - 1]), Execute(events);
      ReleaseCount(events[..|events| - 1], i) +
      (if i < |before.nodes| && i < |after.nodes| && Releases(before.nodes[i], after.nodes[i]) then 1 else 0)
  }

  /** Once, or not yet. */
  lemma {:induction false} ReleasedAtMostOnce(events: seq<Event>, i: nat)
    requires i < |Execute(events).nodes|
    ensures ReleaseCount(events, i) == if Execute(events).nodes[i].life.holdsRelease then 0 else 1
  {
    var front, last := events[..|events| - 1], events[|events| - 1];
    if i < |Execute(front).nodes| {
      ReleasedAtMostOnce(front, i);
      RunsKeepInvariant(front);
      StepFollows(Execute(front), last, i);
    } else {
      NotBuiltNotReleased(front, i);
    }
  }

  lemma {:induction false} NotBuiltNotReleased(events: seq<Event>, i: nat)
    requires |Execute(events).nodes| <= i
    ensures ReleaseCount(events, i) == 0
  {
    if events != [] {
      NotBuiltNotReleased(events[..|events| - 1], i);
    }
  }

  // ----- one receiver per transport -----

  /** A coordinator is undercut by exactly the events that release under its receives. */
  lemma UndercutMeansReleasedUnderReceivers(events: seq<Event>, event: Event, i: nat)
    requires i < |Execute(events).nodes|
    ensures var before, after := Execute(events).nodes[i], Step(Execute(events), event).nodes[i];
            after.history.undercut <==>
              before.history.undercut || (Releases(before, after) && before.life.activeReceives > 0)
  {
    ReleasedUnderReceiversExactly(events, event, i);
  }

  /**
    Two coordinators never receive from one transport at the same time, in any run in which neither
    of them is started again after its release or undercut by an exception escaping from its stop.
   */
  lemma OneReceiverPerTransport(events: seq<Event>, i: nat, j: nat)
    requires i < |Execute(events).nodes| && j < |Execute(events).nodes|
    requires !Execute(events).nodes[i].history.readmitted && !Execute(events).nodes[j].history.readmitted
    requires !Execute(events).nodes[i].history.undercut && !Execute(events).nodes[j].history.undercut
    requires Execute(events).nodes[i].transport == Execute(events).nodes[j].transport
    requires Execute(events).nodes[i].life.activeReceives > 0 && Execute(events).nodes[j].life.activeReceives > 0
    ensures i == j
  {
    RunsKeepInvariant(events);
    assert OwnsWhatItUses(Execute(events).nodes[i]) && OwnsWhatItUses(Execute(events).nodes[j]);
  }

  const FINE := Calls(true, true, true)

  const PATIENT := Policy(10.0, 5.0)

  /** Start a coordinator and let it receive. */
  function Up(i: nat): seq<Event> {
    [StartLive(i, PATIENT, FINE), Resume(i, Completed, FINE), BeginReceive(i)]
  }

  lemma UpReceives(events: seq<Event>, i: nat)
    requires i < |Execute(events).nodes|
    requires var node := Execute(events).nodes[i]; node.command == NoCommand && RestartAdmitted(node.life)
    ensures var before, after := Execute(events), Execute(events + Up(i));
            && |after.nodes| == |before.nodes|
            && after.nodes[i].life.activeReceives > 0 && after.nodes[i].transport == before.nodes[i].transport
            && (forall k :: 0 <= k < |before.nodes| && k != i ==> after.nodes[k] == before.nodes[k])
  {
    ExecuteTwoMore(events, StartLive(i, PATIENT, FINE), Resume(i, Completed, FINE));
    var started := events + [StartLive(i, PATIENT, FINE)] + [Resume(i, Completed, FINE)];
    ExecuteOneMore(started, BeginReceive(i));
    assert started + [BeginReceive(i)] == events + Up(i);
  }

  /** The condition above is needed: any coordinator that has been stopped can come back to a transport taken since. */
  lemma StoppedCoordinatorCanCollide(events: seq<Event>, i: nat)
    requires i < |Execute(events).nodes|
    requires var node := Execute(events).nodes[i];
             && node.command == NoCommand && RestartAdmitted(node.life) && !node.life.holdsRelease
             && node.transport !in Execute(events).owners
    ensures var before := Execute(events);
            var j := |before.nodes|;
            var after := Execute(events + [Build(before.nodes[i].transport, true)] + Up(j) + Up(i));
            && j < |after.nodes| && after.nodes[i].transport == after.nodes[j].transport
            && after.nodes[i].life.activeReceives > 0 && after.nodes[j].life.activeReceives > 0
  {
    var before := Execute(events);
    var j, built := |before.nodes|, events + [Build(before.nodes[i].transport, true)];
    ExecuteOneMore(events, Build(before.nodes[i].transport, true));
    UpReceives(built, j);
    assert Execute(built + Up(j)).nodes[i] == before.nodes[i];
    UpReceives(built + Up(j), i);
  }

  lemma ExecuteTwoMore(events: seq<Event>, next: Event, last: Event)
    ensures Execute(events + [next] + [last]) == Step(Step(Execute(events), next), last)
  {
    ExecuteOneMore(events, next);
    ExecuteOneMore(events + [next], last);
  }

  /** Such a coordinator is easily had: build one, and stop it before it ever starts. */
  lemma CollisionIsReachable(transport: string)
    ensures var stopped := [Build(transport, true)] + [StopLive(0, FINE)];
            var after := Execute(stopped + [Build(transport, true)] + Up(1) + Up(0)).nodes;
            && |after| > 1 && after[0].transport == after[1].transport
            && after[0].life.activeReceives > 0 && after[1].life.activeReceives > 0
  {
    var stopped := [Build(transport, true)] + [StopLive(0, FINE)];
    ExecuteOneMore([], Build(transport, true));
    assert [] + [Build(transport, true)] == [Build(transport, true)];
    ExecuteOneMore([Build(transport, true)], StopLive(0, FINE));
    StoppedCoordinatorCanCollide(stopped, 0);
  }

  /** So is the other one: an exception that escapes while a stop waits gives the transport away under its receivers. */
  lemma InterruptedStopReleasesUnderReceivers(events: seq<Event>, i: nat)
    requires i < |Execute(events).nodes|
    requires var node := Execute(events).nodes[i];
             && node.command == NoCommand && node.life.started && node.life.holdsRelease
             && node.life.activeReceives > 0 && !InvalidTimeouts(node.life.policy)
    ensures var before := Execute(events);
            var after := Execute(events + [StopLive(i, FINE)] + [Resume(i, Interrupted, FINE)]);
            && |after.nodes| == |before.nodes| && after.nodes[i].transport == before.nodes[i].transport
            && !after.nodes[i].life.holdsRelease && after.nodes[i].life.activeReceives > 0
            && after.nodes[i].transport !in after.owners
  {
    var stopping := events + [StopLive(i, FINE)];
    ExecuteOneMore(events, StopLive(i, FINE));
    ExecuteOneMore(stopping, Resume(i, Interrupted, FINE));
    OwnershipEndsQuietly(stopping, Resume(i, Interrupted, FINE), i);
  }

  /** And then whoever takes the transport next receives from it beside the receives still in flight. */
  lemma UndercutCoordinatorCollides(events: seq<Event>, i: nat)
    requires i < |Execute(events).nodes|
    requires var node := Execute(events).nodes[i];
             && node.command == NoCommand && node.life.started && node.life.holdsRelease
             && node.life.activeReceives > 0 && !InvalidTimeouts(node.life.policy)
    ensures var before := Execute(events);
            var j := |before.nodes|;
            var interrupted := events + [StopLive(i, FINE)] + [Resume(i, Interrupted, FINE)];
            var after := Execute(interrupted + [Build(before.nodes[i].transport, true)] + Up(j));
            && j < |after.nodes| && after.nodes[i].transport == after.nodes[j].transport
            && after.nodes[i].life.activeReceives > 0 && after.nodes[j].life.activeReceives > 0
  {
    var before := Execute(events);
    var interrupted := events + [StopLive(i, FINE)] + [Resume(i, Interrupted, FINE)];
    InterruptedStopReleasesUnderReceivers(events, i);
    ExecuteOneMore(interrupted, Build(before.nodes[i].transport, true));
    UpReceives(interrupted + [Build(before.nodes[i].transport, true)], |before.nodes|);
  }

  // ----- how starts and stops end -----

  /** Where a start or stop stands, by how its awaits have ended. */
  ghost predicate StandsAt(at: Await, awaited: seq<AwaitOutcome>) {
    match at
    case StartingExecution(_) => awaited == []
    case CleaningUp(cause) =>
      |awaited| == 1 && awaited[0] != Completed && awaited[0] != Interrupted
      && cause == (if awaited[0] == Cancelled then CANCELLED else STARTUP_FAILED)
    case ClosingExecution => awaited == []
    case Draining(closeFailed) => |awaited| == 1 && GoesOn(awaited) && closeFailed == FailedToClose(awaited)
    case CancellingReceives(closeFailed) =>
      |awaited| == 2 && GoesOn(awaited) && closeFailed == FailedToClose(awaited)
    case DrainingAgain(closeFailed) =>
      |awaited| == 3 && GoesOn(awaited) && closeFailed == FailedToClose(awaited)
  }

  /** The first await of a stop is `close_execution`. */
  predicate FailedToClose(awaited: seq<AwaitOutcome>) {
    awaited != [] && (awaited[0] == Failed || awaited[0] == TimedOut)
  }

  /** A stop goes on after the close unless that is cancelled or escapes, and then while it times out and can cancel. */
  predicate GoesOn(awaited: seq<AwaitOutcome>) {
    && |awaited| <= 3
    && (|awaited| > 0 ==> awaited[0] != Cancelled && awaited[0] != Interrupted)
    && (|awaited| > 1 ==> awaited[1] == TimedOut)
    && (|awaited| > 2 ==> awaited[2] == Completed)
  }

  /** The receives could not be cancelled, or did not end after that either. */
  predicate GaveUp(awaited: seq<AwaitOutcome>) {
    || (|awaited| == 3 && (awaited[2] == Failed || awaited[2] == TimedOut))
    || (|awaited| == 4 && awaited[3] == TimedOut)
  }

  predicate LastIs(awaited: seq<AwaitOutcome>, outcome: AwaitOutcome) {
    awaited != [] && awaited[|awaited| - 1] == outcome
  }

  /** The controller comes first, then the failure to close, then the release of what is owned. */
  function CallsVerdict(owned: bool, closeFailed: bool, calls: Calls): Option<Terminal> {
    if !calls.controllerStops then Some(STOP_CONTROLLER_FAILED)
    else if closeFailed then Some(STOP_EXECUTION_CLOSE_FAILED)
    else if owned && !calls.releases then Some(TRANSPORT_OWNERSHIP_RELEASE_FAILED)
    else None
  }

  /** What a stop comes to, by how all its awaits have ended and how the calls of its `finally` block end. */
  function Verdict(owned: bool, awaited: seq<AwaitOutcome>, calls: Calls): Option<Terminal> {
    if LastIs(awaited, Cancelled) then Some(STOP_SHUTDOWN_CANCELLED)
    else if GaveUp(awaited) then Some(STOP_TIMEOUT)
    else CallsVerdict(owned, FailedToClose(awaited), calls)
  }

  /** The error that a caller of `stop` sees, if any. */
  function StopError(verdict: Option<Terminal>, awaited: seq<AwaitOutcome>): Option<LifecycleError> {
    match verdict
    case Some(STOP_SHUTDOWN_CANCELLED) => Some(CANCELLED)
    case Some(STOP_TIMEOUT) => Some(if |awaited| == 3 then SHUTDOWN_CANCELLATION_FAILED else SHUTDOWN_DRAIN_TIMEOUT)
    case _ => CallsError(verdict, LastIs(awaited, Interrupted))
  }

  function CallsError(verdict: Option<Terminal>, interrupted: bool): Option<LifecycleError> {
    match verdict
    case Some(STOP_CONTROLLER_FAILED) => Some(CONTROLLER_STOP_FAILED)
    case Some(TRANSPORT_OWNERSHIP_RELEASE_FAILED) => Some(OWNERSHIP_RELEASE_FAILED)
    case Some(_) => Some(if interrupted then INTERRUPTED else EXECUTION_CLOSE_FAILED)
    case None => if interrupted then Some(INTERRUPTED) else None
  }

  function ProgressOf(error: Option<LifecycleError>): Progress {
    if error.Some? then Raised(error.value) else Returned
  }

  /** Every command stands where its awaits have brought it. */
  ghost predicate Remembers(node: Node) {
    node.command.Running? ==> StandsAt(node.command.at, node.history.awaited)
  }

  lemma EventRemembers(node: Node, event: Event)
    requires Coherent(node) && Possible(node, event) && Remembers(node)
    ensures Remembers(AfterEvent(node, event))
  {
  }

  lemma {:induction false} RunsRemember(events: seq<Event>, i: nat)
    requires i < |Execute(events).nodes|
    ensures Remembers(Execute(events).nodes[i])
  {
    if events != [] {
      var front, last := events[..|events| - 1], events[|events| - 1];
      if i < |Execute(front).nodes| {
        RunsRemember(front, i);
        RunsKeepInvariant(front);
        if Happens(Execute(front), last) && last.node == i {
          EventRemembers(Execute(front).nodes[i], last);
        }
      }
    }
  }

  /** A stop that is over has left the coordinator failed for good, or stopped and without its transport. */
  ghost predicate StopEnded(before: Lifecycle, after: Lifecycle, verdict: Option<Terminal>) {
    && after.technicalState == verdict && !after.started && after.stopping == verdict.Some?
    && after.holdsRelease == (before.holdsRelease && verdict.Some?)
    && after.activeReceives == before.activeReceives && after.policy == before.policy
  }

  lemma StopSegmentEnds(node: Node, outcome: AwaitOutcome, calls: Calls)
    requires Coherent(node) && Remembers(node) && node.command.Running? && !node.command.at.OfStart()
    requires CanEnd(node.life, node.command.at, outcome)
    ensures var awaited := node.history.awaited + [outcome];
            var (life, progress) := Resumed(node.life, node.command.at, outcome, calls);
            var verdict := Verdict(node.life.holdsRelease, awaited, calls);
            && (progress.Suspended? <==> GoesOn(awaited))
            && (GoesOn(awaited) ==> life == node.life)
            && (!GoesOn(awaited) ==>
                  StopEnded(node.life, life, verdict) && progress == ProgressOf(StopError(verdict, awaited)))
  {
    assert LastIs(node.history.awaited + [outcome], outcome);
    if !GoesOn(node.history.awaited + [outcome]) {
      StopSegmentConcludes(node, outcome, calls);
    }
  }

  lemma ConcludedByCalls(life: Lifecycle, closeFailed: bool, interrupted: bool, calls: Calls)
    requires life.stopping && life.technicalState.None?
    ensures var (after, progress) := Concluded(life, closeFailed, interrupted, calls);
            var verdict := CallsVerdict(life.holdsRelease, closeFailed, calls);
            StopEnded(life, after, verdict) && progress == ProgressOf(CallsError(verdict, interrupted))
  {
  }

  lemma StopSegmentConcludes(node: Node, outcome: AwaitOutcome, calls: Calls)
    requires Coherent(node) && Remembers(node) && node.command.Running? && !node.command.at.OfStart()
    requires CanEnd(node.life, node.command.at, outcome) && !GoesOn(node.history.awaited + [outcome])
    ensures var awaited := node.history.awaited + [outcome];
            var (life, progress) := Resumed(node.life, node.command.at, outcome, calls);
            var verdict := Verdict(node.life.holdsRelease, awaited, calls);
            StopEnded(node.life, life, verdict) && progress == ProgressOf(StopError(verdict, awaited))
  {
    var awaited := node.history.awaited + [outcome];
    assert LastIs(awaited, outcome);
    if outcome != Cancelled && !GaveUp(awaited) {
      ConcludedByCalls(node.life, FailedToClose(awaited), outcome == Interrupted, calls);
      assert Resumed(node.life, node.command.at, outcome, calls)
             == Concluded(node.life, FailedToClose(awaited), outcome == Interrupted, calls);
    }
  }

  /**
    How a stop ends, in every run and whatever happens meanwhile, from how its awaits have ended alone. It goes on
    exactly while the close did not end it, the drain has timed out and the receives have been cancelled. It ends
    cancelled, out of time, without its controller, without having closed, without release, or stopped.
   */
  lemma StopEndsExactly(events: seq<Event>, outcome: AwaitOutcome, calls: Calls, i: nat)
    requires i < |Execute(events).nodes| && Possible(Execute(events).nodes[i], Resume(i, outcome, calls))
    requires !Execute(events).nodes[i].command.at.OfStart()
    ensures var before, after := Execute(events).nodes[i], Execute(events + [Resume(i, outcome, calls)]).nodes[i];
            var awaited := before.history.awaited + [outcome];
            var verdict := Verdict(before.life.holdsRelease, awaited, calls);
            && after.history.awaited == awaited
            && (GoesOn(awaited) <==> after.command.Running?)
            && (GoesOn(awaited) ==> after.life == before.life)
            && (!GoesOn(awaited) ==>
                  && StopEnded(before.life, after.life, verdict)
                  && (after.command.Restarting? <==>
                        before.command.restart.Some? && StopError(verdict, awaited).None?))
  {
    RunsKeepInvariant(events);
    RunsRemember(events, i);
    ExecuteOneMore(events, Resume(i, outcome, calls));
    StopSegmentEnds(Execute(events).nodes[i], outcome, calls);
  }

  /** What a start comes to whose `start_execution` did not complete, by the clean-up's await and calls. */
  function CleanUpVerdict(owned: bool, outcome: AwaitOutcome, calls: Calls): Option<Terminal> {
    if outcome == Cancelled then Some(STARTUP_CLEANUP_CANCELLED) else CallsVerdict(owned, false, calls)
  }

  function CleanUpError(verdict: Option<Terminal>, started: AwaitOutcome): LifecycleError {
    match verdict
    case Some(STOP_CONTROLLER_FAILED) => CONTROLLER_STOP_FAILED
    case Some(TRANSPORT_OWNERSHIP_RELEASE_FAILED) => OWNERSHIP_RELEASE_FAILED
    case Some(_) => CANCELLED
    case None => if started == Cancelled then CANCELLED else STARTUP_FAILED
  }

  /** A start is up at once, or is cleaned up, which ends like a stop; an escaping exception leaves it as it was. */
  ghost predicate StartEnds(
    before: Lifecycle, after: Lifecycle, progress: Progress, policy: Option<Policy>,
    awaited: seq<AwaitOutcome>, calls: Calls)
  {
    && |awaited| > 0
    && if LastIs(awaited, Interrupted) then after == before && progress == Raised(INTERRUPTED)
       else if |awaited| == 1 then
         if awaited[0] == Completed
         then progress == Returned && policy.Some? && after == before.(started := true, policy := policy)
         else after == before && progress.Suspended? && progress.at.CleaningUp?
       else
         var verdict := CleanUpVerdict(before.holdsRelease, awaited[1], calls);
         && |awaited| == 2
         && StopEnded(before, after, verdict) && progress == Raised(CleanUpError(verdict, awaited[0]))
  }

  function PolicyOf(at: Await): Option<Policy> {
    if at.StartingExecution? then Some(at.policy) else None
  }

  lemma StartSegmentEnds(node: Node, outcome: AwaitOutcome, calls: Calls)
    requires Coherent(node) && Remembers(node) && node.command.Running? && node.command.at.OfStart()
    ensures var (life, progress) := Resumed(node.life, node.command.at, outcome, calls);
            StartEnds(node.life, life, progress, PolicyOf(node.command.at), node.history.awaited + [outcome], calls)
  {
    assert LastIs(node.history.awaited + [outcome], outcome);
  }

  /** How a start ends, in every run, from how its awaits have ended alone. */
  lemma StartEndsExactly(events: seq<Event>, outcome: AwaitOutcome, calls: Calls, i: nat)
    requires i < |Execute(events).nodes| && Possible(Execute(events).nodes[i], Resume(i, outcome, calls))
    requires Execute(events).nodes[i].command.at.OfStart()
    ensures var before, after := Execute(events).nodes[i], Execute(events + [Resume(i, outcome, calls)]).nodes[i];
            var progress := Resumed(before.life, before.command.at, outcome, calls).1;
            && after.history.awaited == before.history.awaited + [outcome]
            && after.command == CommandAfter(progress, None)
            && StartEnds(before.life, after.life, progress, PolicyOf(before.command.at), after.history.awaited, calls)
  {
    RunsKeepInvariant(events);
    RunsRemember(events, i);
    ExecuteOneMore(events, Resume(i, outcome, calls));
    StartSegmentEnds(Execute(events).nodes[i], outcome, calls);
  }

  /** How a stop begins that finds nothing running: it ends at once, and a failed coordinator refuses it. */
  ghost predicate StopsAtOnce(before: Lifecycle, after: Lifecycle, progress: Progress, calls: Calls) {
    if before.technicalState.Some? then after == before && progress == Raised(LIVE_RUNTIME_RESTART_NOT_ADMITTED)
    else
      var verdict := CleanUpVerdict(before.holdsRelease, Completed, calls);
      && StopEnded(before, after, verdict)
      && progress == (if verdict.Some? then Raised(CleanUpError(verdict, Completed)) else Returned)
  }

  /** Both timeouts of the policy, if there is one, can be waited for. */
  predicate CanBeWaitedFor(policy: Option<Policy>) {
    policy.Some? ==> policy.value.gracefulTimeout >= 0.0 && policy.value.cancellationTimeout >= 0.0
  }

  /**
    How a stop begins, in every run: it goes on to close the execution exactly if the runtime is up and its timeouts
    can be waited for, and from then on nothing more is received.
   */
  lemma StopBeginsExactly(events: seq<Event>, calls: Calls, i: nat)
    requires i < |Execute(events).nodes| && Execute(events).nodes[i].command == NoCommand
    ensures var before, after := Execute(events).nodes[i], Execute(events + [StopLive(i, calls)]).nodes[i];
            && (after.command == Running(ClosingExecution, None) <==>
                  before.life.started && CanBeWaitedFor(before.life.policy))
            && (after.command.Running? ==> after.life == before.life.(stopping := true))
            && (before.life.started && !CanBeWaitedFor(before.life.policy) ==>
                  after == before.(history := after.history))
            && (!before.life.started ==>
                  StopsAtOnce(before.life, after.life, StopRequested(before.life, calls).1, calls))
  {
    RunsKeepInvariant(events);
    ExecuteOneMore(events, StopLive(i, calls));
  }

  /** How a start begins, in every run: it goes on to start the execution exactly if it is admitted and prepared. */
  lemma StartBeginsExactly(events: seq<Event>, policy: Policy, calls: Calls, i: nat)
    requires i < |Execute(events).nodes| && Execute(events).nodes[i].command == NoCommand
    ensures var before, after := Execute(events).nodes[i], Execute(events + [StartLive(i, policy, calls)]).nodes[i];
            var idle := !before.life.started && before.life.technicalState.None?;
            && (after.command == Running(StartingExecution(policy), None) <==> idle && calls.prepares)
            && (after.command.Running? || !idle ==> after.life == before.life)
            && (idle && !calls.prepares ==>
                  StopEnded(before.life, after.life, CleanUpVerdict(before.life.holdsRelease, Completed, calls)))
  {
    RunsKeepInvariant(events);
    ExecuteOneMore(events, StartLive(i, policy, calls));
  }

  /** The receives that have begun and not ended: one begins exactly if the runtime is up and not stopping. */
  ghost function InFlight(events: seq<Event>, i: nat): int {
    if events == [] then 0
    else
      var front, last := events[..|events| - 1], events[|events| - 1];
      InFlight(front, i)
      + (if last == BeginReceive(i) && i < |Execute(front).nodes| && Execute(front).nodes[i].life.started
            && !Execute(front).nodes[i].life.stopping then 1 else 0)
      - (if last == EndReceive(i) && Happens(Execute(front), last) then 1 else 0)
  }

  /** The count of a coordinator is, in every run, the number of its receives in flight. */
  lemma {:induction false} ReceivesAreCounted(events: seq<Event>, i: nat)
    ensures InFlight(events, i)
            == if i < |Execute(events).nodes| then Execute(events).nodes[i].life.activeReceives else 0
  {
    if events != [] {
      var front, last := events[..|events| - 1], events[|events| - 1];
      ReceivesAreCounted(front, i);
      if Happens(Execute(front), last) && last.node == i {
        EventCountsReceives(Execute(front).nodes[i], last);
      }
    }
  }

  lemma EventCountsReceives(node: Node, event: Event)
    requires Possible(node, event)
    ensures AfterEvent(node, event).life.activeReceives
            == node.life.activeReceives
               + (if event.BeginReceive? && node.life.started && !node.life.stopping then 1 else 0)
               - (if event.EndReceive? then 1 else 0)
  {
  }

  /** A stop that could not close the execution is still under way, or has failed for good. */
  ghost predicate CannotRelease(node: Node) {
    || node.life.technicalState.Some?
    || (node.command.Running? && !node.command.at.OfStart() && !node.command.at.ClosingExecution?
        && FailedToClose(node.history.awaited))
  }

  lemma StillCannotRelease(node: Node, event: Event)
    requires Coherent(node) && Remembers(node) && Possible(node, event) && CannotRelease(node)
    ensures CannotRelease(AfterEvent(node, event))
    ensures AfterEvent(node, event).life.holdsRelease == node.life.holdsRelease
  {
    match event
    case Resume(_, outcome, calls) => StopSegmentEnds(node, outcome, calls);
    case _ =>
  }

  /**
    A failure to close the execution is never forgotten. Once `close_execution` has failed under a stop, whatever
    happens next, the coordinator keeps what it owns, and the stop can only end in a terminal state.
   */
  lemma {:induction false} FailedCloseIsFinal(
    events: seq<Event>, outcome: AwaitOutcome, calls: Calls, more: seq<Event>, i: nat)
    requires i < |Execute(events).nodes| && Possible(Execute(events).nodes[i], Resume(i, outcome, calls))
    requires Execute(events).nodes[i].command.at.ClosingExecution? && (outcome == Failed || outcome == TimedOut)
    ensures i < |Execute(events + [Resume(i, outcome, calls)] + more).nodes|
    ensures var now := Execute(events + [Resume(i, outcome, calls)] + more).nodes[i];
            CannotRelease(now) && now.life.holdsRelease == Execute(events).nodes[i].life.holdsRelease
  {
    var failed := events + [Resume(i, outcome, calls)];
    if more == [] {
      StopEndsExactly(events, outcome, calls, i);
      RunsRemember(failed, i);
      RunsKeepInvariant(failed);
      assert failed + more == failed;
    } else {
      var front, last := more[..|more| - 1], more[|more| - 1];
      FailedCloseIsFinal(events, outcome, calls, front, i);
      ExecuteOneMore(failed + front, last);
      assert failed + more == failed + front + [last];
      RunsRemember(failed + front, i);
      RunsKeepInvariant(failed + front);
      if Happens(Execute(failed + front), last) && last.node == i {
        StillCannotRelease(Execute(failed + front).nodes[i], last);
      }
    }
  }

  /** The first half of a restart that nothing disturbs. */
  function StopOfRestart(i: nat, policy: Policy): seq<Event> {
    [RestartLive(i, policy, FINE), Resume(i, Completed, FINE), Resume(i, Completed, FINE)]
  }

  lemma StopOfRestartReleases(events: seq<Event>, i: nat, policy: Policy)
    requires i < |Execute(events).nodes|
    requires var node := Execute(events).nodes[i];
             && node.command == NoCommand && node.life.started && node.life.drained
             && !InvalidTimeouts(node.life.policy)
    ensures var after := Execute(events + StopOfRestart(i, policy)).nodes;
            && i < |after| && after[i].command == Restarting(policy)
            && RestartAdmitted(after[i].life) && !after[i].life.holdsRelease
  {
    var stop := StopOfRestart(i, policy);
    ExecuteTwoMore(events, stop[0], stop[1]);
    var closing := events + [stop[0]] + [stop[1]];
    assert Execute(closing).nodes[i].command == Running(Draining(false), Some(policy));
    ExecuteOneMore(closing, stop[2]);
    assert closing + [stop[2]] == events + stop;
  }

  /** A restart is two commands: ownership given up by its stop does not come back when its start fails for good. */
  lemma RestartCanReleaseAndFail(events: seq<Event>, i: nat, policy: Policy)
    requires i < |Execute(events).nodes|
    requires var node := Execute(events).nodes[i];
             && node.command == NoCommand && node.life.started && node.life.holdsRelease
             && node.life.activeReceives == 0 && !InvalidTimeouts(node.life.policy)
    ensures var failure := RestartStarts(i, Calls(false, false, true));
            var after := Execute(events + StopOfRestart(i, policy) + [failure]).nodes;
            && i < |after| && !after[i].life.holdsRelease
            && after[i].life.technicalState == Some(STOP_CONTROLLER_FAILED)
  {
    RunsKeepInvariant(events);
    StopOfRestartReleases(events, i, policy);
    ExecuteOneMore(events + StopOfRestart(i, policy), RestartStarts(i, Calls(false, false, true)));
  }

  // ----- commands end -----

  /** How many more awaits a command can go through. */
  function AwaitsLeft(command: Command): nat {
    match command
    case NoCommand => 0
    case Restarting(_) => 3
    case Running(at, restart) =>
      (match at
       case StartingExecution(_) => 2
       case CleaningUp(_) => 1
       case ClosingExecution => 4
       case Draining(_) => 3
       case CancellingReceives(_) => 2
       case DrainingAgain(_) => 1) + (if restart.Some? then 3 else 0)
  }

  /** A command that goes on has fewer awaits before it; receives do not touch it. */
  ghost predicate Shortens(event: Event, before: Command, after: Command) {
    match event
    case Resume(_, _, _) | RestartStarts(_, _) => AwaitsLeft(after) < AwaitsLeft(before)
    case BeginReceive(_) | EndReceive(_) => after == before
    case StartLive(_, _, _) => AwaitsLeft(after) <= 2
    case StopLive(_, _) => AwaitsLeft(after) <= 4
    case RestartLive(_, _, _) => AwaitsLeft(after) <= 7
    case Build(_, _) => true
  }

  lemma ResumeShortens(node: Node, outcome: AwaitOutcome, calls: Calls)
    requires Coherent(node) && node.command.Running? && CanEnd(node.life, node.command.at, outcome)
    ensures AwaitsLeft(AfterResume(node, outcome, calls).command) < AwaitsLeft(node.command)
  {
  }

  /** Every command comes to an end, a restart after six awaits at most. */
  lemma CommandsEnd(events: seq<Event>, event: Event, i: nat)
    requires i < |Execute(events).nodes| && Happens(Execute(events), event) && event.node == i
    ensures Shortens(event, Execute(events).nodes[i].command, Step(Execute(events), event).nodes[i].command)
  {
    RunsKeepInvariant(events);
    if event.Resume? {
      ResumeShortens(Execute(events).nodes[i], event.outcome, event.calls);
    }
  }
}
