/** Routing a command: intent, registration of the exact command, submission, acknowledgement. */
module OrderRouting {
  import opened Contracts
  import opened OrderStates

  /** What the broker's `submit` does: answers, answers something else, or raises. */
  datatype BrokerReply =
    | Replied(response: BrokerOrderResponse)
    | RepliedOther
    | SubmitRaised

  datatype RouteOutcome = RouteOutcome(oms: Oms, result: Result<BrokerOrderResponse, Error>)

  function ToOrderAckEvent(response: BrokerOrderResponse): Result<OrderAckEvent, Error> {
    if response.clientOrderId == "" then Err(CLIENT_ORDER_ID_REQUIRED)
    else if response.accepted && response.brokerOrderId == "" then Err(BROKER_ORDER_ID_REQUIRED_FOR_ACCEPTED_ACK)
    else Ok(OrderAckEvent(response.clientOrderId, response.accepted, response.brokerOrderId))
  }

  function AfterSubmission(oms: Oms, command: BrokerOrderCommand, reply: BrokerReply): RouteOutcome {
    match AfterRegister(oms, command)
    case Err(error) => RouteOutcome(oms, Err(error))
    case Ok(registered) =>
      match reply
      case SubmitRaised => RouteOutcome(registered, Err(BROKER_SUBMIT_RAISED))
      case RepliedOther => RouteOutcome(registered, Err(BROKER_ORDER_RESPONSE_REQUIRED))
      case Replied(response) =>
        if response.clientOrderId != command.clientOrderId then
          RouteOutcome(registered, Err(BROKER_RESPONSE_CLIENT_ORDER_ID_MISMATCH))
        else if ToOrderAckEvent(response).Err? then RouteOutcome(registered, Err(ToOrderAckEvent(response).error))
        else
          match AfterAck(registered, ToOrderAckEvent(response).value)
          case Err(error) => RouteOutcome(registered, Err(error))
          case Ok(acknowledged) => RouteOutcome(acknowledged, Ok(response))
  }

  function Route(oms: Oms, command: BrokerOrderCommand, approved: bool, reply: BrokerReply): RouteOutcome {
    if !approved then RouteOutcome(oms, Err(RISK_APPROVAL_TOKEN_REQUIRED))
    else if command.clientOrderId in oms.states then AfterSubmission(oms, command, reply)
    else
      match AfterIntent(oms, command.clientOrderId, command.quantity)
      case Err(error) => RouteOutcome(oms, Err(error))
      case Ok(intended) => AfterSubmission(intended, command, reply)
  }

  /** However far a route gets before it fails, what it leaves behind is consistent. */
  lemma RouteKeeps(oms: Oms, command: BrokerOrderCommand, approved: bool, reply: BrokerReply)
    requires Consistent(oms)
    ensures Keeps(oms, Route(oms, command, approved, reply).oms)
  {
    if approved && command.clientOrderId !in oms.states {
      var intended := AfterIntent(oms, command.clientOrderId, command.quantity);
      if intended.Ok? {
        IntentKeeps(oms, command.clientOrderId, command.quantity);
        SubmissionKeeps(intended.value, command, reply);
        KeepsTransitive(oms, intended.value, AfterSubmission(intended.value, command, reply).oms);
      }
    } else if approved {
      SubmissionKeeps(oms, command, reply);
    }
  }

  lemma SubmissionKeeps(oms: Oms, command: BrokerOrderCommand, reply: BrokerReply)
    requires Consistent(oms)
    ensures Keeps(oms, AfterSubmission(oms, command, reply).oms)
  {
    var registered := AfterRegister(oms, command);
    if registered.Ok? {
      RegisterKeeps(oms, command);
      if reply.Replied? && ToOrderAckEvent(reply.response).Ok? {
        AckAfterKeeps(oms, registered.value, ToOrderAckEvent(reply.response).value);
      }
    }
  }

  lemma AckAfterKeeps(oms: Oms, registered: Oms, event: OrderAckEvent)
    requires Keeps(oms, registered)
    ensures AfterAck(registered, event).Ok? ==> Keeps(oms, AfterAck(registered, event).value)
  {
    if AfterAck(registered, event).Ok? {
      AckKeeps(registered, event);
      KeepsTransitive(oms, registered, AfterAck(registered, event).value);
    }
  }

  /**
    A route that the broker accepted leaves the order acknowledged under the broker's id, with
    nothing filled, and both lookups by that id lead to this client and to this exact command.
   */
  lemma AcceptedRouteBinds(oms: Oms, command: BrokerOrderCommand, approved: bool, reply: BrokerReply)
    requires Consistent(oms)
    requires var r := Route(oms, command, approved, reply).result; r.Ok? && r.value.accepted
    ensures var r := Route(oms, command, approved, reply);
            var broker := r.result.value.brokerOrderId;
            && command.clientOrderId in r.oms.states
            && r.oms.states[command.clientOrderId]
               == OrderState(command.clientOrderId, ACKED, broker, command.quantity, 0, Some(command), None)
            && CommandFor(r.oms, broker) == Ok(command)
            && ResolveCorrelation(r.oms, broker)
               == Ok(ExecutionCorrelation(command.clientOrderId, broker, command.quantity, 0, None))
  {
    if command.clientOrderId in oms.states {
      SubmissionBinds(oms, command, reply);
    } else {
      IntentKeeps(oms, command.clientOrderId, command.quantity);
      SubmissionBinds(AfterIntent(oms, command.clientOrderId, command.quantity).value, command, reply);
    }
  }

  lemma SubmissionBinds(oms: Oms, command: BrokerOrderCommand, reply: BrokerReply)
    requires Consistent(oms)
    requires var r := AfterSubmission(oms, command, reply).result; r.Ok? && r.value.accepted
    ensures var r := AfterSubmission(oms, command, reply);
            var broker := r.result.value.brokerOrderId;
            && command.clientOrderId in r.oms.states
            && r.oms.states[command.clientOrderId]
               == OrderState(command.clientOrderId, ACKED, broker, command.quantity, 0, Some(command), None)
            && broker != "" && broker in r.oms.brokerToClient
            && r.oms.brokerToClient[broker] == command.clientOrderId
  {
    assert ConsistentOrder(oms, command.clientOrderId, oms.states[command.clientOrderId]);
  }

  // ----- every route -----

  /** A command that the OMS takes before anything is sent: of a new order, or again of one that has not filled. */
  predicate Registrable(oms: Oms, command: BrokerOrderCommand) {
    && command.clientOrderId != ""
    && (if command.clientOrderId in oms.states
        then CanBeAcknowledged(oms, command.clientOrderId)
             && command.quantity == oms.states[command.clientOrderId].orderQuantity
        else command.quantity > 0)
    && (command.instrumentIdentity.Some? ==>
          command.instrumentIdentity.value.instrumentId == command.instrumentId)
  }

  /** A reply to this very command, which if it accepts names a broker id that is free for it. */
  predicate Answers(oms: Oms, command: BrokerOrderCommand, reply: BrokerReply) {
    && reply.Replied? && reply.response.clientOrderId == command.clientOrderId
    && (reply.response.accepted ==> FreeFor(oms, reply.response.brokerOrderId, command.clientOrderId))
  }

  /** A route comes to its end exactly if it is approved, its command can be registered, and the reply answers it. */
  lemma RouteSucceedsExactly(oms: Oms, command: BrokerOrderCommand, approved: bool, reply: BrokerReply)
    requires Consistent(oms)
    ensures var r := Route(oms, command, approved, reply).result;
            && (r.Ok? <==> approved && Registrable(oms, command) && Answers(oms, command, reply))
            && (r.Ok? ==> r.value == reply.response)
  {
    if approved {
      if command.clientOrderId in oms.states {
        SubmissionEnds(oms, command, reply);
      } else if AfterIntent(oms, command.clientOrderId, command.quantity).Ok? {
        IntentKeeps(oms, command.clientOrderId, command.quantity);
        SubmissionEnds(AfterIntent(oms, command.clientOrderId, command.quantity).value, command, reply);
      }
    }
  }

  lemma SubmissionEnds(oms: Oms, command: BrokerOrderCommand, reply: BrokerReply)
    requires Consistent(oms) && command.clientOrderId in oms.states
    ensures var r := AfterSubmission(oms, command, reply).result;
            && (r.Ok? <==> Registrable(oms, command) && Answers(oms, command, reply))
            && (r.Ok? ==> r.value == reply.response)
  {
    assert ConsistentOrder(oms, command.clientOrderId, oms.states[command.clientOrderId]);
    assert AfterRegister(oms, command).Ok? <==> Registrable(oms, command);
    if Registrable(oms, command) && reply.Replied? && ToOrderAckEvent(reply.response).Ok? {
      RegisterKeeps(oms, command);
      AckDecides(AfterRegister(oms, command).value, ToOrderAckEvent(reply.response).value);
    }
  }

  /**
    A route that the broker declined leaves its order rejected, with its command and nothing filled, under
    whatever id the broker gave. No id leads to it anew, and no other order has changed.
   */
  lemma DeclinedRouteRejects(oms: Oms, command: BrokerOrderCommand, approved: bool, reply: BrokerReply)
    requires Consistent(oms)
    requires var r := Route(oms, command, approved, reply).result; r.Ok? && !r.value.accepted
    ensures var r, client := Route(oms, command, approved, reply), command.clientOrderId;
            && ChangesOnly(oms, r.oms, client) && r.oms.brokerToClient == oms.brokerToClient
            && r.oms.states[client]
               == OrderState(client, REJECTED, r.result.value.brokerOrderId, command.quantity, 0, Some(command), None)
  {
    if command.clientOrderId in oms.states {
      SubmissionRejects(oms, command, reply);
    } else {
      IntentKeeps(oms, command.clientOrderId, command.quantity);
      SubmissionRejects(AfterIntent(oms, command.clientOrderId, command.quantity).value, command, reply);
    }
  }

  lemma SubmissionRejects(oms: Oms, command: BrokerOrderCommand, reply: BrokerReply)
    requires Consistent(oms)
    requires var r := AfterSubmission(oms, command, reply).result; r.Ok? && !r.value.accepted
    ensures var r, client := AfterSubmission(oms, command, reply), command.clientOrderId;
            && client in oms.states
            && ChangesOnly(oms, r.oms, client) && r.oms.brokerToClient == oms.brokerToClient
            && r.oms.states[client]
               == OrderState(client, REJECTED, r.result.value.brokerOrderId, command.quantity, 0, Some(command), None)
  {
    assert ConsistentOrder(oms, command.clientOrderId, oms.states[command.clientOrderId]);
  }

  /**
    A route that fails leaves the correlation and every other order alone. Nothing at all has changed unless it was
    approved; the command is on record exactly if it could be registered, and its order is not acknowledged by it.
   */
  lemma FailedRouteLeaves(oms: Oms, command: BrokerOrderCommand, approved: bool, reply: BrokerReply)
    requires Consistent(oms) && Route(oms, command, approved, reply).result.Err?
    ensures var after, client := Route(oms, command, approved, reply).oms, command.clientOrderId;
            && (!approved ==> after == oms)
            && after.brokerToClient == oms.brokerToClient
            && (after == oms || ChangesOnly(oms, after, client))
            && (approved && Registrable(oms, command) ==>
                  && ChangesOnly(oms, after, client)
                  && after.states[client]
                     == (if client in oms.states then oms.states[client].(command := Some(command))
                         else OrderState(client, SUBMITTED, "", command.quantity, 0, Some(command), None)))
            && (!Registrable(oms, command) && client in after.states ==>
                  after.states[client]
                  == (if client in oms.states then oms.states[client]
                      else OrderState(client, SUBMITTED, "", command.quantity, 0, None, None)))
  {
    var client := command.clientOrderId;
    if approved && client in oms.states {
      FailedSubmissionLeaves(oms, command, reply);
    } else if approved && AfterIntent(oms, client, command.quantity).Ok? {
      IntentKeeps(oms, client, command.quantity);
      FailedSubmissionLeaves(AfterIntent(oms, client, command.quantity).value, command, reply);
    }
  }

  lemma FailedSubmissionLeaves(oms: Oms, command: BrokerOrderCommand, reply: BrokerReply)
    requires Consistent(oms) && command.clientOrderId in oms.states
    requires AfterSubmission(oms, command, reply).result.Err?
    ensures var client := command.clientOrderId;
            AfterSubmission(oms, command, reply).oms
            == if Registrable(oms, command)
               then oms.(states := oms.states[client := oms.states[client].(command := Some(command))])
               else oms
  {
    assert ConsistentOrder(oms, command.clientOrderId, oms.states[command.clientOrderId]);
  }

  class OMSCommandRegisteringBroker {
    const oms: OrderStateMachine

    constructor (oms: OrderStateMachine)
      ensures this.oms == oms
    {
      this.oms := oms;
    }

    /** Records the exact command, then passes it on; `reply` is what the wrapped broker does. */
    method Submit(command: BrokerOrderCommand, reply: BrokerReply) returns (r: Result<BrokerReply, Error>)
      modifies oms
      ensures match AfterRegister(old(oms.Value()), command)
              case Err(error) => oms.Value() == old(oms.Value()) && r == Err(error)
              case Ok(registered) => oms.Value() == registered && r == Ok(reply)
    {
      var registered := oms.RegisterBrokerOrderCommand(command);
      if registered.Err? { return Err(registered.error); }
      return Ok(reply);
    }
  }

  class StandardOrderRouter {
    const oms: OrderStateMachine
    const broker: OMSCommandRegisteringBroker

    constructor (oms: OrderStateMachine, broker: OMSCommandRegisteringBroker)
      ensures this.oms == oms && this.broker == broker
    {
      this.oms, this.broker := oms, broker;
    }

    method RegisterAndRoute(command: BrokerOrderCommand, approved: bool, reply: BrokerReply)
      returns (r: Result<BrokerOrderResponse, Error>)
      requires broker.oms == oms
      modifies oms
      ensures RouteOutcome(oms.Value(), r) == Route(old(oms.Value()), command, approved, reply)
    {
      if !approved { return Err(RISK_APPROVAL_TOKEN_REQUIRED); }
      if command.clientOrderId !in oms.states {
        var intended := oms.ApplyIntent(command.clientOrderId, command.quantity);
        if intended.Err? { return Err(intended.error); }
      }
      var submitted := broker.Submit(command, reply);
      if submitted.Err? { return Err(submitted.error); }
      if submitted.value.SubmitRaised? { return Err(BROKER_SUBMIT_RAISED); }
      if submitted.value.RepliedOther? { return Err(BROKER_ORDER_RESPONSE_REQUIRED); }
      var response := submitted.value.response;
      if response.clientOrderId != command.clientOrderId { return Err(BROKER_RESPONSE_CLIENT_ORDER_ID_MISMATCH); }
      var event := ToOrderAckEvent(response);
      if event.Err? { return Err(event.error); }
      var acknowledged := oms.ApplyAck(event.value);
      if acknowledged.Err? { return Err(acknowledged.error); }
      return Ok(response);
    }
  }
}
