/** The four steps shown for an order, and why their times can be trusted. */
module AdOrderTimeline {
  import opened Common
  import opened AdOrderProtocol
  import opened AdOrderRuns

  datatype StepState = Reached | Active | Pending

  const STEP_NAMES := ["Order Placed", "Seller Accepted", "Work In Progress", "Completed"]

  function StepStates(s: Status): seq<StepState> {
    match s
    case New => [Reached, Active, Pending, Pending]
    case InProgress => [Reached, Reached, Active, Pending]
    case Completed => [Reached, Reached, Reached, Reached]
    case Cancelled => [Reached, Pending, Pending, Pending]
  }

  /** A dash, "ETA: soon", or a real time. */
  datatype Time = Dash | Soon | At(time: int)

  datatype TimelineStep = TimelineStep(name: string, time: Time, state: StepState)

  function StepTime(at: Option<int>, state: StepState): Time {
    match state
    case Pending => Dash
    case Active => Soon
    case Reached => if at.Some? then At(at.value) else Dash
  }

  function Stamps(o: Order): seq<Option<int>> {
    [Some(o.createdAt), o.acceptedAt, o.acceptedAt, o.completedAt]
  }

  function Timeline(o: Order): seq<TimelineStep> {
    var states := StepStates(o.status);
    seq(4, i requires 0 <= i < 4 => TimelineStep(STEP_NAMES[i], StepTime(Stamps(o)[i], states[i]), states[i]))
  }

  /**
   On every screen of every run, a step has a real time exactly when it is
   reached, and it is the time of its own milestone; reached steps come first,
   an active one follows only reached ones, and the times never run back.
   */
  lemma TimelineIsReal(es: seq<Event>, oid: OrderId)
    requires oid in Run(EMPTY, es).store.orders
    ensures var o := Run(EMPTY, es).store.orders[oid];
            var steps := Timeline(o);
            && |steps| == 4 && steps[0].time == At(o.createdAt)
            && (steps[1].state == Reached ==> o.acceptedAt.Some? && steps[1].time == At(o.acceptedAt.value))
            && (steps[2].state == Reached ==> o.acceptedAt.Some? && steps[2].time == At(o.acceptedAt.value))
            && (steps[3].state == Reached <==> o.status == Completed)
            && (steps[3].state == Reached ==> o.completedAt.Some? && steps[3].time == At(o.completedAt.value))
            && (forall i | 0 <= i < 4 :: steps[i].state == Reached <==> steps[i].time.At?)
            && (forall i, j | 0 <= i < j < 4 && steps[j].state == Reached ::
                  steps[i].state == Reached && steps[i].time.time <= steps[j].time.time)
            && (forall i, j | 0 <= i < j < 4 && steps[j].state == Active :: steps[i].state == Reached)
  {
    StampsInOrder(es, oid);
  }
}
