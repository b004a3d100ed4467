/** The order tracking page: the four delivery steps and how each is drawn
    for the order's status. The status is fixed at "placed". */
module OrderTracking {
  import opened Collections

  datatype Step = Step(id: string, title: string)

  const StatusSteps: seq<Step> := [
    Step("placed", "Order Placed"),
    Step("packed", "Packed"),
    Step("out_for_delivery", "Out for Delivery"),
    Step("delivered", "Delivered")
  ]

  const OrderStatus := "placed"

  function StepIs(status: string): Step -> bool
  {
    (step: Step) => step.id == status
  }

  /** `getActiveIndex()`: the position of the status among the steps, or -1. */
  function ActiveIndex(status: string): (k: int)
    ensures -1 <= k < |StatusSteps|
    ensures k == -1 <==> forall i :: 0 <= i < |StatusSteps| ==> StatusSteps[i].id != status
    ensures k >= 0 ==> StatusSteps[k].id == status
  {
    FindIndex(StepIs(status), StatusSteps)
  }

  /** Each step's own id selects that step; the page's status selects the
      first. */
  lemma ActiveIndexOfEachStep()
    ensures ActiveIndex("placed") == 0 && ActiveIndex("packed") == 1
    ensures ActiveIndex("out_for_delivery") == 2 && ActiveIndex("delivered") == 3
    ensures ActiveIndex(OrderStatus) == 0
  {
    assert StatusSteps[0].id == "placed";
    assert StatusSteps[1].id == "packed";
    assert StatusSteps[2].id == "out_for_delivery";
    assert StatusSteps[3].id == "delivered";
  }

  /** How one step is drawn. */
  datatype StepView = StepView(completed: bool, current: bool, connector: bool)

  function ViewOf(index: nat, activeIndex: int): (v: StepView)
    ensures v.completed <==> index <= activeIndex
    ensures v.current <==> index == activeIndex
    ensures v.connector <==> index < |StatusSteps| - 1
  {
    StepView(index <= activeIndex, index == activeIndex, index < |StatusSteps| - 1)
  }

  /** The drawn steps for a status. */
  function Views(status: string): (vs: seq<StepView>)
    ensures |vs| == |StatusSteps|
    ensures forall i :: 0 <= i < |vs| ==> vs[i] == ViewOf(i, ActiveIndex(status))
  {
    seq(|StatusSteps|, i requires 0 <= i < |StatusSteps| => ViewOf(i, ActiveIndex(status)))
  }

  /** At most one step is current, the current step is completed, the
      completed steps form a prefix, and every step but the last has a
      connector. */
  lemma ViewsAreConsistent(status: string)
    ensures forall i, j :: 0 <= i < j < |Views(status)| ==> !(Views(status)[i].current && Views(status)[j].current)
    ensures forall i :: 0 <= i < |Views(status)| && Views(status)[i].current ==> Views(status)[i].completed
    ensures forall i, j :: 0 <= i < j < |Views(status)| && Views(status)[j].completed ==> Views(status)[i].completed
    ensures forall i :: 0 <= i < |Views(status)| ==> (Views(status)[i].connector <==> i != |Views(status)| - 1)
  {
  }

  /** A status outside the four steps draws nothing as completed. */
  lemma UnknownStatusCompletesNothing(status: string)
    requires forall i :: 0 <= i < |StatusSteps| ==> StatusSteps[i].id != status
    ensures forall i :: 0 <= i < |Views(status)| ==> !Views(status)[i].completed && !Views(status)[i].current
  {
  }

  /** For the page's status only the first step is completed and current. */
  lemma PlacedOrderView()
    ensures Views(OrderStatus)[0] == StepView(true, true, true)
    ensures forall i :: 1 <= i < |Views(OrderStatus)| ==> !Views(OrderStatus)[i].completed
  {
    ActiveIndexOfEachStep();
  }
}
