/** The order tracker: the four-step status timeline and the banner shown
    after checkout. */
module OrderTracking {
  import opened Wrappers
  import opened Text

  datatype Step = Step(key: string, title: string, completed: bool, current: bool)

  const Keys: seq<string> := ["PLACED", "PAID", "SHIPPED", "DELIVERED"]
  const Labels: seq<string> := ["Order Placed", "Payment Confirmed", "Shipped", "Delivered"]

  /** The position of the step whose key is the status: -1 when there is none. */
  function StatusIndex(status: string): (k: int)
    ensures -1 <= k < |Keys|
    ensures k >= 0 ==> Keys[k] == status && forall j :: 0 <= j < k ==> Keys[j] != status
    ensures k == -1 ==> status !in Keys
  {
    if status == "PLACED" then 0
    else if status == "PAID" then 1
    else if status == "SHIPPED" then 2
    else if status == "DELIVERED" then 3
    else -1
  }

  /** `getStatusSteps`: a step is completed up to and including the
      status's own step, and current only at it. */
  function StatusSteps(status: string): (r: seq<Step>)
    ensures |r| == 4
    ensures forall i :: 0 <= i < 4 ==> r[i].key == Keys[i] && r[i].title == Labels[i]
  {
    var k := StatusIndex(status);
    seq(4, i requires 0 <= i < 4 => Step(Keys[i], Labels[i], i <= k, i == k))
  }

  /** Completed steps form a prefix, and the one current step is the
      status's own; a status outside the four marks nothing. */
  lemma StepsShape(status: string)
    ensures forall i, j :: 0 <= j < i < 4 && StatusSteps(status)[i].completed ==> StatusSteps(status)[j].completed
    ensures forall i, j :: 0 <= i < 4 && 0 <= j < 4 && StatusSteps(status)[i].current && StatusSteps(status)[j].current ==> i == j
    ensures forall i :: 0 <= i < 4 && StatusSteps(status)[i].current ==> Keys[i] == status && StatusSteps(status)[i].completed
    ensures status in Keys ==> exists i :: 0 <= i < 4 && StatusSteps(status)[i].current
    ensures status !in Keys ==> forall i :: 0 <= i < 4 ==> !StatusSteps(status)[i].completed && !StatusSteps(status)[i].current
  {
    if status in Keys {
      var k := StatusIndex(status);
      assert StatusSteps(status)[k].current;
    }
  }

  /** The status shown: a missing or empty status reads as PLACED. */
  function ShownStatus(status: Option<string>): (r: string)
    ensures Truthy(status) ==> r == status.value
    ensures !Truthy(status) ==> r == "PLACED"
  {
    OrElse(status, "PLACED")
  }

  /** A missing status puts the order on its first step. */
  lemma MissingStatusIsPlaced()
    ensures StatusSteps(ShownStatus(None))[0].current
    ensures forall i :: 1 <= i < 4 ==> !StatusSteps(ShownStatus(None))[i].completed
  {
  }

  /** The success banner: the `success` query parameter is exactly "true". */
  predicate SuccessBanner(param: Option<string>) {
    param == Some("true")
  }
}
