/** The acknowledgement rule of `tryCallback`: with a hook registered, each
    record is offered to the hook inside a retry operation; the record is
    pushed downstream once the hook acknowledges it and re-offered while it
    does not, as long as the retry budget lasts. The budget, the backoff
    and its timers belong to the retry library; here the budget is a plain
    count of remaining retries, and what the hook answers on the i-th
    attempt (from 0) is the input `respond(i)`. */
module HookAck {

  /** How a promise returned by the hook settles: fulfilled with a truthy or
      falsy value, or rejected with a truthy or falsy reason. */
  datatype Settlement = Fulfilled(truthy: bool) | Rejected(truthyReason: bool)

  /** What the hook returns on one attempt: a falsy value, a truthy value
      without `then`, or a thenable. */
  datatype HookResult = Falsy | Truthy | Thenable(settles: Settlement)

  /** What happens to one record: passed on untouched because no hook is
      set, pushed after some attempts, or abandoned after the last attempt
      (nothing is pushed and nothing further is scheduled). */
  datatype Delivery = PassedThrough | Pushed(attempts: nat) | Abandoned(attempts: nat)

  /** A result by which the hook acknowledges the record: truthy right
      away, or a promise that fulfils with a truthy value. */
  predicate Acknowledges(r: HookResult)
  {
    r == Truthy || r == Thenable(Fulfilled(true))
  }

  /** Attempt number `i` with `retriesLeft` retries still allowed.
      `operation.retry(err)` schedules another attempt exactly when `err` is
      truthy and a retry is left. A falsy synchronous result retries with an
      Error, and a rejection retries with its reason; neither pushes, and once
      no retry is left, or at once when the reason is falsy, the record is
      abandoned. A promise that fulfils falsy asks for a retry too, but when
      none is left `retry` returns false and the code falls through to the
      push. */
  function Attempt(respond: nat -> HookResult, i: nat, retriesLeft: nat): (d: Delivery)
    ensures !d.PassedThrough?
    ensures i + 1 <= d.attempts <= i + retriesLeft + 1
    ensures forall j :: i <= j < d.attempts - 1 ==>
      !Acknowledges(respond(j)) && respond(j) != Thenable(Rejected(false))
    ensures d.Pushed? ==>
      Acknowledges(respond(d.attempts - 1)) ||
      (d.attempts == i + retriesLeft + 1 && respond(d.attempts - 1) == Thenable(Fulfilled(false)))
    ensures d.Abandoned? ==>
      respond(d.attempts - 1) == Thenable(Rejected(false)) ||
      (d.attempts == i + retriesLeft + 1 &&
       (respond(d.attempts - 1) == Falsy || respond(d.attempts - 1) == Thenable(Rejected(true))))
    decreases retriesLeft
  {
    match respond(i)
    case Truthy => Pushed(i + 1)
    case Thenable(Fulfilled(true)) => Pushed(i + 1)
    case Thenable(Fulfilled(false)) =>
      if retriesLeft > 0 then Attempt(respond, i + 1, retriesLeft - 1) else Pushed(i + 1)
    case Falsy =>
      if retriesLeft > 0 then Attempt(respond, i + 1, retriesLeft - 1) else Abandoned(i + 1)
    case Thenable(Rejected(true)) =>
      if retriesLeft > 0 then Attempt(respond, i + 1, retriesLeft - 1) else Abandoned(i + 1)
    case Thenable(Rejected(false)) => Abandoned(i + 1)
  }

  /** One attempt in the order the retry callback tests its cases. */
  lemma AttemptStep(respond: nat -> HookResult, i: nat, retriesLeft: nat)
    ensures Attempt(respond, i, retriesLeft) ==
      if Acknowledges(respond(i)) then Pushed(i + 1)
      else if respond(i) == Thenable(Rejected(false)) then Abandoned(i + 1)
      else if retriesLeft > 0 then Attempt(respond, i + 1, retriesLeft - 1)
      else if respond(i) == Thenable(Fulfilled(false)) then Pushed(i + 1)
      else Abandoned(i + 1)
  {
  }

  /** A record offered to a hook under a fresh retry operation. */
  function Deliver(respond: nat -> HookResult, retries: nat): Delivery
  {
    Attempt(respond, 0, retries)
  }

  /** When the hook answers synchronously on every attempt the budget allows,
      the record is pushed if and only if some attempt returns a truthy value,
      and then right after the first such attempt; otherwise it is abandoned
      after 1 + retries attempts. */
  lemma SyncDelivery(respond: nat -> HookResult, retries: nat)
    requires forall j :: 0 <= j <= retries ==> respond(j) == Truthy || respond(j) == Falsy
    ensures Deliver(respond, retries).Pushed? <==> exists j :: 0 <= j <= retries && respond(j) == Truthy
    ensures Deliver(respond, retries).Pushed? ==>
      var k := Deliver(respond, retries).attempts - 1;
      respond(k) == Truthy && forall j :: 0 <= j < k ==> respond(j) == Falsy
    ensures Deliver(respond, retries).Abandoned? ==>
      Deliver(respond, retries).attempts == retries + 1
  {
    var d := Deliver(respond, retries);
    if exists j :: 0 <= j <= retries && respond(j) == Truthy {
      var j :| 0 <= j <= retries && respond(j) == Truthy;
      assert Acknowledges(respond(j));
    }
  }

  /** A record is abandoned only when no attempt acknowledged it, and, unless
      a promise was rejected with a falsy reason, only after the whole budget
      of 1 + retries attempts. */
  lemma AbandonedOnlyAfterBudget(respond: nat -> HookResult, retries: nat)
    requires Deliver(respond, retries).Abandoned?
    ensures forall j :: 0 <= j < Deliver(respond, retries).attempts ==> !Acknowledges(respond(j))
    ensures (forall j :: 0 <= j <= retries ==> respond(j) != Thenable(Rejected(false))) ==>
      Deliver(respond, retries).attempts == retries + 1
  {
  }

  /** The first attempt that acknowledges the record, if it is within the
      budget and no earlier promise was rejected with a falsy reason, is the
      attempt after which the record is pushed. */
  lemma PushedAtFirstAcknowledgement(respond: nat -> HookResult, retries: nat, k: nat)
    requires k <= retries && Acknowledges(respond(k))
    requires forall j :: 0 <= j < k ==> !Acknowledges(respond(j)) && respond(j) != Thenable(Rejected(false))
    ensures Deliver(respond, retries) == Pushed(k + 1)
  {
  }
}
