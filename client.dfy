/**
  The client controller's UI state and its four handlers. `fetchSubscriptions`, upgrade and
  downgrade each have an entry step, the state change made before the request is sent (upgrade
  and downgrade share one, `ActionStarted`), and a settle step, the outcome branch with the
  `finally` cleanup. `fetchCurrentSubscription` has only an outcome step. The network reply is
  an input: a success payload, a failure envelope with its message, or a network error.
 */
module Client {
  import opened Types

  /** What a request yields: a success envelope, a failure envelope, or a thrown network error. */
  datatype Outcome<T> = Success(payload: T) | FailureEnvelope(message: string) | NetworkError

  /** The controller's UI state record. */
  datatype UiState = UiState(
    subscriptions: seq<Plan>,
    currentSubscription: Option<Plan>,
    loading: bool,
    error: Option<string>,
    actionLoading: Option<string>)

  /** The state on mount: no plans, no current plan, loading, no error, no action. */
  const Initial: UiState := UiState([], None, true, None, None)

  const FetchSubscriptionsFailed := "Failed to fetch subscriptions. Please try again."
  const UpgradeFailedPrefix := "Upgrade failed: "
  const UpgradeFailedRetry := "Upgrade failed. Please try again."

  /** Entry of `fetchSubscriptions`. */
  function FetchSubscriptionsStarted(s: UiState): UiState
  {
    s.(loading := true, error := None)
  }

  /** Outcome and `finally` of `fetchSubscriptions`. */
  function FetchSubscriptionsSettled(s: UiState, o: Outcome<seq<Plan>>): UiState
  {
    var t := match o
      case Success(plans) => s.(subscriptions := plans)
      case FailureEnvelope(msg) => s.(error := Some(msg))
      case NetworkError => s.(error := Some(FetchSubscriptionsFailed));
    t.(loading := false)
  }

  /** Outcome of `fetchCurrentSubscription`; failures are only logged. */
  function CurrentSubscriptionFetched(s: UiState, o: Outcome<Plan>): UiState
  {
    match o
    case Success(plan) => s.(currentSubscription := Some(plan))
    case _ => s
  }

  /** Entry shared by `upgradeSubscription(code)` and `downgradeSubscription(code)`. */
  function ActionStarted(s: UiState, code: string): UiState
  {
    s.(loading := true, actionLoading := Some(code), error := None)
  }

  /** Outcome and `finally` of `upgradeSubscription`. */
  function UpgradeSettled(s: UiState, o: Outcome<Plan>): UiState
  {
    var t := match o
      case Success(plan) => s.(currentSubscription := Some(plan))
      case FailureEnvelope(msg) => s.(error := Some(UpgradeFailedPrefix + msg))
      case NetworkError => s.(error := Some(UpgradeFailedRetry));
    t.(actionLoading := None, loading := false)
  }

  /** Outcome and `finally` of `downgradeSubscription`; failures are only alerted. */
  function DowngradeSettled(s: UiState, o: Outcome<Plan>): UiState
  {
    var t := match o
      case Success(plan) => s.(currentSubscription := Some(plan))
      case _ => s;
    t.(actionLoading := None, loading := false)
  }

  /** `fetchSubscriptions`: loading and a cleared error while in flight; then the list or an error, and loading off. */
  lemma FetchSubscriptionsSteps(s: UiState, o: Outcome<seq<Plan>>)
    ensures var m := FetchSubscriptionsStarted(s);
      m.loading && m.error == None &&
      m.subscriptions == s.subscriptions && m.currentSubscription == s.currentSubscription &&
      m.actionLoading == s.actionLoading
    ensures var r := FetchSubscriptionsSettled(FetchSubscriptionsStarted(s), o);
      !r.loading &&
      r.currentSubscription == s.currentSubscription && r.actionLoading == s.actionLoading &&
      (o.Success? ==> r.subscriptions == o.payload && r.error == None) &&
      (o.FailureEnvelope? ==> r.subscriptions == s.subscriptions && r.error == Some(o.message)) &&
      (o.NetworkError? ==> r.subscriptions == s.subscriptions && r.error == Some(FetchSubscriptionsFailed))
  {
  }

  /** `fetchCurrentSubscription`: success replaces the current plan; otherwise nothing changes. */
  lemma FetchCurrentSubscriptionSteps(s: UiState, o: Outcome<Plan>)
    ensures var r := CurrentSubscriptionFetched(s, o);
      r.subscriptions == s.subscriptions && r.loading == s.loading &&
      r.error == s.error && r.actionLoading == s.actionLoading &&
      (o.Success? ==> r.currentSubscription == Some(o.payload)) &&
      (!o.Success? ==> r == s)
  {
  }

  /** The entry of either action marks the action of `code` as in flight and clears the error. */
  lemma ActionEntry(s: UiState, code: string)
    ensures var m := ActionStarted(s, code);
      m.loading && m.actionLoading == Some(code) && m.error == None &&
      m.subscriptions == s.subscriptions && m.currentSubscription == s.currentSubscription
  {
  }

  /** `upgradeSubscription`: success adopts the returned plan, failures set an error; the action is released. */
  lemma UpgradeSteps(s: UiState, code: string, o: Outcome<Plan>)
    ensures var r := UpgradeSettled(ActionStarted(s, code), o);
      !r.loading && r.actionLoading == None && r.subscriptions == s.subscriptions &&
      (o.Success? ==> r.currentSubscription == Some(o.payload) && r.error == None) &&
      (o.FailureEnvelope? ==>
        r.currentSubscription == s.currentSubscription && r.error == Some(UpgradeFailedPrefix + o.message)) &&
      (o.NetworkError? ==>
        r.currentSubscription == s.currentSubscription && r.error == Some(UpgradeFailedRetry))
  {
  }

  /** `downgradeSubscription`: success adopts the returned plan; the error stays cleared; the action is released. */
  lemma DowngradeSteps(s: UiState, code: string, o: Outcome<Plan>)
    ensures var r := DowngradeSettled(ActionStarted(s, code), o);
      !r.loading && r.actionLoading == None && r.error == None && r.subscriptions == s.subscriptions &&
      (o.Success? ==> r.currentSubscription == Some(o.payload)) &&
      (!o.Success? ==> r.currentSubscription == s.currentSubscription)
  {
  }

  /** On first load, a network error leaves the plan list empty and shows the retry message. */
  lemma FirstLoadNetworkError()
    ensures var r := FetchSubscriptionsSettled(FetchSubscriptionsStarted(Initial), NetworkError);
      r.subscriptions == [] && r.error == Some(FetchSubscriptionsFailed) && !r.loading
  {
  }

  // ---------------------------------------------------------------------------------------
  // Sequences of completed handler runs

  /** One handler run from entry to settlement, with the outcome its request had. */
  datatype Handler =
    | FetchSubscriptions(plansOutcome: Outcome<seq<Plan>>)
    | FetchCurrentSubscription(planOutcome: Outcome<Plan>)
    | UpgradeSubscription(code: string, planOutcome: Outcome<Plan>)
    | DowngradeSubscription(code: string, planOutcome: Outcome<Plan>)
  {
    /** Upgrade or downgrade: a run that holds `actionLoading` while in flight. */
    predicate IsAction()
    {
      UpgradeSubscription? || DowngradeSubscription?
    }
  }

  /** The state after one complete handler run. */
  function Run(s: UiState, h: Handler): UiState
  {
    match h
    case FetchSubscriptions(o) => FetchSubscriptionsSettled(FetchSubscriptionsStarted(s), o)
    case FetchCurrentSubscription(o) => CurrentSubscriptionFetched(s, o)
    case UpgradeSubscription(c, o) => UpgradeSettled(ActionStarted(s, c), o)
    case DowngradeSubscription(c, o) => DowngradeSettled(ActionStarted(s, c), o)
  }

  /** The state after the handler runs of `hs`, one after another. */
  function RunAll(s: UiState, hs: seq<Handler>): UiState
    decreases |hs|
  {
    if hs == [] then s else Run(RunAll(s, hs[..|hs| - 1]), hs[|hs| - 1])
  }

  /** Run `i` of `hs` delivered a plan list. */
  predicate ListLoadedAt(hs: seq<Handler>, i: int)
  {
    0 <= i < |hs| && hs[i].FetchSubscriptions? && hs[i].plansOutcome.Success?
  }

  /** Run `i` of `hs` delivered a current plan. */
  predicate PlanReceivedAt(hs: seq<Handler>, i: int)
  {
    0 <= i < |hs| && !hs[i].FetchSubscriptions? && hs[i].planOutcome.Success?
  }

  /** Run `i` of `hs` writes the error field (every handler but `fetchCurrentSubscription`). */
  predicate ErrorWrittenAt(hs: seq<Handler>, i: int)
  {
    0 <= i < |hs| && !hs[i].FetchCurrentSubscription?
  }

  /** The error a handler run that writes the error field leaves behind. */
  function ErrorLeft(h: Handler): Option<string>
  {
    match h
    case FetchSubscriptions(Success(_)) => None
    case FetchSubscriptions(FailureEnvelope(msg)) => Some(msg)
    case FetchSubscriptions(NetworkError) => Some(FetchSubscriptionsFailed)
    case UpgradeSubscription(_, Success(_)) => None
    case UpgradeSubscription(_, FailureEnvelope(msg)) => Some(UpgradeFailedPrefix + msg)
    case UpgradeSubscription(_, NetworkError) => Some(UpgradeFailedRetry)
    case _ => None
  }

  /** What one run does to the fields the trace lemmas follow. */
  lemma RunStep(s: UiState, h: Handler)
    ensures Run(s, h).subscriptions ==
      if h.FetchSubscriptions? && h.plansOutcome.Success? then h.plansOutcome.payload else s.subscriptions
    ensures Run(s, h).currentSubscription ==
      if !h.FetchSubscriptions? && h.planOutcome.Success? then Some(h.planOutcome.payload) else s.currentSubscription
    ensures Run(s, h).error == if h.FetchCurrentSubscription? then s.error else ErrorLeft(h)
    ensures Run(s, h).loading == (h.FetchCurrentSubscription? && s.loading)
    ensures Run(s, h).actionLoading == if h.IsAction() then None else s.actionLoading
  {
  }

  /** Refreshing fully replaces the list: it is the last list delivered, or the starting one if none was. */
  lemma {:induction false} SubscriptionsAfterRuns(s: UiState, hs: seq<Handler>)
    ensures (forall i :: !ListLoadedAt(hs, i)) ==> RunAll(s, hs).subscriptions == s.subscriptions
    ensures forall i :: ListLoadedAt(hs, i) && (forall j :: i < j < |hs| ==> !ListLoadedAt(hs, j)) ==>
      RunAll(s, hs).subscriptions == hs[i].plansOutcome.payload
    decreases |hs|
  {
    if hs != [] {
      var n := |hs| - 1;
      var init := hs[..n];
      SubscriptionsAfterRuns(s, init);
      var prev := RunAll(s, init);
      assert RunAll(s, hs) == Run(prev, hs[n]);
      RunStep(prev, hs[n]);
      if forall i :: !ListLoadedAt(hs, i) {
        assert !ListLoadedAt(hs, n);
        forall i ensures !ListLoadedAt(init, i) {
          assert 0 <= i < n ==> init[i] == hs[i] && !ListLoadedAt(hs, i);
        }
      }
      forall i | ListLoadedAt(hs, i) && (forall j :: i < j < |hs| ==> !ListLoadedAt(hs, j))
        ensures RunAll(s, hs).subscriptions == hs[i].plansOutcome.payload
      {
        if i < n {
          assert init[i] == hs[i] && ListLoadedAt(init, i);
          assert !ListLoadedAt(hs, n);
          forall j | i < j < |init| ensures !ListLoadedAt(init, j) {
            assert init[j] == hs[j] && !ListLoadedAt(hs, j);
          }
        }
      }
    }
  }

  /** The current plan is the last one any run delivered, or the starting one if none was. */
  lemma {:induction false} CurrentAfterRuns(s: UiState, hs: seq<Handler>)
    ensures (forall i :: !PlanReceivedAt(hs, i)) ==> RunAll(s, hs).currentSubscription == s.currentSubscription
    ensures forall i :: PlanReceivedAt(hs, i) && (forall j :: i < j < |hs| ==> !PlanReceivedAt(hs, j)) ==>
      RunAll(s, hs).currentSubscription == Some(hs[i].planOutcome.payload)
    decreases |hs|
  {
    if hs != [] {
      var n := |hs| - 1;
      var init := hs[..n];
      CurrentAfterRuns(s, init);
      var prev := RunAll(s, init);
      assert RunAll(s, hs) == Run(prev, hs[n]);
      RunStep(prev, hs[n]);
      if forall i :: !PlanReceivedAt(hs, i) {
        assert !PlanReceivedAt(hs, n);
        forall i ensures !PlanReceivedAt(init, i) {
          assert 0 <= i < n ==> init[i] == hs[i] && !PlanReceivedAt(hs, i);
        }
      }
      forall i | PlanReceivedAt(hs, i) && (forall j :: i < j < |hs| ==> !PlanReceivedAt(hs, j))
        ensures RunAll(s, hs).currentSubscription == Some(hs[i].planOutcome.payload)
      {
        if i < n {
          assert init[i] == hs[i] && PlanReceivedAt(init, i);
          assert !PlanReceivedAt(hs, n);
          forall j | i < j < |init| ensures !PlanReceivedAt(init, j) {
            assert init[j] == hs[j] && !PlanReceivedAt(hs, j);
          }
        }
      }
    }
  }

  /** The error shown is the one left by the last run that writes it, or the starting one if none did. */
  lemma {:induction false} ErrorAfterRuns(s: UiState, hs: seq<Handler>)
    ensures (forall i :: !ErrorWrittenAt(hs, i)) ==> RunAll(s, hs).error == s.error
    ensures forall i :: ErrorWrittenAt(hs, i) && (forall j :: i < j < |hs| ==> !ErrorWrittenAt(hs, j)) ==>
      RunAll(s, hs).error == ErrorLeft(hs[i])
    decreases |hs|
  {
    if hs != [] {
      var n := |hs| - 1;
      var init := hs[..n];
      ErrorAfterRuns(s, init);
      var prev := RunAll(s, init);
      assert RunAll(s, hs) == Run(prev, hs[n]);
      RunStep(prev, hs[n]);
      if forall i :: !ErrorWrittenAt(hs, i) {
        assert !ErrorWrittenAt(hs, n);
        forall i ensures !ErrorWrittenAt(init, i) {
          assert 0 <= i < n ==> init[i] == hs[i] && !ErrorWrittenAt(hs, i);
        }
      }
      forall i | ErrorWrittenAt(hs, i) && (forall j :: i < j < |hs| ==> !ErrorWrittenAt(hs, j))
        ensures RunAll(s, hs).error == ErrorLeft(hs[i])
      {
        if i < n {
          assert init[i] == hs[i] && ErrorWrittenAt(init, i);
          assert !ErrorWrittenAt(hs, n);
          forall j | i < j < |init| ensures !ErrorWrittenAt(init, j) {
            assert init[j] == hs[j] && !ErrorWrittenAt(hs, j);
          }
        }
      }
    }
  }

  /** Guaranteed release: once any run other than `fetchCurrentSubscription` has settled, loading is off. */
  lemma {:induction false} LoadingAfterRuns(s: UiState, hs: seq<Handler>)
    ensures RunAll(s, hs).loading <==>
      s.loading && forall i :: 0 <= i < |hs| ==> hs[i].FetchCurrentSubscription?
    decreases |hs|
  {
    if hs != [] {
      var n := |hs| - 1;
      LoadingAfterRuns(s, hs[..n]);
      RunStep(RunAll(s, hs[..n]), hs[n]);
      assert forall i :: 0 <= i < n ==> hs[..n][i] == hs[i];
    }
  }

  /** Guaranteed release: once any upgrade or downgrade has settled, no action is in flight. */
  lemma {:induction false} ActionLoadingAfterRuns(s: UiState, hs: seq<Handler>)
    ensures (forall i :: 0 <= i < |hs| ==> !hs[i].IsAction()) ==>
      RunAll(s, hs).actionLoading == s.actionLoading
    ensures (exists i :: 0 <= i < |hs| && hs[i].IsAction()) ==> RunAll(s, hs).actionLoading == None
    decreases |hs|
  {
    if hs != [] {
      var n := |hs| - 1;
      ActionLoadingAfterRuns(s, hs[..n]);
      RunStep(RunAll(s, hs[..n]), hs[n]);
      assert forall i :: 0 <= i < n ==> hs[..n][i] == hs[i];
    }
  }

  // ---------------------------------------------------------------------------------------
  // The per-card flag

  /** A card's `isLoading` (and its buttons' `disabled`): the in-flight action is for its code. */
  predicate IsLoading(actionLoading: Option<string>, code: string)
  {
    actionLoading == Some(code)
  }

  /** The `isLoading` flag of each card, in the order of the plan list. */
  function CardFlags(plans: seq<Plan>, actionLoading: Option<string>): (flags: seq<bool>)
    ensures |flags| == |plans|
    ensures forall i :: 0 <= i < |plans| ==> flags[i] == IsLoading(actionLoading, plans[i].code)
  {
    if plans == [] then [] else [IsLoading(actionLoading, plans[0].code)] + CardFlags(plans[1..], actionLoading)
  }

  /** The number of raised flags. */
  function CountRaised(flags: seq<bool>): nat
  {
    if flags == [] then 0 else (if flags[0] then 1 else 0) + CountRaised(flags[1..])
  }

  /** With unique codes, exactly one card shows loading while an action for a listed code is in flight, and none otherwise. */
  lemma {:induction false} OneCardLoading(plans: seq<Plan>, actionLoading: Option<string>)
    requires UniqueCodes(plans)
    ensures CountRaised(CardFlags(plans, actionLoading)) ==
      if actionLoading.Some? && HasCode(plans, actionLoading.value) then 1 else 0
  {
    if plans != [] {
      var tail := plans[1..];
      assert UniqueCodes(tail) by {
        forall i, j | 0 <= i < j < |tail| ensures tail[i].code != tail[j].code {
          assert tail[i] == plans[i + 1] && tail[j] == plans[j + 1];
        }
      }
      OneCardLoading(tail, actionLoading);
      assert CardFlags(plans, actionLoading)[1..] == CardFlags(tail, actionLoading);
      if actionLoading.Some? {
        var c := actionLoading.value;
        if plans[0].code == c {
          assert HasCode(plans, c);
          assert !HasCode(tail, c) by {
            forall k | 0 <= k < |tail| ensures tail[k].code != c {
              assert tail[k] == plans[k + 1];
            }
          }
        } else {
          assert HasCode(tail, c) <==> HasCode(plans, c) by {
            if HasCode(plans, c) {
              var k :| 0 <= k < |plans| && plans[k].code == c;
              assert tail[k - 1].code == c;
            }
            if HasCode(tail, c) {
              var k :| 0 <= k < |tail| && tail[k].code == c;
              assert plans[k + 1].code == c;
            }
          }
        }
      }
    }
  }

  /** An upgrade or downgrade that has settled leaves every card enabled. */
  lemma NoCardLoadingAfterAction(s: UiState, h: Handler)
    requires h.IsAction()
    ensures var r := Run(s, h);
      forall i :: 0 <= i < |r.subscriptions| ==> !CardFlags(r.subscriptions, r.actionLoading)[i]
  {
    RunStep(s, h);
  }

  /** While an action is in flight, a card is disabled exactly when it is the card of that code. */
  lemma CardLoadingDuringAction(s: UiState, code: string)
    ensures var m := ActionStarted(s, code);
      forall i :: 0 <= i < |m.subscriptions| ==>
        (CardFlags(m.subscriptions, m.actionLoading)[i] <==> m.subscriptions[i].code == code)
  {
  }

  // ---------------------------------------------------------------------------------------
  // The controller as a stateful object

  /** The controller's state variables, each updated in place by the handlers' setters. */
  class App {
    var subscriptions: seq<Plan>
    var currentSubscription: Option<Plan>
    var loading: bool
    var error: Option<string>
    var actionLoading: Option<string>

    /** The UI state record the fields make up. */
    function State(): UiState
      reads this
    {
      UiState(subscriptions, currentSubscription, loading, error, actionLoading)
    }

    /** Mount: the `useState` initial values. */
    constructor ()
      ensures State() == Initial
    {
      subscriptions := [];
      currentSubscription := None;
      loading := true;
      error := None;
      actionLoading := None;
    }

    /** `fetchSubscriptions`, up to sending the request. */
    method BeginFetchSubscriptions()
      modifies this
      ensures State() == FetchSubscriptionsStarted(old(State()))
    {
      loading := true;
      error := None;
    }

    /** `fetchSubscriptions`, from the outcome through `finally`. */
    method EndFetchSubscriptions(o: Outcome<seq<Plan>>)
      modifies this
      ensures State() == FetchSubscriptionsSettled(old(State()), o)
    {
      match o {
        case Success(plans) =>
          subscriptions := plans;
        case FailureEnvelope(msg) =>
          error := Some(msg);
        case NetworkError =>
          error := Some(FetchSubscriptionsFailed);
      }
      loading := false;
    }

    /** `fetchCurrentSubscription`, given the outcome of its request. */
    method FetchCurrentSubscription(o: Outcome<Plan>)
      modifies this
      ensures State() == CurrentSubscriptionFetched(old(State()), o)
    {
      if o.Success? {
        currentSubscription := Some(o.payload);
      }
    }

    /** `upgradeSubscription(code)`, up to sending the request. */
    method BeginUpgrade(code: string)
      modifies this
      ensures State() == ActionStarted(old(State()), code)
    {
      loading := true;
      actionLoading := Some(code);
      error := None;
    }

    /** `upgradeSubscription`, from the outcome through `finally`. */
    method EndUpgrade(o: Outcome<Plan>)
      modifies this
      ensures State() == UpgradeSettled(old(State()), o)
    {
      match o {
        case Success(plan) =>
          currentSubscription := Some(plan);
        case FailureEnvelope(msg) =>
          error := Some(UpgradeFailedPrefix + msg);
        case NetworkError =>
          error := Some(UpgradeFailedRetry);
      }
      actionLoading := None;
      loading := false;
    }

    /** `downgradeSubscription(code)`, up to sending the request. */
    method BeginDowngrade(code: string)
      modifies this
      ensures State() == ActionStarted(old(State()), code)
    {
      loading := true;
      actionLoading := Some(code);
      error := None;
    }

    /** `downgradeSubscription`, from the outcome through `finally`. */
    method EndDowngrade(o: Outcome<Plan>)
      modifies this
      ensures State() == DowngradeSettled(old(State()), o)
    {
      if o.Success? {
        currentSubscription := Some(o.payload);
      }
      actionLoading := None;
      loading := false;
    }
  }
}
