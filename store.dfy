/** The server's in-memory subscription store: a fixed catalog and one mutable current plan. */
module Store {
  import opened Types

  /** The catalog, in its fixed order. */
  const Subscriptions: seq<Plan> := [
    Plan(Amount(0), "Free", "Start for free", "$"),
    Plan(Amount(99), "T1", "Individual pack", "$"),
    Plan(Amount(499), "T2", "Startup pack", "$"),
    Plan(Label("Contact Sales"), "Enterprise", "Enterprise pack", "")
  ]

  /** Index `i` holds the first plan of `plans` whose code is `code`. */
  predicate FirstMatch(plans: seq<Plan>, code: string, i: int)
  {
    0 <= i < |plans| && plans[i].code == code &&
    forall j :: 0 <= j < i ==> plans[j].code != code
  }

  /** The catalog lookup `find`: the first plan with the given code, if any. */
  function Find(plans: seq<Plan>, code: string): (r: Option<Plan>)
    ensures r.None? <==> !HasCode(plans, code)
    ensures r.Some? ==> exists i :: FirstMatch(plans, code, i) && plans[i] == r.value
  {
    if plans == [] then None
    else if plans[0].code == code then
      assert FirstMatch(plans, code, 0);
      Some(plans[0])
    else
      var r := Find(plans[1..], code);
      FindInTail(plans, code, r);
      r
  }

  /** A first match in the tail of a list whose head does not match is a first match of the list. */
  lemma FindInTail(plans: seq<Plan>, code: string, r: Option<Plan>)
    requires plans != [] && plans[0].code != code
    requires r.None? <==> !HasCode(plans[1..], code)
    requires r.Some? ==> exists i :: FirstMatch(plans[1..], code, i) && plans[1..][i] == r.value
    ensures r.None? <==> !HasCode(plans, code)
    ensures r.Some? ==> exists i :: FirstMatch(plans, code, i) && plans[i] == r.value
  {
    if r.Some? {
      var i :| FirstMatch(plans[1..], code, i) && plans[1..][i] == r.value;
      assert FirstMatch(plans, code, i + 1);
    }
    if HasCode(plans, code) {
      var k :| 0 <= k < |plans| && plans[k].code == code;
      assert plans[1..][k - 1].code == code;
    }
  }

  /** With unique codes, the lookup of a plan's code finds exactly that plan. */
  lemma FindUnique(plans: seq<Plan>, k: int)
    requires UniqueCodes(plans) && 0 <= k < |plans|
    ensures Find(plans, plans[k].code) == Some(plans[k])
  {
    var r := Find(plans, plans[k].code);
    assert HasCode(plans, plans[k].code);
    var i :| FirstMatch(plans, plans[k].code, i) && plans[i] == r.value;
    assert i == k;
  }

  /** The current plan after `setCurrentSubscription(code)`: the found plan, or the old one. */
  function Selected(plans: seq<Plan>, current: Plan, code: string): Plan
  {
    match Find(plans, code)
    case Some(p) => p
    case None => current
  }

  /** The catalog holds four plans with distinct codes. */
  lemma CatalogCodesUnique()
    ensures |Subscriptions| == 4 && UniqueCodes(Subscriptions)
  {
  }

  /** A code of the catalog selects the catalog plan with that code. */
  lemma SetKnownCode(plans: seq<Plan>, current: Plan, k: int)
    requires UniqueCodes(plans) && 0 <= k < |plans|
    ensures Selected(plans, current, plans[k].code) == plans[k]
  {
    FindUnique(plans, k);
  }

  /** A code absent from the catalog leaves the current plan as it was. */
  lemma SetUnknownCode(plans: seq<Plan>, current: Plan, code: string)
    requires !HasCode(plans, code)
    ensures Selected(plans, current, code) == current
  {
  }

  /** Setting never moves the current plan outside the catalog. */
  lemma SetStaysInCatalog(plans: seq<Plan>, current: Plan, code: string)
    requires current in plans
    ensures Selected(plans, current, code) in plans
  {
  }

  /** Setting the same code twice gives the same plan as setting it once. */
  lemma SetIdempotent(plans: seq<Plan>, current: Plan, code: string)
    ensures Selected(plans, Selected(plans, current, code), code) == Selected(plans, current, code)
  {
  }

  /** The store: the fixed catalog and the current-plan pointer. */
  class SubscriptionStore {
    const subscriptions: seq<Plan>
    var currentSubscription: Plan

    /** The catalog is the fixed one and the pointer is one of its plans. */
    ghost predicate Valid()
      reads this
    {
      subscriptions == Subscriptions && currentSubscription in subscriptions
    }

    /** A fresh store points at the first plan, Free. */
    constructor ()
      ensures Valid()
      ensures currentSubscription == Subscriptions[0]
      ensures currentSubscription == Plan(Amount(0), "Free", "Start for free", "$")
    {
      subscriptions := Subscriptions;
      currentSubscription := Subscriptions[0];
    }

    /** `getSubscriptions`: the whole catalog, in order. */
    method GetSubscriptions() returns (r: seq<Plan>)
      requires Valid()
      ensures r == Subscriptions
    {
      r := subscriptions;
    }

    /** `getCurrentSubscription`: the current plan, always a catalog plan. */
    method GetCurrentSubscription() returns (r: Plan)
      requires Valid()
      ensures r == currentSubscription && r in Subscriptions
    {
      r := currentSubscription;
    }

    /** `setCurrentSubscription`: move the pointer to the plan with `code`, if there is one. */
    method SetCurrentSubscription(code: string)
      requires Valid()
      modifies this`currentSubscription
      ensures Valid()
      ensures currentSubscription == Selected(subscriptions, old(currentSubscription), code)
      ensures HasCode(subscriptions, code) ==> currentSubscription.code == code
      ensures !HasCode(subscriptions, code) ==> currentSubscription == old(currentSubscription)
    {
      var sub := Find(subscriptions, code);
      if sub.Some? {
        currentSubscription := sub.value;
      }
    }
  }

  /** The store's behaviour on a fresh start, a known code, an unknown code and a repeated set. */
  method StoreScenario()
  {
    var store := new SubscriptionStore();
    var p := store.GetCurrentSubscription();
    assert p.code == "Free";
    CatalogCodesUnique();
    SetKnownCode(Subscriptions, p, 2);
    store.SetCurrentSubscription("T2");
    p := store.GetCurrentSubscription();
    assert p == Plan(Amount(499), "T2", "Startup pack", "$");
    store.SetCurrentSubscription("bogus");
    var q := store.GetCurrentSubscription();
    assert q == p;
    store.SetCurrentSubscription("T2");
    q := store.GetCurrentSubscription();
    assert q == p;
  }
}
