/**
 * The records of the subscription system: features, subscription plans,
 * users and user subscriptions, with the defaults, choice sets, unique
 * names and string forms the data model declares.
 * Money is an exact amount in cents.
 */
module Models {
  import opened Wrappers
  import opened Dates

  // The stored choice values of the `TextChoices` fields.

  datatype Status = Active | Cancelled | Suspended

  const DefaultStatus: Status := Active

  function StatusValue(s: Status): string {
    match s
    case Active => "active"
    case Cancelled => "cancelled"
    case Suspended => "suspended"
  }

  /** Reads a stored status value back; any other string is not one of the choices. */
  function ParseStatus(v: string): (r: Option<Status>)
    ensures r.Some? ==> StatusValue(r.value) == v
    ensures forall s: Status :: StatusValue(s) == v ==> r == Some(s)
  {
    if v == "active" then Some(Active)
    else if v == "cancelled" then Some(Cancelled)
    else if v == "suspended" then Some(Suspended)
    else None
  }

  datatype BillingCycle = Monthly | Yearly

  const DefaultBillingCycle: BillingCycle := Monthly

  function BillingCycleValue(b: BillingCycle): string {
    match b
    case Monthly => "monthly"
    case Yearly => "yearly"
  }

  function ParseBillingCycle(v: string): (r: Option<BillingCycle>)
    ensures r.Some? ==> BillingCycleValue(r.value) == v
    ensures forall b: BillingCycle :: BillingCycleValue(b) == v ==> r == Some(b)
  {
    if v == "monthly" then Some(Monthly)
    else if v == "yearly" then Some(Yearly)
    else None
  }

  /** Distinct choices are stored as distinct strings. */
  lemma ChoiceValuesInjective(s: Status, t: Status, b: BillingCycle, c: BillingCycle)
    ensures StatusValue(s) == StatusValue(t) ==> s == t
    ensures BillingCycleValue(b) == BillingCycleValue(c) ==> b == c
  {
    var _ := ParseStatus(StatusValue(s));
    var _ := ParseBillingCycle(BillingCycleValue(b));
  }

  datatype Feature = Feature(
    id: nat,
    name: string,
    description: Option<string>,
    isActive: bool)

  datatype Plan = Plan(
    id: nat,
    name: string,
    price: int,
    billingCycle: BillingCycle,
    features: set<nat>,
    description: Option<string>,
    isActive: bool)

  /** The part of an authentication user that this system reads. */
  datatype User = User(
    id: nat,
    username: string,
    email: string,
    firstName: string,
    lastName: string)

  /**
   * A user's subscription to a plan. `planCost` is the amount billed for
   * this subscription, a field of its own and not a reference to the plan's
   * price; `endDate` is nullable.
   */
  datatype Subscription = Subscription(
    id: nat,
    userId: nat,
    planId: nat,
    planCost: int,
    startDate: Date,
    endDate: Option<Date>,
    status: Status)

  /** A feature as created with the given fields; an omitted `isActive` takes its default. */
  function NewFeature(id: nat, name: string, description: Option<string>, isActive: Option<bool>): (f: Feature)
    ensures f.id == id && f.name == name && f.description == description
    ensures isActive == None ==> f.isActive
    ensures isActive != None ==> f.isActive == isActive.value
  {
    Feature(id, name, description, isActive.GetOr(true))
  }

  /** A plan as created; omitted billing cycle and active flag take their defaults. */
  function NewPlan(id: nat, name: string, price: int, billingCycle: Option<BillingCycle>,
                   features: set<nat>, description: Option<string>, isActive: Option<bool>): (p: Plan)
    ensures p.id == id && p.name == name && p.price == price
    ensures p.features == features && p.description == description
    ensures billingCycle == None ==> p.billingCycle == Monthly
    ensures billingCycle != None ==> p.billingCycle == billingCycle.value
    ensures isActive == None ==> p.isActive
    ensures isActive != None ==> p.isActive == isActive.value
  {
    Plan(id, name, price, billingCycle.GetOr(DefaultBillingCycle), features, description, isActive.GetOr(true))
  }

  /** A subscription as created; `endDate` may be absent and an omitted status is `Active`. */
  function NewSubscription(id: nat, userId: nat, planId: nat, planCost: int, startDate: Date,
                           endDate: Option<Date>, status: Option<Status>): (s: Subscription)
    ensures s.id == id && s.userId == userId && s.planId == planId
    ensures s.planCost == planCost && s.startDate == startDate && s.endDate == endDate
    ensures status == None ==> s.status == Active
    ensures status != None ==> s.status == status.value
  {
    Subscription(id, userId, planId, planCost, startDate, endDate, status.GetOr(DefaultStatus))
  }

  // Name uniqueness: both `Feature.name` and `SubscriptionPlan.name` are
  // unique columns, so an insert with a name already in the table is
  // rejected by the database.

  datatype IntegrityError = DuplicateName(name: string)

  predicate UniqueNames(names: seq<string>) {
    forall i, j :: 0 <= i < j < |names| ==> names[i] != names[j]
  }

  /** The `name` column of a table, row by row. */
  function Names<T>(table: seq<T>, name: T -> string): (names: seq<string>)
    ensures |names| == |table|
    ensures forall i :: 0 <= i < |table| ==> names[i] == name(table[i])
  {
    if |table| == 0 then [] else [name(table[0])] + Names(table[1..], name)
  }

  /**
   * Inserting a row into a table whose `name` column is unique: rejected
   * when the name is taken, appended otherwise.
   */
  function InsertUnique<T>(table: seq<T>, x: T, name: T -> string): (r: Result<seq<T>, IntegrityError>)
    ensures r.Failure? <==> name(x) in Names(table, name)
    ensures r.Failure? ==> r.error == DuplicateName(name(x))
    ensures r.Success? ==> r.value == table + [x]
    ensures r.Success? && UniqueNames(Names(table, name)) ==> UniqueNames(Names(r.value, name))
  {
    if name(x) in Names(table, name) then Failure(DuplicateName(name(x)))
    else
      var t := table + [x];
      assert Names(t, name) == Names(table, name) + [name(x)];
      Success(t)
  }

  function FeatureName(f: Feature): string { f.name }

  function PlanName(p: Plan): string { p.name }

  function FeatureNames(fs: seq<Feature>): seq<string> {
    Names(fs, FeatureName)
  }

  function PlanNames(ps: seq<Plan>): seq<string> {
    Names(ps, PlanName)
  }

  /** `Feature.name` is unique. */
  function InsertFeature(table: seq<Feature>, f: Feature): Result<seq<Feature>, IntegrityError> {
    InsertUnique(table, f, FeatureName)
  }

  /** `SubscriptionPlan.name` is unique. */
  function InsertPlan(table: seq<Plan>, p: Plan): Result<seq<Plan>, IntegrityError> {
    InsertUnique(table, p, PlanName)
  }

  /**
   * Changing a plan's price rewrites that plan's row only; every other plan
   * field and every other plan stay as they were.
   */
  function SetPlanPrice(plans: seq<Plan>, planId: nat, price: int): (r: seq<Plan>)
    ensures |r| == |plans|
    ensures forall i :: 0 <= i < |plans| && plans[i].id == planId ==> r[i] == plans[i].(price := price)
    ensures forall i :: 0 <= i < |plans| && plans[i].id != planId ==> r[i] == plans[i]
    ensures PlanNames(r) == PlanNames(plans)
  {
    if |plans| == 0 then []
    else
      var head := if plans[0].id == planId then plans[0].(price := price) else plans[0];
      [head] + SetPlanPrice(plans[1..], planId, price)
  }

  /** The tables a plan's price change concerns: the plans and the subscriptions to them. */
  datatype Store = Store(plans: seq<Plan>, subscriptions: seq<Subscription>)

  /**
   * Saving a plan with a new price: the plan table is rewritten and the
   * subscription table is not touched.
   */
  function UpdatePlanPrice(db: Store, planId: nat, price: int): (r: Store)
    ensures r.subscriptions == db.subscriptions
    ensures |r.plans| == |db.plans|
    ensures forall i :: 0 <= i < |db.plans| && db.plans[i].id == planId ==> r.plans[i] == db.plans[i].(price := price)
    ensures forall i :: 0 <= i < |db.plans| && db.plans[i].id != planId ==> r.plans[i] == db.plans[i]
  {
    db.(plans := SetPlanPrice(db.plans, planId, price))
  }

  /**
   * A subscription's `planCost` is a snapshot: after its plan's price
   * changes, the subscription row is the same as before, and if it was
   * billed at the old price it no longer agrees with the plan.
   */
  lemma PlanCostSnapshot(db: Store, k: nat, j: nat, newPrice: int)
    requires k < |db.plans| && j < |db.subscriptions|
    requires db.subscriptions[j].planId == db.plans[k].id
    ensures var r := UpdatePlanPrice(db, db.plans[k].id, newPrice);
      && j < |r.subscriptions| && k < |r.plans|
      && r.subscriptions[j] == db.subscriptions[j]
      && r.plans[k].price == newPrice
      && (db.subscriptions[j].planCost == db.plans[k].price && newPrice != db.plans[k].price
          ==> r.subscriptions[j].planCost != r.plans[k].price)
  {
  }

  // String forms (`__str__`).

  function FeatureStr(f: Feature): (s: string)
    ensures s == f.name
  {
    f.name
  }

  /** In a table with unique names, distinct rows have distinct string forms. */
  lemma FeatureStrIdentifies(table: seq<Feature>, i: nat, j: nat)
    requires UniqueNames(FeatureNames(table))
    requires i < |table| && j < |table| && i != j
    ensures FeatureStr(table[i]) != FeatureStr(table[j])
  {
    var names := FeatureNames(table);
    if i < j {
      assert names[i] != names[j];
    } else {
      assert names[j] != names[i];
    }
  }

  const Separator: string := " - "

  /** `"<username> - <plan name> - <status value>"` for the subscription's user and plan. */
  function SubscriptionStr(s: Subscription, u: User, p: Plan): (r: string)
    requires u.id == s.userId && p.id == s.planId
    ensures |r| == |u.username| + |p.name| + |StatusValue(s.status)| + 2 * |Separator|
    ensures r[..|u.username|] == u.username
    ensures r[|u.username|..|u.username| + |Separator|] == Separator
    ensures r[|u.username| + |Separator|..|u.username| + |Separator| + |p.name|] == p.name
    ensures r[|r| - |StatusValue(s.status)| - |Separator|..|r| - |StatusValue(s.status)|] == Separator
    ensures r[|r| - |StatusValue(s.status)|..] == StatusValue(s.status)
  {
    u.username + Separator + p.name + Separator + StatusValue(s.status)
  }

  /** Two subscriptions of the same user and plan print alike only when their statuses agree. */
  lemma {:induction false} SubscriptionStrShowsStatus(s: Subscription, t: Subscription, u: User, p: Plan)
    requires u.id == s.userId == t.userId && p.id == s.planId == t.planId
    ensures SubscriptionStr(s, u, p) == SubscriptionStr(t, u, p) <==> s.status == t.status
  {
    if SubscriptionStr(s, u, p) == SubscriptionStr(t, u, p) {
      var a := SubscriptionStr(s, u, p);
      var n := |u.username| + |p.name| + 2 * |Separator|;
      assert a[n..] == StatusValue(s.status);
      assert SubscriptionStr(t, u, p)[n..] == StatusValue(t.status);
      ChoiceValuesInjective(s.status, t.status, Monthly, Monthly);
    }
  }
}
