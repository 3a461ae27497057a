/** The payment-notification handlers of subscription/models.py: each PayPal
    notification resolves a plan and a user, may add the user to or remove
    them from the plan's group, appends one row to the transaction ledger and
    sends one signal. */
module Subscriptions {
  import opened Wrappers

  type PlanId = int
  type UserId = int
  type GroupId = int

  /** A row of the `Subscription` table (a plan). Prices are in cents. */
  datatype Plan = Plan(
    id: PlanId,
    name: string,
    price: int,
    recurrencePeriod: Option<nat>,
    recurrenceUnit: Option<string>,
    group: GroupId)

  /** A plan is recurring when its recurrence unit is set and non-empty
      (`not s.recurrence_unit` is true for null and for ""). */
  predicate IsRecurring(p: Plan) {
    p.recurrenceUnit.Some? && p.recurrenceUnit.value != ""
  }

  /** The fields of a PayPal notification the handlers read: the plan id
      (`item_number`), the user id (`custom`) and the gross amount
      (`mc_gross`, null in notifications that carry none, such as signups). */
  datatype Notification = Notification(itemNumber: PlanId, custom: UserId, mcGross: Option<int>)

  /** A row of the `Transaction` ledger; the plan and the user are nullable references. */
  datatype Transaction = Transaction(
    subscription: Option<PlanId>,
    user: Option<UserId>,
    ipn: Notification,
    event: string,
    amount: Option<int>)

  /** The signals of subscription/signals.py, as sent by the handlers. */
  datatype Signal =
    | SignedUp(subscription: Plan, user: UserId, ipn: Notification)
    | Subscribed(subscription: Plan, user: UserId, ipn: Notification)
    | Unsubscribed(subscription: Plan, user: UserId, ipn: Notification, reason: string)
    | Paid(subscription: Plan, user: UserId, ipn: Notification)
    | Event(eventSubscription: Option<Plan>, eventUser: Option<UserId>, ipn: Notification, event: string)

  /** The six PayPal notification kinds a handler is connected to. */
  datatype Kind =
    | PaymentWasSuccessful
    | PaymentWasFlagged
    | SubscriptionSignup
    | SubscriptionCancel
    | SubscriptionEot
    | SubscriptionModify

  // ---------------------------------------------------------------------
  // The plan catalog

  /** Sort key of a null `recurrence_period`: below every period. */
  function PeriodKey(p: Plan): int {
    if p.recurrencePeriod.Some? then p.recurrencePeriod.value else -1
  }

  /** `a` sorts strictly before `b` under `ordering = ('price', '-recurrence_period')`. */
  predicate Before(a: Plan, b: Plan) {
    a.price < b.price || (a.price == b.price && PeriodKey(a) > PeriodKey(b))
  }

  /** The table's constraints: unique ids, unique names, one plan per group
      (the `OneToOneField`), and rows listed in the table's ordering. */
  predicate ValidCatalog(plans: seq<Plan>) {
    && (forall i, j :: 0 <= i < j < |plans| ==> plans[i].id != plans[j].id)
    && (forall i, j :: 0 <= i < j < |plans| ==> plans[i].name != plans[j].name)
    && (forall i, j :: 0 <= i < j < |plans| ==> plans[i].group != plans[j].group)
    && (forall i, j :: 0 <= i < j < |plans| ==> !Before(plans[j], plans[i]))
  }

  /** `Subscription.objects.get(id=id)`, with `DoesNotExist` as `None`. */
  function FindPlan(plans: seq<Plan>, id: PlanId): (r: Option<Plan>)
    ensures r.Some? ==> r.value in plans && r.value.id == id
    ensures r.None? ==> forall p :: p in plans ==> p.id != id
  {
    if plans == [] then None
    else if plans[0].id == id then Some(plans[0])
    else FindPlan(plans[1..], id)
  }

  /** With unique ids the lookup returns the one plan that has the id. */
  lemma FindPlanUnique(plans: seq<Plan>, p: Plan)
    requires ValidCatalog(plans) && p in plans
    ensures FindPlan(plans, p.id) == Some(p)
  {
    var q := FindPlan(plans, p.id).value;
    var i :| 0 <= i < |plans| && plans[i] == p;
    var j :| 0 <= j < |plans| && plans[j] == q;
    assert i == j;
  }

  /** One-to-one groups: two distinct plans of the catalog never share a group. */
  lemma GroupsOneToOne(plans: seq<Plan>, p: Plan, q: Plan)
    requires ValidCatalog(plans) && p in plans && q in plans && p != q
    ensures p.group != q.group
  {
    var i :| 0 <= i < |plans| && plans[i] == p;
    var j :| 0 <= j < |plans| && plans[j] == q;
    assert i != j;
  }

  // ---------------------------------------------------------------------
  // Resolving a notification

  /** `_payment_args`: the plan named by `item_number` and the user named by
      `custom`, each `None` when there is no such row; it never fails. */
  function PaymentArgs(plans: seq<Plan>, users: map<UserId, set<GroupId>>, n: Notification)
    : (r: (Option<Plan>, Option<UserId>))
    ensures r.0.Some? <==> exists p :: p in plans && p.id == n.itemNumber
    ensures r.0.Some? ==> r.0.value in plans && r.0.value.id == n.itemNumber
    ensures r.1.Some? <==> n.custom in users
    ensures r.1.Some? ==> r.1.value == n.custom
  {
    (FindPlan(plans, n.itemNumber), if n.custom in users then Some(n.custom) else None)
  }

  function PlanRef(s: Option<Plan>): Option<PlanId> {
    if s.Some? then Some(s.value.id) else None
  }

  /** The groups of user `u`; a missing user has none. */
  function GroupsOf(users: map<UserId, set<GroupId>>, u: UserId): set<GroupId> {
    if u in users then users[u] else {}
  }

  /** User `u` has the access that plan `p` grants. */
  predicate HasAccess(users: map<UserId, set<GroupId>>, u: UserId, p: Plan) {
    p.group in GroupsOf(users, u)
  }

  // ---------------------------------------------------------------------
  // The decision table of the handlers

  datatype Access = Keep | Grant | Revoke

  datatype SignalKind =
    | SignedUpSignal
    | SubscribedSignal
    | UnsubscribedSignal(reason: string)
    | PaidSignal
    | EventSignal(event: string)

  /** What a handler does: the change to the user's membership of the plan's
      group, the ledger event and the signal. */
  datatype Reaction = Reaction(access: Access, entry: string, signal: SignalKind)

  predicate Resolved(s: Option<Plan>, u: Option<UserId>) {
    s.Some? && u.Some?
  }

  /** The handlers' branches. Access is granted by a resolved signup and by a
      resolved successful payment for a one-time plan, withdrawn by a resolved
      cancel or end of term, and otherwise kept; the specific signals need both
      plan and user; an unresolved payment, signup, cancel or end of term is
      logged as unexpected. */
  function React(kind: Kind, s: Option<Plan>, u: Option<UserId>): (r: Reaction)
    ensures r.access == Grant <==> (Resolved(s, u)
      && (kind == SubscriptionSignup || (kind == PaymentWasSuccessful && !IsRecurring(s.value))))
    ensures r.access == Revoke <==> (Resolved(s, u)
      && (kind == SubscriptionCancel || kind == SubscriptionEot))
    ensures !r.signal.EventSignal? <==> (Resolved(s, u)
      && kind != PaymentWasFlagged && kind != SubscriptionModify)
    ensures IsUnexpected(r.entry) <==> (!Resolved(s, u)
      && kind != PaymentWasFlagged && kind != SubscriptionModify)
  {
    ExpectedEntries();
    var resolved := Resolved(s, u);
    match kind
    case PaymentWasSuccessful =>
      if !resolved then Reaction(Keep, "unexpected payment", EventSignal("unexpected_payment"))
      else if !IsRecurring(s.value) then Reaction(Grant, "one-time payment", SignedUpSignal)
      else Reaction(Keep, "subscription payment", PaidSignal)
    case PaymentWasFlagged =>
      Reaction(Keep, "payment flagged", EventSignal("flagged"))
    case SubscriptionSignup =>
      if resolved then Reaction(Grant, "subscribed", SubscribedSignal)
      else Reaction(Keep, "unexpected subscription", EventSignal("unexpected_subscription"))
    case SubscriptionCancel =>
      if resolved then Reaction(Revoke, "cancel subscription", UnsubscribedSignal("cancel"))
      else Reaction(Keep, "unexpected cancel", EventSignal("unexpected_cancel"))
    case SubscriptionEot =>
      if resolved then Reaction(Revoke, "expired subscription", UnsubscribedSignal("eot"))
      else Reaction(Keep, "unexpected expiration", EventSignal("unexpected_expiration"))
    case SubscriptionModify =>
      Reaction(Keep, "modify subscription", EventSignal("subscription_modify"))
  }

  /** Ledger events of the unexpected branches start with "unexpected ". */
  predicate IsUnexpected(entry: string) {
    |entry| >= 11 && entry[..11] == "unexpected "
  }

  /** Of the handlers' ledger events, exactly those of the unexpected
      branches are marked unexpected. */
  lemma ExpectedEntries()
    ensures IsUnexpected("unexpected payment") && IsUnexpected("unexpected subscription")
    ensures IsUnexpected("unexpected cancel") && IsUnexpected("unexpected expiration")
    ensures !IsUnexpected("one-time payment") && !IsUnexpected("subscription payment")
    ensures !IsUnexpected("payment flagged") && !IsUnexpected("subscribed")
    ensures !IsUnexpected("cancel subscription") && !IsUnexpected("expired subscription")
    ensures !IsUnexpected("modify subscription")
  {
    assert "one-time payment"[0] != "unexpected "[0];
    assert "subscription payment"[0] != "unexpected "[0];
    assert "payment flagged"[0] != "unexpected "[0];
    assert "subscribed"[0] != "unexpected "[0];
    assert "cancel subscription"[0] != "unexpected "[0];
    assert "expired subscription"[0] != "unexpected "[0];
    assert "modify subscription"[0] != "unexpected "[0];
  }

  /** `u.groups.add(s.group)` / `u.groups.remove(s.group)`. */
  function ApplyAccess(users: map<UserId, set<GroupId>>, access: Access, s: Option<Plan>, u: Option<UserId>)
    : map<UserId, set<GroupId>>
    requires access != Keep ==> Resolved(s, u) && u.value in users
  {
    match access
    case Keep => users
    case Grant => users[u.value := users[u.value] + {s.value.group}]
    case Revoke => users[u.value := users[u.value] - {s.value.group}]
  }

  /** The signal a reaction sends. */
  function Emit(signal: SignalKind, s: Option<Plan>, u: Option<UserId>, n: Notification): Signal
    requires !signal.EventSignal? ==> Resolved(s, u)
  {
    match signal
    case SignedUpSignal => SignedUp(s.value, u.value, n)
    case SubscribedSignal => Subscribed(s.value, u.value, n)
    case UnsubscribedSignal(reason) => Unsubscribed(s.value, u.value, n, reason)
    case PaidSignal => Paid(s.value, u.value, n)
    case EventSignal(event) => Event(s, u, n, event)
  }

  // ---------------------------------------------------------------------
  // The database and one handler call

  /** The state the handlers read and write: the plan catalog, each user's
      groups, the ledger in the order rows were saved, and the signals sent. */
  datatype Db = Db(
    plans: seq<Plan>,
    users: map<UserId, set<GroupId>>,
    ledger: seq<Transaction>,
    events: seq<Signal>)

  /** Membership of every user in every group is as before, except possibly
      user `u`'s membership of group `g`. */
  predicate OnlyPairChanged(before: map<UserId, set<GroupId>>, after: map<UserId, set<GroupId>>, u: UserId, g: GroupId) {
    && before.Keys == after.Keys
    && (forall v :: v in before && v != u ==> after[v] == before[v])
    && (u in before ==> after[u] - {g} == before[u] - {g})
  }

  /** The effect of the handler of `kind` for notification `n`. Every call
      appends exactly one ledger row, referring to what resolved and carrying
      `mc_gross`, and sends exactly one signal; earlier rows and signals stay
      as they were; the catalog is untouched; membership changes at most for
      the resolved user and the resolved plan's group. */
  function Step(db: Db, kind: Kind, n: Notification): (r: Db)
    ensures r.plans == db.plans
    ensures |r.ledger| == |db.ledger| + 1 && r.ledger[..|db.ledger|] == db.ledger
    ensures |r.events| == |db.events| + 1 && r.events[..|db.events|] == db.events
    ensures var (s, u) := PaymentArgs(db.plans, db.users, n);
      var t := r.ledger[|db.ledger|];
      && t.subscription == PlanRef(s) && t.user == u && t.ipn == n && t.amount == n.mcGross
      && (if Resolved(s, u) then OnlyPairChanged(db.users, r.users, u.value, s.value.group)
          else r.users == db.users)
  {
    var (s, u) := PaymentArgs(db.plans, db.users, n);
    var reaction := React(kind, s, u);
    Db(db.plans,
       ApplyAccess(db.users, reaction.access, s, u),
       db.ledger + [Transaction(PlanRef(s), u, n, reaction.entry, n.mcGross)],
       db.events + [Emit(reaction.signal, s, u, n)])
  }

  /** The handlers called one after another on a list of notifications. */
  function Replay(db: Db, calls: seq<(Kind, Notification)>): Db
    decreases |calls|
  {
    if calls == [] then db else Replay(Step(db, calls[0].0, calls[0].1), calls[1..])
  }

  /** Across any run of handler calls the ledger only grows, by exactly one row
      per call, and earlier rows are never altered; the same for the signals;
      the catalog never changes. */
  lemma {:induction false} ReplayAppendsOnly(db: Db, calls: seq<(Kind, Notification)>)
    ensures var r := Replay(db, calls);
      && r.plans == db.plans
      && |r.ledger| == |db.ledger| + |calls| && r.ledger[..|db.ledger|] == db.ledger
      && |r.events| == |db.events| + |calls| && r.events[..|db.events|] == db.events
    decreases |calls|
  {
    if calls != [] {
      var next := Step(db, calls[0].0, calls[0].1);
      ReplayAppendsOnly(next, calls[1..]);
      var r := Replay(next, calls[1..]);
      assert r.ledger[..|db.ledger|] == r.ledger[..|next.ledger|][..|db.ledger|];
      assert r.events[..|db.events|] == r.events[..|next.events|][..|db.events|];
    }
  }

  /** A call does not change which plan and user a notification resolves to. */
  lemma StepKeepsResolution(db: Db, kind: Kind, n: Notification, m: Notification)
    ensures var r := Step(db, kind, n);
      PaymentArgs(r.plans, r.users, m) == PaymentArgs(db.plans, db.users, m)
  {
  }

  /** A duplicated notification (PayPal retries) leaves membership as the first
      delivery left it, and appends a second, identical ledger row. */
  lemma RetryKeepsMembership(db: Db, kind: Kind, n: Notification)
    ensures var once := Step(db, kind, n);
      var twice := Step(once, kind, n);
      && twice.users == once.users
      && twice.ledger == once.ledger + [once.ledger[|db.ledger|]]
  {
    var once := Step(db, kind, n);
    StepKeepsResolution(db, kind, n, n);
    var twice := Step(once, kind, n);
    assert twice.ledger[..|once.ledger|] == once.ledger;
    assert twice.ledger == twice.ledger[..|once.ledger|] + [twice.ledger[|once.ledger|]];
  }

  /** Because each group belongs to one plan, a call never changes anyone's
      access to any plan other than the one the notification resolves to. */
  lemma OtherPlansUnaffected(db: Db, kind: Kind, n: Notification, p: Plan, v: UserId)
    requires ValidCatalog(db.plans) && p in db.plans
    requires PaymentArgs(db.plans, db.users, n).0 != Some(p)
    ensures HasAccess(Step(db, kind, n).users, v, p) == HasAccess(db.users, v, p)
  {
    var (s, u) := PaymentArgs(db.plans, db.users, n);
    if Resolved(s, u) {
      GroupsOneToOne(db.plans, p, s.value);
    }
  }

  // ---------------------------------------------------------------------
  // The six handlers, branch by branch

  /** `handle_payment_was_successful`. */
  lemma PaymentWasSuccessfulEffect(db: Db, n: Notification)
    ensures var (s, u) := PaymentArgs(db.plans, db.users, n);
      var r := Step(db, PaymentWasSuccessful, n);
      if Resolved(s, u) && !IsRecurring(s.value) then
        && r.users == db.users[u.value := db.users[u.value] + {s.value.group}]
        && r.ledger == db.ledger + [Transaction(Some(s.value.id), u, n, "one-time payment", n.mcGross)]
        && r.events == db.events + [SignedUp(s.value, u.value, n)]
      else if Resolved(s, u) then
        && r.users == db.users
        && r.ledger == db.ledger + [Transaction(Some(s.value.id), u, n, "subscription payment", n.mcGross)]
        && r.events == db.events + [Paid(s.value, u.value, n)]
      else
        && r.users == db.users
        && r.ledger == db.ledger + [Transaction(PlanRef(s), u, n, "unexpected payment", n.mcGross)]
        && r.events == db.events + [Event(s, u, n, "unexpected_payment")]
  {
  }

  /** `handle_payment_was_flagged`: whatever resolves. */
  lemma PaymentWasFlaggedEffect(db: Db, n: Notification)
    ensures var (s, u) := PaymentArgs(db.plans, db.users, n);
      var r := Step(db, PaymentWasFlagged, n);
      && r.users == db.users
      && r.ledger == db.ledger + [Transaction(PlanRef(s), u, n, "payment flagged", n.mcGross)]
      && r.events == db.events + [Event(s, u, n, "flagged")]
  {
  }

  /** `handle_subscription_signup`. */
  lemma SubscriptionSignupEffect(db: Db, n: Notification)
    ensures var (s, u) := PaymentArgs(db.plans, db.users, n);
      var r := Step(db, SubscriptionSignup, n);
      if Resolved(s, u) then
        && r.users == db.users[u.value := db.users[u.value] + {s.value.group}]
        && r.ledger == db.ledger + [Transaction(Some(s.value.id), u, n, "subscribed", n.mcGross)]
        && r.events == db.events + [Subscribed(s.value, u.value, n)]
      else
        && r.users == db.users
        && r.ledger == db.ledger + [Transaction(PlanRef(s), u, n, "unexpected subscription", n.mcGross)]
        && r.events == db.events + [Event(s, u, n, "unexpected_subscription")]
  {
  }

  /** `handle_subscription_cancel`. */
  lemma SubscriptionCancelEffect(db: Db, n: Notification)
    ensures var (s, u) := PaymentArgs(db.plans, db.users, n);
      var r := Step(db, SubscriptionCancel, n);
      if Resolved(s, u) then
        && r.users == db.users[u.value := db.users[u.value] - {s.value.group}]
        && r.ledger == db.ledger + [Transaction(Some(s.value.id), u, n, "cancel subscription", n.mcGross)]
        && r.events == db.events + [Unsubscribed(s.value, u.value, n, "cancel")]
      else
        && r.users == db.users
        && r.ledger == db.ledger + [Transaction(PlanRef(s), u, n, "unexpected cancel", n.mcGross)]
        && r.events == db.events + [Event(s, u, n, "unexpected_cancel")]
  {
  }

  /** `handle_subscription_eot`. */
  lemma SubscriptionEotEffect(db: Db, n: Notification)
    ensures var (s, u) := PaymentArgs(db.plans, db.users, n);
      var r := Step(db, SubscriptionEot, n);
      if Resolved(s, u) then
        && r.users == db.users[u.value := db.users[u.value] - {s.value.group}]
        && r.ledger == db.ledger + [Transaction(Some(s.value.id), u, n, "expired subscription", n.mcGross)]
        && r.events == db.events + [Unsubscribed(s.value, u.value, n, "eot")]
      else
        && r.users == db.users
        && r.ledger == db.ledger + [Transaction(PlanRef(s), u, n, "unexpected expiration", n.mcGross)]
        && r.events == db.events + [Event(s, u, n, "unexpected_expiration")]
  {
  }

  /** `handle_subscription_modify`: whatever resolves. */
  lemma SubscriptionModifyEffect(db: Db, n: Notification)
    ensures var (s, u) := PaymentArgs(db.plans, db.users, n);
      var r := Step(db, SubscriptionModify, n);
      && r.users == db.users
      && r.ledger == db.ledger + [Transaction(PlanRef(s), u, n, "modify subscription", n.mcGross)]
      && r.events == db.events + [Event(s, u, n, "subscription_modify")]
  {
  }

  // ---------------------------------------------------------------------
  // User.get_subscription

  /** Index of the first plan, in catalog order, whose group is among `groups`
      (`|plans|` when there is none). */
  function FirstMatch(plans: seq<Plan>, groups: set<GroupId>): (i: nat)
    ensures i <= |plans|
    ensures forall j :: 0 <= j < i ==> plans[j].group !in groups
    ensures i < |plans| ==> plans[i].group in groups
  {
    if plans == [] then 0
    else if plans[0].group in groups then 0
    else 1 + FirstMatch(plans[1..], groups)
  }

  /** `Subscription.objects.filter(group__in=user.groups.all())[:1]`. */
  function FirstSubscription(plans: seq<Plan>, groups: set<GroupId>): (r: Option<Plan>)
    ensures r.Some? ==> r.value in plans && r.value.group in groups
    ensures r.None? <==> forall p :: p in plans ==> p.group !in groups
  {
    var i := FirstMatch(plans, groups);
    if i < |plans| then Some(plans[i]) else None
  }

  /** In an ordered catalog the plan found is one of the cheapest the user
      belongs to, and among those of equal price one with the longest period. */
  lemma FirstSubscriptionIsLeast(plans: seq<Plan>, groups: set<GroupId>, q: Plan)
    requires ValidCatalog(plans) && q in plans && q.group in groups
    ensures FirstSubscription(plans, groups).Some?
    ensures !Before(q, FirstSubscription(plans, groups).value)
  {
    var i := FirstMatch(plans, groups);
    var j :| 0 <= j < |plans| && plans[j] == q;
    assert i <= j;
  }

  /** After a resolved signup the user has a subscription, and it does not sort
      after the plan signed up for. */
  lemma SignupGivesSubscription(db: Db, n: Notification)
    requires ValidCatalog(db.plans)
    requires Resolved(PaymentArgs(db.plans, db.users, n).0, PaymentArgs(db.plans, db.users, n).1)
    ensures var s := PaymentArgs(db.plans, db.users, n).0.value;
      var r := Step(db, SubscriptionSignup, n);
      var found := FirstSubscription(r.plans, GroupsOf(r.users, n.custom));
      found.Some? && !Before(s, found.value)
  {
    var s := PaymentArgs(db.plans, db.users, n).0.value;
    var r := Step(db, SubscriptionSignup, n);
    SubscriptionSignupEffect(db, n);
    FirstSubscriptionIsLeast(r.plans, GroupsOf(r.users, n.custom), s);
  }

  /** After a resolved cancel or end of term the user's subscription is never
      the plan cancelled. */
  lemma CancelEndsSubscription(db: Db, kind: Kind, n: Notification)
    requires ValidCatalog(db.plans)
    requires kind == SubscriptionCancel || kind == SubscriptionEot
    requires Resolved(PaymentArgs(db.plans, db.users, n).0, PaymentArgs(db.plans, db.users, n).1)
    ensures var s := PaymentArgs(db.plans, db.users, n).0.value;
      var r := Step(db, kind, n);
      FirstSubscription(r.plans, GroupsOf(r.users, n.custom)) != Some(s)
  {
    var s := PaymentArgs(db.plans, db.users, n).0.value;
    var r := Step(db, kind, n);
    assert s.group !in GroupsOf(r.users, n.custom);
  }

  // ---------------------------------------------------------------------
  // The database as the handlers mutate it

  class Store {
    var plans: seq<Plan>
    var users: map<UserId, set<GroupId>>
    var ledger: seq<Transaction>
    var events: seq<Signal>

    predicate Valid()
      reads this
    {
      ValidCatalog(plans)
    }

    function Snapshot(): Db
      reads this
    {
      Db(plans, users, ledger, events)
    }

    constructor (plans: seq<Plan>, users: map<UserId, set<GroupId>>)
      requires ValidCatalog(plans)
      ensures Valid() && Snapshot() == Db(plans, users, [], [])
    {
      this.plans := plans;
      this.users := users;
      this.ledger := [];
      this.events := [];
    }

    /** `Transaction(...).save()`. */
    method SaveTransaction(t: Transaction)
      modifies this`ledger
      ensures ledger == old(ledger) + [t]
    {
      ledger := ledger + [t];
    }

    /** `signals.<signal>.send(...)`. */
    method Send(signal: Signal)
      modifies this`events
      ensures events == old(events) + [signal]
    {
      events := events + [signal];
    }

    /** `u.groups.add(g); u.save()`: a set insertion, so repeating it changes nothing. */
    method AddGroup(u: UserId, g: GroupId)
      requires u in users
      modifies this`users
      ensures users == old(users)[u := old(users)[u] + {g}]
    {
      users := users[u := users[u] + {g}];
    }

    /** `u.groups.remove(g); u.save()`: a set removal, so repeating it changes nothing. */
    method RemoveGroup(u: UserId, g: GroupId)
      requires u in users
      modifies this`users
      ensures users == old(users)[u := old(users)[u] - {g}]
    {
      users := users[u := users[u] - {g}];
    }

    method HandlePaymentWasSuccessful(n: Notification)
      requires Valid()
      modifies this`users, this`ledger, this`events
      ensures Valid()
      ensures Snapshot() == Step(old(Snapshot()), PaymentWasSuccessful, n)
    {
      var (s, u) := PaymentArgs(plans, users, n);
      if s.Some? && u.Some? {
        if !IsRecurring(s.value) {
          AddGroup(u.value, s.value.group);
          SaveTransaction(Transaction(Some(s.value.id), u, n, "one-time payment", n.mcGross));
          Send(SignedUp(s.value, u.value, n));
        } else {
          SaveTransaction(Transaction(Some(s.value.id), u, n, "subscription payment", n.mcGross));
          Send(Paid(s.value, u.value, n));
        }
      } else {
        SaveTransaction(Transaction(PlanRef(s), u, n, "unexpected payment", n.mcGross));
        Send(Event(s, u, n, "unexpected_payment"));
      }
    }

    method HandlePaymentWasFlagged(n: Notification)
      requires Valid()
      modifies this`ledger, this`events
      ensures Valid()
      ensures Snapshot() == Step(old(Snapshot()), PaymentWasFlagged, n)
    {
      var (s, u) := PaymentArgs(plans, users, n);
      SaveTransaction(Transaction(PlanRef(s), u, n, "payment flagged", n.mcGross));
      Send(Event(s, u, n, "flagged"));
    }

    method HandleSubscriptionSignup(n: Notification)
      requires Valid()
      modifies this`users, this`ledger, this`events
      ensures Valid()
      ensures Snapshot() == Step(old(Snapshot()), SubscriptionSignup, n)
    {
      var (s, u) := PaymentArgs(plans, users, n);
      if u.Some? && s.Some? {
        AddGroup(u.value, s.value.group);
        SaveTransaction(Transaction(Some(s.value.id), u, n, "subscribed", n.mcGross));
        Send(Subscribed(s.value, u.value, n));
      } else {
        SaveTransaction(Transaction(PlanRef(s), u, n, "unexpected subscription", n.mcGross));
        Send(Event(s, u, n, "unexpected_subscription"));
      }
    }

    method HandleSubscriptionCancel(n: Notification)
      requires Valid()
      modifies this`users, this`ledger, this`events
      ensures Valid()
      ensures Snapshot() == Step(old(Snapshot()), SubscriptionCancel, n)
    {
      var (s, u) := PaymentArgs(plans, users, n);
      if u.Some? && s.Some? {
        RemoveGroup(u.value, s.value.group);
        SaveTransaction(Transaction(Some(s.value.id), u, n, "cancel subscription", n.mcGross));
        Send(Unsubscribed(s.value, u.value, n, "cancel"));
      } else {
        SaveTransaction(Transaction(PlanRef(s), u, n, "unexpected cancel", n.mcGross));
        Send(Event(s, u, n, "unexpected_cancel"));
      }
    }

    method HandleSubscriptionEot(n: Notification)
      requires Valid()
      modifies this`users, this`ledger, this`events
      ensures Valid()
      ensures Snapshot() == Step(old(Snapshot()), SubscriptionEot, n)
    {
      var (s, u) := PaymentArgs(plans, users, n);
      if u.Some? && s.Some? {
        RemoveGroup(u.value, s.value.group);
        SaveTransaction(Transaction(Some(s.value.id), u, n, "expired subscription", n.mcGross));
        Send(Unsubscribed(s.value, u.value, n, "eot"));
      } else {
        SaveTransaction(Transaction(PlanRef(s), u, n, "unexpected expiration", n.mcGross));
        Send(Event(s, u, n, "unexpected_expiration"));
      }
    }

    method HandleSubscriptionModify(n: Notification)
      requires Valid()
      modifies this`ledger, this`events
      ensures Valid()
      ensures Snapshot() == Step(old(Snapshot()), SubscriptionModify, n)
    {
      var (s, u) := PaymentArgs(plans, users, n);
      SaveTransaction(Transaction(PlanRef(s), u, n, "modify subscription", n.mcGross));
      Send(Event(s, u, n, "subscription_modify"));
    }
  }

  /** The memoised answer outlives a change of the user's groups: a user
      whose subscription was looked up before a cancel still gets the same
      answer afterwards, though the cancel removed the plan's group. */
  method CacheOutlivesCancel(store: Store, user: User, n: Notification)
    returns (before: Option<Plan>, after: Option<Plan>)
    requires store.Valid() && user.subscriptionCache.None? && n.custom == user.id
    modifies store`users, store`ledger, store`events, user`subscriptionCache
    ensures before == after
    ensures before == FirstSubscription(old(store.plans), GroupsOf(old(store.users), user.id))
    ensures var (s, u) := PaymentArgs(old(store.plans), old(store.users), n);
      Resolved(s, u) ==> s.value.group !in GroupsOf(store.users, user.id)
  {
    before := user.GetSubscription(store);
    store.HandleSubscriptionCancel(n);
    after := user.GetSubscription(store);
  }

  /** A loaded user object; `User.get_subscription` memoises its answer on it. */
  class User {
    const id: UserId
    /** `_subscription_cache`: `None` while the attribute is unset. */
    var subscriptionCache: Option<Option<Plan>>

    constructor (id: UserId)
      ensures this.id == id && subscriptionCache == None
    {
      this.id := id;
      subscriptionCache := None;
    }

    /** The first plan of the catalog whose group the user is in, computed on
        the first call and returned unchanged afterwards, even when the user's
        groups have changed since. */
    method GetSubscription(store: Store) returns (r: Option<Plan>)
      modifies this`subscriptionCache
      ensures old(subscriptionCache).Some? ==>
        r == old(subscriptionCache).value && subscriptionCache == old(subscriptionCache)
      ensures old(subscriptionCache).None? ==>
        r == FirstSubscription(store.plans, GroupsOf(store.users, id)) && subscriptionCache == Some(r)
    {
      if subscriptionCache.None? {
        subscriptionCache := Some(FirstSubscription(store.plans, GroupsOf(store.users, id)));
      }
      r := subscriptionCache.value;
    }
  }
}
