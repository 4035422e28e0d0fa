/** The durable invoice creation: an idempotency key reserves an order, at most one caller asks
    the gateway to create it, and everybody else looks it up. Any number of requests on any
    number of instances interleave, and each may stop between any two of its calls. */
module Intents {
  import opened Prelude
  import opened Ledger
  import opened Invariant

  // ----- what a key is bound to ----------------------------------------------------------------

  /** A create request; the empty provider leaves the choice to the service. */
  datatype Request = Request(key: string, user: UserId, plan: Plan, currency: string, provider: string)

  const SEPARATOR: char := '\0'

  /** The text whose digest binds a key to its parameters; a digest is modelled by its preimage. */
  function Bound(user: UserId, plan: Plan, currency: string, amount: string, provider: string): string {
    user + [SEPARATOR] + plan + [SEPARATOR] + currency + [SEPARATOR] + amount + [SEPARATOR] + provider
  }

  predicate Plain(s: string) {
    SEPARATOR !in s
  }

  lemma PlainAfter(a: string, b: string, k: nat)
    requires Plain(b)
    ensures |a| < k <= |a| + |b| ==> (a + [SEPARATOR] + b)[k] != SEPARATOR
  {
    if |a| < k <= |a| + |b| { assert (a + [SEPARATOR] + b)[k] == b[k - |a| - 1]; }
  }

  /** Joining two fields is injective when the last one has no separator. */
  lemma LastFieldSplits(a: string, b: string, x: string, y: string)
    requires a + [SEPARATOR] + b == x + [SEPARATOR] + y && Plain(b) && Plain(y)
    ensures a == x && b == y
  {
    var whole := a + [SEPARATOR] + b;
    assert whole[|a|] == SEPARATOR && whole[|x|] == SEPARATOR;
    PlainAfter(a, b, |x|);
    PlainAfter(x, y, |a|);
    assert whole[..|a|] == a && whole[..|x|] == x;
    assert whole[|a| + 1..] == b && whole[|x| + 1..] == y;
  }

  /** Equal digests mean equal parameters, as long as only the user id can hold a separator. */
  lemma EqualBoundsEqualFields(user: UserId, plan: Plan, currency: string, amount: string, provider: string,
                               user': UserId, plan': Plan, currency': string, amount': string, provider': string)
    requires Bound(user, plan, currency, amount, provider) == Bound(user', plan', currency', amount', provider')
    requires Plain(plan) && Plain(currency) && Plain(amount) && Plain(provider)
    requires Plain(plan') && Plain(currency') && Plain(amount') && Plain(provider')
    ensures user == user' && plan == plan' && currency == currency' && amount == amount' && provider == provider'
  {
    LastFieldSplits(user + [SEPARATOR] + plan + [SEPARATOR] + currency + [SEPARATOR] + amount, provider,
                    user' + [SEPARATOR] + plan' + [SEPARATOR] + currency' + [SEPARATOR] + amount', provider');
    LastFieldSplits(user + [SEPARATOR] + plan + [SEPARATOR] + currency, amount,
                    user' + [SEPARATOR] + plan' + [SEPARATOR] + currency', amount');
    LastFieldSplits(user + [SEPARATOR] + plan, currency, user' + [SEPARATOR] + plan', currency');
    LastFieldSplits(user, plan, user', plan');
  }

  /** What a currency with a separator gains, a user id can lose: the fields move and the text stays. */
  lemma SeparatorsCollide(user: UserId, plan: Plan, x: string, plan': Plan, currency: string, amount: string, provider: string)
    ensures
      Bound(user + [SEPARATOR] + plan + [SEPARATOR] + x, plan', currency, amount, provider)
      == Bound(user, plan, x + [SEPARATOR] + plan' + [SEPARATOR] + currency, amount, provider)
  {
    var front := user + [SEPARATOR] + plan + [SEPARATOR];
    var moved := x + [SEPARATOR] + plan' + [SEPARATOR] + currency;
    assert (front + x) + [SEPARATOR] + plan' + [SEPARATOR] + currency == front + moved;
  }

  // ----- the machine ----------------------------------------------------------------------------

  /** The price list, and how an amount is written. */
  datatype Shop = Shop(prices: map<(Plan, string), real>, show: real -> string)

  ghost predicate ShopOk(shop: Shop) {
    && (forall entry :: entry in shop.prices ==> Plain(entry.1))
    && (forall amount :: Plain(shop.show(amount)))
  }

  /** Where a request stands, named after its next call. */
  datatype Phase =
    | Looking                                // read the intent of the key
    | Reserving                              // there was none: reserve one
    | Holding(intent: Intent, amount: real)  // compare the parameters
    | Beginning(intent: Intent)              // take the right to create
    | Calling(intent: Intent)                // the one create call at the gateway
    | Refusing(intent: Intent)               // the gateway rejected it: mark the intent failed
    | Searching(intent: Intent)              // look the order up at the gateway
    | Storing(intent: Intent, inv: Invoice)  // keep what the gateway answered

  datatype Task = Task(req: Request, phase: Phase)

  datatype Outcome = Created(inv: Invoice) | Rejected | Broken

  datatype Answer = Answer(req: Request, inv: Invoice)

  /** `creates` counts the create calls each key has caused; `answers` are the successes. */
  datatype Desk = Desk(store: Store, tasks: map<nat, Task>, creates: map<string, nat>, answers: set<Answer>)

  const Closed := Desk(EmptyStore, map[], map[], {})

  datatype Step =
    | Arrive(t: nat, req: Request)
    | Look(t: nat)
    | Reserve(t: nat, provider: string, order: InvoiceId)
    | Check(t: nat)
    | Begin(t: nat)
    | Create(t: nat, outcome: Outcome)
    | Refuse(t: nat)
    | Search(t: nat, found: Option<Invoice>)
    | Finish(t: nat)
    | Stop(t: nat)
    | Overwrite(id: InvoiceId, status: InvoiceStatus)

  function To(d: Desk, t: nat, phase: Phase): Desk
    requires t in d.tasks
  {
    d.(tasks := d.tasks[t := d.tasks[t].(phase := phase)])
  }

  function Gone(d: Desk, t: nat): Desk {
    d.(tasks := d.tasks - {t})
  }

  function Succeed(d: Desk, t: nat, inv: Invoice): Desk
    requires t in d.tasks
  {
    Gone(d.(answers := d.answers + {Answer(d.tasks[t].req, inv)}), t)
  }

  predicate WellFormed(req: Request) {
    req.key != "" && req.user != "" && PlanValid(req.plan) && req.currency != ""
  }

  function DoLook(shop: Shop, d: Desk, t: nat): Desk {
    if t in d.tasks && d.tasks[t].phase.Looking? then
      var req := d.tasks[t].req;
      if req.key in d.store.intents then To(d, t, Holding(d.store.intents[req.key], d.store.intents[req.key].amount))
      else if (req.plan, req.currency) in shop.prices then To(d, t, Reserving)
      else Gone(d, t)
    else d
  }

  /** A fresh random order id names no invoice and no other intent. */
  predicate FreshOrder(s: Store, order: InvoiceId) {
    order !in s.invoices && forall k :: k in s.intents ==> s.intents[k].orderId != order
  }

  function DoReserve(shop: Shop, d: Desk, t: nat, provider: string, order: InvoiceId): Desk {
    if t in d.tasks && d.tasks[t].phase.Reserving? && Plain(provider) && FreshOrder(d.store, order)
       && (d.tasks[t].req.plan, d.tasks[t].req.currency) in shop.prices
       && (d.tasks[t].req.provider == "" || d.tasks[t].req.provider == provider) then
      var req := d.tasks[t].req;
      var amount := shop.prices[(req.plan, req.currency)];
      var digest := Bound(req.user, req.plan, req.currency, shop.show(amount), provider);
      var intent := Intent(req.key, digest, order, provider, req.user, req.plan, req.currency, amount, Reserved);
      match ReserveInvoiceIntent(d.store, intent)
      case Ok((store, got, _)) => To(d.(store := store), t, Holding(got, amount))
      case Err(_) => Gone(d, t)
    else d
  }

  /** The parameters of the request are those the key is bound to. */
  predicate Agreed(shop: Shop, req: Request, intent: Intent, amount: real) {
    && (req.provider == "" || req.provider == intent.provider)
    && intent.requestHash == Bound(req.user, req.plan, req.currency, shop.show(amount), intent.provider)
  }

  function DoCheck(shop: Shop, d: Desk, t: nat): Desk {
    if t in d.tasks && d.tasks[t].phase.Holding? then
      var Holding(intent, amount) := d.tasks[t].phase;
      if !Agreed(shop, d.tasks[t].req, intent, amount) then Gone(d, t)
      else match intent.state
        case Ready => if intent.orderId in d.store.invoices then Succeed(d, t, d.store.invoices[intent.orderId]) else Gone(d, t)
        case Failed => Gone(d, t)
        case Reserved => To(d, t, Beginning(intent))
        case Creating => To(d, t, Searching(intent))
    else d
  }

  function DoBegin(d: Desk, t: nat): Desk {
    if t in d.tasks && d.tasks[t].phase.Beginning? then
      var intent := d.tasks[t].phase.intent;
      match BeginInvoiceCreate(d.store, intent.key)
      case Ok((store, began)) => To(d.(store := store), t, if began then Calling(intent) else Searching(intent))
      case Err(_) => Gone(d, t)
    else d
  }

  function Count(creates: map<string, nat>, key: string): nat {
    if key in creates then creates[key] else 0
  }

  function DoCreate(d: Desk, t: nat, outcome: Outcome): Desk {
    if t in d.tasks && d.tasks[t].phase.Calling? then
      var intent := d.tasks[t].phase.intent;
      var d' := d.(creates := d.creates[intent.key := Count(d.creates, intent.key) + 1]);
      match outcome
      case Created(inv) => To(d', t, Storing(intent, inv))
      case Rejected => To(d', t, Refusing(intent))
      case Broken => To(d', t, Searching(intent))
    else d
  }

  function DoRefuse(d: Desk, t: nat): Desk {
    if t in d.tasks && d.tasks[t].phase.Refusing? then
      match FailInvoiceCreate(d.store, d.tasks[t].phase.intent.key)
      case Ok(store) => Gone(d.(store := store), t)
      case Err(_) => Gone(d, t)
    else d
  }

  function DoSearch(d: Desk, t: nat, found: Option<Invoice>): Desk {
    if t in d.tasks && d.tasks[t].phase.Searching? then
      if found.Some? then To(d, t, Storing(d.tasks[t].phase.intent, found.value)) else Gone(d, t)
    else d
  }

  function DoFinish(d: Desk, t: nat): Desk {
    if t in d.tasks && d.tasks[t].phase.Storing? then
      var Storing(intent, inv) := d.tasks[t].phase;
      match CompleteInvoiceCreate(d.store, intent.key, inv)
      case Ok(store) => Succeed(d.(store := store), t, inv)
      case Err(_) => Gone(d, t)
    else d
  }

  function Do(shop: Shop, d: Desk, step: Step): Desk {
    match step
    case Arrive(t, req) => if t in d.tasks || !WellFormed(req) then d else d.(tasks := d.tasks[t := Task(req, Looking)])
    case Look(t) => DoLook(shop, d, t)
    case Reserve(t, provider, order) => DoReserve(shop, d, t, provider, order)
    case Check(t) => DoCheck(shop, d, t)
    case Begin(t) => DoBegin(d, t)
    case Create(t, outcome) => DoCreate(d, t, outcome)
    case Refuse(t) => DoRefuse(d, t)
    case Search(t, found) => DoSearch(d, t, found)
    case Finish(t) => DoFinish(d, t)
    case Stop(t) => Gone(d, t)
    case Overwrite(id, status) =>
      (match SetInvoiceStatus(d.store, id, status) case Ok(store) => d.(store := store) case Err(_) => d)
  }

  function Play(shop: Shop, d: Desk, steps: seq<Step>): Desk {
    if steps == [] then d else Do(shop, Play(shop, d, steps[..|steps| - 1]), steps[|steps| - 1])
  }

  // ----- what always holds ------------------------------------------------------------------------

  /** All of an intent but its state. */
  predicate SameTerms(a: Intent, b: Intent) {
    a.(state := Reserved) == b.(state := Reserved)
  }

  predicate IntentOk(shop: Shop, k: string, intent: Intent) {
    && intent.key == k && Plain(intent.currency) && Plain(intent.provider) && PlanValid(intent.plan)
    && intent.requestHash == Bound(intent.user, intent.plan, intent.currency, shop.show(intent.amount), intent.provider)
  }

  /** What a task has in hand is the intent of its key, and past the check its parameters agree. */
  ghost predicate TaskOk(shop: Shop, intents: map<string, Intent>, creates: map<string, nat>, task: Task) {
    && WellFormed(task.req)
    && match task.phase
       case Looking => true
       case Reserving => true
       case Holding(intent, _) => task.req.key in intents && SameTerms(intent, intents[task.req.key])
       case Calling(intent) =>
         && Past(shop, intents, task.req, intent) && intents[intent.key].state != Reserved && intent.key !in creates
       case _ => Past(shop, intents, task.req, task.phase.intent)
  }

  ghost predicate Past(shop: Shop, intents: map<string, Intent>, req: Request, intent: Intent) {
    && req.key in intents && intent.key == req.key && SameTerms(intent, intents[req.key])
    && exists amount :: Agreed(shop, req, intent, amount)
  }

  predicate CreateOk(intents: map<string, Intent>, k: string, n: nat) {
    n == 1 && k in intents && intents[k].state != Reserved
  }

  ghost predicate AnswerOk(shop: Shop, intents: map<string, Intent>, invoices: map<InvoiceId, Invoice>, a: Answer) {
    && WellFormed(a.req) && a.req.key in intents && (exists amount :: Agreed(shop, a.req, intents[a.req.key], amount))
    && a.inv.id == intents[a.req.key].orderId && a.inv.provider == intents[a.req.key].provider && a.inv.id in invoices
  }

  predicate RowOk(intent: Intent, invoices: map<InvoiceId, Invoice>) {
    intent.orderId in invoices ==>
      invoices[intent.orderId].id == intent.orderId && invoices[intent.orderId].provider == intent.provider
  }

  predicate Caller(tasks: map<nat, Task>, t: nat, key: string) {
    t in tasks && tasks[t].phase.Calling? && tasks[t].phase.intent.key == key
  }

  ghost predicate OneCaller(tasks: map<nat, Task>) {
    forall t, u, key :: Caller(tasks, t, key) && Caller(tasks, u, key) ==> t == u
  }

  ghost predicate Orderly(shop: Shop, d: Desk) {
    && (forall k :: k in d.store.intents ==> IntentOk(shop, k, d.store.intents[k]) && RowOk(d.store.intents[k], d.store.invoices))
    && (forall k, l :: k in d.store.intents && l in d.store.intents && k != l ==>
         d.store.intents[k].orderId != d.store.intents[l].orderId)
    && (forall t :: t in d.tasks ==> TaskOk(shop, d.store.intents, d.creates, d.tasks[t]))
    && OneCaller(d.tasks)
    && (forall k :: k in d.creates ==> CreateOk(d.store.intents, k, d.creates[k]))
    && (forall a :: a in d.answers ==> AnswerOk(shop, d.store.intents, d.store.invoices, a))
  }

  // ----- every step keeps it ------------------------------------------------------------------------

  /** A task moves on and nothing else happens, unless the task becomes the caller. */
  lemma MoveOn(shop: Shop, d: Desk, t: nat, task: Task)
    requires Orderly(shop, d) && TaskOk(shop, d.store.intents, d.creates, task) && !task.phase.Calling?
    ensures Orderly(shop, d.(tasks := d.tasks[t := task]))
  {
    hide TaskOk, IntentOk, RowOk, CreateOk, AnswerOk;
    FewerCallers(d.tasks, d.tasks[t := task]);
  }

  lemma StopKeeps(shop: Shop, d: Desk, t: nat)
    requires Orderly(shop, d)
    ensures Orderly(shop, Gone(d, t))
  {
    hide TaskOk, IntentOk, RowOk, CreateOk, AnswerOk;
    FewerCallers(d.tasks, d.tasks - {t});
  }

  lemma FewerCallers(tasks: map<nat, Task>, tasks': map<nat, Task>)
    requires OneCaller(tasks)
    requires forall t :: t in tasks' && tasks'[t].phase.Calling? ==> t in tasks && tasks[t] == tasks'[t]
    ensures OneCaller(tasks')
  {
    forall t, u, key | Caller(tasks', t, key) && Caller(tasks', u, key) ensures t == u {
      assert Caller(tasks, t, key) && Caller(tasks, u, key);
    }
  }

  lemma LookKeeps(shop: Shop, d: Desk, t: nat)
    requires Orderly(shop, d)
    ensures Orderly(shop, DoLook(shop, d, t))
  {
    hide Orderly;
    StopKeeps(shop, d, t);
    if t in d.tasks && d.tasks[t].phase.Looking? {
      TaskAt(shop, d, t);
      var req := d.tasks[t].req;
      if req.key in d.store.intents {
        MoveOn(shop, d, t, d.tasks[t].(phase := Holding(d.store.intents[req.key], d.store.intents[req.key].amount)));
      } else {
        MoveOn(shop, d, t, d.tasks[t].(phase := Reserving));
      }
    }
  }

  lemma TaskAt(shop: Shop, d: Desk, t: nat)
    requires Orderly(shop, d) && t in d.tasks
    ensures TaskOk(shop, d.store.intents, d.creates, d.tasks[t])
  {
  }

  /** The first reservation of a key binds it. */
  lemma NewIntentKeeps(shop: Shop, d: Desk, intent: Intent)
    requires Orderly(shop, d) && intent.key !in d.store.intents && IntentOk(shop, intent.key, intent)
    requires FreshOrder(d.store, intent.orderId)
    ensures Orderly(shop, d.(store := d.store.(intents := d.store.intents[intent.key := intent])))
  {
    hide IntentOk, TaskOk, AnswerOk, OneCaller;
    var intents := d.store.intents[intent.key := intent];
    forall t | t in d.tasks ensures TaskOk(shop, intents, d.creates, d.tasks[t]) {
      TaskAt(shop, d, t);
      TaskKnowsMore(shop, d.store.intents, intent, d.creates, d.tasks[t]);
    }
    forall a | a in d.answers ensures AnswerOk(shop, intents, d.store.invoices, a) {
      AnswerKnowsMore(shop, d.store.intents, intent, d.store.invoices, a);
    }
  }

  lemma TaskKnowsMore(shop: Shop, intents: map<string, Intent>, intent: Intent, creates: map<string, nat>, task: Task)
    requires intent.key !in intents && TaskOk(shop, intents, creates, task)
    ensures TaskOk(shop, intents[intent.key := intent], creates, task)
  {
    hide Agreed;
  }

  lemma AnswerKnowsMore(shop: Shop, intents: map<string, Intent>, intent: Intent, invoices: map<InvoiceId, Invoice>, a: Answer)
    requires intent.key !in intents && AnswerOk(shop, intents, invoices, a)
    ensures AnswerOk(shop, intents[intent.key := intent], invoices, a)
  {
    hide Agreed;
  }

  lemma ReserveKeeps(shop: Shop, d: Desk, t: nat, provider: string, order: InvoiceId)
    requires ShopOk(shop) && Orderly(shop, d)
    ensures Orderly(shop, DoReserve(shop, d, t, provider, order))
  {
    hide Orderly, FreshOrder, Bound, ShopOk;
    StopKeeps(shop, d, t);
    if t in d.tasks && d.tasks[t].phase.Reserving? && Plain(provider) && FreshOrder(d.store, order)
       && (d.tasks[t].req.plan, d.tasks[t].req.currency) in shop.prices
       && (d.tasks[t].req.provider == "" || d.tasks[t].req.provider == provider) {
      TaskAt(shop, d, t);
      var req := d.tasks[t].req;
      var amount := shop.prices[(req.plan, req.currency)];
      var digest := Bound(req.user, req.plan, req.currency, shop.show(amount), provider);
      var intent := Intent(req.key, digest, order, provider, req.user, req.plan, req.currency, amount, Reserved);
      if req.key in d.store.intents {
        if d.store.intents[req.key].requestHash == digest {
          MoveOn(shop, d, t, d.tasks[t].(phase := Holding(d.store.intents[req.key], amount)));
        }
      } else {
        PricedIsPlain(shop, (req.plan, req.currency));
        NewIntentKeeps(shop, d, intent);
        var d' := d.(store := d.store.(intents := d.store.intents[req.key := intent]));
        MoveOn(shop, d', t, d.tasks[t].(phase := Holding(intent, amount)));
      }
    }
  }

  lemma PricedIsPlain(shop: Shop, entry: (Plan, string))
    requires ShopOk(shop) && entry in shop.prices
    ensures Plain(entry.1)
  {
  }

  lemma AnswerKeeps(shop: Shop, d: Desk, a: Answer)
    requires Orderly(shop, d) && AnswerOk(shop, d.store.intents, d.store.invoices, a)
    ensures Orderly(shop, d.(answers := d.answers + {a}))
  {
    hide TaskOk, IntentOk, RowOk, CreateOk, AnswerOk, OneCaller;
  }

  lemma IntentAt(shop: Shop, d: Desk, k: string)
    requires Orderly(shop, d) && k in d.store.intents
    ensures IntentOk(shop, k, d.store.intents[k]) && RowOk(d.store.intents[k], d.store.invoices)
  {
    hide TaskOk, CreateOk, AnswerOk, OneCaller;
  }

  lemma CheckKeeps(shop: Shop, d: Desk, t: nat)
    requires Orderly(shop, d)
    ensures Orderly(shop, DoCheck(shop, d, t))
  {
    hide Orderly, Agreed, IntentOk;
    StopKeeps(shop, d, t);
    if t in d.tasks && d.tasks[t].phase.Holding? {
      var Holding(intent, amount) := d.tasks[t].phase;
      TaskAt(shop, d, t);
      var req := d.tasks[t].req;
      IntentAt(shop, d, req.key);
      if Agreed(shop, req, intent, amount) {
        AgreedOnTerms(shop, req, intent, d.store.intents[req.key], amount);
        KeyOfIntent(shop, req.key, d.store.intents[req.key]);
        match intent.state
        case Ready =>
          if intent.orderId in d.store.invoices {
            var a := Answer(req, d.store.invoices[intent.orderId]);
            AnswerKeeps(shop, d, a);
            StopKeeps(shop, d.(answers := d.answers + {a}), t);
          }
        case Failed =>
        case Reserved => MoveOn(shop, d, t, d.tasks[t].(phase := Beginning(intent)));
        case Creating => MoveOn(shop, d, t, d.tasks[t].(phase := Searching(intent)));
      }
    }
  }

  lemma KeyOfIntent(shop: Shop, k: string, intent: Intent)
    requires IntentOk(shop, k, intent)
    ensures intent.key == k
  {
  }

  /** Agreement does not depend on the state of the intent. */
  lemma AgreedOnTerms(shop: Shop, req: Request, a: Intent, b: Intent, amount: real)
    requires SameTerms(a, b)
    ensures Agreed(shop, req, a, amount) <==> Agreed(shop, req, b, amount)
  {
  }

  /** An intent changes its state, never back to reserved. */
  lemma StateKeeps(shop: Shop, d: Desk, k: string, state: IntentState)
    requires Orderly(shop, d) && k in d.store.intents && state != Reserved
    ensures Orderly(shop, d.(store := d.store.(intents := d.store.intents[k := d.store.intents[k].(state := state)])))
  {
    hide TaskOk, AnswerOk, OneCaller, IntentOk, RowOk;
    var intents := d.store.intents[k := d.store.intents[k].(state := state)];
    forall t | t in d.tasks ensures TaskOk(shop, intents, d.creates, d.tasks[t]) {
      TaskAt(shop, d, t);
      TaskStays(shop, d.store.intents, k, state, d.creates, d.tasks[t]);
    }
    forall a | a in d.answers ensures AnswerOk(shop, intents, d.store.invoices, a) {
      AnswerStays(shop, d.store.intents, k, state, d.store.invoices, a);
    }
    IntentStays(shop, k, d.store.intents[k], state, d.store.invoices);
  }

  lemma IntentStays(shop: Shop, k: string, intent: Intent, state: IntentState, invoices: map<InvoiceId, Invoice>)
    ensures IntentOk(shop, k, intent) ==> IntentOk(shop, k, intent.(state := state))
    ensures RowOk(intent, invoices) ==> RowOk(intent.(state := state), invoices)
  {
    hide Bound;
  }

  lemma TaskStays(shop: Shop, intents: map<string, Intent>, k: string, state: IntentState, creates: map<string, nat>, task: Task)
    requires k in intents && state != Reserved && TaskOk(shop, intents, creates, task)
    ensures TaskOk(shop, intents[k := intents[k].(state := state)], creates, task)
  {
    hide Agreed;
  }

  lemma AnswerStays(shop: Shop, intents: map<string, Intent>, k: string, state: IntentState,
                    invoices: map<InvoiceId, Invoice>, a: Answer)
    requires k in intents && AnswerOk(shop, intents, invoices, a)
    ensures AnswerOk(shop, intents[k := intents[k].(state := state)], invoices, a)
  {
    hide Agreed;
    var amount :| Agreed(shop, a.req, intents[a.req.key], amount);
    AgreedOnTerms(shop, a.req, intents[a.req.key], intents[k := intents[k].(state := state)][a.req.key], amount);
  }

  /** While a key is reserved nobody has called the gateway for it, and nobody is calling. */
  lemma NobodyCalls(shop: Shop, d: Desk, k: string, t: nat)
    requires Orderly(shop, d) && k in d.store.intents && d.store.intents[k].state == Reserved
    ensures k !in d.creates && !Caller(d.tasks, t, k)
  {
    hide IntentOk, AnswerOk, Agreed, RowOk;
    assert k in d.creates ==> CreateOk(d.store.intents, k, d.creates[k]);
    if Caller(d.tasks, t, k) { TaskAt(shop, d, t); }
  }

  lemma BecomeCaller(shop: Shop, d: Desk, t: nat, task: Task)
    requires Orderly(shop, d) && task.phase.Calling? && TaskOk(shop, d.store.intents, d.creates, task)
    requires forall u :: !Caller(d.tasks, u, task.phase.intent.key)
    ensures Orderly(shop, d.(tasks := d.tasks[t := task]))
  {
    hide TaskOk, IntentOk, RowOk, CreateOk, AnswerOk;
    var tasks := d.tasks[t := task];
    forall u, w, key | Caller(tasks, u, key) && Caller(tasks, w, key) ensures u == w {
      if u != t { assert Caller(d.tasks, u, key); }
      if w != t { assert Caller(d.tasks, w, key); }
    }
  }

  lemma BeginKeeps(shop: Shop, d: Desk, t: nat)
    requires Orderly(shop, d)
    ensures Orderly(shop, DoBegin(d, t))
  {
    hide Orderly, Agreed;
    StopKeeps(shop, d, t);
    if t in d.tasks && d.tasks[t].phase.Beginning? {
      TaskAt(shop, d, t);
      var intent := d.tasks[t].phase.intent;
      if d.store.intents[intent.key].state == Reserved {
        forall u ensures !Caller(d.tasks, u, intent.key) { NobodyCalls(shop, d, intent.key, u); }
        NobodyCalls(shop, d, intent.key, t);
        StateKeeps(shop, d, intent.key, Creating);
        TaskStays(shop, d.store.intents, intent.key, Creating, d.creates, d.tasks[t]);
        BecomeCaller(shop, d.(store := BeginInvoiceCreate(d.store, intent.key).value.0), t, d.tasks[t].(phase := Calling(intent)));
      } else {
        MoveOn(shop, d, t, d.tasks[t].(phase := Searching(intent)));
      }
    }
  }

  /** What the create call of `t` may rely on. */
  lemma CallerIsAlone(shop: Shop, d: Desk, t: nat)
    requires Orderly(shop, d) && t in d.tasks && d.tasks[t].phase.Calling?
    ensures
      var intent := d.tasks[t].phase.intent;
      var creates := d.creates[intent.key := 1];
      && intent.key in d.store.intents && d.store.intents[intent.key].state != Reserved && intent.key !in d.creates
      && (forall u :: u in d.tasks && u != t ==> TaskOk(shop, d.store.intents, creates, d.tasks[u]))
      && (forall phase: Phase :: phase in {Beginning(intent), Searching(intent), Refusing(intent)} || (phase.Storing? && phase.intent == intent) ==>
           TaskOk(shop, d.store.intents, creates, d.tasks[t].(phase := phase)))
  {
    hide Agreed, IntentOk, RowOk, AnswerOk, SameTerms;
    var intent := d.tasks[t].phase.intent;
    var creates := d.creates[intent.key := 1];
    TaskAt(shop, d, t);
    forall u | u in d.tasks && u != t ensures TaskOk(shop, d.store.intents, creates, d.tasks[u]) {
      TaskAt(shop, d, u);
      assert Caller(d.tasks, t, intent.key) && (Caller(d.tasks, u, intent.key) ==> u == t);
    }
  }

  lemma CreateKeeps(shop: Shop, d: Desk, t: nat, outcome: Outcome)
    requires Orderly(shop, d)
    ensures Orderly(shop, DoCreate(d, t, outcome))
  {
    hide Agreed, IntentOk, RowOk, AnswerOk, OneCaller, TaskOk;
    if t in d.tasks && d.tasks[t].phase.Calling? {
      var intent := d.tasks[t].phase.intent;
      CallerIsAlone(shop, d, t);
      FewerCallers(d.tasks, DoCreate(d, t, outcome).tasks);
    }
  }

  lemma RefuseKeeps(shop: Shop, d: Desk, t: nat)
    requires Orderly(shop, d)
    ensures Orderly(shop, DoRefuse(d, t))
  {
    hide Orderly, Agreed;
    StopKeeps(shop, d, t);
    if t in d.tasks && d.tasks[t].phase.Refusing? {
      TaskAt(shop, d, t);
      var k := d.tasks[t].phase.intent.key;
      StateKeeps(shop, d, k, Failed);
      StopKeeps(shop, d.(store := FailInvoiceCreate(d.store, k).value), t);
    }
  }

  lemma SearchKeeps(shop: Shop, d: Desk, t: nat, found: Option<Invoice>)
    requires Orderly(shop, d)
    ensures Orderly(shop, DoSearch(d, t, found))
  {
    hide Orderly, Agreed;
    StopKeeps(shop, d, t);
    if t in d.tasks && d.tasks[t].phase.Searching? && found.Some? {
      TaskAt(shop, d, t);
      MoveOn(shop, d, t, d.tasks[t].(phase := Storing(d.tasks[t].phase.intent, found.value)));
    }
  }

  /** The invoice row of a key, once written, is the row of that key's order. */
  lemma RowKeeps(shop: Shop, d: Desk, k: string, inv: Invoice)
    requires Orderly(shop, d) && k in d.store.intents && inv.id == d.store.intents[k].orderId
    requires inv.provider == d.store.intents[k].provider && inv.id !in d.store.invoices
    ensures Orderly(shop, d.(store := d.store.(invoices := d.store.invoices[inv.id := inv])))
  {
    hide TaskOk, IntentOk, CreateOk, OneCaller, Agreed;
  }

  lemma FinishKeeps(shop: Shop, d: Desk, t: nat)
    requires Orderly(shop, d)
    ensures Orderly(shop, DoFinish(d, t))
  {
    hide Orderly, IntentOk, Agreed;
    StopKeeps(shop, d, t);
    if t in d.tasks && d.tasks[t].phase.Storing? {
      var Storing(intent, inv) := d.tasks[t].phase;
      TaskAt(shop, d, t);
      var stored := d.store.intents[intent.key];
      if stored.orderId == inv.id && stored.provider == inv.provider {
        var a := if inv.id in d.store.invoices then d else d.(store := d.store.(invoices := d.store.invoices[inv.id := inv]));
        if inv.id !in d.store.invoices { RowKeeps(shop, d, intent.key, inv); }
        StateKeeps(shop, a, intent.key, Ready);
        var b := a.(store := CompleteInvoiceCreate(d.store, intent.key, inv).value);
        PastAgrees(shop, d.store.intents, d.tasks[t].req, intent, b.store.intents);
        AnswerKeeps(shop, b, Answer(d.tasks[t].req, inv));
        StopKeeps(shop, b.(answers := b.answers + {Answer(d.tasks[t].req, inv)}), t);
      }
    }
  }

  lemma PastAgrees(shop: Shop, intents: map<string, Intent>, req: Request, intent: Intent, intents': map<string, Intent>)
    requires Past(shop, intents, req, intent) && req.key in intents' && SameTerms(intents[req.key], intents'[req.key])
    ensures exists amount :: Agreed(shop, req, intents'[req.key], amount)
  {
    hide Agreed;
    var amount :| Agreed(shop, req, intent, amount);
    AgreedOnTerms(shop, req, intent, intents'[req.key], amount);
  }

  lemma OverwriteKeeps(shop: Shop, d: Desk, id: InvoiceId, status: InvoiceStatus)
    requires Orderly(shop, d) && id in d.store.invoices
    ensures Orderly(shop, d.(store := d.store.(invoices := d.store.invoices[id := d.store.invoices[id].(status := status)])))
  {
    hide TaskOk, IntentOk, CreateOk, OneCaller, Agreed;
  }

  lemma StepKeeps(shop: Shop, d: Desk, step: Step)
    requires ShopOk(shop) && Orderly(shop, d)
    ensures Orderly(shop, Do(shop, d, step))
  {
    hide Orderly, ShopOk, DoLook, DoReserve, DoCheck, DoBegin, DoCreate, DoRefuse, DoSearch, DoFinish;
    match step
    case Arrive(t, req) => if WellFormed(req) { MoveOn(shop, d, t, Task(req, Looking)); }
    case Look(t) => LookKeeps(shop, d, t);
    case Reserve(t, provider, order) => ReserveKeeps(shop, d, t, provider, order);
    case Check(t) => CheckKeeps(shop, d, t);
    case Begin(t) => BeginKeeps(shop, d, t);
    case Create(t, outcome) => CreateKeeps(shop, d, t, outcome);
    case Refuse(t) => RefuseKeeps(shop, d, t);
    case Search(t, found) => SearchKeeps(shop, d, t, found);
    case Finish(t) => FinishKeeps(shop, d, t);
    case Stop(t) => StopKeeps(shop, d, t);
    case Overwrite(id, status) => if id in d.store.invoices { OverwriteKeeps(shop, d, id, status); }
  }

  lemma {:induction false} PlayIsOrderly(shop: Shop, steps: seq<Step>)
    requires ShopOk(shop)
    ensures Orderly(shop, Play(shop, Closed, steps))
  {
    hide ShopOk, Do;
    if steps != [] {
      PlayIsOrderly(shop, steps[..|steps| - 1]);
      StepKeeps(shop, Play(shop, Closed, steps[..|steps| - 1]), steps[|steps| - 1]);
    }
  }

  // ----- what a key guarantees --------------------------------------------------------------------------

  /** Over all concurrent requests and crashes the gateway is asked to create at most once per key. */
  lemma OneCreatePerKey(shop: Shop, steps: seq<Step>, key: string)
    requires ShopOk(shop)
    ensures Count(Play(shop, Closed, steps).creates, key) <= 1
  {
    hide Play, ShopOk, TaskOk, IntentOk, RowOk, AnswerOk;
    PlayIsOrderly(shop, steps);
    var d := Play(shop, Closed, steps);
    assert key in d.creates ==> CreateOk(d.store.intents, key, d.creates[key]);
  }

  lemma StateKeepsTerms(intents: map<string, Intent>, key: string, k: string, state: IntentState)
    requires key in intents && k in intents
    ensures TermsKept(intents, intents[k := intents[k].(state := state)], key)
  {
  }

  predicate TermsKept(a: map<string, Intent>, b: map<string, Intent>, key: string)
    requires key in a
  {
    key in b && SameTerms(a[key], b[key])
  }

  /** No step changes what a key is bound to. */
  lemma StepKeepsTerms(shop: Shop, d: Desk, step: Step, key: string)
    requires key in d.store.intents
    ensures key in Do(shop, d, step).store.intents && SameTerms(d.store.intents[key], Do(shop, d, step).store.intents[key])
  {
    hide FreshOrder, Agreed, Bound, SameTerms, TermsKept;
    SameTermsReflexive(d.store.intents[key]);
    match step
    case Begin(t) => BeginKeepsTerms(d, t, key);
    case Refuse(t) => RefuseKeepsTerms(d, t, key);
    case Finish(t) => FinishKeepsTerms(d, t, key);
    case _ => OtherStepsKeepTerms(shop, d, step, key);
  }

  lemma SameTermsReflexive(a: Intent)
    ensures SameTerms(a, a)
  {
  }

  lemma BeginKeepsTerms(d: Desk, t: nat, key: string)
    requires key in d.store.intents
    ensures key in DoBegin(d, t).store.intents && SameTerms(d.store.intents[key], DoBegin(d, t).store.intents[key])
  {
    hide SameTerms, BeginInvoiceCreate;
    SameTermsReflexive(d.store.intents[key]);
    if t in d.tasks && d.tasks[t].phase.Beginning? { BeginCallKeepsTerms(d.store, d.tasks[t].phase.intent.key, key); }
  }

  lemma BeginCallKeepsTerms(s: Store, k: string, key: string)
    requires key in s.intents
    ensures BeginInvoiceCreate(s, k).Ok? ==> TermsKept(s.intents, BeginInvoiceCreate(s, k).value.0.intents, key)
  {
    hide SameTerms;
    SameTermsReflexive(s.intents[key]);
    if k in s.intents { StateKeepsTerms(s.intents, key, k, Creating); }
  }

  lemma RefuseKeepsTerms(d: Desk, t: nat, key: string)
    requires key in d.store.intents
    ensures key in DoRefuse(d, t).store.intents && SameTerms(d.store.intents[key], DoRefuse(d, t).store.intents[key])
  {
    hide SameTerms;
    SameTermsReflexive(d.store.intents[key]);
    if t in d.tasks && d.tasks[t].phase.Refusing? && d.tasks[t].phase.intent.key in d.store.intents {
      StateKeepsTerms(d.store.intents, key, d.tasks[t].phase.intent.key, Failed);
    }
  }

  lemma FinishKeepsTerms(d: Desk, t: nat, key: string)
    requires key in d.store.intents
    ensures key in DoFinish(d, t).store.intents && SameTerms(d.store.intents[key], DoFinish(d, t).store.intents[key])
  {
    hide SameTerms;
    SameTermsReflexive(d.store.intents[key]);
    if t in d.tasks && d.tasks[t].phase.Storing? && d.tasks[t].phase.intent.key in d.store.intents {
      StateKeepsTerms(d.store.intents, key, d.tasks[t].phase.intent.key, Ready);
    }
  }

  lemma OtherStepsKeepTerms(shop: Shop, d: Desk, step: Step, key: string)
    requires key in d.store.intents && !step.Begin? && !step.Refuse? && !step.Finish?
    ensures key in Do(shop, d, step).store.intents && Do(shop, d, step).store.intents[key] == d.store.intents[key]
  {
    hide FreshOrder, Agreed, Bound;
  }

  lemma {:induction false} TermsNeverChange(shop: Shop, d: Desk, steps: seq<Step>, key: string)
    requires key in d.store.intents
    ensures key in Play(shop, d, steps).store.intents
    ensures SameTerms(d.store.intents[key], Play(shop, d, steps).store.intents[key])
  {
    hide Do;
    if steps != [] {
      TermsNeverChange(shop, d, steps[..|steps| - 1], key);
      StepKeepsTerms(shop, Play(shop, d, steps[..|steps| - 1]), steps[|steps| - 1], key);
    }
  }

  /** Every success for a key names the reserved order at the reserved provider, and an invoice is
      stored under it. The request asked for what the key is bound to if and only if its currency
      holds no separator. */
  lemma AnswersMatchTheKey(shop: Shop, steps: seq<Step>, a: Answer)
    requires ShopOk(shop) && a in Play(shop, Closed, steps).answers
    ensures
      var s := Play(shop, Closed, steps).store;
      && a.req.key in s.intents
      && var intent := s.intents[a.req.key];
         && a.inv.id == intent.orderId && a.inv.provider == intent.provider && intent.orderId in s.invoices
         && (a.req.provider == "" || a.req.provider == intent.provider)
         && (Plain(a.req.currency) <==>
              a.req.user == intent.user && a.req.plan == intent.plan && a.req.currency == intent.currency)
  {
    hide Play, TaskOk, RowOk, CreateOk, OneCaller;
    PlayIsOrderly(shop, steps);
    var d := Play(shop, Closed, steps);
    assert AnswerOk(shop, d.store.intents, d.store.invoices, a);
    AgreedFields(shop, a.req, d.store.intents[a.req.key]);
  }

  lemma AgreedFields(shop: Shop, req: Request, intent: Intent)
    requires ShopOk(shop) && WellFormed(req) && IntentOk(shop, req.key, intent) && exists amount :: Agreed(shop, req, intent, amount)
    ensures Plain(req.currency) <==> req.user == intent.user && req.plan == intent.plan && req.currency == intent.currency
  {
    var amount :| Agreed(shop, req, intent, amount);
    if Plain(req.currency) {
      PlansArePlain(req.plan);
      PlansArePlain(intent.plan);
      EqualBoundsEqualFields(req.user, req.plan, req.currency, shop.show(amount), intent.provider,
                             intent.user, intent.plan, intent.currency, shop.show(intent.amount), intent.provider);
    }
  }

  /** The other guard, which a store that takes no separator in a text supplies: if the user a key is
      bound to holds none, neither do the user and the currency of a request that agrees. */
  lemma PlainUserMeansPlainRequest(shop: Shop, req: Request, intent: Intent, amount: real)
    requires ShopOk(shop) && WellFormed(req) && IntentOk(shop, req.key, intent) && Agreed(shop, req, intent, amount)
    ensures Plain(intent.user) ==> Plain(req.user) && Plain(req.currency)
  {
    hide Bound;
    PlansArePlain(intent.plan);
    SeparatorsOfBound(req.user, req.plan, req.currency, shop.show(amount), intent.provider);
    SeparatorsOfBound(intent.user, intent.plan, intent.currency, shop.show(intent.amount), intent.provider);
  }

  function Separators(s: string): nat {
    multiset(s)[SEPARATOR]
  }

  lemma SeparatorsOfBound(user: UserId, plan: Plan, currency: string, amount: string, provider: string)
    ensures Separators(Bound(user, plan, currency, amount, provider)) ==
      Separators(user) + Separators(plan) + Separators(currency) + Separators(amount) + Separators(provider) + 4
  {
  }

  /** On a store whose texts hold no separator every success asked for exactly what its key is bound to. */
  lemma PlainStoreKeepsTheBinding(shop: Shop, steps: seq<Step>, a: Answer)
    requires ShopOk(shop) && a in Play(shop, Closed, steps).answers
    requires forall k :: k in Play(shop, Closed, steps).store.intents ==> Plain(Play(shop, Closed, steps).store.intents[k].user)
    ensures
      var s := Play(shop, Closed, steps).store;
      && a.req.key in s.intents
      && var intent := s.intents[a.req.key];
         a.req.user == intent.user && a.req.plan == intent.plan && a.req.currency == intent.currency
  {
    hide Play, TaskOk, RowOk, CreateOk, OneCaller, IntentOk, Agreed;
    PlayIsOrderly(shop, steps);
    var d := Play(shop, Closed, steps);
    assert AnswerOk(shop, d.store.intents, d.store.invoices, a);
    var intent := d.store.intents[a.req.key];
    var amount :| Agreed(shop, a.req, intent, amount);
    PlainUserMeansPlainRequest(shop, a.req, intent, amount);
    AnswersMatchTheKey(shop, steps, a);
  }

  lemma PlansArePlain(plan: Plan)
    requires PlanValid(plan)
    ensures Plain(plan)
  {
  }

  // ----- the same invoice for everybody -------------------------------------------------------------------

  /** The invoice a gateway's answer brings in this step. */
  function Offer(step: Step): Option<Invoice> {
    match step
    case Create(_, Created(inv)) => Some(inv)
    case Search(_, found) => found
    case _ => None
  }

  /** Every answer of the gateway is one it may give. */
  ghost predicate Allowed(gives: Invoice -> bool, steps: seq<Step>) {
    forall step :: step in steps && Offer(step).Some? ==> gives(Offer(step).value)
  }

  /** Of one order at one gateway it gives one invoice, up to the status. */
  ghost predicate Consistent(gives: Invoice -> bool) {
    forall a, b :: gives(a) && gives(b) && a.id == b.id && a.provider == b.provider && Plain(a.provider) ==> Fact(a) == Fact(b)
  }

  ghost predicate Offered(gives: Invoice -> bool, inv: Invoice) {
    exists given :: gives(given) && Fact(given) == Fact(inv)
  }

  ghost predicate AllOffered(gives: Invoice -> bool, d: Desk) {
    && (forall t :: t in d.tasks && d.tasks[t].phase.Storing? ==> Offered(gives, d.tasks[t].phase.inv))
    && (forall id :: id in d.store.invoices ==> Offered(gives, d.store.invoices[id]) && d.store.invoices[id].id == id)
    && (forall a :: a in d.answers ==> Offered(gives, a.inv))
  }

  lemma OverwriteKeepsOffered(gives: Invoice -> bool, d: Desk, id: InvoiceId, status: InvoiceStatus)
    requires AllOffered(gives, d) && id in d.store.invoices
    ensures AllOffered(gives, d.(store := d.store.(invoices := d.store.invoices[id := d.store.invoices[id].(status := status)])))
  {
    hide Offered;
    StatusIsOffered(gives, d.store.invoices[id], status);
  }

  lemma StatusIsOffered(gives: Invoice -> bool, inv: Invoice, status: InvoiceStatus)
    ensures Offered(gives, inv) ==> Offered(gives, inv.(status := status))
  {
  }

  lemma GivenIsOffered(gives: Invoice -> bool, inv: Invoice)
    ensures gives(inv) ==> Offered(gives, inv)
  {
  }

  lemma StepKeepsOffered(shop: Shop, gives: Invoice -> bool, d: Desk, step: Step)
    requires AllOffered(gives, d) && (Offer(step).Some? ==> gives(Offer(step).value))
    ensures AllOffered(gives, Do(shop, d, step))
  {
    hide FreshOrder, Agreed, Bound, Offered;
    if step.Finish? {
      FinishKeepsOffered(gives, d, step.t);
    } else if step.Create? || step.Search? {
      CallKeepsOffered(shop, gives, d, step);
    } else if step.Overwrite? {
      if step.id in d.store.invoices { OverwriteKeepsOffered(gives, d, step.id, step.status); }
    } else if step.Check? {
      CheckKeepsOffered(shop, gives, d, step.t);
    } else {
      RestKeepsOffered(shop, gives, d, step);
    }
  }

  lemma FinishKeepsOffered(gives: Invoice -> bool, d: Desk, t: nat)
    requires AllOffered(gives, d)
    ensures AllOffered(gives, DoFinish(d, t))
  {
    hide Offered;
  }

  lemma CallKeepsOffered(shop: Shop, gives: Invoice -> bool, d: Desk, step: Step)
    requires AllOffered(gives, d) && (Offer(step).Some? ==> gives(Offer(step).value)) && (step.Create? || step.Search?)
    ensures AllOffered(gives, Do(shop, d, step))
  {
    hide Offered;
    if Offer(step).Some? { GivenIsOffered(gives, Offer(step).value); }
  }

  lemma CheckKeepsOffered(shop: Shop, gives: Invoice -> bool, d: Desk, t: nat)
    requires AllOffered(gives, d)
    ensures AllOffered(gives, DoCheck(shop, d, t))
  {
    hide Agreed, Offered;
  }

  lemma RestKeepsOffered(shop: Shop, gives: Invoice -> bool, d: Desk, step: Step)
    requires AllOffered(gives, d) && !step.Finish? && !step.Create? && !step.Search? && !step.Overwrite?
    requires !step.Check?
    ensures AllOffered(gives, Do(shop, d, step))
  {
    hide Do, Offered;
    RestStoresNothing(shop, d, step);
    assert forall t :: t in Do(shop, d, step).tasks && Do(shop, d, step).tasks[t].phase.Storing? ==> t in d.tasks;
  }

  lemma RestStoresNothing(shop: Shop, d: Desk, step: Step)
    requires !step.Finish? && !step.Create? && !step.Search? && !step.Overwrite? && !step.Check?
    ensures
      var e := Do(shop, d, step);
      && e.store.invoices == d.store.invoices && e.answers == d.answers
      && (forall t :: t in e.tasks && e.tasks[t].phase.Storing? ==> t in d.tasks && e.tasks[t] == d.tasks[t])
  {
    hide FreshOrder, Agreed, Bound;
    match step
    case Reserve(t, provider, order) => ReserveStoresNothing(shop, d, t, provider, order);
    case Begin(t) => BeginStoresNothing(d, t);
    case _ =>
  }

  lemma ReserveStoresNothing(shop: Shop, d: Desk, t: nat, provider: string, order: InvoiceId)
    ensures
      var e := DoReserve(shop, d, t, provider, order);
      && e.store.invoices == d.store.invoices && e.answers == d.answers
      && (forall u :: u in e.tasks && e.tasks[u].phase.Storing? ==> u in d.tasks && e.tasks[u] == d.tasks[u])
  {
    hide FreshOrder, Agreed, Bound;
  }

  lemma BeginStoresNothing(d: Desk, t: nat)
    ensures
      var e := DoBegin(d, t);
      && e.store.invoices == d.store.invoices && e.answers == d.answers
      && (forall u :: u in e.tasks && e.tasks[u].phase.Storing? ==> u in d.tasks && e.tasks[u] == d.tasks[u])
  {
  }

  lemma {:induction false} PlayKeepsOffered(shop: Shop, gives: Invoice -> bool, steps: seq<Step>)
    requires Allowed(gives, steps)
    ensures AllOffered(gives, Play(shop, Closed, steps))
  {
    hide Do, Offer, Offered;
    if steps != [] {
      var init, last := steps[..|steps| - 1], steps[|steps| - 1];
      assert last in steps && forall step :: step in init ==> step in steps;
      PlayKeepsOffered(shop, gives, init);
      StepKeepsOffered(shop, gives, Play(shop, Closed, init), last);
    }
  }

  lemma SameOffer(gives: Invoice -> bool, a: Invoice, b: Invoice)
    requires Consistent(gives) && Offered(gives, a) && Offered(gives, b)
    requires a.id == b.id && a.provider == b.provider && Plain(a.provider)
    ensures Fact(a) == Fact(b)
  {
    var c :| gives(c) && Fact(c) == Fact(a);
    var d :| gives(d) && Fact(d) == Fact(b);
    assert c.id == a.id && c.provider == a.provider && d.id == b.id && d.provider == b.provider;
  }

  /** With a consistent gateway all successes for a key are the one stored invoice, whatever its
      status has become since. */
  lemma OneInvoicePerKey(shop: Shop, gives: Invoice -> bool, steps: seq<Step>, a: Answer, b: Answer)
    requires ShopOk(shop) && Consistent(gives) && Allowed(gives, steps)
    requires a in Play(shop, Closed, steps).answers && b in Play(shop, Closed, steps).answers && a.req.key == b.req.key
    ensures
      var invoices := Play(shop, Closed, steps).store.invoices;
      a.inv.id in invoices && Fact(a.inv) == Fact(b.inv) == Fact(invoices[a.inv.id])
  {
    hide Play, ShopOk, Allowed, Consistent, Offered, Orderly;
    var d := Play(shop, Closed, steps);
    PlayKeepsOffered(shop, gives, steps);
    AnswersMatchTheKey(shop, steps, a);
    AnswersMatchTheKey(shop, steps, b);
    PlayIsOrderly(shop, steps);
    IntentAt(shop, d, a.req.key);
    SameOffer(gives, a.inv, b.inv);
    SameOffer(gives, a.inv, d.store.invoices[a.inv.id]);
  }

  // ----- an unsteady gateway shows ----------------------------------------------------------------------

  lemma PlayNext(shop: Shop, d: Desk, steps: seq<Step>, step: Step)
    ensures Play(shop, d, steps + [step]) == Do(shop, Play(shop, d, steps), step)
  {
    hide Do;
    assert (steps + [step])[..|steps + [step]| - 1] == steps;
  }

  /** Task 0 has created `a` at the gateway and not stored it yet. */
  predicate Created0(d: Desk, req: Request, intent: Intent, a: Invoice) {
    && d.store.intents == map[req.key := intent.(state := Creating)] && d.store.invoices == map[]
    && intent.orderId == a.id && intent.provider == a.provider && intent.key == req.key
    && d.tasks.Keys == {0} && d.tasks[0] == Task(req, Storing(intent, a))
  }

  lemma ReserveFirst(shop: Shop, req: Request, a: Invoice) returns (steps: seq<Step>, intent: Intent)
    requires WellFormed(req) && (req.plan, req.currency) in shop.prices && Plain(a.provider)
    requires req.provider == "" || req.provider == a.provider
    ensures forall step :: step in steps ==> Offer(step).None?
    ensures
      var d := Play(shop, Closed, steps);
      && d.store.intents == map[req.key := intent] && d.store.invoices == map[] && d.tasks.Keys == {0}
      && d.tasks[0] == Task(req, Holding(intent, intent.amount)) && Agreed(shop, req, intent, intent.amount)
      && intent.state == Reserved && intent.orderId == a.id && intent.provider == a.provider && intent.key == req.key
  {
    hide Bound;
    PlayNext(shop, Closed, [], Arrive(0, req));
    PlayNext(shop, Closed, [Arrive(0, req)], Look(0));
    steps := [Arrive(0, req), Look(0)] + [Reserve(0, a.provider, a.id)];
    assert [] + [Arrive(0, req)] == [Arrive(0, req)];
    PlayNext(shop, Closed, [Arrive(0, req), Look(0)], Reserve(0, a.provider, a.id));
    intent := Play(shop, Closed, steps).tasks[0].phase.intent;
  }

  lemma CreateFirst(shop: Shop, d: Desk, req: Request, intent: Intent, a: Invoice)
    requires d.store.intents == map[req.key := intent] && d.store.invoices == map[] && d.tasks.Keys == {0}
    requires d.tasks[0] == Task(req, Holding(intent, intent.amount)) && Agreed(shop, req, intent, intent.amount)
    requires intent.state == Reserved && intent.orderId == a.id && intent.provider == a.provider && intent.key == req.key
    ensures Created0(Do(shop, Do(shop, Do(shop, d, Check(0)), Begin(0)), Create(0, Created(a))), req, intent, a)
  {
    hide Agreed;
    var e := Do(shop, d, Check(0));
    assert e.tasks[0] == Task(req, Beginning(intent));
    var f := Do(shop, e, Begin(0));
    assert f.tasks[0] == Task(req, Calling(intent));
  }

  lemma SearchSecond(shop: Shop, d: Desk, req: Request, intent: Intent, a: Invoice, b: Invoice)
    requires Created0(d, req, intent, a) && WellFormed(req) && Agreed(shop, req, intent, intent.amount)
    ensures
      var e := Do(shop, Do(shop, Do(shop, d, Arrive(1, req)), Look(1)), Check(1));
      var f := Do(shop, e, Search(1, Some(b)));
      && f.store == d.store && f.tasks.Keys == {0, 1} && f.tasks[0] == Task(req, Storing(intent, a))
      && f.tasks[1] == Task(req, Storing(intent.(state := Creating), b))
  {
    hide Agreed;
    var seen := intent.(state := Creating);
    AgreedOnTerms(shop, req, intent, seen, intent.amount);
    var e := Do(shop, Do(shop, d, Arrive(1, req)), Look(1));
    assert e.tasks[1] == Task(req, Holding(seen, seen.amount));
    var f := Do(shop, e, Check(1));
    assert f.tasks[1] == Task(req, Searching(seen));
  }

  lemma FinishBoth(shop: Shop, d: Desk, req: Request, intent: Intent, a: Invoice, b: Invoice)
    requires d.store.intents == map[req.key := intent.(state := Creating)] && d.store.invoices == map[] && intent.key == req.key
    requires d.tasks.Keys == {0, 1} && d.tasks[0] == Task(req, Storing(intent, a))
    requires d.tasks[1] == Task(req, Storing(intent.(state := Creating), b))
    requires intent.orderId == a.id == b.id && intent.provider == a.provider == b.provider
    ensures
      var e := Do(shop, Do(shop, d, Finish(1)), Finish(0));
      Answer(req, a) in e.answers && Answer(req, b) in e.answers && e.store.invoices == map[b.id := b]
  {
    var e := Do(shop, d, Finish(1));
    assert e.store.invoices == map[b.id := b] && Answer(req, b) in e.answers;
  }

  /** Whatever two invoices a gateway gives for one order, some interleaving of two requests is
      answered with both, and only the second is stored. */
  lemma UnsteadyGatewayShows(shop: Shop, req: Request, a: Invoice, b: Invoice) returns (steps: seq<Step>)
    requires WellFormed(req) && (req.plan, req.currency) in shop.prices && Plain(a.provider)
    requires req.provider == "" || req.provider == a.provider
    requires a.id == b.id && a.provider == b.provider
    ensures
      var d := Play(shop, Closed, steps);
      Answer(req, a) in d.answers && Answer(req, b) in d.answers && d.store.invoices == map[b.id := b]
    ensures forall step :: step in steps ==> Offer(step) in {None, Some(a), Some(b)}
  {
    hide Do, Agreed, Play, Created0;
    var first, intent := ReserveFirst(shop, req, a);
    var d := Play(shop, Closed, first);
    CreateFirst(shop, d, req, intent, a);
    var s1 := first + [Check(0)] + [Begin(0)] + [Create(0, Created(a))];
    PlayNext(shop, Closed, first, Check(0));
    PlayNext(shop, Closed, first + [Check(0)], Begin(0));
    PlayNext(shop, Closed, first + [Check(0)] + [Begin(0)], Create(0, Created(a)));
    var e := Play(shop, Closed, s1);
    SearchSecond(shop, e, req, intent, a, b);
    var s2 := s1 + [Arrive(1, req)] + [Look(1)] + [Check(1)] + [Search(1, Some(b))];
    PlayNext(shop, Closed, s1, Arrive(1, req));
    PlayNext(shop, Closed, s1 + [Arrive(1, req)], Look(1));
    PlayNext(shop, Closed, s1 + [Arrive(1, req)] + [Look(1)], Check(1));
    PlayNext(shop, Closed, s1 + [Arrive(1, req)] + [Look(1)] + [Check(1)], Search(1, Some(b)));
    var f := Play(shop, Closed, s2);
    CreatedFacts(e, req, intent, a);
    FinishBoth(shop, f, req, intent, a, b);
    PlayNext(shop, Closed, s2, Finish(1));
    PlayNext(shop, Closed, s2 + [Finish(1)], Finish(0));
    steps := s2 + [Finish(1)] + [Finish(0)];
  }

  /** All successes for one key are one invoice, up to the status. */
  ghost predicate AnswersAgree(d: Desk) {
    forall a, b :: a in d.answers && b in d.answers && a.req.key == b.req.key ==> Fact(a.inv) == Fact(b.inv)
  }

  /** Something can be bought. */
  ghost predicate Sells(shop: Shop) {
    exists entry :: entry in shop.prices && PlanValid(entry.0) && entry.1 != ""
  }

  /** The exact condition: in every run of every number of requests the successes for a key agree if and
      only if the gateway gives one invoice for one order. */
  lemma AnswersAgreeExactly(shop: Shop, gives: Invoice -> bool)
    requires ShopOk(shop) && Sells(shop)
    ensures Consistent(gives) <==> forall steps :: Allowed(gives, steps) ==> AnswersAgree(Play(shop, Closed, steps))
  {
    hide Play, ShopOk, Allowed;
    if Consistent(gives) {
      forall steps | Allowed(gives, steps) ensures AnswersAgree(Play(shop, Closed, steps)) {
        var d := Play(shop, Closed, steps);
        forall a, b | a in d.answers && b in d.answers && a.req.key == b.req.key ensures Fact(a.inv) == Fact(b.inv) {
          OneInvoicePerKey(shop, gives, steps, a, b);
        }
      }
    }
    if forall steps :: Allowed(gives, steps) ==> AnswersAgree(Play(shop, Closed, steps)) {
      forall a, b | gives(a) && gives(b) && a.id == b.id && a.provider == b.provider && Plain(a.provider) ensures Fact(a) == Fact(b) {
        var steps, req := BothAreAnswered(shop, gives, a, b);
        assert AnswersAgree(Play(shop, Closed, steps));
        assert Answer(req, a).req.key == Answer(req, b).req.key;
      }
    }
  }

  lemma BothAreAnswered(shop: Shop, gives: Invoice -> bool, a: Invoice, b: Invoice) returns (steps: seq<Step>, req: Request)
    requires Sells(shop) && gives(a) && gives(b) && a.id == b.id && a.provider == b.provider && Plain(a.provider)
    ensures Allowed(gives, steps)
    ensures Answer(req, a) in Play(shop, Closed, steps).answers && Answer(req, b) in Play(shop, Closed, steps).answers
  {
    hide Play, Offer;
    var entry :| entry in shop.prices && PlanValid(entry.0) && entry.1 != "";
    req := Request("key", "user", entry.0, entry.1, "");
    steps := UnsteadyGatewayShows(shop, req, a, b);
  }

  lemma CreatedFacts(d: Desk, req: Request, intent: Intent, a: Invoice)
    requires Created0(d, req, intent, a)
    ensures d.store.intents == map[req.key := intent.(state := Creating)] && d.store.invoices == map[]
    ensures intent.orderId == a.id && intent.provider == a.provider && intent.key == req.key
  {
  }

  // ----- a separator in the currency shows ----------------------------------------------------------------

  /** The key's order is made and stored, and no request is under way. */
  predicate Made(d: Desk, intent: Intent, inv: Invoice) {
    && d.store.intents == map[intent.key := intent.(state := Ready)] && d.store.invoices == map[inv.id := inv]
    && d.tasks == map[] && intent.orderId == inv.id && intent.provider == inv.provider
  }

  lemma FinishFirst(shop: Shop, d: Desk, req: Request, intent: Intent, inv: Invoice)
    requires Created0(d, req, intent, inv)
    ensures Made(Do(shop, d, Finish(0)), intent, inv)
  {
    var e := Do(shop, d, Finish(0));
    assert e.tasks.Keys == {};
  }

  lemma AnswerFromStore(shop: Shop, d: Desk, req: Request, intent: Intent, inv: Invoice)
    requires Made(d, intent, inv) && WellFormed(req) && req.key == intent.key && Agreed(shop, req, intent, intent.amount)
    ensures Answer(req, inv) in Do(shop, Do(shop, Do(shop, d, Arrive(1, req)), Look(1)), Check(1)).answers
  {
    hide Agreed;
    var ready := intent.(state := Ready);
    AgreedOnTerms(shop, req, intent, ready, intent.amount);
    var e := Do(shop, Do(shop, d, Arrive(1, req)), Look(1));
    assert e.tasks[1] == Task(req, Holding(ready, ready.amount));
  }

  /** Only the request that reserves a key is priced. So after any request whose user id holds two
      separators, another one for the same key, with another user and a currency no price list has,
      is answered with the first one's invoice. */
  lemma CollidingRequestIsAnswered(shop: Shop, first: Request, user: UserId, plan: Plan, x: string, inv: Invoice)
    returns (steps: seq<Step>, second: Request)
    requires WellFormed(first) && (first.plan, first.currency) in shop.prices && Plain(inv.provider)
    requires first.provider == "" || first.provider == inv.provider
    requires first.user == user + [SEPARATOR] + plan + [SEPARATOR] + x && user != "" && PlanValid(plan)
    ensures second.key == first.key && second.user == user != first.user && second.plan == plan && !Plain(second.currency)
    ensures Answer(second, inv) in Play(shop, Closed, steps).answers
  {
    hide Do, Agreed, Play, Created0, Made;
    second := Request(first.key, user, plan, x + [SEPARATOR] + first.plan + [SEPARATOR] + first.currency, "");
    assert |first.user| > |user| && second.currency[|x|] == SEPARATOR;
    var opening, intent := ReserveFirst(shop, first, inv);
    CreateFirst(shop, Play(shop, Closed, opening), first, intent, inv);
    PlayNext(shop, Closed, opening, Check(0));
    PlayNext(shop, Closed, opening + [Check(0)], Begin(0));
    PlayNext(shop, Closed, opening + [Check(0)] + [Begin(0)], Create(0, Created(inv)));
    var created := opening + [Check(0)] + [Begin(0)] + [Create(0, Created(inv))];
    FinishFirst(shop, Play(shop, Closed, created), first, intent, inv);
    PlayNext(shop, Closed, created, Finish(0));
    var made := created + [Finish(0)];
    SeparatorsAgree(shop, first, second, x, intent);
    AnswerFromStore(shop, Play(shop, Closed, made), second, intent, inv);
    PlayNext(shop, Closed, made, Arrive(1, second));
    PlayNext(shop, Closed, made + [Arrive(1, second)], Look(1));
    PlayNext(shop, Closed, made + [Arrive(1, second)] + [Look(1)], Check(1));
    steps := made + [Arrive(1, second)] + [Look(1)] + [Check(1)];
  }

  lemma SeparatorsAgree(shop: Shop, first: Request, second: Request, x: string, intent: Intent)
    requires Agreed(shop, first, intent, intent.amount) && second.provider == ""
    requires first.user == second.user + [SEPARATOR] + second.plan + [SEPARATOR] + x
    requires second.currency == x + [SEPARATOR] + first.plan + [SEPARATOR] + first.currency
    ensures Agreed(shop, second, intent, intent.amount)
  {
    hide Bound;
    SeparatorsCollide(second.user, second.plan, x, first.plan, first.currency, shop.show(intent.amount), intent.provider);
  }
}
