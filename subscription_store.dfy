/** The tables the subscription services write within one transaction:
 *  plans (read), customers, subscriptions, subscription items, scheduled
 *  tasks and the subscription history. A service method that throws rolls
 *  its transaction back, leaving every table as it was. */
module SubscriptionStore {
  import opened Common
  import opened Records
  import opened Tasks
  import opened SubscriptionHistory

  datatype Tables = Tables(
    plans: seq<Plan>,
    customers: seq<Customer>,
    subscriptions: seq<Subscription>,
    items: seq<SubscriptionItem>,
    tasks: seq<Task>,
    history: seq<HistoryEntry>)

  /** The subscription with this id, when it belongs to the tenant and the
   *  customer: the `id = ? AND tenant_id = ? AND customer_id = ?` fetch.
   *  Subscription ids are primary keys. */
  function FindOwned(subs: seq<Subscription>, sid: Uuid, tenantId: Uuid, customerId: Uuid): (r: Option<nat>)
    ensures r.Some? ==> r.value < |subs| && subs[r.value].id == sid
                        && subs[r.value].tenantId == tenantId && subs[r.value].customerId == customerId
    ensures r.Some? <==> FindSubscription(subs, sid).Some?
                         && subs[FindSubscription(subs, sid).value].tenantId == tenantId
                         && subs[FindSubscription(subs, sid).value].customerId == customerId
    ensures r.Some? ==> r == FindSubscription(subs, sid)
  {
    var k := FindSubscription(subs, sid);
    if k.Some? && subs[k.value].tenantId == tenantId && subs[k.value].customerId == customerId then k else None
  }

  /** The service's database, one field per table. */
  class Store {
    var plans: seq<Plan>
    var customers: seq<Customer>
    var subscriptions: seq<Subscription>
    var items: seq<SubscriptionItem>
    var tasks: seq<Task>
    var history: seq<HistoryEntry>

    constructor(t: Tables)
      ensures Contents() == t
    {
      plans := t.plans;
      customers := t.customers;
      subscriptions := t.subscriptions;
      items := t.items;
      tasks := t.tasks;
      history := t.history;
    }

    /** The transaction commits: every table takes the rows computed for it. */
    method Commit(t: Tables)
      modifies this
      ensures Contents() == t
    {
      plans := t.plans;
      customers := t.customers;
      subscriptions := t.subscriptions;
      items := t.items;
      tasks := t.tasks;
      history := t.history;
    }

    /** Every table's rows. */
    function Contents(): Tables
      reads this
    {
      Tables(plans, customers, subscriptions, items, tasks, history)
    }
  }
}
