/** The three kinds of statement the core issues against the `User` table:
    a select by `stripeCustomerId` with `limit(1)`, an update by primary key
    and an update by `email`. An update is described by its SET clause. */
module Queries {
  import opened Optional
  import opened Schema

  /** Whether a read or a write statement raises (connection loss,
      constraint violation outside this model, ...). */
  datatype DbFaults = DbFaults(readFails: bool, writeFails: bool)

  /** One entry of a SET clause: the column is left alone or set to a value. */
  datatype Assign<T> = Keep | Put(value: T)

  function Pick<T>(a: Assign<T>, current: T): T {
    if a.Put? then a.value else current
  }

  /** The billing columns an update of this core may set. */
  datatype Assignment = Assignment(
    plan: Assign<string>,
    stripeCustomerId: Assign<Option<string>>,
    subscriptionId: Assign<Option<string>>,
    subscriptionStatus: Assign<Option<string>>,
    lastPaymentStatus: Assign<Option<string>>,
    canceledAt: Assign<Option<Timestamp>>
  )

  const NoChange: Assignment := Assignment(Keep, Keep, Keep, Keep, Keep, Keep)

  /** The row after the SET clause; every column outside it keeps its value. */
  function Apply(r: UserRow, a: Assignment): (row: UserRow)
    ensures row.(plan := r.plan, stripeCustomerId := r.stripeCustomerId, subscriptionId := r.subscriptionId,
                 subscriptionStatus := r.subscriptionStatus, lastPaymentStatus := r.lastPaymentStatus,
                 canceledAt := r.canceledAt) == r
    ensures a.plan.Put? ==> row.plan == a.plan.value
    ensures a.stripeCustomerId.Put? ==> row.stripeCustomerId == a.stripeCustomerId.value
    ensures a.subscriptionId.Put? ==> row.subscriptionId == a.subscriptionId.value
    ensures a.subscriptionStatus.Put? ==> row.subscriptionStatus == a.subscriptionStatus.value
    ensures a.lastPaymentStatus.Put? ==> row.lastPaymentStatus == a.lastPaymentStatus.value
    ensures a.canceledAt.Put? ==> row.canceledAt == a.canceledAt.value
    ensures a.plan.Keep? ==> row.plan == r.plan
    ensures a.stripeCustomerId.Keep? ==> row.stripeCustomerId == r.stripeCustomerId
    ensures a.subscriptionId.Keep? ==> row.subscriptionId == r.subscriptionId
    ensures a.subscriptionStatus.Keep? ==> row.subscriptionStatus == r.subscriptionStatus
    ensures a.lastPaymentStatus.Keep? ==> row.lastPaymentStatus == r.lastPaymentStatus
    ensures a.canceledAt.Keep? ==> row.canceledAt == r.canceledAt
    ensures a == NoChange ==> row == r
  {
    r.(plan := Pick(a.plan, r.plan),
       stripeCustomerId := Pick(a.stripeCustomerId, r.stripeCustomerId),
       subscriptionId := Pick(a.subscriptionId, r.subscriptionId),
       subscriptionStatus := Pick(a.subscriptionStatus, r.subscriptionStatus),
       lastPaymentStatus := Pick(a.lastPaymentStatus, r.lastPaymentStatus),
       canceledAt := Pick(a.canceledAt, r.canceledAt))
  }

  /** Postgres rejects a value longer than its `varchar` column. */
  predicate AssignmentFits(a: Assignment) {
    && (a.plan.Put? ==> |a.plan.value| <= PlanLength)
    && (a.stripeCustomerId.Put? ==> FitsNullable(a.stripeCustomerId.value, CustomerIdLength))
    && (a.subscriptionId.Put? ==> FitsNullable(a.subscriptionId.value, SubscriptionIdLength))
    && (a.subscriptionStatus.Put? ==> FitsNullable(a.subscriptionStatus.value, StatusLength))
    && (a.lastPaymentStatus.Put? ==> FitsNullable(a.lastPaymentStatus.value, StatusLength))
  }

  lemma ApplyKeepsFit(r: UserRow, a: Assignment)
    requires RowFits(r) && AssignmentFits(a)
    ensures RowFits(Apply(r, a))
  {
  }

  /** Setting the same columns to the same values a second time changes nothing. */
  lemma ApplyIdempotent(r: UserRow, a: Assignment)
    ensures Apply(Apply(r, a), a) == Apply(r, a)
  {
  }

  /** Ids of the rows whose `stripeCustomerId` equals `customerId`. */
  function CustomerRows(store: Store, customerId: string): set<int> {
    set k | k in store && store[k].stripeCustomerId == Some(customerId)
  }

  /** A member of a nonempty set. Dafny does not derive a witness from
      `s != {}` on its own; the empty-quantifier case is the empty set. */
  lemma ElementOf(s: set<int>) returns (x: int)
    requires s != {}
    ensures x in s
  {
    if forall y :: y !in s {
      assert false;
    }
    x :| x in s;
  }

  lemma {:induction false} LeastOf(s: set<int>) returns (m: int)
    requires s != {}
    ensures m in s && forall y :: y in s ==> m <= y
    decreases |s|
  {
    var x := ElementOf(s);
    var rest := s - {x};
    assert s == rest + {x};
    if rest == {} {
      m := x;
    } else {
      var r := LeastOf(rest);
      m := if x < r then x else r;
      forall y | y in s
        ensures m <= y
      {
        if y != x {
          assert y in rest;
        }
      }
    }
  }

  lemma LeastExists(s: set<int>)
    requires s != {}
    ensures exists m :: m in s && forall y :: y in s ==> m <= y
  {
    var m := LeastOf(s);
  }

  /** The least element of a finite nonempty set of ids. */
  function Least(s: set<int>): (m: int)
    requires s != {}
    ensures m in s && forall y :: y in s ==> m <= y
  {
    LeastExists(s);
    var m :| m in s && forall y :: y in s ==> m <= y;
    m
  }

  /** `select ... where stripeCustomerId = customerId limit 1`. SQL equality
      with null never holds. Without an ORDER BY the database may return any
      matching row; this model returns the one with the least id. */
  function SelectByCustomerId(store: Store, customerId: Option<string>): (r: Option<int>)
    ensures r.Some? ==> customerId.Some? && r.value in store && store[r.value].stripeCustomerId == customerId
    ensures r.None? ==> forall k :: k in store ==> store[k].stripeCustomerId != customerId || customerId.None?
  {
    if customerId.None? then None
    else
      var rows := CustomerRows(store, customerId.value);
      if rows == {} then
        assert forall k :: k in store && store[k].stripeCustomerId == customerId ==> k in rows;
        None
      else Some(Least(rows))
  }

  /** At most one row is linked to the provider customer. Nothing in the
      table enforces this; without it `limit(1)` may answer with different
      rows on different runs. */
  predicate CustomerOnOneRow(store: Store, customerId: Option<string>) {
    customerId.Some? ==> |CustomerRows(store, customerId.value)| <= 1
  }

  /** When one row at most carries the customer, `limit(1)` has no choice:
      the answer is that row, whichever order the database reads in. */
  lemma SingleRowLookupIsForced(store: Store, customerId: Option<string>, k: int)
    requires CustomerOnOneRow(store, customerId)
    requires k in store && customerId.Some? && store[k].stripeCustomerId == customerId
    ensures SelectByCustomerId(store, customerId) == Some(k)
  {
    var rows := CustomerRows(store, customerId.value);
    assert k in rows;
    assert |rows - {k}| == |rows| - 1;
    assert rows - {k} == {};
    assert SelectByCustomerId(store, customerId).value in rows;
  }

  /** Two tables with the same ids and the same `stripeCustomerId` column
      answer every select by customer id alike, provided the customer is on
      one row at most. */
  lemma SelectByCustomerIdStable(store: Store, store': Store, customerId: Option<string>)
    requires CustomerOnOneRow(store, customerId)
    requires store'.Keys == store.Keys
    requires forall k :: k in store ==> store'[k].stripeCustomerId == store[k].stripeCustomerId
    ensures SelectByCustomerId(store', customerId) == SelectByCustomerId(store, customerId)
  {
    if customerId.Some? {
      var c := customerId.value;
      forall k
        ensures k in CustomerRows(store', c) <==> k in CustomerRows(store, c)
      {
      }
      assert CustomerRows(store', c) == CustomerRows(store, c);
    }
  }

  /** `update ... set <a> where id = id`. None when the statement raises:
      the statement fails, the parameter is not an `integer`, or a SET value
      is too long for its column. The driver binds the values as parameters,
      and Postgres folds their `varchar(n)` coercion while planning, so an
      over-long value raises whether or not a row matches. Matching no row
      is otherwise not an error. */
  function UpdateById(store: Store, id: int, a: Assignment, writeFails: bool): (r: Option<Store>)
    ensures r.None? <==> writeFails || !IsInt32(id) || !AssignmentFits(a)
    ensures r.Some? ==> r.value.Keys == store.Keys
    ensures r.Some? ==> forall k :: k in store && k != id ==> r.value[k] == store[k]
    ensures r.Some? && id in store ==> r.value[id] == Apply(store[id], a)
  {
    if writeFails || !IsInt32(id) || !AssignmentFits(a) then None
    else if id !in store then Some(store)
    else Some(store[id := Apply(store[id], a)])
  }

  /** Ids of the rows whose `email` equals `email`. */
  function EmailRows(store: Store, email: string): set<int> {
    set k | k in store && store[k].email == email
  }

  /** `update ... set <a> where email = email returning id`: the new table
      and the returned ids. None when the statement raises; as for the
      update by id, an over-long value raises whether or not a row matches. */
  function UpdateByEmail(store: Store, email: string, a: Assignment, writeFails: bool): (r: Option<(Store, set<int>)>)
    ensures r.None? <==> writeFails || !AssignmentFits(a)
    ensures r.Some? ==> r.value.0.Keys == store.Keys
    ensures r.Some? ==> forall k :: k in r.value.1 <==> k in store && store[k].email == email
    ensures r.Some? ==> forall k :: k in r.value.1 ==> r.value.0[k] == Apply(store[k], a)
    ensures r.Some? ==> forall k :: k in store && k !in r.value.1 ==> r.value.0[k] == store[k]
  {
    var matched := EmailRows(store, email);
    if writeFails || !AssignmentFits(a) then None
    else
      var updated := map k | k in store :: if store[k].email == email then Apply(store[k], a) else store[k];
      Some((updated, matched))
  }

  /** Rewriting one row through a SET clause whose values fit keeps every
      table constraint: ids and emails are outside the clause. */
  lemma UpdateKeepsWellFormed(store: Store, k: int, a: Assignment)
    requires WellFormed(store) && k in store && AssignmentFits(a)
    ensures WellFormed(store[k := Apply(store[k], a)])
  {
    ApplyKeepsFit(store[k], a);
  }

  /** Under the unique email constraint the update by email rewrites the one
      row that carries the email. */
  lemma UpdateByEmailSingleRow(store: Store, email: string, a: Assignment, writeFails: bool, k: int)
    requires EmailsUnique(store) && k in store && store[k].email == email
    requires UpdateByEmail(store, email, a, writeFails).Some?
    ensures UpdateByEmail(store, email, a, writeFails).value.0 == store[k := Apply(store[k], a)]
    ensures UpdateByEmail(store, email, a, writeFails).value.1 == {k}
  {
    var r := UpdateByEmail(store, email, a, writeFails).value;
    var expected := store[k := Apply(store[k], a)];
    assert r.0.Keys == expected.Keys;
    forall j | j in store
      ensures r.0[j] == expected[j]
    {
      if store[j].email == email {
        assert j == k;
      }
    }
    assert r.0 == expected;
    forall j
      ensures j in r.1 <==> j == k
    {
      if j in r.1 {
        assert j in EmailRows(store, email);
      }
    }
  }

  /** An update by email that matched a row rewrote exactly that row and
      keeps every table constraint. */
  lemma UpdateByEmailKeepsWellFormed(store: Store, email: string, a: Assignment, writeFails: bool)
    requires WellFormed(store)
    requires UpdateByEmail(store, email, a, writeFails).Some?
    requires UpdateByEmail(store, email, a, writeFails).value.1 != {}
    ensures WellFormed(UpdateByEmail(store, email, a, writeFails).value.0)
    ensures exists k :: (k in store && store[k].email == email
                         && UpdateByEmail(store, email, a, writeFails).value.0 == store[k := Apply(store[k], a)])
  {
    var ids := UpdateByEmail(store, email, a, writeFails).value.1;
    var k := ElementOf(ids);
    assert k in EmailRows(store, email);
    UpdateByEmailSingleRow(store, email, a, writeFails, k);
    UpdateKeepsWellFormed(store, k, a);
  }
}
