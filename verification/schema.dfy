/** The `User` table (src/db/schema.ts) as an immutable row type, and the
    constraints the database itself enforces on it. */
module Schema {
  import opened Optional

  /** A `timestamp` column value; the clock is a parameter of the model. */
  type Timestamp = int

  // The literals the core writes into the table.
  const PlanFree: string := "free"
  const PlanPro: string := "pro"
  const StatusCanceled: string := "canceled"
  const StatusCanceling: string := "canceling"
  const PaymentSucceeded: string := "succeeded"
  const PaymentFailed: string := "failed"
  const PaymentCanceled: string := "canceled"

  // Column defaults.
  const DefaultName: string := "John Doe"
  const DefaultRole: string := "user"

  // `varchar` length bounds.
  const NameLength: nat := 20
  const EmailLength: nat := 255
  const ResetTokenLength: nat := 255
  const PlanLength: nat := 10
  const CustomerIdLength: nat := 255
  const SubscriptionIdLength: nat := 255
  const StatusLength: nat := 25

  /** The range of a Postgres `integer` column. */
  predicate IsInt32(n: int) {
    -0x8000_0000 <= n < 0x8000_0000
  }

  datatype UserRow = UserRow(
    id: int,
    name: string,
    email: string,
    password: string,
    role: string,
    verified: Option<bool>,
    resetToken: Option<string>,
    resetTokenExpiry: Option<Timestamp>,
    plan: string,
    stripeCustomerId: Option<string>,
    subscriptionId: Option<string>,
    subscriptionStatus: Option<string>,
    lastPaymentStatus: Option<string>,
    canceledAt: Option<Timestamp>
  )

  predicate FitsNullable(v: Option<string>, bound: nat) {
    v.None? || |v.value| <= bound
  }

  /** Every `varchar(n)` column of the row holds at most n characters. */
  predicate RowFits(r: UserRow) {
    && |r.name| <= NameLength
    && |r.email| <= EmailLength
    && FitsNullable(r.resetToken, ResetTokenLength)
    && |r.plan| <= PlanLength
    && FitsNullable(r.stripeCustomerId, CustomerIdLength)
    && FitsNullable(r.subscriptionId, SubscriptionIdLength)
    && FitsNullable(r.subscriptionStatus, StatusLength)
    && FitsNullable(r.lastPaymentStatus, StatusLength)
  }

  /** The table, keyed by its primary key `id`. */
  type Store = map<int, UserRow>

  /** The primary key is the row's own `id`, an `integer`. */
  predicate KeyedById(store: Store) {
    forall k :: k in store ==> store[k].id == k && IsInt32(k)
  }

  /** `email` carries a unique constraint. */
  predicate EmailsUnique(store: Store) {
    forall j, k :: j in store && k in store && store[j].email == store[k].email ==> j == k
  }

  predicate RowsFit(store: Store) {
    forall k :: k in store ==> RowFits(store[k])
  }

  /** What the database guarantees of every state of the table: the primary
      key and the email each identify a row, and the empty table qualifies. */
  predicate WellFormed(store: Store)
    ensures WellFormed(store) ==> forall j, k :: j in store && k in store && j != k ==>
      store[j].id != store[k].id && store[j].email != store[k].email
    ensures store == map[] ==> WellFormed(store)
  {
    KeyedById(store) && EmailsUnique(store) && RowsFit(store)
  }

  /** The application-level reading of `plan`: only the two tiers occur. */
  predicate PlansKnown(store: Store) {
    forall k :: k in store ==> store[k].plan == PlanFree || store[k].plan == PlanPro
  }

  /** A freshly inserted row: every column that has a default takes it and
      every nullable billing column is null. */
  function NewUser(id: int, email: string, password: string): (r: UserRow)
    requires IsInt32(id) && |email| <= EmailLength
    ensures RowFits(r) && r.id == id && r.email == email
    ensures r.name == DefaultName && r.role == DefaultRole && r.verified == Some(false)
    ensures r.plan == PlanFree
    ensures r.stripeCustomerId.None? && r.subscriptionId.None? && r.subscriptionStatus.None?
    ensures r.lastPaymentStatus.None? && r.canceledAt.None?
  {
    UserRow(id, DefaultName, email, password, DefaultRole, Some(false), None, None,
            PlanFree, None, None, None, None, None)
  }

  /** The literals the core writes fit the columns they are written to. */
  lemma LiteralsFit()
    ensures |PlanFree| <= PlanLength && |PlanPro| <= PlanLength
    ensures |StatusCanceled| <= StatusLength && |StatusCanceling| <= StatusLength
    ensures |PaymentSucceeded| <= StatusLength && |PaymentFailed| <= StatusLength
    ensures |PaymentCanceled| <= StatusLength
  {
  }
}
