/** The row lookups the handlers run: a filter over a table, read back with
    SQLAlchemy's `scalar_one_or_none`, which yields no row, the one matching
    row, or raises when more than one row matches. */
module Queries {
  import opened Wrappers
  import opened Models

  datatype Rows = NoRow | OneRow(index: nat) | ManyRows

  function ScalarOneOrNone<T>(rows: seq<T>, matches: T -> bool): (r: Rows)
    ensures r.NoRow? <==> forall i :: 0 <= i < |rows| ==> !matches(rows[i])
    ensures r.OneRow? ==> r.index < |rows| && matches(rows[r.index])
    ensures r.OneRow? ==> forall j :: 0 <= j < |rows| && j != r.index ==> !matches(rows[j])
    ensures r.ManyRows? <==> exists i, j :: 0 <= i < j < |rows| && matches(rows[i]) && matches(rows[j])
    decreases |rows|
  {
    if rows == [] then NoRow
    else
      match ScalarOneOrNone(rows[1..], matches)
      case NoRow => if matches(rows[0]) then OneRow(0) else NoRow
      case OneRow(k) => if matches(rows[0]) then ManyRows else OneRow(k + 1)
      case ManyRows => ManyRows
  }

  /** `Content.id == content_id` */
  function WithContentId(id: string): Content -> bool {
    (c: Content) => c.id == id
  }

  /** `User.username == username` */
  function WithUsername(username: string): User -> bool {
    (u: User) => u.username == username
  }

  /** `User.email == email` */
  function WithEmail(email: string): User -> bool {
    (u: User) => u.email == email
  }

  /** `Payment.user_id == user, Payment.content_id == content, Payment.status == 'completed'` */
  function CompletedBy(userId: int, contentId: string): Payment -> bool {
    (p: Payment) => p.userId == userId && p.contentId == contentId && p.status == Completed
  }

  /** `Payment.payway_transaction_id == transaction_id`; comparing with an
      absent id is `IS NULL`, so this is equality of the optional ids. */
  function WithTransaction(transactionId: Option<string>): Payment -> bool {
    (p: Payment) => p.transactionId == transactionId
  }
}
