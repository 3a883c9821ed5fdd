/** Payment bookkeeping of backend/main.py: the provider interface of
    `process_payway_payment`, and the count of completed payments that the
    content's `paid_views` counter must cover. */
module Ledger {
  import opened Wrappers
  import opened Models

  const BaseUrl: string := "http://localhost:8000"
  const CallbackPath: string := "/api/payments/callback"

  /** The JSON body posted to the provider's `/payments` endpoint. */
  datatype ProviderRequest = ProviderRequest(
    amount: Money,
    phoneNumber: string,
    description: string,
    callbackUrl: string)

  /** What the provider call yields: it raised (network error, timeout,
      unreadable reply), or it answered, with or without a `transaction_id`. */
  datatype ProviderOutcome = Unreachable | Responded(transactionId: Option<string>)

  function PaymentRequest(contentId: string, amount: Money, phoneNumber: string): (q: ProviderRequest)
    ensures q.amount == amount && q.phoneNumber == phoneNumber
    ensures q.callbackUrl == BaseUrl + CallbackPath
  {
    ProviderRequest(amount, phoneNumber, "Payment for content " + contentId, BaseUrl + CallbackPath)
  }

  /** The callback statuses that change a payment. */
  const StatusCompleted: string := "completed"
  const StatusFailed: string := "failed"

  predicate HasContent(cs: seq<Content>, id: string) {
    exists i :: 0 <= i < |cs| && cs[i].id == id
  }

  /** `content.id` is the primary key. */
  predicate UniqueContentIds(cs: seq<Content>) {
    forall i, j :: 0 <= i < j < |cs| ==> cs[i].id != cs[j].id
  }

  /** Every payment's `content_id` names an existing content row. */
  predicate ReferencesContent(cs: seq<Content>, ps: seq<Payment>) {
    forall k :: 0 <= k < |ps| ==> HasContent(cs, ps[k].contentId)
  }

  /** References stay valid when no content id and no payment's content id changes. */
  lemma ReferencesKept(cs: seq<Content>, ps: seq<Payment>, cs': seq<Content>, ps': seq<Payment>)
    requires ReferencesContent(cs, ps)
    requires |cs'| == |cs| && forall i :: 0 <= i < |cs| ==> cs'[i].id == cs[i].id
    requires |ps'| == |ps| && forall k :: 0 <= k < |ps| ==> ps'[k].contentId == ps[k].contentId
    ensures ReferencesContent(cs', ps')
  {
    forall k | 0 <= k < |ps'| ensures HasContent(cs', ps'[k].contentId) {
      var i :| 0 <= i < |cs| && cs[i].id == ps[k].contentId;
      assert cs'[i].id == cs[i].id;
    }
  }

  predicate CompletedFor(p: Payment, contentId: string) {
    p.status == Completed && p.contentId == contentId
  }

  /** Number of completed payments for one content item. */
  function CompletedCount(ps: seq<Payment>, contentId: string): (n: nat)
    decreases |ps|
  {
    if ps == [] then 0
    else CompletedCount(ps[..|ps| - 1], contentId) + (if CompletedFor(ps[|ps| - 1], contentId) then 1 else 0)
  }

  lemma {:induction false} CompletedCountPositive(ps: seq<Payment>, contentId: string)
    ensures CompletedCount(ps, contentId) > 0 <==> exists i :: 0 <= i < |ps| && CompletedFor(ps[i], contentId)
  {
    if ps != [] {
      var front := ps[..|ps| - 1];
      CompletedCountPositive(front, contentId);
      if exists i :: 0 <= i < |ps| && CompletedFor(ps[i], contentId) {
        var i :| 0 <= i < |ps| && CompletedFor(ps[i], contentId);
        if i < |ps| - 1 {
          assert front[i] == ps[i];
        }
      }
      if exists i :: 0 <= i < |front| && CompletedFor(front[i], contentId) {
        var i :| 0 <= i < |front| && CompletedFor(front[i], contentId);
        assert ps[i] == front[i];
      }
    }
  }

  /** Appending a row changes the count by that row's own contribution. */
  lemma CompletedCountAppend(ps: seq<Payment>, p: Payment, contentId: string)
    ensures CompletedCount(ps + [p], contentId)
         == CompletedCount(ps, contentId) + (if CompletedFor(p, contentId) then 1 else 0)
  {
    assert (ps + [p])[..|ps|] == ps;
  }

  /** Overwriting one row changes the count by the difference of the old and
      the new row's contributions. */
  lemma {:induction false} CompletedCountUpdate(ps: seq<Payment>, k: nat, p: Payment, contentId: string)
    requires k < |ps|
    ensures CompletedCount(ps[k := p], contentId)
         == CompletedCount(ps, contentId)
            - (if CompletedFor(ps[k], contentId) then 1 else 0)
            + (if CompletedFor(p, contentId) then 1 else 0)
  {
    var last := |ps| - 1;
    var ps' := ps[k := p];
    if k == last {
      assert ps'[..last] == ps[..last];
    } else {
      CompletedCountUpdate(ps[..last], k, p, contentId);
      assert ps'[..last] == ps[..last][k := p];
    }
  }

  /** A content id that no payment mentions has no completed payments. */
  lemma {:induction false} CompletedCountAbsent(ps: seq<Payment>, contentId: string)
    requires forall i :: 0 <= i < |ps| ==> ps[i].contentId != contentId
    ensures CompletedCount(ps, contentId) == 0
  {
    if ps != [] {
      CompletedCountAbsent(ps[..|ps| - 1], contentId);
    }
  }

  /** Every content row's `paid_views` is at least its number of completed payments. */
  ghost predicate PaidViewsCover(cs: seq<Content>, ps: seq<Payment>) {
    forall i :: 0 <= i < |cs| ==> CompletedCount(ps, cs[i].id) <= cs[i].paidViews
  }

  /** A new pending payment neither counts as completed nor changes any count. */
  lemma NewPaymentNotCompleted(ps: seq<Payment>, userId: int, contentId: string, amount: Money,
                               transactionId: Option<string>, now: Time, other: string)
    ensures !CompletedFor(NewPayment(userId, contentId, amount, transactionId, now), other)
    ensures CompletedCount(ps + [NewPayment(userId, contentId, amount, transactionId, now)], other)
         == CompletedCount(ps, other)
  {
    CompletedCountAppend(ps, NewPayment(userId, contentId, amount, transactionId, now), other);
  }

  /** Under the cover invariant, a content item with a completed payment has
      been counted as at least one paid view. */
  lemma CompletedPaymentHasPaidView(cs: seq<Content>, ps: seq<Payment>, i: nat, k: nat)
    requires PaidViewsCover(cs, ps)
    requires i < |cs| && k < |ps| && CompletedFor(ps[k], cs[i].id)
    ensures cs[i].paidViews >= 1
  {
    CompletedCountPositive(ps, cs[i].id);
  }

  /** Completing payment `k` while its content row `ci` gains a paid view keeps
      the cover invariant, whatever the payment's prior status. */
  lemma {:induction false} CoverAfterCompletion(cs: seq<Content>, ps: seq<Payment>, k: nat, p: Payment, ci: nat)
    requires PaidViewsCover(cs, ps)
    requires k < |ps| && ci < |cs| && p.contentId == ps[k].contentId && cs[ci].id == p.contentId
    requires UniqueContentIds(cs)
    ensures PaidViewsCover(cs[ci := cs[ci].(paidViews := cs[ci].paidViews + 1)], ps[k := p])
  {
    var cs' := cs[ci := cs[ci].(paidViews := cs[ci].paidViews + 1)];
    forall i | 0 <= i < |cs'| ensures CompletedCount(ps[k := p], cs'[i].id) <= cs'[i].paidViews {
      CompletedCountUpdate(ps, k, p, cs[i].id);
      if i != ci {
        assert cs[i].id != p.contentId by {
          if i < ci { assert cs[i].id != cs[ci].id; } else { assert cs[ci].id != cs[i].id; }
        }
      }
    }
  }

  /** Overwriting payment `k` with a row that is not completed keeps the cover invariant. */
  lemma {:induction false} CoverAfterFailure(cs: seq<Content>, ps: seq<Payment>, k: nat, p: Payment)
    requires PaidViewsCover(cs, ps)
    requires k < |ps| && p.status != Completed
    ensures PaidViewsCover(cs, ps[k := p])
  {
    forall i | 0 <= i < |cs| ensures CompletedCount(ps[k := p], cs[i].id) <= cs[i].paidViews {
      CompletedCountUpdate(ps, k, p, cs[i].id);
    }
  }
}
