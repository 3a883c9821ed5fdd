/** Client runs of the handlers that show what their contracts imply for a
    short history: callbacks are not deduplicated, a later 'failed' overwrites
    'completed', and only a completed payment blocks a new initiation. */
module Scenarios {
  import opened Wrappers
  import opened Errors
  import opened Models
  import opened Queries
  import Catalog
  import opened Ledger
  import opened App

  /** One creator with one uploaded item and one viewer. */
  method Setup(now: Time) returns (db: Database, viewer: User)
    ensures fresh(db) && db.Valid()
    ensures viewer.id == 2
    ensures |db.contents| == 1 && db.contents[0].id == "c1" && db.contents[0].paidViews == 0
    ensures db.contents[0].price == ContentPrice
    ensures db.payments == []
  {
    db := new Database([]);
    var creator := db.Register("alice", "alice@example.com", "h1", true, Some("Alice"), None, now);
    var v := db.Register("bob", "bob@example.com", "h2", false, None, None, now);
    assert creator.Ok? && v.Ok?;
    viewer := v.value;
    assert "audio/mpeg" in Catalog.AllowedTypes;
    var content := db.CreateContent(creator.value, "Song", "A song", "audio/mpeg", None,
                                    Some("https://bucket/song.mp3"), "c1", now);
    assert content.Ok?;
  }

  /** Two deliveries of the same 'completed' callback count two paid views. */
  method RepeatedCompletion(now: Time) {
    var db, viewer := Setup(now);
    var first, request := db.InitiatePayment(viewer, "c1", "0700000000", Responded(Some("tx1")), now);
    assert first == Ok(Some("tx1")) && db.payments[0].status == Pending;
    assert request.Some? && request.value.amount == ContentPrice;

    assert ScalarOneOrNone(db.payments, WithTransaction(Some("tx1"))) == OneRow(0);
    var ack := db.PaymentCallback(Some("tx1"), Some(StatusCompleted), now + 1);
    assert ack.Ok? && db.payments[0].status == Completed && db.contents[0].paidViews == 1;
    assert ScalarOneOrNone(db.payments, WithTransaction(Some("tx1"))) == OneRow(0);
    ack := db.PaymentCallback(Some("tx1"), Some(StatusCompleted), now + 2);
    assert ack.Ok? && db.contents[0].paidViews == 2;
  }

  /** The viewer pays for the item once and the provider confirms it. */
  method PaidOnce(now: Time) returns (db: Database, viewer: User)
    ensures fresh(db) && db.Valid()
    ensures viewer.id == 2
    ensures |db.contents| == 1 && db.contents[0].id == "c1" && db.contents[0].paidViews == 1
    ensures |db.payments| == 1 && db.payments[0].status == Completed
    ensures db.payments[0].userId == 2 && db.payments[0].contentId == "c1"
    ensures db.payments[0].transactionId == Some("tx1")
  {
    db, viewer := Setup(now);
    var first, _ := db.InitiatePayment(viewer, "c1", "0700000000", Responded(Some("tx1")), now);
    assert ScalarOneOrNone(db.payments, WithTransaction(Some("tx1"))) == OneRow(0);
    var ack := db.PaymentCallback(Some("tx1"), Some(StatusCompleted), now + 1);
  }

  /** A completed payment blocks a second initiation before the provider is contacted. */
  method CompletedBlocksInitiation(now: Time) {
    var db, viewer := PaidOnce(now);
    assert ScalarOneOrNone(db.payments, CompletedBy(2, "c1")) == OneRow(0);
    var again, request := db.InitiatePayment(viewer, "c1", "0700000000", Responded(Some("tx2")), now + 2);
    assert again == Err(AlreadyPaid) && request == None && |db.payments| == 1;
  }

  /** A later 'failed' overwrites 'completed' and keeps the paid view. */
  method CompletedThenFailed(now: Time) returns (db: Database, viewer: User)
    ensures fresh(db) && db.Valid()
    ensures viewer.id == 2
    ensures |db.contents| == 1 && db.contents[0].id == "c1" && db.contents[0].paidViews == 1
    ensures |db.payments| == 1 && db.payments[0].status == Failed
  {
    db, viewer := PaidOnce(now);
    assert ScalarOneOrNone(db.payments, WithTransaction(Some("tx1"))) == OneRow(0);
    var ack := db.PaymentCallback(Some("tx1"), Some(StatusFailed), now + 2);
  }

  /** Once the only payment has failed, the user may initiate again. */
  method FailureAfterCompletion(now: Time) {
    var db, viewer := CompletedThenFailed(now);
    assert ScalarOneOrNone(db.payments, CompletedBy(2, "c1")) == NoRow;
    var again, _ := db.InitiatePayment(viewer, "c1", "0700000000", Responded(Some("tx2")), now + 3);
    assert again == Ok(Some("tx2")) && |db.payments| == 2;
  }

  /** The viewer initiates one payment and no callback has arrived yet. */
  method PendingOnce(now: Time) returns (db: Database, viewer: User)
    ensures fresh(db) && db.Valid()
    ensures |db.contents| == 1 && db.contents[0].paidViews == 0
    ensures |db.payments| == 1 && db.payments[0].status == Pending
    ensures db.payments[0].transactionId == Some("tx1")
  {
    db, viewer := Setup(now);
    var first, _ := db.InitiatePayment(viewer, "c1", "0700000000", Responded(Some("tx1")), now);
  }

  /** An unknown status string and an unknown transaction id change nothing. */
  method IgnoredCallbacks(now: Time) {
    var db, _ := PendingOnce(now);
    assert ScalarOneOrNone(db.payments, WithTransaction(Some("tx1"))) == OneRow(0);
    var ack := db.PaymentCallback(Some("tx1"), Some("refunded"), now + 1);
    assert ack.Ok? && db.payments[0].status == Pending;
    assert ScalarOneOrNone(db.payments, WithTransaction(Some("nope"))) == NoRow;
    ack := db.PaymentCallback(Some("nope"), Some(StatusCompleted), now + 2);
    assert ack == Err(PaymentNotFound) && db.contents[0].paidViews == 0;
  }

  /** Two initiations before any callback leave two pending payments. */
  method TwoPending(now: Time) returns (db: Database, viewer: User)
    ensures fresh(db) && db.Valid()
    ensures viewer.id == 2
    ensures |db.contents| == 1 && db.contents[0].id == "c1" && db.contents[0].paidViews == 0
    ensures |db.payments| == 2
    ensures db.payments[0].transactionId == Some("tx1") && db.payments[1].transactionId == Some("tx2")
    ensures forall k :: 0 <= k < 2 ==> db.payments[k].userId == 2 && db.payments[k].contentId == "c1"
  {
    db, viewer := Setup(now);
    var first, _ := db.InitiatePayment(viewer, "c1", "0700000000", Responded(Some("tx1")), now);
    var second, _ := db.InitiatePayment(viewer, "c1", "0700000000", Responded(Some("tx2")), now);
    assert second.Ok?;
  }

  /** Once both pending payments are completed, the duplicate check sees two
      rows and raises, so a third initiation fails with a server error
      instead of "already paid". */
  method TwoCompletedPayments(now: Time) {
    var db, viewer := TwoPending(now);
    assert ScalarOneOrNone(db.payments, WithTransaction(Some("tx1"))) == OneRow(0);
    var ack := db.PaymentCallback(Some("tx1"), Some(StatusCompleted), now + 1);
    assert ScalarOneOrNone(db.payments, WithTransaction(Some("tx2"))) == OneRow(1);
    ack := db.PaymentCallback(Some("tx2"), Some(StatusCompleted), now + 1);
    assert db.contents[0].paidViews == 2;
    assert CompletedBy(2, "c1")(db.payments[0]) && CompletedBy(2, "c1")(db.payments[1]);
    var third, request := db.InitiatePayment(viewer, "c1", "0700000000", Responded(Some("tx3")), now + 2);
    assert third == Err(MultipleRowsFound) && request == None;
  }
}
