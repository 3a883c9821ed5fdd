/** The request handlers of backend/main.py over the four tables, held in
    memory. The authenticated user, the clock, generated ids, the password
    hash and the answers of the payment provider and the object store are
    parameters. */
module App {
  import opened Wrappers
  import opened Errors
  import opened Models
  import opened Queries
  import opened Catalog
  import opened Ledger
  import opened Payouts

  predicate HasUsername(us: seq<User>, username: string) {
    exists i :: 0 <= i < |us| && us[i].username == username
  }

  predicate HasEmail(us: seq<User>, email: string) {
    exists i :: 0 <= i < |us| && us[i].email == email
  }

  /** User ids are 1, 2, ... in table order; usernames and emails are unique. */
  predicate UsersValid(us: seq<User>) {
    && (forall i :: 0 <= i < |us| ==> us[i].id == i + 1)
    && (forall i, j :: 0 <= i < j < |us| ==> us[i].username != us[j].username)
    && (forall i, j :: 0 <= i < j < |us| ==> us[i].email != us[j].email)
  }

  /** The cleanup changes no content id and no paid-view count, so it keeps
      the invariants that mention contents. */
  lemma SweepKeepsInvariants(cs: seq<Content>, ps: seq<Payment>, now: Time)
    requires UniqueContentIds(cs) && ReferencesContent(cs, ps) && PaidViewsCover(cs, ps)
    ensures var cs' := SweepExpired(cs, now);
            UniqueContentIds(cs') && ReferencesContent(cs', ps) && PaidViewsCover(cs', ps)
  {
    var cs' := SweepExpired(cs, now);
    forall i | 0 <= i < |cs| ensures cs'[i].id == cs[i].id && cs'[i].paidViews == cs[i].paidViews {
      SweepExpiredAt(cs, now, i);
    }
    ReferencesKept(cs, ps, cs', ps);
  }

  class Database {
    var users: seq<User>
    var contents: seq<Content>
    var payments: seq<Payment>
    var earnings: seq<Earnings>

    /** Primary keys and unique columns, payments that reference existing
        content, and `paid_views` counting at least every completed payment. */
    ghost predicate Valid()
      reads this
    {
      && UsersValid(users)
      && UniqueContentIds(contents)
      && ReferencesContent(contents, payments)
      && PaidViewsCover(contents, payments)
    }

    /** Empty tables, except the earnings table, which nothing here writes. */
    constructor (initialEarnings: seq<Earnings>)
      ensures Valid()
      ensures users == [] && contents == [] && payments == [] && earnings == initialEarnings
    {
      users, contents, payments := [], [], [];
      earnings := initialEarnings;
    }

    /** A content item with a completed payment has at least one paid view. */
    lemma CompletedPaymentHasPaidView(i: nat, k: nat)
      requires Valid()
      requires i < |contents| && k < |payments|
      requires payments[k].status == Completed && payments[k].contentId == contents[i].id
      ensures contents[i].paidViews >= 1
    {
      Ledger.CompletedPaymentHasPaidView(contents, payments, i, k);
    }

    /** `register`: the username must be new, then the email; the new row gets the next id. */
    method Register(username: string, email: string, passwordHash: string, isCreator: bool,
                    creatorName: Option<string>, phoneNumber: Option<string>, now: Time)
      returns (r: Result<User, Error>)
      requires Valid()
      modifies this
      ensures Valid()
      ensures contents == old(contents) && payments == old(payments) && earnings == old(earnings)
      ensures HasUsername(old(users), username) ==> r == Err(UsernameTaken) && users == old(users)
      ensures !HasUsername(old(users), username) && HasEmail(old(users), email) ==>
                r == Err(EmailTaken) && users == old(users)
      ensures !HasUsername(old(users), username) && !HasEmail(old(users), email) ==>
                && r == Ok(NewUser(|old(users)| + 1, username, email, passwordHash, isCreator,
                                   creatorName, phoneNumber, now))
                && users == old(users) + [r.value]
    {
      match ScalarOneOrNone(users, WithUsername(username))
      case ManyRows =>
        return Err(MultipleRowsFound);
      case OneRow(_) =>
        return Err(UsernameTaken);
      case NoRow =>
      match ScalarOneOrNone(users, WithEmail(email))
      case ManyRows =>
        return Err(MultipleRowsFound);
      case OneRow(_) =>
        return Err(EmailTaken);
      case NoRow =>
      var user := NewUser(|users| + 1, username, email, passwordHash, isCreator, creatorName, phoneNumber, now);
      users := users + [user];
      r := Ok(user);
    }

    /** `create_content`: creators only, whitelisted MIME types only, then the
        upload (`upload` is the stored file's URL, or None when it failed),
        then the insert under the generated id `newId`. */
    method CreateContent(current: User, title: string, description: string, contentType: string,
                         fileSize: Option<int>, upload: Option<string>, newId: string, now: Time)
      returns (r: Result<Content, Error>)
      requires Valid()
      modifies this
      ensures Valid()
      ensures users == old(users) && payments == old(payments) && earnings == old(earnings)
      ensures !current.isCreator ==> r == Err(NotCreator)
      ensures current.isCreator && contentType !in AllowedTypes ==> r == Err(UnsupportedFileType)
      ensures current.isCreator && contentType in AllowedTypes && upload.None? ==> r == Err(UploadFailed)
      ensures current.isCreator && contentType in AllowedTypes && upload.Some? && HasContent(old(contents), newId) ==>
                r == Err(DuplicatePrimaryKey)
      ensures r.Err? ==> contents == old(contents)
      ensures r.Ok? <==>
                current.isCreator && contentType in AllowedTypes && upload.Some? && !HasContent(old(contents), newId)
      ensures r.Ok? ==>
                && r.value == NewContent(newId, title, description, upload.value, Classify(contentType),
                                         fileSize, current.id, ContentPrice, now)
                && contents == old(contents) + [r.value]
    {
      if !current.isCreator {
        return Err(NotCreator);
      }
      if contentType !in AllowedTypes {
        return Err(UnsupportedFileType);
      }
      if upload.None? {
        return Err(UploadFailed);
      }
      var fileType := Classify(contentType);
      if ScalarOneOrNone(contents, WithContentId(newId)) != NoRow {
        return Err(DuplicatePrimaryKey);
      }
      var content := NewContent(newId, title, description, upload.value, fileType, fileSize,
                                current.id, ContentPrice, now);
      CompletedCountAbsent(payments, newId);
      contents := contents + [content];
      forall k | 0 <= k < |payments| ensures HasContent(contents, payments[k].contentId) {
        var i :| 0 <= i < |old(contents)| && old(contents)[i].id == payments[k].contentId;
        assert contents[i] == old(contents)[i];
      }
      r := Ok(content);
    }

    /** `initiate_payment`: the content must exist and the user must not hold a
        completed payment for it; only then is the provider contacted
        (`request` is what was sent to it), and only when it answers is one
        pending payment appended. The result is the provider's transaction id. */
    method InitiatePayment(current: User, contentId: string, phoneNumber: string,
                           provider: ProviderOutcome, now: Time)
      returns (r: Result<Option<string>, Error>, request: Option<ProviderRequest>)
      requires Valid()
      modifies this
      ensures Valid()
      ensures users == old(users) && contents == old(contents) && earnings == old(earnings)
      ensures !HasContent(old(contents), contentId) ==>
                r == Err(ContentNotFound) && request == None && payments == old(payments)
      ensures HasContent(old(contents), contentId) ==>
                match ScalarOneOrNone(old(payments), CompletedBy(current.id, contentId))
                case OneRow(_) => r == Err(AlreadyPaid) && request == None && payments == old(payments)
                case ManyRows => r == Err(MultipleRowsFound) && request == None && payments == old(payments)
                case NoRow =>
                  exists i :: 0 <= i < |old(contents)| && old(contents)[i].id == contentId &&
                    var price := old(contents)[i].price;
                    && request == Some(PaymentRequest(contentId, price, phoneNumber))
                    && (provider.Unreachable? ==> r == Err(PaymentProcessingFailed) && payments == old(payments))
                    && (provider.Responded? ==>
                          && r == Ok(provider.transactionId)
                          && payments == old(payments) + [NewPayment(current.id, contentId, price,
                                                                     provider.transactionId, now)])
      ensures r.Ok? <==>
                && HasContent(old(contents), contentId)
                && (forall k :: 0 <= k < |old(payments)| ==> !CompletedBy(current.id, contentId)(old(payments)[k]))
                && provider.Responded?
    {
      request := None;
      var content: Content;
      match ScalarOneOrNone(contents, WithContentId(contentId))
      case NoRow =>
        return Err(ContentNotFound), None;
      case ManyRows =>
        return Err(MultipleRowsFound), None;
      case OneRow(ci) =>
        content := contents[ci];
      match ScalarOneOrNone(payments, CompletedBy(current.id, contentId))
      case OneRow(_) =>
        return Err(AlreadyPaid), None;
      case ManyRows =>
        return Err(MultipleRowsFound), None;
      case NoRow =>
      request := Some(PaymentRequest(contentId, content.price, phoneNumber));
      match provider
      case Unreachable =>
        r := Err(PaymentProcessingFailed);
      case Responded(transactionId) =>
        var payment := NewPayment(current.id, contentId, content.price, transactionId, now);
        forall i | 0 <= i < |contents| ensures CompletedCount(payments + [payment], contents[i].id)
                                             == CompletedCount(payments, contents[i].id) {
          NewPaymentNotCompleted(payments, current.id, contentId, content.price, transactionId, now, contents[i].id);
        }
        payments := payments + [payment];
        r := Ok(transactionId);
    }

    /** `payment_callback`: the one payment with the given transaction id is
        marked completed (and its content gains a paid view) or failed; any
        other status string changes nothing. The prior status is not looked
        at, so a repeated 'completed' counts another paid view. */
    method PaymentCallback(transactionId: Option<string>, status: Option<string>, now: Time)
      returns (r: Result<(), Error>)
      requires Valid()
      modifies this
      ensures Valid()
      ensures users == old(users) && earnings == old(earnings)
      ensures match ScalarOneOrNone(old(payments), WithTransaction(transactionId))
              case NoRow => r == Err(PaymentNotFound) && payments == old(payments) && contents == old(contents)
              case ManyRows => r == Err(MultipleRowsFound) && payments == old(payments) && contents == old(contents)
              case OneRow(k) =>
                var p := old(payments)[k];
                && r == Ok(())
                && (status == Some(StatusCompleted) ==>
                      && payments == old(payments)[k := p.(status := Completed, completedAt := Some(now))]
                      && |contents| == |old(contents)|
                      && forall i :: 0 <= i < |contents| ==>
                           contents[i] == if old(contents)[i].id == p.contentId
                                          then old(contents)[i].(paidViews := old(contents)[i].paidViews + 1)
                                          else old(contents)[i])
                && (status == Some(StatusFailed) ==>
                      payments == old(payments)[k := p.(status := Failed)] && contents == old(contents))
                && (status != Some(StatusCompleted) && status != Some(StatusFailed) ==>
                      payments == old(payments) && contents == old(contents))
    {
      match ScalarOneOrNone(payments, WithTransaction(transactionId))
      case NoRow =>
        return Err(PaymentNotFound);
      case ManyRows =>
        return Err(MultipleRowsFound);
      case OneRow(k) =>
      if status == Some(StatusCompleted) {
        CompletePayment(k, now);
      } else if status == Some(StatusFailed) {
        FailPayment(k);
      }
      r := Ok(());
    }

    /** The 'completed' branch of the callback for payment row `k`. */
    method CompletePayment(k: nat, now: Time)
      requires Valid() && k < |payments|
      modifies this
      ensures Valid()
      ensures users == old(users) && earnings == old(earnings)
      ensures payments == old(payments)[k := old(payments)[k].(status := Completed, completedAt := Some(now))]
      ensures |contents| == |old(contents)|
      ensures forall i :: 0 <= i < |contents| ==>
                contents[i] == if old(contents)[i].id == old(payments)[k].contentId
                               then old(contents)[i].(paidViews := old(contents)[i].paidViews + 1)
                               else old(contents)[i]
    {
      var payment := payments[k];
      var paid := payment.(status := Completed, completedAt := Some(now));
      match ScalarOneOrNone(contents, WithContentId(payment.contentId))
      case NoRow =>
        assert false;
      case ManyRows =>
        assert false;
      case OneRow(ci) =>
      CoverAfterCompletion(contents, payments, k, paid, ci);
      payments := payments[k := paid];
      contents := contents[ci := contents[ci].(paidViews := contents[ci].paidViews + 1)];
      ReferencesKept(old(contents), old(payments), contents, payments);
    }

    /** The 'failed' branch of the callback for payment row `k`. */
    method FailPayment(k: nat)
      requires Valid() && k < |payments|
      modifies this
      ensures Valid()
      ensures users == old(users) && earnings == old(earnings) && contents == old(contents)
      ensures payments == old(payments)[k := old(payments)[k].(status := Failed)]
    {
      var failed := payments[k].(status := Failed);
      CoverAfterFailure(contents, payments, k, failed);
      payments := payments[k := failed];
    }

    /** `cleanup_expired_content`: every active row past its expiry time is
        marked inactive; every other row and every other column is kept. */
    method CleanupExpiredContent(now: Time)
      requires Valid()
      modifies this
      ensures Valid()
      ensures users == old(users) && payments == old(payments) && earnings == old(earnings)
      ensures contents == SweepExpired(old(contents), now)
      ensures |contents| == |old(contents)|
      ensures forall i :: 0 <= i < |contents| ==>
                && (IsExpired(old(contents)[i], now) ==> contents[i] == old(contents)[i].(isActive := false))
                && (!IsExpired(old(contents)[i], now) ==> contents[i] == old(contents)[i])
    {
      for i := 0 to |contents|
        invariant |contents| == |old(contents)|
        invariant forall j :: 0 <= j < i ==> contents[j] == SweepOne(old(contents)[j], now)
        invariant forall j :: i <= j < |contents| ==> contents[j] == old(contents)[j]
        invariant users == old(users) && payments == old(payments) && earnings == old(earnings)
      {
        if contents[i].isActive && contents[i].expiresAt < now {
          contents := contents[i := contents[i].(isActive := false)];
        }
      }
      forall j | 0 <= j < |contents| ensures contents[j] == SweepExpired(old(contents), now)[j] {
        SweepExpiredAt(old(contents), now, j);
      }
      SweepKeepsInvariants(old(contents), payments, now);
    }

    /** `get_weekly_earnings`: one entry per creator owning an unpaid row of
        the week from `weekStart` to six days later, with the sum and number
        of those rows. */
    method GetWeeklyEarnings(weekStart: Day) returns (r: Result<map<int, CreatorEarnings>, Error>)
      requires Valid()
      ensures r.Err? <==> exists e :: e in earnings && InWeek(e, weekStart) && UserById(users, e.creatorId).None?
      ensures r.Ok? ==> forall c :: c in r.value <==> exists e :: e in earnings && InWeek(e, weekStart) && e.creatorId == c
      ensures r.Ok? ==> forall c :: c in r.value ==> IsEntry(users, WeekRows(earnings, weekStart), c, r.value[c])
      ensures r.Ok? ==> forall c :: c in r.value ==> UserById(users, c).value.id == c
    {
      var rows := WeekRows(earnings, weekStart);
      r := GroupByCreator(rows, users);
      WeekRowsOwners(earnings, weekStart);
      WeekRowsMissingCreator(earnings, weekStart, users);
      UserIdsArePositions();
    }

    /** User lookup by id finds the row carrying that id. */
    lemma UserIdsArePositions()
      requires Valid()
      ensures forall c :: UserById(users, c).Some? ==> UserById(users, c).value.id == c
    {
    }
  }
}
