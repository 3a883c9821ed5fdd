/** The four tables of backend/models.py as record types, with the column
    defaults as constructor functions. Float money columns are integer cents,
    DateTime columns are seconds, Date columns are day numbers. */
module Models {
  import opened Wrappers

  type Time = int
  type Day = int
  type Money = int

  const SecondsPerDay: int := 86400
  /** Content stays available for two weeks after upload. */
  const ContentExpiryDays: int := 14
  const RetentionSeconds: int := ContentExpiryDays * SecondsPerDay
  /** KSH 5.00 per unlock, in cents: the column default and the configured price. */
  const ContentPrice: Money := 500

  /** The `file_type` column, only ever written as 'audio' or 'video'. */
  datatype FileType = Audio | Video

  /** The `status` column, only ever written as 'pending', 'completed' or 'failed'. */
  datatype PaymentStatus = Pending | Completed | Failed

  datatype User = User(
    id: int,
    username: string,
    email: string,
    passwordHash: string,
    isCreator: bool,
    createdAt: Time,
    creatorName: Option<string>,
    phoneNumber: Option<string>,
    bankDetails: Option<string>)

  datatype Content = Content(
    id: string,
    title: string,
    description: string,
    fileUrl: string,
    fileType: FileType,
    fileSize: Option<int>,
    creatorId: int,
    price: Money,
    views: int,
    paidViews: int,
    createdAt: Time,
    expiresAt: Time,
    isActive: bool)

  datatype Payment = Payment(
    userId: int,
    contentId: string,
    amount: Money,
    transactionId: Option<string>,
    status: PaymentStatus,
    createdAt: Time,
    completedAt: Option<Time>)

  datatype Earnings = Earnings(
    creatorId: int,
    contentId: string,
    amount: Money,
    weekStart: Day,
    weekEnd: Day,
    paidOut: bool,
    createdAt: Time)

  /** A user row as inserted: creation time stamped, no bank details. */
  function NewUser(id: int, username: string, email: string, passwordHash: string, isCreator: bool,
                   creatorName: Option<string>, phoneNumber: Option<string>, now: Time): (u: User)
    ensures u.id == id && u.username == username && u.email == email && u.passwordHash == passwordHash
    ensures u.isCreator == isCreator && u.creatorName == creatorName && u.phoneNumber == phoneNumber
    ensures u.createdAt == now && u.bankDetails == None
  {
    User(id, username, email, passwordHash, isCreator, now, creatorName, phoneNumber, None)
  }

  /** A content row as inserted: nothing viewed yet, active, and expiring one
      retention period after the single clock reading `now`. */
  function NewContent(id: string, title: string, description: string, fileUrl: string, fileType: FileType,
                      fileSize: Option<int>, creatorId: int, price: Money, now: Time): (c: Content)
    ensures c.id == id && c.creatorId == creatorId && c.fileType == fileType && c.price == price
    ensures c.title == title && c.description == description && c.fileUrl == fileUrl && c.fileSize == fileSize
    ensures c.views == 0 && c.paidViews == 0 && c.isActive
    ensures c.createdAt == now && c.expiresAt == c.createdAt + 14 * 86400
  {
    Content(id, title, description, fileUrl, fileType, fileSize, creatorId, price, 0, 0,
            now, now + RetentionSeconds, true)
  }

  /** A payment row as inserted: pending and not yet completed. */
  function NewPayment(userId: int, contentId: string, amount: Money, transactionId: Option<string>,
                      now: Time): (p: Payment)
    ensures p.userId == userId && p.contentId == contentId && p.amount == amount
    ensures p.transactionId == transactionId
    ensures p.status == Pending && p.completedAt == None && p.createdAt == now
  {
    Payment(userId, contentId, amount, transactionId, Pending, now, None)
  }
}
