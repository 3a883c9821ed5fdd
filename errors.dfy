/** The HTTP errors the request handlers of backend/main.py raise. */
module Errors {

  datatype Error =
    | ContentNotFound          // 404 "Content not found"
    | AlreadyPaid              // 400 "You have already paid for this content"
    | PaymentProcessingFailed  // 500 raised by the provider client
    | PaymentNotFound          // 404 "Payment not found"
    | UsernameTaken            // 400 "Username already registered"
    | EmailTaken               // 400 "Email already registered"
    | NotCreator               // 403 "Only creators can upload content"
    | UnsupportedFileType      // 400 "Unsupported file type"
    | UploadFailed             // 500 "S3 upload failed: ..."
    | MultipleRowsFound        // 500: scalar_one_or_none saw more than one row
    | DuplicatePrimaryKey      // 500: the commit of a new row hit an existing key
    | MissingCreator           // 500: an earnings row whose creator is not a user

  /** The status code the framework answers with for each error. */
  function StatusCode(e: Error): (code: int)
    ensures code in {400, 403, 404, 500}
    ensures code == 404 <==> e == ContentNotFound || e == PaymentNotFound
    ensures code == 403 <==> e == NotCreator
    ensures code == 400 <==> e == AlreadyPaid || e == UsernameTaken || e == EmailTaken || e == UnsupportedFileType
  {
    match e
    case ContentNotFound => 404
    case PaymentNotFound => 404
    case AlreadyPaid => 400
    case UsernameTaken => 400
    case EmailTaken => 400
    case UnsupportedFileType => 400
    case NotCreator => 403
    case _ => 500
  }
}
