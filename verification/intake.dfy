/**
 * The request page: picking the photo and the payment screenshot, the ordered checks of
 * the submit handler, the record it builds, the two file reads whose completions are
 * counted before the record is saved, and the save itself (an append to the collection).
 */
module Intake {
  import opened Text
  import opened Submissions
  import Admin

  /** MIME types the payment screenshot may have. */
  const PaymentTypes: seq<string> := ["image/jpeg", "image/jpg", "image/png", "image/webp"]

  /** Largest payment screenshot accepted, in bytes (5 MiB). */
  const MaxPaymentSize: nat := 5 * 1024 * 1024

  /** Shortest accepted instructions, in UTF-16 code units after trimming. */
  const MinInstructionsLength: nat := 10

  /** Reads that must complete before the record is saved: the photo and the payment screenshot. */
  const TotalFiles: nat := 2

  /** The price every request is stored with; it does not depend on the add-ons. */
  const FixedPrice: string := "$25.00"

  /** Outcome of the payment screenshot checks, type first, then size. */
  datatype PaymentCheck = WrongType | TooLarge | PaymentAccepted

  /** Outcome of the submit handler's checks, in the order they run. */
  datatype SubmitCheck = MissingPhoto | MissingPayment | InvalidEmail | ShortInstructions | Ready

  /** `processPaymentFile`'s checks: an allowed image type, then at most 5 MiB. */
  function CheckPaymentFile(f: FileInfo): (c: PaymentCheck)
    ensures c == PaymentAccepted <==> f.mimeType in PaymentTypes && f.size <= MaxPaymentSize
    ensures c == WrongType <==> f.mimeType !in PaymentTypes
  {
    if f.mimeType !in PaymentTypes then WrongType
    else if f.size > MaxPaymentSize then TooLarge
    else PaymentAccepted
  }

  /**
   * The submit handler's checks: a photo, then a payment screenshot, then a valid email, then
   * instructions of at least 10 code units once trimmed; the first failure decides.
   */
  function CheckSubmit(photo: Option<FileInfo>, payment: Option<FileInfo>, emailValid: bool,
                       instructions: string): (c: SubmitCheck)
    ensures c == MissingPhoto <==> photo.None?
    ensures c == MissingPayment <==> photo.Some? && payment.None?
    ensures c == InvalidEmail <==> photo.Some? && payment.Some? && !emailValid
    ensures c == Ready <==>
      photo.Some? && payment.Some? && emailValid
      && Utf16Length(Trim(instructions)) >= MinInstructionsLength
  {
    if photo.None? then MissingPhoto
    else if payment.None? then MissingPayment
    else if !emailValid then InvalidEmail
    else if Utf16Length(Trim(instructions)) < MinInstructionsLength then ShortInstructions
    else Ready
  }

  /** Name, size and type of a picked file, or `''`, 0 and `''` when none was picked. */
  function FileFields(f: Option<FileInfo>): (fields: (string, nat, string))
  {
    match f
    case Some(info) => (info.name, info.size, info.mimeType)
    case None => ("", 0, "")
  }

  /**
   * The record `storeSubmission` builds: pending, paid, at the fixed price, with `Not provided`
   * for an empty name and the metadata of the picked files; no add-ons, link, dates or payloads.
   */
  function BuildRecord(email: string, name: string, instructions: string,
                       photo: Option<FileInfo>, payment: Option<FileInfo>,
                       timestamp: nat, suffix: string, now: string): (r: Record)
    ensures r.id == RequestId(timestamp, suffix)
    ensures r.status == Pending && r.paymentStatus == "paid" && r.totalPrice == FixedPrice
    ensures r.email == email && r.instructions == instructions && r.submissionDate == now
    ensures r.name == (if name == "" then "Not provided" else name)
    ensures r.name != ""
    ensures photo.None? ==> r.fileName == "" && r.fileSize == 0 && r.fileType == ""
    ensures payment.None? ==> r.paymentFileName == "" && r.paymentFileSize == 0 && r.paymentFileType == ""
    ensures photo.Some? ==>
      r.fileName == photo.value.name && r.fileSize == photo.value.size && r.fileType == photo.value.mimeType
    ensures payment.Some? ==>
      r.paymentFileName == payment.value.name && r.paymentFileSize == payment.value.size
      && r.paymentFileType == payment.value.mimeType
    ensures !r.rushOrder && !r.highRes
    ensures r.fileData.None? && r.paymentFileData.None?
    ensures r.stripeLink.None? && r.approvedDate.None? && r.completedDate.None?
  {
    var (fileName, fileSize, fileType) := FileFields(photo);
    var (payName, paySize, payType) := FileFields(payment);
    Record(
      id := RequestId(timestamp, suffix),
      email := email,
      name := if name == "" then "Not provided" else name,
      instructions := instructions,
      rushOrder := false,
      highRes := false,
      fileName := fileName,
      fileSize := fileSize,
      fileType := fileType,
      paymentFileName := payName,
      paymentFileSize := paySize,
      paymentFileType := payType,
      fileData := None,
      paymentFileData := None,
      totalPrice := FixedPrice,
      submissionDate := now,
      status := Pending,
      paymentStatus := "paid",
      stripeLink := None,
      approvedDate := None,
      completedDate := None)
  }

  /**
   * The request number the dashboard shows on the card of a record built here is the decimal
   * text of the submission's `Date.now()`, and reading it back gives that timestamp.
   */
  lemma {:induction false} CardShowsSubmitTime(email: string, name: string, instructions: string,
                                               photo: Option<FileInfo>, payment: Option<FileInfo>,
                                               timestamp: nat, suffix: string, now: string)
    ensures var number := Admin.RequestNumber(BuildRecord(email, name, instructions, photo, payment,
                                                          timestamp, suffix, now).id);
      number == Some(Decimal(timestamp)) && DigitsValue(number.value) == timestamp
  {
    Admin.RequestNumberOfRequestId(timestamp, suffix);
    DecimalRoundTrip(timestamp);
  }

  /** `saveSubmissionData`: the collection becomes the old one followed by the new record. */
  method SaveSubmissionData(store: Store, data: Record)
    modifies store
    ensures store.records == old(store.records) + [data]
    ensures |store.records| == |old(store.records)| + 1
    ensures store.records[..|old(store.records)|] == old(store.records)
  {
    store.records := store.records + [data];
  }

  /**
   * One submission waiting for its file reads (the closure of `storeSubmission`): the record
   * being filled in, the completion counter, and which reads are still outstanding. `saves`
   * counts the writes to the collection made on its behalf.
   */
  class PendingSubmission {
    const store: Store
    var data: Record
    var filesProcessed: nat
    var photoReading: bool
    var paymentReading: bool
    ghost var saves: nat

    /** The counter plus the outstanding reads is always two, and the record was saved once exactly when the counter is two. */
    ghost predicate Valid()
      reads this
    {
      filesProcessed + (if photoReading then 1 else 0) + (if paymentReading then 1 else 0) == TotalFiles
      && saves == (if filesProcessed == TotalFiles then 1 else 0)
    }

    /**
     * `storeSubmission` after the record is built: a read is started for each picked file and a
     * missing file counts as processed at once, so with no files at all the record is saved here.
     */
    constructor (store: Store, data: Record, photoPicked: bool, paymentPicked: bool)
      modifies store
      ensures Valid()
      ensures this.store == store && this.data == data
      ensures photoReading == photoPicked && paymentReading == paymentPicked
      ensures store.records ==
        if !photoPicked && !paymentPicked then old(store.records) + [data] else old(store.records)
    {
      this.store := store;
      this.data := data;
      filesProcessed := 0;
      photoReading := photoPicked;
      paymentReading := paymentPicked;
      saves := 0;
      new;
      if !photoPicked {
        CheckAllFilesProcessed();
      }
      if !paymentPicked {
        CheckAllFilesProcessed();
      }
    }

    /** `checkAllFilesProcessed`: counts one completion and saves on the second. */
    method CheckAllFilesProcessed()
      requires filesProcessed < TotalFiles
      requires saves == (if filesProcessed == TotalFiles then 1 else 0)
      modifies this, store
      ensures filesProcessed == old(filesProcessed) + 1
      ensures saves == (if filesProcessed == TotalFiles then 1 else 0)
      ensures store.records ==
        if filesProcessed == TotalFiles then old(store.records) + [data] else old(store.records)
      ensures data == old(data) && photoReading == old(photoReading) && paymentReading == old(paymentReading)
    {
      filesProcessed := filesProcessed + 1;
      if filesProcessed == TotalFiles {
        SaveSubmissionData(store, data);
        saves := saves + 1;
      }
    }

    /** The photo's reader finished: its data URL goes into the record, then one completion is counted. */
    method PhotoLoaded(dataUrl: string)
      requires Valid() && photoReading
      modifies this, store
      ensures Valid() && !photoReading && paymentReading == old(paymentReading)
      ensures data == old(data).(fileData := Some(dataUrl))
      ensures filesProcessed == old(filesProcessed) + 1
      ensures store.records ==
        if paymentReading then old(store.records) else old(store.records) + [data]
    {
      data := data.(fileData := Some(dataUrl));
      photoReading := false;
      CheckAllFilesProcessed();
    }

    /** The payment screenshot's reader finished: its data URL goes into the record, then one completion is counted. */
    method PaymentLoaded(dataUrl: string)
      requires Valid() && paymentReading
      modifies this, store
      ensures Valid() && !paymentReading && photoReading == old(photoReading)
      ensures data == old(data).(paymentFileData := Some(dataUrl))
      ensures filesProcessed == old(filesProcessed) + 1
      ensures store.records ==
        if photoReading then old(store.records) else old(store.records) + [data]
    {
      data := data.(paymentFileData := Some(dataUrl));
      paymentReading := false;
      CheckAllFilesProcessed();
    }
  }

  /**
   * The request form: the photo and payment screenshot currently picked, and the shared
   * collection. `validateImageFile` and `validateEmail` stand for the site-wide validators.
   */
  class IntakeForm {
    const store: Store
    const validateImageFile: FileInfo -> bool
    const validateEmail: string -> bool
    var selectedFile: Option<FileInfo>
    var selectedPaymentFile: Option<FileInfo>

    constructor (store: Store, validateImageFile: FileInfo -> bool, validateEmail: string -> bool)
      ensures this.store == store
      ensures this.validateImageFile == validateImageFile && this.validateEmail == validateEmail
      ensures selectedFile == None && selectedPaymentFile == None
    {
      this.store := store;
      this.validateImageFile := validateImageFile;
      this.validateEmail := validateEmail;
      selectedFile := None;
      selectedPaymentFile := None;
    }

    /** `processFile`: the photo is replaced only when the image validator accepts the new file. */
    method ProcessFile(f: FileInfo) returns (accepted: bool)
      modifies this
      ensures accepted == validateImageFile(f)
      ensures selectedFile == if accepted then Some(f) else old(selectedFile)
      ensures selectedPaymentFile == old(selectedPaymentFile)
    {
      if !validateImageFile(f) {
        return false;
      }
      selectedFile := Some(f);
      accepted := true;
    }

    /** `processPaymentFile`: the screenshot is replaced only when it passes the type and size checks. */
    method ProcessPaymentFile(f: FileInfo) returns (c: PaymentCheck)
      modifies this
      ensures c == CheckPaymentFile(f)
      ensures selectedPaymentFile == if c == PaymentAccepted then Some(f) else old(selectedPaymentFile)
      ensures selectedFile == old(selectedFile)
    {
      if f.mimeType !in PaymentTypes {
        return WrongType;
      }
      if f.size > MaxPaymentSize {
        return TooLarge;
      }
      selectedPaymentFile := Some(f);
      c := PaymentAccepted;
    }

    /**
     * `handleFormSubmit`: runs the checks in order and, when all pass, builds the record and
     * starts both file reads; nothing is written to the collection at this point.
     */
    method HandleFormSubmit(email: string, name: string, instructions: string,
                            timestamp: nat, suffix: string, now: string)
      returns (c: SubmitCheck, pending: PendingSubmission?)
      modifies store
      ensures c == CheckSubmit(selectedFile, selectedPaymentFile, validateEmail(email), instructions)
      ensures c != Ready ==> pending == null
      ensures c == Ready ==>
        pending != null && fresh(pending) && pending.Valid() && pending.store == store
        && pending.data == BuildRecord(email, name, instructions, selectedFile, selectedPaymentFile,
                                       timestamp, suffix, now)
        && pending.filesProcessed == 0 && pending.photoReading && pending.paymentReading
      ensures store.records == old(store.records)
    {
      pending := null;
      if selectedFile.None? {
        return MissingPhoto, null;
      }
      if selectedPaymentFile.None? {
        return MissingPayment, null;
      }
      if !validateEmail(email) {
        return InvalidEmail, null;
      }
      if Utf16Length(Trim(instructions)) < MinInstructionsLength {
        return ShortInstructions, null;
      }
      var data := BuildRecord(email, name, instructions, selectedFile, selectedPaymentFile,
                              timestamp, suffix, now);
      pending := new PendingSubmission(store, data, true, true);
      c := Ready;
    }
  }

  /**
   * Whatever order the two reads complete in, the record reaches the collection exactly once,
   * on the second completion, carrying both data URLs, appended after the records already there.
   */
  method SubmitThenBothReads(form: IntakeForm, email: string, name: string, instructions: string,
                             timestamp: nat, suffix: string, now: string,
                             photoUrl: string, paymentUrl: string, paymentFirst: bool)
    modifies form.store
    ensures var c := CheckSubmit(old(form.selectedFile), old(form.selectedPaymentFile),
                                 form.validateEmail(email), instructions);
      var r := BuildRecord(email, name, instructions, old(form.selectedFile),
                           old(form.selectedPaymentFile), timestamp, suffix, now);
      form.store.records ==
        if c == Ready
        then old(form.store.records) + [r.(fileData := Some(photoUrl), paymentFileData := Some(paymentUrl))]
        else old(form.store.records)
  {
    var c, pending := form.HandleFormSubmit(email, name, instructions, timestamp, suffix, now);
    if c != Ready {
      return;
    }
    if paymentFirst {
      pending.PaymentLoaded(paymentUrl);
      assert pending.saves == 0;
      pending.PhotoLoaded(photoUrl);
    } else {
      pending.PhotoLoaded(photoUrl);
      assert pending.saves == 0;
      pending.PaymentLoaded(paymentUrl);
    }
    assert pending.saves == 1;
  }
}
