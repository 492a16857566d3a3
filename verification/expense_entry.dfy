/**
 * The money-manager page (src/components/expenses/ExpenseEntry.tsx): an expense form, an income
 * form, and a receipt upload whose "processing" fills the expense fields with fixed values.
 * The two timers of the upload and the file reader are separate transitions (`FinishUpload`,
 * `FinishProcessing`); a file is represented by its MIME type and its data URL. Nothing is saved
 * anywhere: both submits only confirm with a toast and reset their fields. Today's date
 * (`toISOString().split("T")[0]`) is a parameter.
 */
module ExpenseEntry {
  import opened Wrappers
  import opened Text

  /** What the simulated receipt reader extracts. */
  datatype Receipt = Receipt(amount: string, category: string, date: string, notes: string)

  const ReceiptAmount: string := "36.84"
  const ReceiptCategory: string := "Food"
  const ReceiptNotes: string := "Grocery store - milk, eggs, bread, vegetables"

  /** The extraction result on day `today`. */
  function ReceiptOn(today: string): (r: Receipt)
    ensures r.amount == ReceiptAmount && r.category == ReceiptCategory && r.notes == ReceiptNotes && r.date == today
  {
    Receipt(ReceiptAmount, ReceiptCategory, today, ReceiptNotes)
  }

  /** The four fields of either form. */
  datatype Entry = Entry(amount: string, category: string, date: string, notes: string)

  /** `!amount || !category || !date`: the form is refused with a "Missing information" toast. */
  predicate Incomplete(e: Entry) {
    e.amount == "" || e.category == "" || e.date == ""
  }

  /** A form after a successful submit: empty, dated today. */
  function Cleared(today: string): (e: Entry)
    ensures e.amount == "" && e.category == "" && e.notes == "" && e.date == today
  {
    Entry("", "", today, "")
  }

  /** `file.type.startsWith("image/")` */
  predicate IsImage(fileType: string) {
    StartsWith(fileType, "image/")
  }

  /** The receipt upload state. */
  datatype Upload = Upload(isDragging: bool, uploadedImage: Option<string>, isUploading: bool, isProcessing: bool, extractedData: Option<Receipt>)

  class Page {
    var amount: string
    var category: string
    var date: string
    var notes: string
    var isDragging: bool
    var uploadedImage: Option<string>
    var isUploading: bool
    var isProcessing: bool
    var extractedData: Option<Receipt>
    var incomeAmount: string
    var incomeCategory: string
    var incomeDate: string
    var incomeNotes: string

    function Expense(): Entry
      reads this
    {
      Entry(amount, category, date, notes)
    }

    function Income(): Entry
      reads this
    {
      Entry(incomeAmount, incomeCategory, incomeDate, incomeNotes)
    }

    function UploadState(): Upload
      reads this
    {
      Upload(isDragging, uploadedImage, isUploading, isProcessing, extractedData)
    }

    /** The receipt form's save button is disabled while uploading or processing. */
    predicate ReceiptSaveEnabled()
      reads this
    {
      !isUploading && !isProcessing
    }

    constructor (today: string)
      ensures Expense() == Cleared(today) && Income() == Cleared(today)
      ensures UploadState() == Upload(false, None, false, false, None)
    {
      amount, category, date, notes := "", "", today, "";
      incomeAmount, incomeCategory, incomeDate, incomeNotes := "", "", today, "";
      isDragging, uploadedImage, isUploading, isProcessing, extractedData := false, None, false, false, None;
    }

    /** The expense inputs (shared by the manual and the receipt tab). */
    method SetExpense(e: Entry)
      modifies this
      ensures Expense() == e
      ensures Income() == old(Income()) && UploadState() == old(UploadState())
    {
      amount, category, date, notes := e.amount, e.category, e.date, e.notes;
    }

    method SetIncome(e: Entry)
      modifies this
      ensures Income() == e
      ensures Expense() == old(Expense()) && UploadState() == old(UploadState())
    {
      incomeAmount, incomeCategory, incomeDate, incomeNotes := e.amount, e.category, e.date, e.notes;
    }

    method HandleDragOver()
      modifies this
      ensures UploadState() == old(UploadState()).(isDragging := true)
      ensures Expense() == old(Expense()) && Income() == old(Income())
    {
      isDragging := true;
    }

    method HandleDragLeave()
      modifies this
      ensures UploadState() == old(UploadState()).(isDragging := false)
      ensures Expense() == old(Expense()) && Income() == old(Income())
    {
      isDragging := false;
    }

    /**
     * `handleFileUpload`: a file that is not an image is refused and nothing changes; an image
     * starts the upload.
     */
    method HandleFileUpload(fileType: string) returns (accepted: bool)
      modifies this
      ensures accepted <==> IsImage(fileType)
      ensures !accepted ==> UploadState() == old(UploadState())
      ensures accepted ==> UploadState() == old(UploadState()).(isUploading := true)
      ensures accepted ==> !ReceiptSaveEnabled()
      ensures Expense() == old(Expense()) && Income() == old(Income())
    {
      if !IsImage(fileType) {
        return false;
      }
      isUploading := true;
      accepted := true;
    }

    /** `handleDrop`: dragging ends, and the first dropped file (if any) goes to `HandleFileUpload`. */
    method HandleDrop(fileTypes: seq<string>) returns (accepted: bool)
      modifies this
      ensures !isDragging
      ensures accepted <==> |fileTypes| > 0 && IsImage(fileTypes[0])
      ensures !accepted ==> UploadState() == old(UploadState()).(isDragging := false)
      ensures accepted ==> UploadState() == old(UploadState()).(isDragging := false, isUploading := true)
      ensures Expense() == old(Expense()) && Income() == old(Income())
    {
      isDragging := false;
      accepted := false;
      if |fileTypes| > 0 {
        accepted := HandleFileUpload(fileTypes[0]);
      }
    }

    /** `handleFileChange`: the first chosen file (if any) goes to `HandleFileUpload`. */
    method HandleFileChange(fileTypes: seq<string>) returns (accepted: bool)
      modifies this
      ensures accepted <==> |fileTypes| > 0 && IsImage(fileTypes[0])
      ensures !accepted ==> UploadState() == old(UploadState())
      ensures accepted ==> UploadState() == old(UploadState()).(isUploading := true)
      ensures Expense() == old(Expense()) && Income() == old(Income())
    {
      accepted := false;
      if |fileTypes| > 0 {
        accepted := HandleFileUpload(fileTypes[0]);
      }
    }

    /** The file reader has the image: it is shown, the upload ends and processing begins. */
    method FinishUpload(dataUrl: string)
      modifies this
      ensures UploadState() == old(UploadState()).(uploadedImage := Some(dataUrl), isUploading := false, isProcessing := true)
      ensures !ReceiptSaveEnabled()
      ensures Expense() == old(Expense()) && Income() == old(Income())
    {
      uploadedImage := Some(dataUrl);
      isUploading := false;
      isProcessing := true;
    }

    /**
     * The processing timer fires: processing ends, the extraction is recorded and the expense
     * amount, category and notes take its values. The expense date is not changed.
     */
    method FinishProcessing(today: string)
      modifies this
      ensures UploadState() == old(UploadState()).(isProcessing := false, extractedData := Some(ReceiptOn(today)))
      ensures Expense() == Entry(ReceiptAmount, ReceiptCategory, old(date), ReceiptNotes)
      ensures Income() == old(Income())
    {
      isProcessing := false;
      extractedData := Some(ReceiptOn(today));
      amount := ReceiptAmount;
      category := ReceiptCategory;
      notes := ReceiptNotes;
    }

    /** "Remove Image": the image and the extraction go; nothing else changes. */
    method RemoveImage()
      modifies this
      ensures UploadState() == old(UploadState()).(uploadedImage := None, extractedData := None)
      ensures Expense() == old(Expense()) && Income() == old(Income())
    {
      uploadedImage := None;
      extractedData := None;
    }

    /**
     * `handleSubmit` for an expense: an incomplete form changes nothing; otherwise the expense
     * fields are cleared and dated today, and the image and extraction are dropped. The income
     * form and the upload flags are untouched.
     */
    method HandleSubmit(today: string) returns (saved: bool)
      modifies this
      ensures saved <==> !Incomplete(old(Expense()))
      ensures !saved ==> Expense() == old(Expense()) && UploadState() == old(UploadState())
      ensures saved ==> Expense() == Cleared(today)
      ensures saved ==> UploadState() == old(UploadState()).(uploadedImage := None, extractedData := None)
      ensures Income() == old(Income())
    {
      if Incomplete(Expense()) {
        return false;
      }
      amount, category, date, notes := "", "", today, "";
      uploadedImage := None;
      extractedData := None;
      saved := true;
    }

    /** `handleIncomeSubmit`: the same rule for the income form, which touches nothing else. */
    method HandleIncomeSubmit(today: string) returns (saved: bool)
      modifies this
      ensures saved <==> !Incomplete(old(Income()))
      ensures !saved ==> Income() == old(Income())
      ensures saved ==> Income() == Cleared(today)
      ensures Expense() == old(Expense()) && UploadState() == old(UploadState())
    {
      if Incomplete(Income()) {
        return false;
      }
      incomeAmount, incomeCategory, incomeDate, incomeNotes := "", "", today, "";
      saved := true;
    }
  }
}
