/**
 * The new-expense form (src/components/expenses/NewExpenseForm.tsx). As for the goal form,
 * submitting is split at the database call: `HandleSubmit` validates and starts the insert,
 * `FinishSubmit` applies its outcome. The current date is a parameter.
 */
module ExpenseForm {
  import opened Wrappers
  import opened Text
  import opened Numbers

  /** A calendar day as the date picker yields it. */
  datatype Day = Day(year: int, month: int, day: int)

  predicate ValidDay(d: Day) {
    0 <= d.year <= 9999 && 1 <= d.month <= 12 && 1 <= d.day <= 31
  }

  /** `n` in decimal, left-padded with zeros to `width` digits. */
  function Padded(n: nat, width: nat): (r: string)
    ensures |r| == if |NatToString(n)| >= width then |NatToString(n)| else width
    ensures forall i :: 0 <= i < |r| ==> '0' <= r[i] <= '9'
    decreases width
  {
    if |NatToString(n)| >= width then NatToString(n) else "0" + Padded(n, width - 1)
  }

  /** `format(date, "yyyy-MM-dd")`. */
  function Format(d: Day): string
    requires ValidDay(d)
  {
    Padded(d.year, 4) + "-" + Padded(d.month, 2) + "-" + Padded(d.day, 2)
  }

  /** A formatted day is ten characters: four year digits, a dash, two month digits, a dash, two day digits. */
  lemma FormatShape(d: Day)
    requires ValidDay(d)
    ensures var s := Format(d);
      && |s| == 10 && s[4] == '-' && s[7] == '-'
      && forall i :: 0 <= i < 10 && i != 4 && i != 7 ==> '0' <= s[i] <= '9'
  {
    PaddedFits(d.year, 4);
    PaddedFits(d.month, 2);
    PaddedFits(d.day, 2);
    var y, m, dd := Padded(d.year, 4), Padded(d.month, 2), Padded(d.day, 2);
    var s := y + "-" + m + "-" + dd;
    assert forall i :: 0 <= i < 4 ==> s[i] == y[i];
    assert forall i :: 5 <= i < 7 ==> s[i] == m[i - 5];
    assert forall i :: 8 <= i < 10 ==> s[i] == dd[i - 8];
  }

  /** A number below `10^width` is padded to exactly `width` digits. */
  lemma {:induction false} PaddedFits(n: nat, width: nat)
    requires width >= 1 && n < Pow10(width)
    ensures |Padded(n, width)| == width
  {
    DigitsBound(n, width);
  }

  /** A number below `10^width` has at most `width` digits. */
  lemma {:induction false} DigitsBound(n: nat, width: nat)
    requires width >= 1 && n < Pow10(width)
    ensures |NatToString(n)| <= width
  {
    if n >= 10 {
      DigitsBound(n / 10, width - 1);
    }
  }

  /** The row inserted into the `expenses` table. */
  datatype ExpenseRecord = ExpenseRecord(
    id: string, userId: string, name: string, amount: JsNumber, category: string, date: string, notes: string)

  /** `!user || !name || !amount || !category`: refused with a "Missing information" toast. */
  predicate MissingInformation(user: Option<string>, name: string, amount: string, category: string) {
    user.None? || name == "" || amount == "" || category == ""
  }

  /** `newExpense`: the fields as typed, the amount parsed and the day formatted. */
  function Record(id: string, userId: string, name: string, amount: string, category: string, date: Day, notes: string): (r: ExpenseRecord)
    requires ValidDay(date)
    ensures r.id == id && r.userId == userId && r.name == name && r.category == category && r.notes == notes
    ensures r.amount == ParseFloat(amount)
    ensures r.date == Format(date)
  {
    ExpenseRecord(id, userId, name, ParseFloat(amount), category, Format(date), notes)
  }

  class Form {
    var name: string
    var amount: string
    var category: string
    var date: Day
    var notes: string
    var isSubmitting: bool

    ghost predicate Valid()
      reads this
    {
      ValidDay(date)
    }

    constructor (today: Day)
      requires ValidDay(today)
      ensures Valid()
      ensures name == "" && amount == "" && category == "" && notes == "" && date == today && !isSubmitting
    {
      name, amount, category, notes := "", "", "", "";
      date := today;
      isSubmitting := false;
    }

    /** The text fields and the category select: each sets its own field only. */
    method SetFields(name': string, amount': string, category': string, notes': string)
      modifies this
      ensures name == name' && amount == amount' && category == category' && notes == notes'
      ensures date == old(date) && isSubmitting == old(isSubmitting)
    {
      name, amount, category, notes := name', amount', category', notes';
    }

    /** `onSelect={(date) => date && setDate(date)}`: clearing the selection keeps the previous day. */
    method SelectDate(picked: Option<Day>)
      requires Valid() && (picked.Some? ==> ValidDay(picked.value))
      modifies this
      ensures Valid()
      ensures date == if picked.Some? then picked.value else old(date)
      ensures name == old(name) && amount == old(amount) && category == old(category) && notes == old(notes)
      ensures isSubmitting == old(isSubmitting)
    {
      if picked.Some? {
        date := picked.value;
      }
    }

    /**
     * First half of `handleSubmit`: an incomplete form changes nothing and inserts nothing;
     * a complete one marks the form as submitting and yields the record, under `freshId`.
     */
    method HandleSubmit(user: Option<string>, freshId: string) returns (insert: Option<ExpenseRecord>)
      requires Valid()
      modifies this
      ensures Valid()
      ensures insert.None? <==> MissingInformation(user, old(name), old(amount), old(category))
      ensures insert.None? ==> isSubmitting == old(isSubmitting)
      ensures insert.Some? ==> isSubmitting
      ensures insert.Some? ==> insert.value == Record(freshId, user.value, name, amount, category, date, notes)
      ensures name == old(name) && amount == old(amount) && category == old(category)
      ensures date == old(date) && notes == old(notes)
    {
      if MissingInformation(user, name, amount, category) {
        return None;
      }
      isSubmitting := true;
      insert := Some(Record(freshId, user.value, name, amount, category, date, notes));
    }

    /**
     * Second half: after a successful insert `onSuccess` is called when one was given and the
     * fields are cleared, the day set to `now`; after a failure the fields are kept. Submitting
     * ends either way.
     */
    method FinishSubmit(succeeded: bool, hasOnSuccess: bool, now: Day) returns (calledOnSuccess: bool)
      requires Valid() && isSubmitting && ValidDay(now)
      modifies this
      ensures Valid()
      ensures !isSubmitting
      ensures calledOnSuccess <==> succeeded && hasOnSuccess
      ensures succeeded ==> name == "" && amount == "" && category == "" && notes == "" && date == now
      ensures !succeeded ==>
        name == old(name) && amount == old(amount) && category == old(category) && notes == old(notes) && date == old(date)
    {
      calledOnSuccess := false;
      if succeeded {
        calledOnSuccess := hasOnSuccess;
        name, amount, category, notes := "", "", "", "";
        date := now;
      }
      isSubmitting := false;
    }
  }
}
