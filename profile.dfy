/** The profile page: the total spent, the avatar's initials, and the checks a password
    change goes through before the request leaves for the auth provider. Whether a demo
    session is active is read from storage (`sb-demo-session`); the provider's answer is
    not modelled. */
module Profile {
  import opened Seqs
  import opened Text
  import opened Ledger
  import opened Store

  /** `totalSpent`: the absolute amounts of the expenses, or 0 when there is no list. */
  function TotalSpent(txs: Option<seq<Transaction>>): (r: real)
    ensures r >= 0.0
  {
    if txs.None? then 0.0 else TotalExpense(txs.value)
  }

  /** The total spent is the dashboard's expense total; a record adds its size when it is
      an expense and nothing otherwise, so the total over two lists is the sum of theirs. */
  lemma TotalSpentAdds(t: Transaction, a: seq<Transaction>, b: seq<Transaction>)
    ensures TotalSpent(Some([t] + a)) == TotalSpent(Some(a)) + (if IsExpense(t) then Abs(t.amount) else 0.0)
    ensures TotalSpent(Some(a + b)) == TotalSpent(Some(a)) + TotalSpent(Some(b))
  {
    TotalsAppend([t], a);
    TotalsAppend(a, b);
    FilterSingleton(IsExpense, t);
    assert Sum(AbsAmount, [t]) == Abs(t.amount);
  }

  /** `getInitials`: the first two characters of the e-mail in upper case, or `U` when
      there is no e-mail (an absent one is the empty string here). */
  function Initials(email: string): (r: string)
    ensures email == "" ==> r == "U"
    ensures email != "" ==> |r| == (if |email| < 2 then |email| else 2)
                            && forall i :: 0 <= i < |r| ==> r[i] == UpperChar(email[i])
  {
    if email == "" then "U" else Upper(email[..if |email| < 2 then |email| else 2])
  }

  /** The avatar shows one or two characters, already in upper case. */
  lemma InitialsShape(email: string)
    ensures 1 <= |Initials(email)| <= 2
    ensures Upper(Initials(email)) == Initials(email)
  {
    if email != "" {
      UpperIdempotent(email[..if |email| < 2 then |email| else 2]);
    }
  }

  /** `passwordForm`. */
  datatype PasswordForm = PasswordForm(current: string, newPassword: string, confirmation: string)

  const BlankPasswordForm := PasswordForm("", "", "")

  /** Where `handlePasswordChange` ends: one of the two errors, the demo success, or the
      request to the provider carrying the new password. */
  datatype PasswordStep = Mismatch | TooShort | DemoUpdated | ToProvider(password: string)

  /** `!!localStorage.getItem('sb-demo-session')`. */
  predicate DemoSession(entries: map<string, Stored>)
  {
    !Blank(entries, "sb-demo-session")
  }

  /** The checks in their order: the two fields must agree, then the password must have 6
      characters, then a demo session succeeds at once and any other goes to the provider. */
  function PasswordChange(form: PasswordForm, demo: bool): PasswordStep
  {
    if form.newPassword != form.confirmation then Mismatch
    else if |form.newPassword| < 6 then TooShort
    else if demo then DemoUpdated
    else ToProvider(form.newPassword)
  }

  /** A mismatch is reported whatever the length; a short password only when the fields
      agree; the change goes ahead exactly when they agree and it has at least 6
      characters, in a demo session without the provider. The current password plays no
      part. */
  lemma PasswordChangeMeaning(form: PasswordForm, demo: bool, other: string)
    ensures PasswordChange(form, demo) == Mismatch <==> form.newPassword != form.confirmation
    ensures PasswordChange(form, demo) == TooShort <==> form.newPassword == form.confirmation && |form.newPassword| < 6
    ensures (PasswordChange(form, demo) == DemoUpdated || PasswordChange(form, demo).ToProvider?)
            <==> form.newPassword == form.confirmation && |form.newPassword| >= 6
    ensures PasswordChange(form, demo) == DemoUpdated ==> demo
    ensures PasswordChange(form, demo).ToProvider? ==> !demo && PasswordChange(form, demo).password == form.newPassword
    ensures PasswordChange(form.(current := other), demo) == PasswordChange(form, demo)
  {
  }

  /** The browser calls `handlePasswordChange` only when all three `required` fields are
      filled, and not while `loading` disables the submit button. */
  predicate Submits(form: PasswordForm, loading: bool)
  {
    form.current != "" && form.newPassword != "" && form.confirmation != "" && !loading
  }

  /** Where a press of the button ends: nowhere when the browser does not submit, the
      handler's step otherwise. */
  function Submitted(form: PasswordForm, loading: bool, demo: bool): Option<PasswordStep>
  {
    if Submits(form, loading) then Some(PasswordChange(form, demo)) else None
  }

  /** A press does nothing while a field is empty or a change is in flight. A password
      reported too short has from 1 to 5 characters. The current password must be filled
      in, but what it says plays no part. A request leaves only with every field filled
      and a matching new password of at least 6 characters. */
  lemma SubmittedMeaning(form: PasswordForm, loading: bool, demo: bool, other: string)
    ensures Submitted(form, loading, demo).None?
            <==> form.current == "" || form.newPassword == "" || form.confirmation == "" || loading
    ensures Submitted(form, loading, demo) == Some(TooShort) ==> 1 <= |form.newPassword| < 6
    ensures form.current != "" && other != ""
            ==> Submitted(form.(current := other), loading, demo) == Submitted(form, loading, demo)
    ensures Submitted(form, loading, demo).Some? && Submitted(form, loading, demo).value.ToProvider?
            ==> form.current != "" && form.newPassword == form.confirmation && |form.newPassword| >= 6
  {
    PasswordChangeMeaning(form, demo, other);
  }

  /** `message`: its type (`''`, `'error'` or `'success'`) and its text. */
  datatype Message = Message(kind: string, text: string)

  /** The message the page shows when the step is reached (`t('password_too_short')` is
      never empty, so its fallback is never shown); a request to the provider leaves the
      message cleared until the answer comes. */
  function MessageFor(table: map<string, string>, step: PasswordStep): (m: Message)
    ensures step == Mismatch || step == TooShort ==> m.kind == "error"
    ensures step == DemoUpdated ==> m.kind == "success"
    ensures step.ToProvider? ==> m == Message("", "")
    ensures !step.ToProvider? ==> m.text != ""
  {
    match step
    case Mismatch =>
      TranslateFallback(table, "password_mismatch");
      Message("error", Translate(table, "password_mismatch"))
    case TooShort =>
      TranslateFallback(table, "password_too_short");
      Message("error", Translate(table, "password_too_short"))
    case DemoUpdated =>
      TranslateFallback(table, "password_updated");
      Message("success", Translate(table, "password_updated"))
    case ToProvider(_) => Message("", "")
  }

  /** The page's password form, its message and its busy flag. */
  class ProfilePage {
    var form: PasswordForm
    var message: Message
    var loading: bool

    constructor ()
      ensures form == BlankPasswordForm && message == Message("", "") && !loading
    {
      form := BlankPasswordForm;
      message := Message("", "");
      loading := false;
    }

    /** A press of the button, and `handlePasswordChange` up to the provider call:
        `request` is the password sent to the provider, if any. A press the browser does
        not submit changes nothing. A failed check leaves the form as typed; the demo
        success (after its timer) clears the form and the busy flag; a request leaves the
        page busy. */
    method ChangePassword(table: map<string, string>, entries: map<string, Stored>) returns (request: Option<string>)
      modifies this
      ensures !Submits(old(form), old(loading)) ==>
              form == old(form) && message == old(message) && loading == old(loading) && request == None
      ensures Submits(old(form), old(loading)) ==>
              var step := PasswordChange(old(form), DemoSession(entries));
              && message == MessageFor(table, step)
              && (step.ToProvider? ==> request == Some(step.password) && loading && form == old(form))
              && (!step.ToProvider? ==> request == None)
              && (step == DemoUpdated ==> form == BlankPasswordForm && !loading)
              && (step == Mismatch || step == TooShort ==> form == old(form) && loading == old(loading))
    {
      request := None;
      if !Submits(form, loading) {
        return;
      }
      message := Message("", "");
      if form.newPassword != form.confirmation {
        message := Message("error", Translate(table, "password_mismatch"));
        return;
      }
      if |form.newPassword| < 6 {
        message := Message("error", Translate(table, "password_too_short"));
        return;
      }
      loading := true;
      if DemoSession(entries) {
        loading := false;
        message := Message("success", Translate(table, "password_updated"));
        form := BlankPasswordForm;
        return;
      }
      request := Some(form.newPassword);
    }
  }
}
