/** The income-entry form and its synchronisation with the remote store.

    The form keeps a draft income (an amount and a type), two field errors and
    the dropdown's placeholder. Submitting a typed draft appends a new income
    to the application's income list (the store) and then overwrites the
    signed-in user's remote document `users/{uid}` with the whole list. The
    clock, the signed-in user and the settlement of the remote write are the
    parameters of each submit. */
module IncomeForm {
  import opened Optional

  /** The draft's amount: null until the amount input first changes, then the input's text.
      The form never reads it as a number. */
  type Amount = Option<string>

  datatype Draft = Draft(amount: Amount, incomeType: string)

  /** One recorded income: `date` is the formatted date of the submit, `id` the clock in milliseconds. */
  datatype Income = Income(amount: Amount, incomeType: string, date: string, id: int)

  /** The remote document `users/{uid}`: one field holding the user's whole income list. */
  datatype UserDoc = UserDoc(incomes: seq<Income>)

  datatype DropdownOption = DropdownOption(value: string, caption: string)  // `caption` is the option's label

  /** The clock's readings during one submit: the formatted date and the milliseconds since the epoch. */
  datatype Clock = Clock(date: string, now: int)

  /** How the remote write's promise settles. */
  datatype WriteResult = Written | Rejected(reason: string)

  /** How the submit handler's promise settles: resolved early because no type was chosen,
      resolved after the write, or rejected, either because no user is signed in (the
      document reference cannot be built) or because the write itself was rejected. */
  datatype AddOutcome = TypeMissing | Saved | NoDocument | WriteFailed(reason: string)

  const TypePlaceholder: string := "Type of Income"
  const EnterValue: string := "Enter the value"

  /** The choices offered by the type dropdown. */
  const IncomeOptions: seq<DropdownOption> :=
    [DropdownOption("Taxable", "Taxable"), DropdownOption("Non-taxable", "Non-taxable")]

  /** Everything a handler of the form can change. */
  datatype FormState = FormState(
    draft: Draft,
    dropdownError: bool,
    placeholder: string,
    inputError: string,
    incomes: seq<Income>,          // the store's income list
    users: map<string, UserDoc>)   // the remote `users` collection, by uid

  /** The form as it is mounted, over the store's list and the remote collection as they are. */
  function Initial(incomes: seq<Income>, users: map<string, UserDoc>): FormState
  {
    FormState(Draft(None, ""), false, TypePlaceholder, "", incomes, users)
  }

  function NewIncome(d: Draft, clock: Clock): Income
  {
    Income(d.amount, d.incomeType, clock.date, clock.now)
  }

  /** Submitting the form. An untyped draft only raises the dropdown error. A typed one is
      appended to the store first; then the user's document is replaced by the list as it
      was captured before the submit followed by the new income; only when that write
      settles successfully are the draft, the input error and the placeholder reset. */
  function AddIncome(s: FormState, clock: Clock, uid: Option<string>, write: WriteResult): (r: (FormState, AddOutcome))
    // an untyped draft is refused and changes nothing but the dropdown error
    ensures r.1 == TypeMissing <==> s.draft.incomeType == ""
    ensures r.1 == TypeMissing ==> r.0 == s.(dropdownError := true)
    // a typed draft appends exactly one income, built from the draft and the clock
    ensures r.1 != TypeMissing ==>
      && |r.0.incomes| == |s.incomes| + 1
      && r.0.incomes[..|s.incomes|] == s.incomes
      && r.0.incomes[|s.incomes|] == Income(s.draft.amount, s.draft.incomeType, clock.date, clock.now)
    // how the promise settles
    ensures r.1 == NoDocument <==> s.draft.incomeType != "" && uid.None?
    ensures r.1 == Saved <==> s.draft.incomeType != "" && uid.Some? && write.Written?
    ensures r.1.WriteFailed? <==> s.draft.incomeType != "" && uid.Some? && write.Rejected?
    ensures r.1.WriteFailed? ==> r.1.reason == write.reason
    // a successful write makes the user's document a copy of the whole new list
    ensures r.1 == Saved ==> r.0.users == s.users[uid.value := UserDoc(r.0.incomes)]
    ensures r.1 != Saved ==> r.0.users == s.users
    // the field reset happens after, and only after, a successful write
    ensures r.1 == Saved ==>
      && r.0.draft == Draft(Some(""), "")
      && r.0.inputError == ""
      && r.0.placeholder == TypePlaceholder
    ensures r.1 != Saved ==>
      && r.0.draft == s.draft
      && r.0.inputError == s.inputError
      && r.0.placeholder == s.placeholder
    ensures r.1 != TypeMissing ==> r.0.dropdownError == s.dropdownError
  {
    if s.draft.incomeType == "" then
      (s.(dropdownError := true), TypeMissing)
    else
      var captured := s.incomes;
      var income := NewIncome(s.draft, clock);
      var dispatched := s.(incomes := s.incomes + [income]);
      if uid.None? then
        (dispatched, NoDocument)
      else
        match write
        case Rejected(reason) => (dispatched, WriteFailed(reason))
        case Written =>
          var written := dispatched.(users := s.users[uid.value := UserDoc(captured + [income])]);
          (written.(draft := Draft(Some(""), ""), inputError := "", placeholder := TypePlaceholder), Saved)
  }

  /** Choosing an option in the type dropdown. */
  function DropdownChange(s: FormState, option: DropdownOption): (r: FormState)
    ensures r.draft.incomeType == option.value && r.draft.amount == s.draft.amount
    ensures !r.dropdownError
    ensures r.inputError == s.inputError && r.placeholder == s.placeholder
    ensures r.incomes == s.incomes && r.users == s.users
  {
    s.(draft := s.draft.(incomeType := option.value), dropdownError := false)
  }

  /** Typing in the amount input. */
  function InputChange(s: FormState, value: string): (r: FormState)
    ensures r.draft.amount == Some(value) && r.draft.incomeType == s.draft.incomeType
    ensures r.inputError == EnterValue <==> value == ""
    ensures r.inputError != EnterValue ==> r.inputError == ""
    ensures r.dropdownError == s.dropdownError && r.placeholder == s.placeholder
    ensures r.incomes == s.incomes && r.users == s.users
  {
    var typed := s.(draft := s.draft.(amount := Some(value)));
    if value == "" then typed.(inputError := EnterValue) else typed.(inputError := "")
  }

  /** The form's handlers, each run to completion. */
  datatype Event =
    | InputChanged(value: string)
    | OptionChosen(option: DropdownOption)
    | Submitted(clock: Clock, uid: Option<string>, write: WriteResult)

  function Step(s: FormState, e: Event): FormState
  {
    match e
    case InputChanged(v) => InputChange(s, v)
    case OptionChosen(o) => DropdownChange(s, o)
    case Submitted(c, u, w) => AddIncome(s, c, u, w).0
  }

  /** The form after a sequence of handler runs. */
  function Run(s: FormState, events: seq<Event>): FormState
    decreases |events|
  {
    if events == [] then s else Run(Step(s, events[0]), events[1..])
  }

  /** The user's remote document, if there is one, holds a prefix of the local list. */
  ghost predicate RemoteBehind(s: FormState, uid: string)
  {
    uid in s.users ==> s.users[uid].incomes <= s.incomes
  }

  ghost predicate AllTyped(incomes: seq<Income>)
  {
    forall i :: 0 <= i < |incomes| ==> incomes[i].incomeType != ""
  }

  /** No handler removes, reorders or rewrites an income: the local list only grows at its end. */
  lemma {:induction false} RunOnlyAppends(s: FormState, events: seq<Event>)
    ensures s.incomes <= Run(s, events).incomes
    decreases |events|
  {
    if events != [] {
      var next := Step(s, events[0]);
      assert s.incomes <= next.incomes;
      RunOnlyAppends(next, events[1..]);
    }
  }

  /** The optimistic ordering never lets a remote document get ahead of the local list:
      failed writes leave it behind, and a successful one brings it level. */
  lemma {:induction false} RunKeepsRemoteBehind(s: FormState, events: seq<Event>, uid: string)
    requires RemoteBehind(s, uid)
    ensures RemoteBehind(Run(s, events), uid)
    decreases |events|
  {
    if events != [] {
      var next := Step(s, events[0]);
      if uid in next.users {
        assert next.users[uid].incomes <= next.incomes by {
          if uid in s.users && next.users[uid] == s.users[uid] {
            assert s.incomes <= next.incomes;
          }
        }
      }
      RunKeepsRemoteBehind(next, events[1..], uid);
    }
  }

  /** Every income the form adds has a type, so a list of typed incomes stays typed. */
  lemma {:induction false} RunKeepsTyped(s: FormState, events: seq<Event>)
    requires AllTyped(s.incomes)
    ensures AllTyped(Run(s, events).incomes)
    decreases |events|
  {
    if events != [] {
      var next := Step(s, events[0]);
      assert AllTyped(next.incomes) by {
        if next.incomes != s.incomes {
          var r := AddIncome(s, events[0].clock, events[0].uid, events[0].write);
          assert r.1 != TypeMissing;
          forall i | 0 <= i < |next.incomes| ensures next.incomes[i].incomeType != "" {
            if i < |s.incomes| {
              assert next.incomes[i] == next.incomes[..|s.incomes|][i];
            }
          }
        }
      }
      RunKeepsTyped(next, events[1..]);
    }
  }

  /** The dropdown error is raised only while the draft has no type. */
  ghost predicate ErrorOnlyWhenUntyped(s: FormState)
  {
    s.draft.incomeType != "" ==> !s.dropdownError
  }

  /** A freshly mounted form shows no dropdown error. */
  lemma MountedErrorOnlyWhenUntyped(incomes: seq<Income>, users: map<string, UserDoc>)
    ensures ErrorOnlyWhenUntyped(Initial(incomes, users))
  {
  }

  /** Every handler run keeps the dropdown error confined to untyped drafts: only a refused
      submit raises it, and that leaves the type blank. */
  lemma {:induction false} RunKeepsErrorOnlyWhenUntyped(s: FormState, events: seq<Event>)
    requires ErrorOnlyWhenUntyped(s)
    ensures ErrorOnlyWhenUntyped(Run(s, events))
    decreases |events|
  {
    if events != [] {
      var next := Step(s, events[0]);
      assert ErrorOnlyWhenUntyped(next);
      RunKeepsErrorOnlyWhenUntyped(next, events[1..]);
    }
  }

  /** On a form reached from mounting by any handler runs, a saved submit leaves both field
      errors clear, although the handler itself never touches the dropdown error. */
  lemma SavedClearsFieldErrors(incomes: seq<Income>, users: map<string, UserDoc>, events: seq<Event>,
                               clock: Clock, uid: Option<string>, write: WriteResult)
    requires AddIncome(Run(Initial(incomes, users), events), clock, uid, write).1 == Saved
    ensures var r := AddIncome(Run(Initial(incomes, users), events), clock, uid, write).0;
      !r.dropdownError && r.inputError == ""
  {
    MountedErrorOnlyWhenUntyped(incomes, users);
    RunKeepsErrorOnlyWhenUntyped(Initial(incomes, users), events);
  }

  /** The submit handler never checks the amount: when it runs on a freshly mounted form after
      a type was chosen, it stores an income whose amount is null. */
  lemma UntouchedAmountIsStored(incomes: seq<Income>, users: map<string, UserDoc>, clock: Clock, uid: Option<string>, write: WriteResult)
    ensures var s := Run(Initial(incomes, users), [OptionChosen(IncomeOptions[0]), Submitted(clock, uid, write)]);
      && |s.incomes| == |incomes| + 1
      && s.incomes[|incomes|] == Income(None, "Taxable", clock.date, clock.now)
  {
    var s1 := Step(Initial(incomes, users), OptionChosen(IncomeOptions[0]));
    assert Run(Initial(incomes, users), [OptionChosen(IncomeOptions[0]), Submitted(clock, uid, write)])
        == Run(s1, [Submitted(clock, uid, write)]);
  }

  /** Any option the dropdown offers unblocks the next submit. */
  lemma OfferedOptionUnblocksSubmit(s: FormState, i: int, clock: Clock, uid: Option<string>, write: WriteResult)
    requires 0 <= i < |IncomeOptions|
    ensures AddIncome(DropdownChange(s, IncomeOptions[i]), clock, uid, write).1 != TypeMissing
  {
  }

  /** After a saved submit the type is blank again, so submitting at once is refused and adds nothing. */
  lemma ResubmitAfterSaveIsRefused(s: FormState, c1: Clock, c2: Clock, u1: Option<string>, u2: Option<string>,
                                   w1: WriteResult, w2: WriteResult)
    requires AddIncome(s, c1, u1, w1).1 == Saved
    ensures var s1 := AddIncome(s, c1, u1, w1).0;
      AddIncome(s1, c2, u2, w2) == (s1.(dropdownError := true), TypeMissing)
  {
  }

  /** After a failed write the draft is kept, so submitting again appends a second income with
      the same amount and type after the first, and a successful second write carries both to
      the remote document. */
  lemma ResubmitAfterFailure(s: FormState, c1: Clock, c2: Clock, u1: Option<string>, u2: Option<string>,
                             w1: WriteResult, w2: WriteResult)
    requires AddIncome(s, c1, u1, w1).1 == NoDocument || AddIncome(s, c1, u1, w1).1.WriteFailed?
    ensures var r2 := AddIncome(AddIncome(s, c1, u1, w1).0, c2, u2, w2);
      && r2.1 != TypeMissing
      && r2.0.incomes == s.incomes + [NewIncome(s.draft, c1), NewIncome(s.draft, c2)]
      && (r2.1 == Saved ==> r2.0.users[u2.value] == UserDoc(s.incomes + [NewIncome(s.draft, c1), NewIncome(s.draft, c2)]))
  {
  }

  /** The form component: its state fields, the store's list and the remote collection. */
  class Component {
    var draft: Draft
    var dropdownError: bool
    var placeholder: string
    var inputError: string
    var incomes: seq<Income>
    var users: map<string, UserDoc>

    function State(): FormState
      reads this
    {
      FormState(draft, dropdownError, placeholder, inputError, incomes, users)
    }

    constructor (incomes: seq<Income>, users: map<string, UserDoc>)
      ensures State() == Initial(incomes, users)
    {
      draft := Draft(None, "");
      dropdownError := false;
      placeholder := TypePlaceholder;
      inputError := "";
      this.incomes := incomes;
      this.users := users;
    }

    method HandleAddIncome(clock: Clock, uid: Option<string>, write: WriteResult) returns (outcome: AddOutcome)
      modifies this
      ensures (State(), outcome) == AddIncome(old(State()), clock, uid, write)
    {
      if draft.incomeType == "" {
        dropdownError := true;
        return TypeMissing;
      }
      var captured := incomes;
      var income := NewIncome(draft, clock);
      incomes := incomes + [income];    // the dispatch to the store
      if uid.None? {
        return NoDocument;
      }
      if write.Rejected? {
        return WriteFailed(write.reason);
      }
      users := users[uid.value := UserDoc(captured + [income])];
      draft := Draft(Some(""), "");
      inputError := "";
      placeholder := TypePlaceholder;
      outcome := Saved;
    }

    method HandleDropdownChange(option: DropdownOption)
      modifies this
      ensures State() == DropdownChange(old(State()), option)
    {
      draft := draft.(incomeType := option.value);
      dropdownError := false;
    }

    method HandleInputChange(value: string)
      modifies this
      ensures State() == InputChange(old(State()), value)
    {
      draft := draft.(amount := Some(value));
      if value == "" {
        inputError := EnterValue;
      } else {
        inputError := "";
      }
    }
  }
}
