# Income form and sign-up controller of a personal finance tracker

This project models the two state machines inside the React event handlers of a small
finance tracker. The React, Redux and Firebase plumbing is removed, so each handler is one
deterministic transition over explicit state. The outside world's answers are parameters:
the clock's readings, the signed-in user's uid, and how each remote or provider promise settles.

- `IncomeForm` (`income_form.dfy`) models the income-entry form. Its state is the draft
  (`amount`, `type`), the dropdown error, the amount input's error, the dropdown placeholder,
  the store's income list and the remote `users` collection. Submitting a typed draft
  dispatches the new income to the store first. It then replaces the whole document
  `users/{uid}` with the list captured before the submit plus the new income. Only a
  successful write resets the draft, the amount input's error and the placeholder; the
  dropdown error is left as it is, and it is already false whenever a typed draft can be
  submitted (`RunKeepsErrorOnlyWhenUntyped`, `SavedClearsFieldErrors`). A failed write, or a missing user,
  leaves the local append in place and skips the reset.
- `SignUp` (`sign_up.dfy`) models the sign-up and logout controller over its `error` and
  `loading` state. It checks the password confirmation, calls the identity provider, maps
  any failure to a fixed message, and always lowers `loading` after a sign-up call.
- `Optional` (`option.dfy`) holds the `Option` type used for JavaScript's `null` and
  `undefined`.

Each module has three layers:
- A state datatype and pure transition functions (`AddIncome`, `DropdownChange`,
  `InputChange`, `Submit`, `Logout`). Their contracts state what the handlers promise.
- A `Component` class whose fields are the component's state. Its handler methods update
  the fields in the source's order, with the same early returns. Each method's `ensures`
  equates the new state, and what it hands to the outside world, with the transition function.
- A `Run` fold over a sequence of handler runs, with inductive lemmas about what every
  run keeps true.

Some behaviours of the code are easy to expect otherwise:
- The submit handler never checks the amount. The amount starts as `null`, and when the
  handler runs on such a draft it stores an income with a null amount (`UntouchedAmountIsStored`).
  Whether the browser lets that submit through depends on the amount input's validation
  attributes, which are not modelled (see "Left out").
- The draft, the input error and the placeholder are reset only after the remote write
  succeeds, not as soon as the local append is made.
- A failed remote write is not reported through any error state. The handler's promise
  rejects, and the model returns that as `WriteFailed` or `NoDocument`. With no signed-in
  user, the document reference is built from an undefined uid and the promise rejects
  before any write. `NoDocument` stands for that.
- The sign-up component holds only `error` and `loading`. The session's identity and status
  (anonymous, authenticated) live in the authentication context, which is not part of this model.

## Model

| member | source | states |
|---|---|---|
| IncomeForm.AddIncome | src/components/IncomeForm/IncomeForm.jsx:31-56 | An empty type is refused: only `dropdownError` becomes true, and the list, the remote collection, the draft and the other fields are unchanged. Otherwise exactly one income is appended at the end, with earlier entries unchanged. It has the draft's amount (null or empty included) and type, and the clock's date and id. With no uid the promise rejects (`NoDocument`). A rejected write gives `WriteFailed` with the write's reason. In both failing cases the append stays and the remote collection, draft, input error and placeholder are untouched. On success the user's document becomes exactly the whole new list and other users' documents are unchanged. The draft becomes `{amount: '', type: ''}`, the input error `''` and the placeholder `'Type of Income'`. `dropdownError` is never touched once a type is present. |
| IncomeForm.DropdownChange | src/components/IncomeForm/IncomeForm.jsx:58-61 | The type becomes the option's value and the amount is kept. The dropdown error is cleared. Nothing else changes. |
| IncomeForm.InputChange | src/components/IncomeForm/IncomeForm.jsx:63-70 | The amount becomes the typed value and the type is kept. The input error is `'Enter the value'` exactly when the value is empty, and `''` otherwise. Nothing else changes. |
| IncomeForm.RunOnlyAppends | src/components/IncomeForm/IncomeForm.jsx:46 | Over any sequence of handler runs, the local list before is a prefix of the list after. No income is ever removed, reordered or rewritten. |
| IncomeForm.RunKeepsRemoteBehind | src/components/IncomeForm/IncomeForm.jsx:46-53 | Over any sequence of handler runs, if a user's remote document is a prefix of the local list, it stays one. Optimistic appends leave the document behind, and a full replacement brings it level; it never gets ahead or diverges. |
| IncomeForm.RunKeepsTyped | src/components/IncomeForm/IncomeForm.jsx:35-46 | Every income the form adds has a non-empty type, so a list of typed incomes stays typed over any sequence of handler runs. |
| IncomeForm.UntouchedAmountIsStored | src/components/IncomeForm/IncomeForm.jsx:17-46 | When the submit handler runs on a freshly mounted form after "Taxable" was chosen, the income it appends has a null amount, whatever the write does. The handler never checks the amount. |
| IncomeForm.MountedErrorOnlyWhenUntyped | src/components/IncomeForm/IncomeForm.jsx:17-24 | A freshly mounted form has no dropdown error, so the error is raised only while the draft has no type. |
| IncomeForm.RunKeepsErrorOnlyWhenUntyped | src/components/IncomeForm/IncomeForm.jsx:35-61 | Over any sequence of handler runs, if the dropdown error is raised only while the draft has no type, that stays so. Only a refused submit raises the error, and a refused submit leaves the type blank. |
| IncomeForm.SavedClearsFieldErrors | src/components/IncomeForm/IncomeForm.jsx:21-53 | On a form reached from mounting by any handler runs, a saved submit leaves both the dropdown error and the input error clear, even though the handler never touches the dropdown error. |
| IncomeForm.OfferedOptionUnblocksSubmit | src/components/IncomeForm/IncomeForm.jsx:26-38 | After choosing either option the dropdown offers, the next submit is not refused for a missing type. |
| IncomeForm.ResubmitAfterSaveIsRefused | src/components/IncomeForm/IncomeForm.jsx:35-53 | After a saved submit, submitting again at once is refused. Only the dropdown error changes, and nothing is appended. |
| IncomeForm.ResubmitAfterFailure | src/components/IncomeForm/IncomeForm.jsx:40-53 | After a failed or impossible write the draft is kept, so a second submit appends a second income after the first, with the same amount and type. The two are never merged. If the second write succeeds, the remote document holds both. |
| IncomeForm.Component.constructor | src/components/IncomeForm/IncomeForm.jsx:13-24 | Builds the mounted form: draft `{amount: null, type: ''}`, no dropdown error, placeholder `'Type of Income'`, no input error, over the given store list and remote collection. |
| IncomeForm.Component.HandleAddIncome | src/components/IncomeForm/IncomeForm.jsx:31-56 | Refuses or dispatches, then writes, then resets, in the source's order with its early returns. The new fields and the outcome are exactly `AddIncome` of the old fields. |
| IncomeForm.Component.HandleDropdownChange | src/components/IncomeForm/IncomeForm.jsx:58-61 | The new fields are exactly `DropdownChange` of the old fields. |
| IncomeForm.Component.HandleInputChange | src/components/IncomeForm/IncomeForm.jsx:63-70 | The new fields are exactly `InputChange` of the old fields. |
| SignUp.Submit | src/components/SignUp/SignUp.jsx:14-29 | The provider is not called exactly when the confirmation differs from the password. In that case the error is `'Password do not match'` and `loading` is unchanged. Otherwise the provider gets the email and the password while the state is `{error: '', loading: true}`. At the end `loading` is false whatever the outcome, and the error is exactly `'Failed to create an account'` on rejection and `''` on success. |
| SignUp.Logout | src/components/SignUp/SignUp.jsx:31-39 | The error is `''` while the provider call is awaited. At the end it is `'Failed to logout'` on rejection and `''` on success. `loading` is never changed. |
| SignUp.ProviderReasonIsHidden | src/components/SignUp/SignUp.jsx:24-38 | The provider's own error never reaches the component: two rejections with different reasons leave identical states, for sign-up and for logout. |
| SignUp.ConfirmationNotSent | src/components/SignUp/SignUp.jsx:17-23 | Whenever the provider is called, it receives the email and the password fields. This repeats part of `Submit`'s contract. The call record has no field for the confirmation, so its shape is what keeps the confirmation out. |
| SignUp.RunSettles | src/components/SignUp/SignUp.jsx:11-39 | From a settled state, any sequence of sign-up and logout runs leaves `loading` false. The error is always empty or one of the three fixed messages, whatever the provider answers. |
| SignUp.Component.constructor | src/components/SignUp/SignUp.jsx:11-12 | Builds the mounted component with `error = ''` and `loading = false`. |
| SignUp.Component.HandleSubmit | src/components/SignUp/SignUp.jsx:14-29 | Updates `error` and `loading` in the source's order with its early return. The new state and the provider call it makes are exactly `Submit` of the old state. |
| SignUp.Component.HandleLogout | src/components/SignUp/SignUp.jsx:31-39 | Clears the error, calls the provider, then sets the failure message on rejection. The new state and the call are exactly `Logout` of the old state. |

## Left out

- Rendering, styling and the form widgets (`CustomInput`, `CustomButton`, `Dropdown`, `TextField`, `Button`) are not modelled; their sources are not part of this model. The `Dropdown` widget can also set the placeholder through `setPlaceHolder` (line 88 of `IncomeForm.jsx`). Its source is not part of this model, so that update is not modelled.
- `formatDate` and `Date.now` are replaced by the `Clock` parameter, an opaque date string and an integer. Nothing is claimed about ids being unique, because the code does not ensure it.
- Firebase (`doc`, `setDoc`) is reduced to a `users` map from uid to document, a whole-document replacement, and the settlement of the write as a parameter. That `doc` fails when there is no uid is an assumption about that library.
- The store's reducer is not part of this model. The dispatch is modelled as appending to the end of the list, as the list built for the remote write does.
- The authentication context (`signup`, `logout`, `currentUser`) is reduced to how its promises settle and an optional uid. The session identity and status it keeps are not modelled.
- Async interleaving is not modelled: a logout racing an in-flight sign-up, a double submit while a write is pending, or a stale captured `incomes` list under concurrent renders. Each handler runs to completion as one transition, with each `await` replaced by its settlement parameter, so every promise is assumed to settle. The code has no time-out. A `signup` call that never settles would leave the component at `{error: '', loading: true}` (the `awaiting` state of `SignupCall`), and `RunSettles` would not hold. A `setDoc` call that never settles would leave the appended local list with no reset, the same local state as a failed write.
- `e.preventDefault()` is a browser-event detail with no state of its own.
- Browser form validation is not modelled. The amount input carries `required`, `type="number"` and `step="0.01"` (lines 78-83 of `IncomeForm.jsx`). The three sign-up fields carry `required` (lines 45-67 of `SignUp.jsx`). If these reach the browser's inputs, the browser blocks the submit event, and the handler never runs, while a field is empty or out of format. That covers an empty amount at mount (`null`) and after a reset (`''`). The handlers are modelled for every input, including inputs the browser would block.
- The code never does arithmetic on the amount, so it is kept as an optional string with no numeric meaning.
