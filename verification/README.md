# ContaBanco account registration, in Dafny

A model of the account-registration rules of ContaBanco, a terminal program
that registers one bank account. The rules sit in two layers:

- the account entity `Conta`, whose four setters (`setNumero`, `setAgencia`,
  `setNomeCliente`, `setSaldo`) each check a rule of their own and then assign
  a private field, and whose getters read those fields back;
- the controller `ContaController`, with four stricter field validators
  (`validarNumeroConta`, `validarAgencia`, `validarNomeCliente`,
  `validarSaldo`), `criarConta`, which pushes four values through the setters
  of the single `Conta` the controller holds, and getters that delegate to it.

Files:

- `wrappers.dfy` (module `Wrappers`): `Option` for Java's `null` and
  `Outcome` for "returns normally or throws `IllegalArgumentException`".
- `java_text.dfy` (module `JavaText`): `String.isBlank`, `String.trim` and
  `String.toUpperCase`, and the facts about them the rules need.
- `conta.dfy` (module `Model`): the `Conta` class. Each setter is a method
  that returns a `Fail` outcome instead of throwing. Its contract ties the
  new fields to a pure step function (`NumeroStep`, `AgenciaStep`,
  `NomeClienteStep`, `SaldoStep`) whose own contract says what it accepts,
  what it stores and which fields it leaves alone.
- `conta_controller.dfy` (module `Controller`): the validators as functions,
  `criarConta` as the method `ContaController.CriarConta`, specified by the
  function `CriarContaStep`, and the lemmas relating the two layers.

What is proved:

- every setter refuses exactly what its code refuses;
- a refused setter changes nothing, and an accepted one changes only its own field;
- the stored name is the upper-cased argument, and setting it twice is setting it once;
- every stored value stays consistent: non-blank branch, non-blank upper-case name, balance not negative;
- `validarNumeroConta` accepts exactly the five-digit numbers, 10000 to 99999;
- `validarNomeCliente` accepts exactly the non-blank names with a U+0020
  space that has a character above U+0020 somewhere before it and somewhere
  after it;
- `criarConta` returns true exactly when all four setters accept, and then
  the getters return the inputs, with the name upper-cased;
- `criarConta` is not atomic: the fields set before a refusing setter keep
  their new values;
- inputs that passed all four validators never make `criarConta` return
  false. So the "unexpected error" branch of the terminal
  (`src/edu/arthur/contabanco/ContaTerminal.java:192-194`) cannot be reached.

## Model

| member | source | states |
|---|---|---|
| `Model.NumeroStep` | src/edu/arthur/contabanco/model/Conta.java:101-109 | `setNumero` refuses exactly 0 and changes nothing then; any other number, negative or of any length, is stored; the other three fields never change |
| `Model.AgenciaStep` | src/edu/arthur/contabanco/model/Conta.java:73-82 | `setAgencia` refuses exactly the blank strings and changes nothing then; otherwise it stores the argument verbatim, untrimmed and with no format check; the other fields never change |
| `Model.NomeClienteStep` | src/edu/arthur/contabanco/model/Conta.java:47-55 | `setNomeCliente` refuses exactly the blank strings and changes nothing then; otherwise it stores the upper-cased argument; the other fields never change; the stored name stays non-blank and upper-case |
| `Model.SaldoStep` | src/edu/arthur/contabanco/model/Conta.java:29-35 | `setSaldo` refuses exactly the negative balances and changes nothing then; zero and positive balances are stored; the other fields never change |
| `Model.NomeClienteIdempotent` | src/edu/arthur/contabanco/model/Conta.java:47-51 | setting the same name twice gives the same outcome and fields as setting it once |
| `Model.Conta.constructor` | src/edu/arthur/contabanco/model/Conta.java:10-14 | a new account holds Java's defaults: number 0, null branch and name, balance 0 |
| `Model.Conta.SetNumero` | src/edu/arthur/contabanco/model/Conta.java:86-109 | the new fields and outcome are those of `NumeroStep` on the old fields; after acceptance `getNumero` returns the argument |
| `Model.Conta.SetAgencia` | src/edu/arthur/contabanco/model/Conta.java:59-82 | the new fields and outcome are those of `AgenciaStep`; after acceptance `getAgencia` returns the argument |
| `Model.Conta.SetNomeCliente` | src/edu/arthur/contabanco/model/Conta.java:39-55 | the new fields and outcome are those of `NomeClienteStep`; after acceptance `getNomeCliente` returns the upper-cased argument |
| `Model.Conta.SetSaldo` | src/edu/arthur/contabanco/model/Conta.java:19-35 | the new fields and outcome are those of `SaldoStep`; after acceptance `getSaldo` returns the argument |
| `JavaText.Trim` | src/edu/arthur/contabanco/controller/ContaController.java:71 | `trim` returns a slice of the string such that every character before the slice and every character after it is at most U+0020; the result is empty exactly when every character is at most U+0020, and otherwise it starts and ends with a character above U+0020 |
| `JavaText.SpaceInTrimIff` | src/edu/arthur/contabanco/controller/ContaController.java:71 | the trimmed string contains a space exactly when the string has a space with a character above U+0020 somewhere before and after it |
| `JavaText.UpperCaseShape` | src/edu/arthur/contabanco/model/Conta.java:50 | upper-casing keeps the length and leaves no lower-case ASCII letter |
| `JavaText.UpperCaseIdempotent` | src/edu/arthur/contabanco/model/Conta.java:50 | upper-casing an upper-cased name changes nothing |
| `JavaText.UpperCaseKeepsBlankness` | src/edu/arthur/contabanco/model/Conta.java:48-50 | a name is blank exactly when its upper-cased form is, so the stored name is never blank |
| `Controller.FiveDigits` | src/edu/arthur/contabanco/controller/ContaController.java:26-31 | a number has five decimal digits exactly when it lies in 10000..99999 |
| `Controller.ValidarNumeroConta` | src/edu/arthur/contabanco/controller/ContaController.java:26-31 | accepts exactly the non-negative numbers with five decimal digits; refuses with the five-digit reason otherwise |
| `Controller.NumeroContaBoundaries` | src/edu/arthur/contabanco/controller/ContaController.java:27 | 9999 and 100000 are refused; 10000 and 99999 are accepted |
| `Controller.ValidarAgencia` | src/edu/arthur/contabanco/controller/ContaController.java:44-49 | accepts exactly the strings with a character that is not white space, with no format check |
| `Controller.BranchBlanknessIsNotTrimming` | src/edu/arthur/contabanco/controller/ContaController.java:45 | the branch test is `isBlank`, not "empty after trim": an em space is refused though `trim` keeps it, and NUL is accepted though `trim` removes it |
| `Controller.ValidarNomeCliente` | src/edu/arthur/contabanco/controller/ContaController.java:63-74 | null and blank names are refused as empty; other names are refused for lack of a surname unless they have an interior U+0020 space, and accepted then |
| `Controller.SingleWordRefused` | src/edu/arthur/contabanco/controller/ContaController.java:69-73 | a name with no space, however long, is refused |
| `Controller.TabSeparatedNameRefused` | src/edu/arthur/contabanco/controller/ContaController.java:71 | two words joined by a tab are refused: only U+0020 counts |
| `Controller.FullNameAccepted` | src/edu/arthur/contabanco/controller/ContaController.java:63-74 | a first and last name separated by a space are accepted, even with blanks around them |
| `Controller.ValidarSaldo` | src/edu/arthur/contabanco/controller/ContaController.java:87-92 | accepts exactly the balances that are not negative, zero included |
| `Controller.CriarContaStep` | src/edu/arthur/contabanco/controller/ContaController.java:111-123 | `criarConta` succeeds exactly when all four setters accept; then the fields are the inputs, name upper-cased, whatever they were before; consistent fields stay consistent |
| `Controller.CriarContaNotAtomic` | src/edu/arthur/contabanco/controller/ContaController.java:113-121 | setters run in the order number, branch, name, balance; a field takes its new value exactly when its setter and all earlier ones accepted, and keeps its old value otherwise |
| `Controller.FailedCreationKeepsEarlierFields` | src/edu/arthur/contabanco/controller/ContaController.java:113-121 | a blank name after a valid number and branch returns false and leaves that number and branch stored |
| `Controller.CriarContaIdempotent` | src/edu/arthur/contabanco/controller/ContaController.java:111-123 | running `criarConta` again with the same values on its own result gives the same outcome and fields |
| `Controller.ValidatorsImplySetters` | src/edu/arthur/contabanco/controller/ContaController.java:26-92 | values accepted by all four validators are accepted by all four setters |
| `Controller.ValidatedInputsAreCreated` | src/edu/arthur/contabanco/controller/ContaController.java:111-123 | after all four validators accept, `criarConta` returns true on any previous state and stores the inputs, name upper-cased |
| `Controller.ValidatorsStricterThanSetters` | src/edu/arthur/contabanco/controller/ContaController.java:26-31 | the converse fails: the setters accept 500, -7 and the single word "Arthur", which the validators refuse |
| `Controller.ContaController.constructor` | src/edu/arthur/contabanco/controller/ContaController.java:14 | the controller owns a fresh account holding the defaults |
| `Controller.ContaController.CriarConta` | src/edu/arthur/contabanco/controller/ContaController.java:111-143 | the outcome and the held account's new fields are those of `CriarContaStep`; true exactly when all setters accept, and then the delegating getters return the inputs, name upper-cased |
| `Controller.RegisterValidAccount` | src/edu/arthur/contabanco/controller/ContaController.java:111-143 | registering 12345, "067-8", "Arthur Ribeiro", 1000 succeeds and the getters return them with the name as "ARTHUR RIBEIRO" |
| `Controller.OverwriteByRefusedRegistration` | src/edu/arthur/contabanco/controller/ContaController.java:111-123 | on one held account, a registration refused at the balance still overwrites the number, branch and name of the previous one, and the balance stays the old one |

## Where the code and the design disagree

The model follows the code in each of these cases.

- The design describes account construction as all-or-nothing. `criarConta`
  is not: it runs the setters one at a time on one long-lived `Conta`
  (`CriarContaNotAtomic`, `OverwriteByRefusedRegistration`).
- The design says a name passes when two words are separated by any white
  space. `validarNomeCliente` looks only for the U+0020 space, so
  "Arthur\tRibeiro" is refused (`TabSeparatedNameRefused`).
- The design accepts a branch exactly when its trimmed form is non-empty.
  `validarAgencia` tests `isBlank` instead, and the two differ both ways.
  "\u2003" (em space) is refused although `trim` keeps it. "\u0000" is
  accepted although `trim` removes it.
- The first test of `validarNomeCliente` also uses `isBlank` rather than
  `trim`, so it differs from "non-empty after trimming" in the same two ways.
- The doc comments on `setAgencia` and `setNumero` describe a verifier digit
  and a four-digit branch. Neither is enforced, so the model does not add them.

## Left out

- `ContaTerminal.java`, the menu loop, prompts and receipt printing: this is
  console I/O. Its retry loops are not modelled. Only the branch and name
  loops re-prompt on a rule violation. An exception from
  `validarNumeroConta` or `validarSaldo` escapes them.
- `entrarConta` is an empty stub in `ContaTerminal.java` and has nothing to model.
- Floating point: the balance, a `double` in the code, is a `real`. Rounding
  and NaN are not modelled; NaN passes the `saldo < 0` test in Java.
- `toUpperCase` is modelled for ASCII letters only. Java's locale-dependent,
  full Unicode upper-casing is not captured, including changes of length such
  as "ß" to "SS".
- Strings are sequences of Unicode scalar values, not UTF-16 code units.
  `isBlank` follows `Character.isWhitespace` and `trim` strips characters up
  to U+0020, as in Java.
- Null arguments: only `validarNomeCliente` checks for null, and it takes an
  `Option`. The setters and `validarAgencia` would throw
  `NullPointerException` on null. `criarConta` does not catch that exception.
  Those arguments are plain strings here, so null cannot be passed.
- The exception messages are reduced to the `Reason` values.
- Account numbers are Java `int`s (32 bits), here unbounded `int`s. No
  arithmetic is done on them, so no wrap-around can arise.
- `Scanner.nextDouble` accepts infinities: `setSaldo` stores +Infinity and
  refuses -Infinity. `real` has neither, so these are not modelled.
