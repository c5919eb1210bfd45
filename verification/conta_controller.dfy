/** `ContaController`: four field validators that read no state, and
    `criarConta`, which pushes four values through the setters of the one
    `Conta` the controller holds. */
module Controller {
  import opened Wrappers
  import opened JavaText
  import opened Model

  /** Number of decimal digits of `n`, 0 counting as one digit. */
  function DecimalDigits(n: nat): (d: nat)
    ensures d >= 1
  {
    if n < 10 then 1 else 1 + DecimalDigits(n / 10)
  }

  function Pow10(k: nat): (p: nat)
    ensures p >= 1
  {
    if k == 0 then 1 else 10 * Pow10(k - 1)
  }

  /** A number has at most `k` digits exactly when it is below 10^k. */
  lemma {:induction false} DigitsAtMost(n: nat, k: nat)
    requires k >= 1
    ensures DecimalDigits(n) <= k <==> n < Pow10(k)
  {
    if k > 1 && n >= 10 {
      DigitsAtMost(n / 10, k - 1);
    }
  }

  /** The five-digit numbers are exactly 10000..99999. */
  lemma FiveDigits(n: nat)
    ensures DecimalDigits(n) == 5 <==> 10000 <= n <= 99999
  {
    DigitsAtMost(n, 5);
    DigitsAtMost(n, 4);
  }

  /** `validarNumeroConta`: accepts exactly the non-negative numbers of five digits. */
  function ValidarNumeroConta(numeroConta: int): (r: Outcome<Reason>)
    ensures r.Pass? <==> numeroConta >= 0 && DecimalDigits(numeroConta) == 5
    ensures r.Fail? ==> r.error == NotFiveDigits
  {
    if numeroConta < 10000 || numeroConta > 99999 then
      if numeroConta >= 0 then FiveDigits(numeroConta); Fail(NotFiveDigits) else Fail(NotFiveDigits)
    else
      FiveDigits(numeroConta); Pass
  }

  /** `validarAgencia`: accepts exactly the non-blank branches, whatever their format. */
  function ValidarAgencia(agencia: string): (r: Outcome<Reason>)
    ensures r.Pass? <==> exists i :: 0 <= i < |agencia| && !IsWhitespace(agencia[i])
    ensures r.Fail? ==> r.error == BlankBranch
  {
    if IsBlank(agencia) then Fail(BlankBranch) else Pass
  }

  /** `validarNomeCliente`: refuses null and blank names, then names with
      no space left after trimming; the space must be U+0020 itself. */
  function ValidarNomeCliente(nomeCliente: Option<string>): (r: Outcome<Reason>)
    ensures r.Pass? <==> nomeCliente.Some? && !IsBlank(nomeCliente.value) && HasInteriorSpace(nomeCliente.value)
    ensures r.Fail? && (nomeCliente.None? || IsBlank(nomeCliente.value)) ==> r.error == BlankName
    ensures r.Fail? && nomeCliente.Some? && !IsBlank(nomeCliente.value) ==> r.error == NoSurname
  {
    if nomeCliente.None? || IsBlank(nomeCliente.value) then Fail(BlankName)
    else
      SpaceInTrimIff(nomeCliente.value);
      if ' ' !in Trim(nomeCliente.value) then Fail(NoSurname) else Pass
  }

  /** `validarSaldo`: refuses exactly the negative balances. */
  function ValidarSaldo(saldo: real): (r: Outcome<Reason>)
    ensures r.Pass? <==> saldo >= 0.0
    ensures r.Fail? ==> r.error == NegativeBalance
  {
    if saldo < 0.0 then Fail(NegativeBalance) else Pass
  }

  /** `isBlank` is not "empty once trimmed": an em space is blank although
      `trim` keeps it, and NUL is not blank although `trim` removes it. */
  lemma BranchBlanknessIsNotTrimming()
    ensures ValidarAgencia("\U{2003}").Fail? && Trim("\U{2003}") == "\U{2003}"
    ensures ValidarAgencia("\U{0}").Pass? && Trim("\U{0}") == []
  {
    assert !IsWhitespace("\U{0}"[0]);
  }

  /** The boundaries of the account-number rule. */
  lemma NumeroContaBoundaries()
    ensures ValidarNumeroConta(9999).Fail? && ValidarNumeroConta(100000).Fail?
    ensures ValidarNumeroConta(10000).Pass? && ValidarNumeroConta(99999).Pass?
  {
  }

  /** A name with no space at all, however long, is refused. */
  lemma SingleWordRefused(nome: string)
    requires ' ' !in nome
    ensures ValidarNomeCliente(Some(nome)).Fail?
  {
  }

  /** Two words joined by a tab are refused: only U+0020 counts as the space. */
  lemma TabSeparatedNameRefused()
    ensures ValidarNomeCliente(Some("Arthur\tRibeiro")).Fail?
  {
    SingleWordRefused("Arthur\tRibeiro");
  }

  /** First and last name separated by a space are accepted, surrounding
      blanks notwithstanding. */
  lemma FullNameAccepted()
    ensures ValidarNomeCliente(Some("  Arthur Ribeiro ")).Pass?
  {
    var s := "  Arthur Ribeiro ";
    assert !IsWhitespace(s[2]);
    InteriorSpaceSurvivesTrim(s, 2, 8, 9);
  }

  /** How a `criarConta` call ends, and the held account's fields afterwards. */
  datatype Creation = Creation(created: bool, after: Fields)

  /** Whether each of the four setters accepts its argument. */
  predicate SettersAccept(numero: int, agencia: string, nome: string, saldo: real)
  {
    numero != 0 && !IsBlank(agencia) && !IsBlank(nome) && saldo >= 0.0
  }

  /** `criarConta` on the held fields `st`: the setters run in the order
      number, branch, name, balance, and the first that throws ends the call
      with `false`, keeping what the earlier ones stored. */
  function CriarContaStep(st: Fields, numero: int, agencia: string, nome: string, saldo: real): (r: Creation)
    ensures r.created <==> SettersAccept(numero, agencia, nome, saldo)
    ensures r.created ==> r.after == Fields(numero, Some(agencia), Some(UpperCase(nome)), saldo)
    ensures st.Consistent() ==> r.after.Consistent()
  {
    var s1 := NumeroStep(st, numero);
    if s1.outcome.Fail? then Creation(false, s1.after) else
    var s2 := AgenciaStep(s1.after, agencia);
    if s2.outcome.Fail? then Creation(false, s2.after) else
    var s3 := NomeClienteStep(s2.after, nome);
    if s3.outcome.Fail? then Creation(false, s3.after) else
    var s4 := SaldoStep(s3.after, saldo);
    Creation(s4.outcome.Pass?, s4.after)
  }

  /** How many setters, from the first, accept before one throws (4: all of them). */
  function AcceptedPrefix(numero: int, agencia: string, nome: string, saldo: real): (k: nat)
  {
    if numero == 0 then 0
    else if IsBlank(agencia) then 1
    else if IsBlank(nome) then 2
    else if saldo < 0.0 then 3
    else 4
  }

  /** `criarConta` is not atomic: a field takes its new value exactly when
      its setter and every setter before it accepted, and keeps its old one
      otherwise, whether or not the call as a whole succeeds. */
  lemma CriarContaNotAtomic(st: Fields, numero: int, agencia: string, nome: string, saldo: real)
    ensures var r, k := CriarContaStep(st, numero, agencia, nome, saldo), AcceptedPrefix(numero, agencia, nome, saldo);
      && (r.created <==> k == 4)
      && r.after.numero == (if k >= 1 then numero else st.numero)
      && r.after.agencia == (if k >= 2 then Some(agencia) else st.agencia)
      && r.after.nomeCliente == (if k >= 3 then Some(UpperCase(nome)) else st.nomeCliente)
      && r.after.saldo == (if k == 4 then saldo else st.saldo)
  {
  }

  /** A refused name after an accepted number and branch leaves those two
      stored in the account while `criarConta` reports `false`. */
  lemma FailedCreationKeepsEarlierFields()
    ensures var r := CriarContaStep(Unset, 12345, "067-8", "   ", 1000.0);
      !r.created && r.after == Fields(12345, Some("067-8"), None, 0.0)
  {
    assert !IsBlank("067-8") by { assert !IsWhitespace("067-8"[0]); }
  }

  /** Running `criarConta` again with the same values changes nothing more:
      the same outcome and the same fields. */
  lemma CriarContaIdempotent(st: Fields, numero: int, agencia: string, nome: string, saldo: real)
    ensures var r := CriarContaStep(st, numero, agencia, nome, saldo);
      CriarContaStep(r.after, numero, agencia, nome, saldo) == r
  {
  }

  /** Each validator is at least as strict as the matching setter. */
  lemma ValidatorsImplySetters(numero: int, agencia: string, nome: string, saldo: real)
    requires ValidarNumeroConta(numero).Pass? && ValidarAgencia(agencia).Pass?
    requires ValidarNomeCliente(Some(nome)).Pass? && ValidarSaldo(saldo).Pass?
    ensures SettersAccept(numero, agencia, nome, saldo)
  {
  }

  /** Values every validator accepted are never refused by `criarConta`, so
      its `false` outcome cannot follow a complete validation; and what is
      stored then does not depend on the account's previous fields. */
  lemma ValidatedInputsAreCreated(st: Fields, numero: int, agencia: string, nome: string, saldo: real)
    requires ValidarNumeroConta(numero).Pass? && ValidarAgencia(agencia).Pass?
    requires ValidarNomeCliente(Some(nome)).Pass? && ValidarSaldo(saldo).Pass?
    ensures CriarContaStep(st, numero, agencia, nome, saldo)
      == Creation(true, Fields(numero, Some(agencia), Some(UpperCase(nome)), saldo))
  {
    ValidatorsImplySetters(numero, agencia, nome, saldo);
  }

  /** The converse fails: the setters accept numbers and names the
      validators refuse. */
  lemma ValidatorsStricterThanSetters()
    ensures SettersAccept(500, "067-8", "Arthur", 0.0)
    ensures ValidarNumeroConta(500).Fail? && ValidarNumeroConta(-7).Fail? && NumeroStep(Unset, -7).outcome.Pass?
    ensures ValidarNomeCliente(Some("Arthur")).Fail?
  {
    assert !IsBlank("067-8") by { assert !IsWhitespace("067-8"[0]); }
    assert !IsBlank("Arthur") by { assert !IsWhitespace("Arthur"[0]); }
    SingleWordRefused("Arthur");
  }

  /** The controller, holding the one `Conta` every registration goes through. */
  class ContaController {
    const conta: Conta

    constructor ()
      ensures fresh(conta) && conta.Snapshot() == Unset && Valid()
    {
      conta := new Conta();
    }

    ghost predicate Valid()
      reads conta
    {
      conta.Valid()
    }

    function GetNumero(): int
      reads conta
    {
      conta.GetNumero()
    }

    function GetAgencia(): Option<string>
      reads conta
    {
      conta.GetAgencia()
    }

    function GetNomeCliente(): Option<string>
      reads conta
    {
      conta.GetNomeCliente()
    }

    function GetSaldo(): real
      reads conta
    {
      conta.GetSaldo()
    }

    /** `criarConta`: true when all four setters accepted; on true the
        getters give back the arguments, the name upper-cased. */
    method CriarConta(numeroConta: int, agencia: string, nomeCliente: string, saldo: real) returns (ok: bool)
      modifies conta
      ensures Creation(ok, conta.Snapshot()) == CriarContaStep(old(conta.Snapshot()), numeroConta, agencia, nomeCliente, saldo)
      ensures ok <==> SettersAccept(numeroConta, agencia, nomeCliente, saldo)
      ensures ok ==> (GetNumero() == numeroConta && GetAgencia() == Some(agencia)
                      && GetNomeCliente() == Some(UpperCase(nomeCliente)) && GetSaldo() == saldo)
      ensures old(Valid()) ==> Valid()
    {
      var r := conta.SetNumero(numeroConta);
      if r.Fail? {
        return false;
      }
      r := conta.SetAgencia(agencia);
      if r.Fail? {
        return false;
      }
      r := conta.SetNomeCliente(nomeCliente);
      if r.Fail? {
        return false;
      }
      r := conta.SetSaldo(saldo);
      if r.Fail? {
        return false;
      }
      return true;
    }
  }

  /** A fresh controller given a full, valid registration stores it,
      with the name upper-cased. */
  method RegisterValidAccount() returns (ok: bool, numero: int, agencia: Option<string>, nome: Option<string>, saldo: real)
    ensures ok && numero == 12345 && agencia == Some("067-8") && nome == Some("ARTHUR RIBEIRO") && saldo == 1000.0
  {
    assert !IsWhitespace("067-8"[0]) && !IsWhitespace("Arthur Ribeiro"[0]);
    UpperCaseOfName("Arthur Ribeiro", "ARTHUR RIBEIRO");
    var controller := new ContaController();
    ok := controller.CriarConta(12345, "067-8", "Arthur Ribeiro", 1000.0);
    numero, agencia, nome, saldo := controller.GetNumero(), controller.GetAgencia(), controller.GetNomeCliente(), controller.GetSaldo();
  }

  /** On one held account, a registration refused at the balance still
      overwrites the number, branch and name of the previous one. */
  method OverwriteByRefusedRegistration() returns (ok: bool, numero: int, agencia: Option<string>, nome: Option<string>, saldo: real)
    ensures !ok && numero == 54321 && agencia == Some("0001") && nome == Some("MARIA SILVA") && saldo == 1000.0
  {
    assert !IsWhitespace("067-8"[0]) && !IsWhitespace("Arthur Ribeiro"[0]);
    var controller := new ContaController();
    ok := controller.CriarConta(12345, "067-8", "Arthur Ribeiro", 1000.0);
    assert !IsWhitespace("0001"[0]) && !IsWhitespace("Maria Silva"[0]);
    UpperCaseOfName("Maria Silva", "MARIA SILVA");
    ok := controller.CriarConta(54321, "0001", "Maria Silva", -0.01);
    numero, agencia, nome, saldo := controller.GetNumero(), controller.GetAgencia(), controller.GetNomeCliente(), controller.GetSaldo();
  }
}
