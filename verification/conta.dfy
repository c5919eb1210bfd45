/** The account entity `Conta`: four private fields, a getter for each, and a
    setter for each that checks its own rule before assigning. */
module Model {
  import opened Wrappers
  import opened JavaText

  /** Why a setter or a controller validator threw `IllegalArgumentException`. */
  datatype Reason =
    | ZeroNumber        // setNumero: the number is 0
    | NotFiveDigits     // validarNumeroConta: outside 10000..99999
    | BlankBranch       // setAgencia, validarAgencia
    | BlankName         // setNomeCliente, validarNomeCliente (also for null)
    | NoSurname         // validarNomeCliente: no space once trimmed
    | NegativeBalance   // setSaldo, validarSaldo

  /** The four fields of a `Conta` as one value. A string field that was
      never assigned is `None`, Java's `null`. The balance, a `double` in
      Java, is a `real` here. */
  datatype Fields = Fields(numero: int, agencia: Option<string>, nomeCliente: Option<string>, saldo: real)
  {
    /** What every value a setter stores satisfies: a non-blank branch, a
        non-blank upper-case name and a balance that is not negative. */
    predicate Consistent()
    {
      (agencia.Some? ==> !IsBlank(agencia.value))
      && (nomeCliente.Some? ==> !IsBlank(nomeCliente.value) && UpperCase(nomeCliente.value) == nomeCliente.value)
      && saldo >= 0.0
    }
  }

  /** The fields of a new `Conta`: Java's defaults 0, null, null, 0.0. */
  const Unset := Fields(0, None, None, 0.0)

  /** What one setter call does: how it ends, and the fields afterwards. */
  datatype Step = Step(outcome: Outcome<Reason>, after: Fields)

  /** `setSaldo`: refuses exactly the negative balances; zero is stored. */
  function SaldoStep(st: Fields, saldo: real): (r: Step)
    ensures r.outcome.Pass? <==> saldo >= 0.0
    ensures r.outcome.Pass? ==> r.after.saldo == saldo
    ensures r.outcome.Fail? ==> r.outcome.error == NegativeBalance && r.after == st
    ensures r.after.numero == st.numero && r.after.agencia == st.agencia && r.after.nomeCliente == st.nomeCliente
    ensures st.Consistent() ==> r.after.Consistent()
  {
    if saldo < 0.0 then Step(Fail(NegativeBalance), st) else Step(Pass, st.(saldo := saldo))
  }

  /** `setNomeCliente`: refuses exactly the blank names and stores the
      upper-cased name otherwise. */
  function NomeClienteStep(st: Fields, nome: string): (r: Step)
    ensures r.outcome.Pass? <==> !IsBlank(nome)
    ensures r.outcome.Pass? ==> r.after.nomeCliente == Some(UpperCase(nome))
    ensures r.outcome.Fail? ==> r.outcome.error == BlankName && r.after == st
    ensures r.after.numero == st.numero && r.after.agencia == st.agencia && r.after.saldo == st.saldo
    ensures st.Consistent() ==> r.after.Consistent()
  {
    if !IsBlank(nome) then
      UpperCaseKeepsBlankness(nome);
      UpperCaseIdempotent(nome);
      Step(Pass, st.(nomeCliente := Some(UpperCase(nome))))
    else
      Step(Fail(BlankName), st)
  }

  /** `setAgencia`: refuses exactly the blank branches and stores the
      argument as given, untrimmed and with no check of its format. */
  function AgenciaStep(st: Fields, agencia: string): (r: Step)
    ensures r.outcome.Pass? <==> !IsBlank(agencia)
    ensures r.outcome.Pass? ==> r.after.agencia == Some(agencia)
    ensures r.outcome.Fail? ==> r.outcome.error == BlankBranch && r.after == st
    ensures r.after.numero == st.numero && r.after.nomeCliente == st.nomeCliente && r.after.saldo == st.saldo
    ensures st.Consistent() ==> r.after.Consistent()
  {
    if !IsBlank(agencia) then Step(Pass, st.(agencia := Some(agencia))) else Step(Fail(BlankBranch), st)
  }

  /** `setNumero`: refuses only 0; negative numbers and numbers of any
      length are stored. */
  function NumeroStep(st: Fields, numero: int): (r: Step)
    ensures r.outcome.Pass? <==> numero != 0
    ensures r.outcome.Pass? ==> r.after.numero == numero
    ensures r.outcome.Fail? ==> r.outcome.error == ZeroNumber && r.after == st
    ensures r.after.agencia == st.agencia && r.after.nomeCliente == st.nomeCliente && r.after.saldo == st.saldo
    ensures st.Consistent() ==> r.after.Consistent()
  {
    if numero != 0 then Step(Pass, st.(numero := numero)) else Step(Fail(ZeroNumber), st)
  }

  /** Setting the same name twice leaves the same fields as setting it once. */
  lemma NomeClienteIdempotent(st: Fields, nome: string)
    ensures NomeClienteStep(NomeClienteStep(st, nome).after, nome) == NomeClienteStep(st, nome)
  {
  }

  /** A bank account record, updated in place by its setters. */
  class Conta {
    var numero: int
    var agencia: Option<string>
    var nomeCliente: Option<string>
    var saldo: real

    /** The four fields as one value. */
    function Snapshot(): Fields
      reads this
    {
      Fields(numero, agencia, nomeCliente, saldo)
    }

    ghost predicate Valid()
      reads this
    {
      Snapshot().Consistent()
    }

    /** Java's implicit constructor: every field holds its default. */
    constructor ()
      ensures Snapshot() == Unset && Valid()
    {
      numero, agencia, nomeCliente, saldo := 0, None, None, 0.0;
    }

    function GetSaldo(): real
      reads this
    {
      saldo
    }

    function GetNomeCliente(): Option<string>
      reads this
    {
      nomeCliente
    }

    function GetAgencia(): Option<string>
      reads this
    {
      agencia
    }

    function GetNumero(): int
      reads this
    {
      numero
    }

    method SetSaldo(saldo: real) returns (r: Outcome<Reason>)
      modifies this
      ensures Step(r, Snapshot()) == SaldoStep(old(Snapshot()), saldo)
      ensures r.Pass? ==> GetSaldo() == saldo
      ensures old(Valid()) ==> Valid()
    {
      if saldo < 0.0 {
        return Fail(NegativeBalance);
      }
      this.saldo := saldo;
      r := Pass;
    }

    method SetNomeCliente(nome: string) returns (r: Outcome<Reason>)
      modifies this
      ensures Step(r, Snapshot()) == NomeClienteStep(old(Snapshot()), nome)
      ensures r.Pass? ==> GetNomeCliente() == Some(UpperCase(nome))
      ensures old(Valid()) ==> Valid()
    {
      if !IsBlank(nome) {
        nomeCliente := Some(UpperCase(nome));
        r := Pass;
      } else {
        r := Fail(BlankName);
      }
    }

    method SetAgencia(agencia: string) returns (r: Outcome<Reason>)
      modifies this
      ensures Step(r, Snapshot()) == AgenciaStep(old(Snapshot()), agencia)
      ensures r.Pass? ==> GetAgencia() == Some(agencia)
      ensures old(Valid()) ==> Valid()
    {
      if !IsBlank(agencia) {
        this.agencia := Some(agencia);
        r := Pass;
      } else {
        r := Fail(BlankBranch);
      }
    }

    method SetNumero(numero: int) returns (r: Outcome<Reason>)
      modifies this
      ensures Step(r, Snapshot()) == NumeroStep(old(Snapshot()), numero)
      ensures r.Pass? ==> GetNumero() == numero
      ensures old(Valid()) ==> Valid()
    {
      if numero != 0 {
        this.numero := numero;
        r := Pass;
      } else {
        r := Fail(ZeroNumber);
      }
    }
  }
}
