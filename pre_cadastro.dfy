/** The pre-registration modal: a teacher types a student's name, a login and a
    birth date; the login becomes an `@facillithub.com` address and an invitation
    code is created for the organization carrying that data. */
module PreCadastro {
  import opened Records
  import Ascii
  import OrganizationService

  const Dominio: string := "@facillithub.com"

  const MensagemFalha: string := "Falha ao gerar o código. Tente novamente."

  /** A character the login keeps: `[a-z0-9]`. */
  predicate Permitido(c: char) {
    Ascii.IsLowerLetter(c) || Ascii.IsDigit(c)
  }

  /** `.replace(/[^a-z0-9]/g, '')`: every character outside `a-z0-9` is dropped, in order. */
  function Limpar(s: string): (r: string)
    ensures |r| <= |s|
    ensures forall i :: 0 <= i < |r| ==> Permitido(r[i])
    ensures forall c :: c in r ==> c in s
    decreases |s|
  {
    if s == [] then []
    else
      var c := s[|s| - 1];
      Limpar(s[..|s| - 1]) + (if Permitido(c) then [c] else [])
  }

  /** `login.toLowerCase().replace(/[^a-z0-9]/g, '')`: the local part of the address.
      An input that keeps nothing gives the empty local part; it is not rejected. */
  function Sanitizar(login: string): (r: string)
    ensures |r| <= |login|
    ensures forall i :: 0 <= i < |r| ==> Permitido(r[i])
  {
    Limpar(Ascii.ToLower(login))
  }

  /** The generated address; the preview under the login input shows the same string. */
  function EmailGerado(login: string): (r: string)
    ensures |Dominio| <= |r| <= |login| + |Dominio|
    ensures r[|r| - |Dominio|..] == Dominio
    ensures forall i :: 0 <= i < |r| - |Dominio| ==> Permitido(r[i])
  {
    Sanitizar(login) + Dominio
  }

  /** A string of kept characters is left as it is. */
  lemma {:induction false} LimparFixo(s: string)
    requires forall i :: 0 <= i < |s| ==> Permitido(s[i])
    ensures Limpar(s) == s
    decreases |s|
  {
    if s != [] {
      LimparFixo(s[..|s| - 1]);
      assert s[..|s| - 1] + [s[|s| - 1]] == s;
    }
  }

  /** A string without kept characters is filtered away entirely. */
  lemma {:induction false} LimparVazio(s: string)
    requires forall i :: 0 <= i < |s| ==> !Permitido(s[i])
    ensures Limpar(s) == []
    decreases |s|
  {
    if s != [] {
      LimparVazio(s[..|s| - 1]);
    }
  }

  /** A login without any letter or digit is not rejected: the address is the bare domain. */
  lemma LoginSemPermitidos(login: string)
    requires forall i :: 0 <= i < |login| ==> !Permitido(Ascii.LowerChar(login[i]))
    ensures EmailGerado(login) == Dominio
  {
    LimparVazio(Ascii.ToLower(login));
  }

  /** Filtering a concatenation filters each part. */
  lemma {:induction false} LimparConcat(a: string, b: string)
    ensures Limpar(a + b) == Limpar(a) + Limpar(b)
    decreases |b|
  {
    if b == [] {
      assert a + b == a;
    } else {
      var b' := b[..|b| - 1];
      assert (a + b)[..|a + b| - 1] == a + b';
      LimparConcat(a, b');
    }
  }

  /** Sanitizing twice is sanitizing once. */
  lemma SanitizarIdempotente(login: string)
    ensures Sanitizar(Sanitizar(login)) == Sanitizar(login)
  {
    var s := Sanitizar(login);
    Ascii.LowerSemMaiusculas(s);
    LimparFixo(s);
  }

  /** The address ignores the case of the login. */
  lemma SanitizarIgnoraCaixa(login: string)
    ensures Sanitizar(Ascii.ToUpper(login)) == Sanitizar(login)
  {
    Ascii.LowerOfUpper(login);
  }

  /** The local part has no `@`, so the address's only `@` is the one before the
      domain and the local part is the text before it. */
  lemma EmailSeparavel(login: string)
    ensures var e := EmailGerado(login);
            var n := |Sanitizar(login)|;
            n < |e| && e[n] == '@' && e[..n] == Sanitizar(login) && e[n..] == Dominio
            && forall i :: 0 <= i < |e| && e[i] == '@' ==> i == n
  {
    var local := Sanitizar(login);
    var e := EmailGerado(login);
    var n := |local|;
    assert e == local + Dominio;
    assert forall i :: 0 <= i < n ==> e[i] == local[i] && Permitido(local[i]);
    assert forall i :: n < i < |e| ==> e[i] == Dominio[i - n];
  }

  /** The login of the input's placeholder, with capitals: `Pedro.Maia` gives `pedromaia`. */
  lemma ExemploPedroMaia()
    ensures Sanitizar(['P', 'e', 'd', 'r', 'o', '.', 'M', 'a', 'i', 'a'])
            == ['p', 'e', 'd', 'r', 'o', 'm', 'a', 'i', 'a']
  {
    var pedro, ponto, maia := ['p', 'e', 'd', 'r', 'o'], ['.'], ['m', 'a', 'i', 'a'];
    MinusculasPedroMaia();
    LimparConcat(pedro + ponto, maia);
    LimparConcat(pedro, ponto);
    LimparFixo(pedro);
    LimparFixo(maia);
    assert ponto[..0] == [];
    assert Limpar(ponto) == [];
  }

  lemma MinusculasPedroMaia()
    ensures Ascii.ToLower(['P', 'e', 'd', 'r', 'o', '.', 'M', 'a', 'i', 'a'])
            == ['p', 'e', 'd', 'r', 'o'] + ['.'] + ['m', 'a', 'i', 'a']
  {
  }

  datatype Campo = FullName | Email | BirthDate

  /** The modal's component state. */
  class Modal {
    var fullName: string
    var email: string
    var birthDate: string
    var loading: bool
    var erro: string

    constructor ()
      ensures fullName == "" && email == "" && birthDate == ""
      ensures !loading && erro == ""
    {
      fullName, email, birthDate := "", "", "";
      loading, erro := false, "";
    }

    /** `handleChange(e)`: the input named `campo` takes the typed value. */
    method HandleChange(campo: Campo, valor: string)
      modifies this`fullName, this`email, this`birthDate
      ensures fullName == if campo == FullName then valor else old(fullName)
      ensures email == if campo == Email then valor else old(email)
      ensures birthDate == if campo == BirthDate then valor else old(birthDate)
    {
      match campo
      case FullName => fullName := valor;
      case Email => email := valor;
      case BirthDate => birthDate := valor;
    }

    /** `handleSubmit(e)`: creates the invitation, handing the pre-registration data
        to the service in the `created_by` position. On success the code is returned
        (it is passed to `onCodeGenerated` and the modal closes); on failure the
        error message is set. `aleatorio` and `novoId` are the random code and the
        new row's key. */
    method HandleSubmit(banco: OrganizationService.Banco, organizationId: string, aleatorio: string,
                        novoId: string, falhaBackend: bool)
      returns (codigo: Option<string>)
      requires |aleatorio| == 8
      modifies this`loading, this`erro, banco`invitationCodes
      ensures !loading
      ensures fullName == old(fullName) && email == old(email) && birthDate == old(birthDate)
      ensures var dados := OrganizationService.Prefilled(fullName, birthDate, EmailGerado(email));
              var linha := OrganizationService.NovoConvite(novoId, organizationId, dados, aleatorio);
              if falhaBackend then
                codigo.None? && erro == MensagemFalha && banco.invitationCodes == old(banco.invitationCodes)
              else
                codigo == Some(linha.code) && erro == "" && banco.invitationCodes == old(banco.invitationCodes) + [linha]
    {
      loading := true;
      erro := "";
      var dados := OrganizationService.Prefilled(fullName, birthDate, EmailGerado(email));
      var novoCodigo := banco.CriarCodigoConvite(organizationId, dados, aleatorio, novoId, falhaBackend);
      if novoCodigo.Some? {
        codigo := Some(novoCodigo.value.code);
      } else {
        codigo := None;
        erro := MensagemFalha;
      }
      loading := false;
    }
  }
}
