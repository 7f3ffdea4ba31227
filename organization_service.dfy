/** The organization service over two backend tables, `invitation_codes` and
    `organization_members`, plus the `organizations` rows they point to. Each query
    or update is modelled by what it does to the rows; a failed request is the
    parameter `falhaBackend`. */
module OrganizationService {
  import opened Records
  import Ascii

  /** The value stored in an invitation's `created_by` column: a user id, or the
      pre-registration data that the pre-registration modal passes in that position. */
  datatype CreatedBy = UserRef(userId: string) | Prefilled(fullName: string, birthDate: string, email: string)

  datatype InvitationCode = InvitationCode(
    id: string, code: string, organizationId: string, role: string, createdBy: CreatedBy,
    usedByUserId: Option<string>, usedAt: Option<int>)

  datatype Membership = Membership(userId: string, organizationId: string, role: string)

  /** An organization row; only its id is read by the code. */
  datatype Organization = Organization(id: string, columns: map<string, string>)

  /** `.eq('code', code).is('used_by_user_id', null)`: the unused rows with that code, in table order. */
  function NaoUsados(rows: seq<InvitationCode>, code: string): (r: seq<InvitationCode>)
    ensures |r| <= |rows|
    ensures forall x :: x in r <==> x in rows && x.code == code && x.usedByUserId.None?
    decreases |rows|
  {
    if rows == [] then []
    else
      var last := rows[|rows| - 1];
      NaoUsados(rows[..|rows| - 1], code) + (if last.code == code && last.usedByUserId.None? then [last] else [])
  }

  /** The filter keeps table order: selecting from two tables joined is selecting
      from each in turn. */
  lemma {:induction false} NaoUsadosConcat(a: seq<InvitationCode>, b: seq<InvitationCode>, code: string)
    ensures NaoUsados(a + b, code) == NaoUsados(a, code) + NaoUsados(b, code)
    decreases |b|
  {
    if b == [] {
      assert a + b == a;
    } else {
      var b' := b[..|b| - 1];
      assert (a + b)[..|a + b| - 1] == a + b';
      NaoUsadosConcat(a, b', code);
    }
  }

  /** `validateInvitationCode(code)`: `.single()` yields the row only when exactly one
      unused row carries the upper-cased code; none, several, or a failed request give null. */
  function Validate(rows: seq<InvitationCode>, code: string, falhaBackend: bool): (r: Option<InvitationCode>)
    ensures r.Some? ==> r.value in rows && r.value.code == Ascii.ToUpper(code) && r.value.usedByUserId.None?
    ensures falhaBackend ==> r.None?
    ensures !falhaBackend ==> (r.Some? <==> |NaoUsados(rows, Ascii.ToUpper(code))| == 1)
  {
    if falhaBackend then None
    else
      var m := NaoUsados(rows, Ascii.ToUpper(code));
      if |m| == 1 then Some(m[0]) else None
  }

  /** The row that `criarCodigoConvite` inserts; `aleatorio` is `nanoid(8)` and `id` the
      key the database assigns. */
  function NovoConvite(id: string, organizationId: string, createdBy: CreatedBy, aleatorio: string): (c: InvitationCode)
    requires |aleatorio| == 8
    ensures |c.code| == 8 && forall i :: 0 <= i < 8 ==> !Ascii.IsLowerLetter(c.code[i])
    ensures c.id == id && c.code == Ascii.ToUpper(aleatorio)
    ensures c.organizationId == organizationId && c.role == "student" && c.createdBy == createdBy
    ensures c.usedByUserId.None? && c.usedAt.None?
  {
    InvitationCode(id, Ascii.ToUpper(aleatorio), organizationId, "student", createdBy, None, None)
  }

  /** `.update({ used_by_user_id, used_at }).eq('id', codeId)` */
  function Marcados(rows: seq<InvitationCode>, codeId: string, userId: string, agora: int): (r: seq<InvitationCode>)
    ensures |r| == |rows|
    ensures forall i :: 0 <= i < |rows| && rows[i].id != codeId ==> r[i] == rows[i]
    ensures forall i :: 0 <= i < |rows| && rows[i].id == codeId ==>
              r[i] == rows[i].(usedByUserId := Some(userId), usedAt := Some(agora))
  {
    seq(|rows|, i requires 0 <= i < |rows| =>
      if rows[i].id == codeId then rows[i].(usedByUserId := Some(userId), usedAt := Some(agora)) else rows[i])
  }

  /** The membership row that `.limit(1)` returns. The query sets no order, so which of
      several rows comes back is not fixed by the code; the model takes the first in table order. */
  function PrimeiroVinculo(members: seq<Membership>, userId: string): (r: Option<Membership>)
    ensures r.None? <==> forall i :: 0 <= i < |members| ==> members[i].userId != userId
    ensures r.Some? ==> exists i :: 0 <= i < |members| && members[i] == r.value && members[i].userId == userId
                          && forall j :: 0 <= j < i ==> members[j].userId != userId
    decreases |members|
  {
    if members == [] then None
    else if members[0].userId == userId then Some(members[0])
    else
      var r := PrimeiroVinculo(members[1..], userId);
      assert forall j :: 0 <= j < |members| - 1 ==> members[1..][j] == members[j + 1];
      r
  }

  /** The organization row with that id, if any. */
  function BuscarOrganizacao(orgs: seq<Organization>, id: string): (r: Option<Organization>)
    ensures r.Some? ==> r.value in orgs && r.value.id == id
    ensures r.None? ==> forall o :: o in orgs ==> o.id != id
    decreases |orgs|
  {
    if orgs == [] then None
    else if orgs[0].id == id then Some(orgs[0])
    else BuscarOrganizacao(orgs[1..], id)
  }

  /** `getMinhaOrganizacao(userId)`: the organization joined to the user's first
      membership; null with no membership or on a failed request. */
  function MinhaOrganizacao(members: seq<Membership>, orgs: seq<Organization>, userId: string, falhaBackend: bool)
    : (r: Option<Organization>)
    ensures r.Some? ==> !falhaBackend && r.value in orgs
    ensures r.Some? ==> PrimeiroVinculo(members, userId).Some?
                        && r.value.id == PrimeiroVinculo(members, userId).value.organizationId
    ensures (forall i :: 0 <= i < |members| ==> members[i].userId != userId) ==> r.None?
    ensures !falhaBackend && PrimeiroVinculo(members, userId).Some?
            && (exists o :: o in orgs && o.id == PrimeiroVinculo(members, userId).value.organizationId)
            ==> r.Some?
  {
    if falhaBackend then None
    else
      var v := PrimeiroVinculo(members, userId);
      if v.None? then None else BuscarOrganizacao(orgs, v.value.organizationId)
  }

  /** Lookup ignores the case of the input's letters. */
  lemma ValidateIgnoraCaixa(rows: seq<InvitationCode>, code: string, falhaBackend: bool)
    ensures Validate(rows, Ascii.ToLower(code), falhaBackend) == Validate(rows, code, falhaBackend)
  {
    Ascii.UpperOfLower(code);
  }

  /** A freshly created code validates, from its own text, to the row just inserted,
      provided no other unused row carries the same code. */
  lemma {:induction false} CriadoValida(rows: seq<InvitationCode>, id: string, organizationId: string,
                                        createdBy: CreatedBy, aleatorio: string)
    requires |aleatorio| == 8
    requires forall x :: x in rows ==> x.code != Ascii.ToUpper(aleatorio) || x.usedByUserId.Some?
    ensures var c := NovoConvite(id, organizationId, createdBy, aleatorio);
            Validate(rows + [c], c.code, false) == Some(c)
  {
    var c := NovoConvite(id, organizationId, createdBy, aleatorio);
    Ascii.UpperIdempotent(aleatorio);
    NaoUsadosVazio(rows, c.code);
    var all := rows + [c];
    assert all[..|all| - 1] == rows;
  }

  lemma {:induction false} NaoUsadosVazio(rows: seq<InvitationCode>, code: string)
    requires forall x :: x in rows ==> x.code != code || x.usedByUserId.Some?
    ensures NaoUsados(rows, code) == []
  {
    if rows != [] {
      NaoUsadosVazio(rows[..|rows| - 1], code);
    }
  }

  /** After `markCodeAsUsed(codeId)` no validation returns the row with that id. */
  lemma MarcadoNaoValida(rows: seq<InvitationCode>, codeId: string, userId: string, agora: int,
                         code: string, falhaBackend: bool)
    ensures var r := Validate(Marcados(rows, codeId, userId, agora), code, falhaBackend);
            r.Some? ==> r.value.id != codeId
  {
  }

  /** Single use: a code that validated to a row no longer validates once that row
      is marked as used. */
  lemma {:induction false} UsoUnico(rows: seq<InvitationCode>, code: string, userId: string, agora: int, falhaBackend: bool)
    requires Validate(rows, code, false).Some?
    ensures Validate(Marcados(rows, Validate(rows, code, false).value.id, userId, agora), code, falhaBackend).None?
  {
    var alvo := Validate(rows, code, false).value;
    var up := Ascii.ToUpper(code);
    var m := NaoUsados(rows, up);
    assert |m| == 1 && m[0] == alvo;
    var depois := Marcados(rows, alvo.id, userId, agora);
    forall x | x in depois ensures x.code != up || x.usedByUserId.Some? {
      var i :| 0 <= i < |depois| && depois[i] == x;
      assert rows[i] in rows;
      assert forall y :: y in m ==> y == alvo;
    }
    NaoUsadosVazio(depois, up);
  }

  /** Marking does not check for a previous use: marking again overwrites the consumer. */
  lemma RemarcarSobrescreve(rows: seq<InvitationCode>, codeId: string, u1: string, t1: int, u2: string, t2: int)
    ensures Marcados(Marcados(rows, codeId, u1, t1), codeId, u2, t2) == Marcados(rows, codeId, u2, t2)
  {
  }

  /** The three tables, as fields of one in-memory store. */
  class Banco {
    var invitationCodes: seq<InvitationCode>
    var organizationMembers: seq<Membership>
    var organizations: seq<Organization>

    constructor (orgs: seq<Organization>)
      ensures invitationCodes == [] && organizationMembers == [] && organizations == orgs
    {
      invitationCodes := [];
      organizationMembers := [];
      organizations := orgs;
    }

    /** `getMinhaOrganizacao(userId)` */
    method GetMinhaOrganizacao(userId: string, falhaBackend: bool) returns (r: Option<Organization>)
      ensures r == MinhaOrganizacao(organizationMembers, organizations, userId, falhaBackend)
    {
      r := MinhaOrganizacao(organizationMembers, organizations, userId, falhaBackend);
    }

    /** `criarCodigoConvite(organizationId, createdBy)`: inserts one row and returns it,
        or returns null and inserts nothing when the insert fails. */
    method CriarCodigoConvite(organizationId: string, createdBy: CreatedBy, aleatorio: string, novoId: string,
                              falhaBackend: bool) returns (r: Option<InvitationCode>)
      requires |aleatorio| == 8
      modifies this`invitationCodes
      ensures falhaBackend ==> r.None? && invitationCodes == old(invitationCodes)
      ensures !falhaBackend ==> r == Some(NovoConvite(novoId, organizationId, createdBy, aleatorio))
                                && invitationCodes == old(invitationCodes) + [r.value]
    {
      if falhaBackend {
        r := None;
      } else {
        var row := NovoConvite(novoId, organizationId, createdBy, aleatorio);
        invitationCodes := invitationCodes + [row];
        r := Some(row);
      }
    }

    /** `validateInvitationCode(code)` */
    method ValidateInvitationCode(code: string, falhaBackend: bool) returns (r: Option<InvitationCode>)
      ensures r == Validate(invitationCodes, code, falhaBackend)
    {
      r := Validate(invitationCodes, code, falhaBackend);
    }

    /** `linkUserToOrganization(userId, organizationId, role)`: one membership row;
        a failed insert is raised to the caller (`ok == false`). Invitation codes are untouched. */
    method LinkUserToOrganization(userId: string, organizationId: string, role: string, falhaBackend: bool)
      returns (ok: bool)
      modifies this`organizationMembers
      ensures ok == !falhaBackend
      ensures organizationMembers == if ok then old(organizationMembers) + [Membership(userId, organizationId, role)]
                                     else old(organizationMembers)
    {
      ok := !falhaBackend;
      if ok {
        organizationMembers := organizationMembers + [Membership(userId, organizationId, role)];
      }
    }

    /** `markCodeAsUsed(codeId, userId)`, with `new Date()` passed in as `agora`. */
    method MarkCodeAsUsed(codeId: string, userId: string, agora: int, falhaBackend: bool) returns (ok: bool)
      modifies this`invitationCodes
      ensures ok == !falhaBackend
      ensures invitationCodes == if ok then Marcados(old(invitationCodes), codeId, userId, agora)
                                 else old(invitationCodes)
    {
      ok := !falhaBackend;
      if ok {
        invitationCodes := Marcados(invitationCodes, codeId, userId, agora);
      }
    }
  }
}
