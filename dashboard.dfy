/** The teacher dashboard: the avatar initials of a student card, the effect that
    fetches the teacher's students, and the choice of what the page shows. */
module Dashboard {
  import opened Records
  import Ascii

  /** `s.split(' ')`: the pieces between single spaces, empty pieces included;
      there is always at least one piece. */
  function Split(s: string): (r: seq<string>)
    ensures |r| >= 1
    ensures forall i :: 0 <= i < |r| ==> ' ' !in r[i]
    decreases |s|
  {
    if s == [] then [""]
    else if s[0] == ' ' then [""] + Split(s[1..])
    else
      var rest := Split(s[1..]);
      [[s[0]] + rest[0]] + rest[1..]
  }

  /** `ws.join(' ')` */
  function Join(ws: seq<string>): string
    decreases |ws|
  {
    if ws == [] then ""
    else if |ws| == 1 then ws[0]
    else ws[0] + " " + Join(ws[1..])
  }

  /** Splitting loses nothing: joining the pieces with single spaces gives the name back. */
  lemma {:induction false} JoinSplit(s: string)
    ensures Join(Split(s)) == s
    decreases |s|
  {
    if s != [] {
      JoinSplit(s[1..]);
      var rest := Split(s[1..]);
      if s[0] == ' ' {
        assert Split(s) == [""] + rest;
        assert (Split(s))[1..] == rest;
      } else {
        var primeira := [s[0]] + rest[0];
        assert Split(s) == [primeira] + rest[1..];
        if |rest| > 1 {
          assert ([primeira] + rest[1..])[1..] == rest[1..];
          assert Join(rest) == rest[0] + " " + Join(rest[1..]);
        }
      }
    }
  }

  /** `.map(n => n[0]).join('')`: the first character of every piece; an empty piece
      gives `undefined`, which `join` prints as nothing. */
  function Primeiras(ws: seq<string>): (r: string)
    ensures |r| <= |ws|
    decreases |ws|
  {
    if ws == [] then ""
    else (if ws[0] == "" then "" else [ws[0][0]]) + Primeiras(ws[1..])
  }

  /** An independent reading of the same string: the characters of `s` that start a
      word, that is, that are not spaces and follow a space or the start
      (`anterior` says whether the previous position was a space or the start). */
  function Inicios(s: string, anterior: bool): (r: string)
    ensures forall i :: 0 <= i < |r| ==> r[i] != ' '
    decreases |s|
  {
    if s == [] then ""
    else (if s[0] != ' ' && anterior then [s[0]] else "") + Inicios(s[1..], s[0] == ' ')
  }

  /** The first characters of the split pieces are exactly the word-starting characters. */
  lemma {:induction false} PrimeirasSaoInicios(s: string)
    ensures Primeiras(Split(s)) == Inicios(s, true)
    ensures Primeiras(Split(s)[1..]) == Inicios(s, false)
    decreases |s|
  {
    if s != [] {
      PrimeirasSaoInicios(s[1..]);
      var rest := Split(s[1..]);
      if s[0] == ' ' {
        assert Split(s) == [""] + rest;
        assert Split(s)[1..] == rest;
      } else {
        var primeira := [s[0]] + rest[0];
        assert Split(s) == [primeira] + rest[1..];
        assert Split(s)[1..] == rest[1..];
      }
    }
  }

  /** `.substring(0, 2)` */
  function Prefixo2(s: string): (r: string)
    ensures |r| <= 2 && |r| <= |s|
    ensures r == s[..|r|]
    ensures |s| >= 2 ==> |r| == 2
  {
    if |s| <= 2 then s else s[..2]
  }

  /** The card's initials for `student.full_name` (absent or empty gives `?`). */
  function Iniciais(fullName: Option<string>): (r: string)
    ensures fullName.None? || fullName.value == "" ==> r == "?"
    ensures |r| <= 2
    ensures forall i :: 0 <= i < |r| ==> !Ascii.IsLowerLetter(r[i])
  {
    if fullName.None? || fullName.value == "" then "?"
    else Ascii.ToUpper(Prefixo2(Primeiras(Split(fullName.value))))
  }

  /** For a non-empty name the initials are the first two word-starting characters,
      upper-cased. */
  lemma IniciaisDasPalavras(nome: string)
    requires nome != ""
    ensures Iniciais(Some(nome)) == Ascii.ToUpper(Prefixo2(Inicios(nome, true)))
  {
    PrimeirasSaoInicios(nome);
  }

  /** A string of spaces has no word-starting character. */
  lemma {:induction false} InicioDeEspacos(s: string, anterior: bool)
    requires forall i :: 0 <= i < |s| ==> s[i] == ' '
    ensures Inicios(s, anterior) == ""
    decreases |s|
  {
    if s != [] {
      InicioDeEspacos(s[1..], true);
    }
  }

  /** A name made only of spaces gets empty initials, not `?`. */
  lemma NomeSoDeEspacos(nome: string)
    requires nome != "" && forall i :: 0 <= i < |nome| ==> nome[i] == ' '
    ensures Iniciais(Some(nome)) == ""
  {
    IniciaisDasPalavras(nome);
    InicioDeEspacos(nome, true);
  }

  /** A row of `get_students_by_teacher`. */
  datatype Estudante = Estudante(studentId: string, fullName: Option<string>)

  datatype Perfil = Perfil(role: string)

  /** What the authentication context provides: the user's id, the profile, and
      whether the session is still loading. */
  datatype Sessao = Sessao(userId: Option<string>, profile: Option<Perfil>, authLoading: bool)

  /** The page state: `students`, `loadingStudents` and `error`. */
  datatype Estado = Estado(students: seq<Estudante>, loadingStudents: bool, erro: Option<string>)

  const EstadoInicial: Estado := Estado([], true, None)

  const MensagemErro: string := "Falha ao carregar os dados dos alunos."

  /** The outcome of the remote procedure call: `rpcError` and `data`. */
  datatype Resposta = Resposta(falha: bool, data: Option<seq<Estudante>>)

  /** The teacher id the effect queries with, or `None` when it does not query:
      while the session loads, without a user or a profile, or for a non-teacher. */
  function Busca(s: Sessao): (r: Option<string>)
    ensures r.Some? <==> !s.authLoading && s.userId.Some? && s.profile.Some? && s.profile.value.role == "professor"
    ensures r.Some? ==> r == s.userId
  {
    if s.authLoading || s.userId.None? || s.profile.None? || s.profile.value.role != "professor" then None
    else s.userId
  }

  /** The state once the effect has run to completion with the given call outcome. */
  function Efeito(s: Sessao, e: Estado, resposta: Resposta): (r: Estado)
    ensures s.authLoading ==> r == e
    ensures !s.authLoading ==> !r.loadingStudents
    ensures Busca(s).None? && !s.authLoading ==> r == e.(loadingStudents := false)
    ensures Busca(s).Some? && resposta.falha ==> r.erro == Some(MensagemErro) && r.students == e.students
    ensures Busca(s).Some? && !resposta.falha ==>
              r.erro.None? && r.students == (if resposta.data.Some? then resposta.data.value else [])
  {
    if s.authLoading then e
    else if Busca(s).None? then e.(loadingStudents := false)
    else if resposta.falha then Estado(e.students, false, Some(MensagemErro))
    else Estado(resposta.data.GetOr([]), false, None)
  }

  /** One student card of the grid. */
  datatype Cartao = Cartao(studentId: string, iniciais: string)

  /** What the page renders. */
  datatype Vista = CarregandoSessao | AcessoRestrito | CarregandoTurma | Erro(mensagem: string)
                 | NenhumAluno | Grade(cartoes: seq<Cartao>)

  function Cartoes(students: seq<Estudante>): (r: seq<Cartao>)
    ensures |r| == |students|
    ensures forall i :: 0 <= i < |r| ==>
              r[i].studentId == students[i].studentId && r[i].iniciais == Iniciais(students[i].fullName)
  {
    seq(|students|, i requires 0 <= i < |students| => Cartao(students[i].studentId, Iniciais(students[i].fullName)))
  }

  /** The page's choice, checked in order: session loading, non-teacher profile,
      loading students, error, empty list, grid. */
  function Mostrar(s: Sessao, e: Estado): (v: Vista)
    ensures v.CarregandoSessao? <==> s.authLoading
    ensures v.AcessoRestrito? <==> !s.authLoading && s.profile.Some? && s.profile.value.role != "professor"
    ensures !s.authLoading && !v.AcessoRestrito? ==>
              (e.loadingStudents ==> v == CarregandoTurma)
              && (!e.loadingStudents && e.erro.Some? ==> v == Erro(e.erro.value))
              && (!e.loadingStudents && e.erro.None? && e.students == [] ==> v == NenhumAluno)
              && (!e.loadingStudents && e.erro.None? && e.students != [] ==> v == Grade(Cartoes(e.students)))
    ensures v.Grade? ==> v.cartoes == Cartoes(e.students) && |v.cartoes| == |e.students| > 0
                         && !e.loadingStudents && e.erro.None?
  {
    if s.authLoading then CarregandoSessao
    else if s.profile.Some? && s.profile.value.role != "professor" then AcessoRestrito
    else if e.loadingStudents then CarregandoTurma
    else if e.erro.Some? then Erro(e.erro.value)
    else if |e.students| == 0 then NenhumAluno
    else Grade(Cartoes(e.students))
  }

  /** A non-teacher profile triggers no fetch and is shown the restricted view,
      whatever the call would have answered. */
  lemma NaoProfessor(s: Sessao, e: Estado, resposta: Resposta)
    requires !s.authLoading && s.profile.Some? && s.profile.value.role != "professor"
    ensures Busca(s).None?
    ensures Efeito(s, e, resposta) == e.(loadingStudents := false)
    ensures Mostrar(s, Efeito(s, e, resposta)) == AcessoRestrito
  {
  }

  /** Once the session has loaded and the effect has finished, the page never shows
      a loading message, and a failed call shows the error message. */
  lemma EfeitoConcluido(s: Sessao, e: Estado, resposta: Resposta)
    requires !s.authLoading
    ensures var v := Mostrar(s, Efeito(s, e, resposta));
            !v.CarregandoSessao? && !v.CarregandoTurma?
    ensures Busca(s).Some? && resposta.falha ==> Mostrar(s, Efeito(s, e, resposta)) == Erro(MensagemErro)
  {
  }

  /** A teacher whose call succeeds with no data, or with an empty list, sees the
      empty-class message; with a non-empty list, one card per student in order. */
  lemma ProfessorSemAlunos(s: Sessao, resposta: Resposta)
    requires Busca(s).Some? && !resposta.falha
    ensures resposta.data.None? || resposta.data.value == [] ==>
              Mostrar(s, Efeito(s, EstadoInicial, resposta)) == NenhumAluno
    ensures resposta.data.Some? && resposta.data.value != [] ==>
              Mostrar(s, Efeito(s, EstadoInicial, resposta)) == Grade(Cartoes(resposta.data.value))
  {
  }

  /** Without a user or a profile the effect only stops loading, so the page shows the
      empty-class message rather than a restricted view. */
  lemma SemPerfilMostraVazio(s: Sessao, resposta: Resposta)
    requires !s.authLoading && s.profile.None?
    ensures Mostrar(s, Efeito(s, EstadoInicial, resposta)) == NenhumAluno
  {
  }
}
