/** The in-memory student list that stands in for a backend: a module-level array
    of records replaced, record by record, by `atualizarDadosAluno`. */
module Alunos {
  import opened Records
  import NotasFaltas

  /** A field value of a student record. */
  datatype Dado = Numero(n: real) | Texto(s: string) | Boletim(notas: Notas) | Frequencias(dias: map<string, Presenca>)

  /** A student record: field name to value. Object spread is map union. */
  type Registro = map<string, Dado>

  /** `aluno.id === id` */
  predicate Corresponde(aluno: Registro, id: Dado) {
    "id" in aluno && aluno["id"] == id
  }

  /** `{ ...aluno, ...novosDados }`: the new fields win, the others are kept. */
  function Mesclar(aluno: Registro, novosDados: Registro): (r: Registro)
    ensures r.Keys == aluno.Keys + novosDados.Keys
    ensures forall k :: k in novosDados ==> r[k] == novosDados[k]
    ensures forall k :: k in aluno && k !in novosDados ==> r[k] == aluno[k]
  {
    aluno + novosDados
  }

  /** `dadosAlunos.map(aluno => aluno.id === id ? { ...aluno, ...novosDados } : aluno)` */
  function Atualizados(dados: seq<Registro>, id: Dado, novosDados: Registro): (r: seq<Registro>)
    ensures |r| == |dados|
    ensures forall i :: 0 <= i < |dados| && !Corresponde(dados[i], id) ==> r[i] == dados[i]
    decreases |dados|
  {
    if dados == [] then []
    else
      var aluno := dados[|dados| - 1];
      Atualizados(dados[..|dados| - 1], id, novosDados)
        + [if Corresponde(aluno, id) then Mesclar(aluno, novosDados) else aluno]
  }

  /** Position by position: the record with the matching id is merged with the new
      fields, every other record is left as it was; length and order are kept. */
  lemma {:induction false} AtualizadosEm(dados: seq<Registro>, id: Dado, novosDados: Registro, i: nat)
    requires i < |dados|
    ensures Atualizados(dados, id, novosDados)[i]
            == if Corresponde(dados[i], id) then Mesclar(dados[i], novosDados) else dados[i]
    decreases |dados|
  {
    if i < |dados| - 1 {
      AtualizadosEm(dados[..|dados| - 1], id, novosDados, i);
    }
  }

  /** On the updated record, fields absent from `novosDados` keep their old values. */
  lemma CamposPreservados(dados: seq<Registro>, id: Dado, novosDados: Registro, i: nat, campo: string)
    requires i < |dados| && campo in dados[i] && campo !in novosDados
    ensures campo in Atualizados(dados, id, novosDados)[i]
    ensures Atualizados(dados, id, novosDados)[i][campo] == dados[i][campo]
  {
    AtualizadosEm(dados, id, novosDados, i);
  }

  /** An id that no record carries leaves the list unchanged. */
  lemma IdDesconhecido(dados: seq<Registro>, id: Dado, novosDados: Registro)
    requires forall i :: 0 <= i < |dados| ==> !Corresponde(dados[i], id)
    ensures Atualizados(dados, id, novosDados) == dados
  {
    forall i | 0 <= i < |dados| ensures Atualizados(dados, id, novosDados)[i] == dados[i] {
      AtualizadosEm(dados, id, novosDados, i);
    }
  }

  /** Applying the same update twice is applying it once, even when `novosDados`
      itself changes the id. */
  lemma Idempotente(dados: seq<Registro>, id: Dado, novosDados: Registro)
    ensures Atualizados(Atualizados(dados, id, novosDados), id, novosDados) == Atualizados(dados, id, novosDados)
  {
    var uma := Atualizados(dados, id, novosDados);
    forall i | 0 <= i < |dados|
      ensures Atualizados(uma, id, novosDados)[i] == uma[i]
    {
      AtualizadosEm(dados, id, novosDados, i);
      AtualizadosEm(uma, id, novosDados, i);
      if Corresponde(dados[i], id) {
        assert Mesclar(Mesclar(dados[i], novosDados), novosDados) == Mesclar(dados[i], novosDados);
      }
    }
  }

  function Aval(id: string, nome: string, valorMax: real, nota: real): Avaliacao {
    Avaliacao(id, nome, Some(valorMax), Some(nota))
  }

  const NotasAna: Notas := Notas(
    Lista([Aval("p1_1", "Prova Mensal", 15.0, 13.0), Aval("t1_1", "Trabalho em Grupo", 10.0, 10.0)]),
    Lista([Aval("p2_1", "Prova Bimestral", 20.0, 18.0), Aval("a2_1", "Atividade Surpresa", 5.0, 5.0)]),
    Lista([]), Lista([]))

  const NotasBruno: Notas := Notas(
    Lista([Aval("p1_2", "Prova Mensal", 15.0, 10.0), Aval("t1_2", "Trabalho em Grupo", 10.0, 8.0)]),
    Lista([]), Lista([]), Lista([]))

  /** The two sample students the module starts with. */
  function Amostra(): seq<Registro> {
    [ map["id" := Numero(1.0), "nome" := Texto("Ana Clara Souza"),
          "avatar" := Texto("https://i.pravatar.cc/100?img=1"), "turma" := Texto("8º Ano B"),
          "escola" := Texto("E.E. Facillit Hub School"), "ra" := Texto("000123456-7/SP"),
          "anoLetivo" := Texto("2025"), "contato" := Texto("(11) 98765-4321"),
          "endereco" := Texto("Rua das Flores, 123"), "notas" := Boletim(NotasAna),
          "frequencia" := Frequencias(map["2025-08-18" := Presente, "2025-08-19" := Presente,
                                          "2025-08-20" := Ausente])],
      map["id" := Numero(2.0), "nome" := Texto("Bruno Martins"),
          "avatar" := Texto("https://i.pravatar.cc/100?img=2"), "turma" := Texto("8º Ano B"),
          "escola" := Texto("E.E. Facillit Hub School"), "ra" := Texto("000123456-8/SP"),
          "anoLetivo" := Texto("2025"), "contato" := Texto("(11) 91234-5678"),
          "endereco" := Texto("Av. Principal, 456"), "notas" := Boletim(NotasBruno),
          "frequencia" := Frequencias(map["2025-08-18" := Presente, "2025-08-19" := Atestado,
                                          "2025-08-20" := Presente])] ]
  }

  /** Every sample record carries an id, a grade record whose four periods are arrays,
      and an attendance map. */
  lemma AmostraBemFormada()
    ensures forall r: Registro :: r in Amostra() ==>
              && "id" in r && "frequencia" in r && r["frequencia"].Frequencias?
              && "notas" in r && r["notas"].Boletim?
              && forall b: Bimestre :: r["notas"].notas.Get(b).Lista?
  {
  }

  /** The sample students as the grade table shows them: 46 / 50 and 18 / 25, both Aprovado. */
  lemma AmostraStatus()
    ensures NotasFaltas.Total(NotasAna, Nota) == 46.0 && NotasFaltas.Total(NotasAna, ValorMax) == 50.0
    ensures NotasFaltas.Classificar(NotasFaltas.Percentual(46.0, 50.0)) == NotasFaltas.Aprovado
    ensures NotasFaltas.Total(NotasBruno, Nota) == 18.0 && NotasFaltas.Total(NotasBruno, ValorMax) == 25.0
    ensures NotasFaltas.Classificar(NotasFaltas.Percentual(18.0, 25.0)) == NotasFaltas.Aprovado
  {
    NotasFaltas.TotalPorBimestre(NotasAna, Nota);
    NotasFaltas.TotalPorBimestre(NotasAna, ValorMax);
    NotasFaltas.TotalPorBimestre(NotasBruno, Nota);
    NotasFaltas.TotalPorBimestre(NotasBruno, ValorMax);
    SomaPar(NotasAna.b1.avaliacoes);
    SomaPar(NotasAna.b2.avaliacoes);
    SomaPar(NotasBruno.b1.avaliacoes);
  }

  lemma SomaPar(avs: seq<Avaliacao>)
    requires |avs| == 2
    ensures forall m :: Soma(avs, m) == Valor(avs[0], m) + Valor(avs[1], m)
  {
    forall m ensures Soma(avs, m) == Valor(avs[0], m) + Valor(avs[1], m) {
      assert avs[..1][..0] == [];
      assert Soma(avs[..1], m) == Valor(avs[0], m);
    }
  }

  /** The module-level `let dadosAlunos`. */
  class BaseAlunos {
    var dadosAlunos: seq<Registro>

    constructor ()
      ensures dadosAlunos == Amostra()
    {
      dadosAlunos := Amostra();
    }

    /** `atualizarDadosAluno(id, novosDados)`: the list is replaced by its mapped copy. */
    method AtualizarDadosAluno(id: Dado, novosDados: Registro)
      modifies this
      ensures dadosAlunos == Atualizados(old(dadosAlunos), id, novosDados)
    {
      dadosAlunos := Atualizados(dadosAlunos, id, novosDados);
    }
  }
}
