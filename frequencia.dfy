/** The attendance page: a working map from student id to the status chosen for
    the selected date, loaded from the stored records and committed back as one
    write per student whose status changed. */
module Frequencia {
  import opened Records

  /** A student as the page uses one: its id and its stored attendance map, if any. */
  datatype Aluno = Aluno(id: string, frequencia: Option<map<string, Presenca>>)

  /** One `atualizarAluno(id, { frequencia })` call. */
  datatype Escrita = Escrita(alunoId: string, frequencia: map<string, Presenca>)

  /** The status buttons, in the order they are shown. */
  const StatusOptions: seq<Presenca> := [Presente, Ausente, Atestado]

  /** The buttons offer every status exactly once. */
  lemma StatusOptionsCompletas()
    ensures forall p: Presenca :: p in StatusOptions
    ensures |StatusOptions| == 3
    ensures forall i, j :: 0 <= i < j < |StatusOptions| ==> StatusOptions[i] != StatusOptions[j]
  {
    forall p: Presenca ensures p in StatusOptions {
      match p
      case Presente => assert StatusOptions[0] == p;
      case Ausente => assert StatusOptions[1] == p;
      case Atestado => assert StatusOptions[2] == p;
    }
  }

  /** `aluno.frequencia && aluno.frequencia[data]`: a stored status is a non-empty string,
      so it is truthy exactly when present. */
  predicate Registrado(a: Aluno, data: string) {
    a.frequencia.Some? && data in a.frequencia.value
  }

  /** `frequenciaSalva` after the `forEach` over a prefix of the students; a later
      student with the same id overwrites an earlier one. */
  function Salva(alunos: seq<Aluno>, data: string): (r: map<string, Presenca>)
    ensures forall a :: a in alunos && Registrado(a, data) ==> a.id in r
    ensures forall k :: k in r ==> exists a :: a in alunos && a.id == k && Registrado(a, data)
                                              && r[k] == a.frequencia.value[data]
    decreases |alunos|
  {
    if alunos == [] then map[]
    else
      var a := alunos[|alunos| - 1];
      var m := Salva(alunos[..|alunos| - 1], data);
      if Registrado(a, data) then m[a.id := a.frequencia.value[data]] else m
  }

  /** The loaded map holds exactly the students with a status stored for the date,
      and every value is one of those stored statuses. */
  lemma {:induction false} SalvaChaves(alunos: seq<Aluno>, data: string)
    ensures forall k :: k in Salva(alunos, data) <==>
              exists i :: 0 <= i < |alunos| && alunos[i].id == k && Registrado(alunos[i], data)
    ensures forall k :: k in Salva(alunos, data) ==>
              exists i :: 0 <= i < |alunos| && alunos[i].id == k && Registrado(alunos[i], data)
                          && Salva(alunos, data)[k] == alunos[i].frequencia.value[data]
    decreases |alunos|
  {
    if alunos != [] {
      var init := alunos[..|alunos| - 1];
      SalvaChaves(init, data);
      forall i | 0 <= i < |init| ensures init[i] == alunos[i] { }
    }
  }

  /** With distinct ids, each student with a stored status is mapped to that status. */
  lemma {:induction false} SalvaValor(alunos: seq<Aluno>, data: string, i: nat)
    requires forall j, k :: 0 <= j < k < |alunos| ==> alunos[j].id != alunos[k].id
    requires i < |alunos| && Registrado(alunos[i], data)
    ensures alunos[i].id in Salva(alunos, data)
    ensures Salva(alunos, data)[alunos[i].id] == alunos[i].frequencia.value[data]
    decreases |alunos|
  {
    var init := alunos[..|alunos| - 1];
    if i < |alunos| - 1 {
      SalvaValor(init, data, i);
    }
  }

  /** Last one wins: a student's stored status is the one loaded when no later
      student with the same id has a status stored for the date. */
  lemma {:induction false} SalvaUltimoVence(alunos: seq<Aluno>, data: string, i: nat)
    requires i < |alunos| && Registrado(alunos[i], data)
    requires forall j :: i < j < |alunos| ==> alunos[j].id != alunos[i].id || !Registrado(alunos[j], data)
    ensures alunos[i].id in Salva(alunos, data)
    ensures Salva(alunos, data)[alunos[i].id] == alunos[i].frequencia.value[data]
    decreases |alunos|
  {
    var init := alunos[..|alunos| - 1];
    if i < |alunos| - 1 {
      SalvaUltimoVence(init, data, i);
    }
  }

  /** The per-student test of `handleSalvarChamada` and the new map it writes. */
  function Decisao(a: Aluno, diaria: map<string, Presenca>, data: string): (r: Option<map<string, Presenca>>)
    ensures r.None? <==> a.id !in diaria || (Registrado(a, data) && a.frequencia.value[data] == diaria[a.id])
    ensures r.Some? ==> data in r.value && r.value[data] == diaria[a.id]
    ensures r.Some? ==> forall d :: d != data ==> (d in r.value <==> a.frequencia.Some? && d in a.frequencia.value)
    ensures r.Some? ==> forall d :: d != data && d in r.value ==> r.value[d] == a.frequencia.value[d]
  {
    if a.id in diaria
       && (a.frequencia.None? || data !in a.frequencia.value || a.frequencia.value[data] != diaria[a.id]) then
      var anterior := if a.frequencia.Some? then a.frequencia.value else map[];
      Some(anterior[data := diaria[a.id]])
    else None
  }

  /** The writes issued for a prefix of the students, in order. */
  function Escritas(alunos: seq<Aluno>, diaria: map<string, Presenca>, data: string): (r: seq<Escrita>)
    ensures |r| <= |alunos|
    ensures forall w :: w in r ==> exists a :: a in alunos && a.id == w.alunoId
                                              && Decisao(a, diaria, data) == Some(w.frequencia)
    decreases |alunos|
  {
    if alunos == [] then []
    else
      var a := alunos[|alunos| - 1];
      var d := Decisao(a, diaria, data);
      Escritas(alunos[..|alunos| - 1], diaria, data) + (if d.Some? then [Escrita(a.id, d.value)] else [])
  }

  /** The map of the last write addressed to `id`, if any. */
  function UltimaEscrita(ws: seq<Escrita>, id: string): (r: Option<map<string, Presenca>>)
    ensures r.None? <==> forall j :: 0 <= j < |ws| ==> ws[j].alunoId != id
    ensures r.Some? ==> exists j :: 0 <= j < |ws| && ws[j].alunoId == id && ws[j].frequencia == r.value
                                    && forall k :: j < k < |ws| ==> ws[k].alunoId != id
    decreases |ws|
  {
    if ws == [] then None
    else if ws[|ws| - 1].alunoId == id then Some(ws[|ws| - 1].frequencia)
    else
      var r := UltimaEscrita(ws[..|ws| - 1], id);
      assert forall j :: 0 <= j < |ws| - 1 ==> ws[..|ws| - 1][j] == ws[j];
      r
  }

  /** The records as reloaded after the writes: the stored row of each student
      carries the last attendance map written for its id. */
  function Recarregar(alunos: seq<Aluno>, ws: seq<Escrita>): (r: seq<Aluno>)
    ensures |r| == |alunos|
    ensures forall i :: 0 <= i < |alunos| ==> r[i] == alunos[i].(frequencia := r[i].frequencia)
    ensures forall i :: 0 <= i < |alunos| && UltimaEscrita(ws, alunos[i].id).None? ==> r[i] == alunos[i]
    ensures forall i :: 0 <= i < |alunos| && UltimaEscrita(ws, alunos[i].id).Some? ==>
              r[i].frequencia == Some(UltimaEscrita(ws, alunos[i].id).value)
  {
    seq(|alunos|, i requires 0 <= i < |alunos| =>
      var w := UltimaEscrita(ws, alunos[i].id);
      if w.Some? then alunos[i].(frequencia := Some(w.value)) else alunos[i])
  }

  /** A write that records the working status of its student for the date. */
  predicate EscritaCorreta(w: Escrita, diaria: map<string, Presenca>, data: string) {
    w.alunoId in diaria && data in w.frequencia && w.frequencia[data] == diaria[w.alunoId]
  }

  /** Every write stores the working status for its student on the date, and every
      student whose decision is a write has a write addressed to its id. */
  lemma {:induction false} EscritasCorretas(alunos: seq<Aluno>, diaria: map<string, Presenca>, data: string)
    ensures forall w :: w in Escritas(alunos, diaria, data) ==> EscritaCorreta(w, diaria, data)
    ensures forall i :: 0 <= i < |alunos| && Decisao(alunos[i], diaria, data).Some? ==>
              exists w :: w in Escritas(alunos, diaria, data) && w.alunoId == alunos[i].id
    decreases |alunos|
  {
    if alunos != [] {
      var init := alunos[..|alunos| - 1];
      EscritasCorretas(init, diaria, data);
      var ws := Escritas(alunos, diaria, data);
      forall i | 0 <= i < |alunos| && Decisao(alunos[i], diaria, data).Some?
        ensures exists w :: w in ws && w.alunoId == alunos[i].id
      {
        if i < |init| {
          assert init[i] == alunos[i];
        } else {
          assert ws[|ws| - 1].alunoId == alunos[i].id;
        }
      }
    }
  }

  /** No write is issued exactly when every student's decision is to leave it alone. */
  lemma {:induction false} EscritasVazias(alunos: seq<Aluno>, diaria: map<string, Presenca>, data: string)
    ensures Escritas(alunos, diaria, data) == [] <==>
            forall i :: 0 <= i < |alunos| ==> Decisao(alunos[i], diaria, data).None?
    decreases |alunos|
  {
    if alunos != [] {
      var init := alunos[..|alunos| - 1];
      EscritasVazias(init, diaria, data);
      forall i | 0 <= i < |init| ensures init[i] == alunos[i] { }
    }
  }

  /** After a commit, every student with a working status has that status stored
      for the date (last write wins; nothing else is recorded). */
  lemma CommitRegistra(alunos: seq<Aluno>, diaria: map<string, Presenca>, data: string, i: nat)
    requires i < |alunos| && alunos[i].id in diaria
    ensures var novos := Recarregar(alunos, Escritas(alunos, diaria, data));
            Registrado(novos[i], data) && novos[i].frequencia.value[data] == diaria[alunos[i].id]
  {
    var ws := Escritas(alunos, diaria, data);
    EscritasCorretas(alunos, diaria, data);
    var w := UltimaEscrita(ws, alunos[i].id);
    if w.Some? {
      var j :| 0 <= j < |ws| && ws[j].alunoId == alunos[i].id && ws[j].frequencia == w.value;
      assert ws[j] in ws;
    }
  }

  /** Committing the same working map a second time, against the reloaded records,
      issues no write. */
  lemma SegundoCommitVazio(alunos: seq<Aluno>, diaria: map<string, Presenca>, data: string)
    ensures var novos := Recarregar(alunos, Escritas(alunos, diaria, data));
            Escritas(novos, diaria, data) == []
  {
    var novos := Recarregar(alunos, Escritas(alunos, diaria, data));
    forall i | 0 <= i < |novos| ensures Decisao(novos[i], diaria, data).None? {
      if alunos[i].id in diaria {
        CommitRegistra(alunos, diaria, data, i);
      }
    }
    EscritasVazias(novos, diaria, data);
  }

  /** Choosing a status and then another for the same student keeps only the second. */
  lemma StatusChangeUltimoVence(diaria: map<string, Presenca>, alunoId: string, a: Presenca, b: Presenca)
    ensures diaria[alunoId := a][alunoId := b] == diaria[alunoId := b]
  {
  }

  /** The page state. */
  class Chamada {
    var alunos: seq<Aluno>
    var dataSelecionada: string
    var frequenciaDiaria: map<string, Presenca>

    /** Initial state; `hoje` is `new Date().toISOString().slice(0, 10)`. */
    constructor (hoje: string)
      ensures alunos == [] && dataSelecionada == hoje && frequenciaDiaria == map[]
    {
      alunos := [];
      dataSelecionada := hoje;
      frequenciaDiaria := map[];
    }

    /** The effect on `[dataSelecionada, alunos]`: the working map is rebuilt from
        the stored records for the selected date. */
    method CarregarFrequenciaDoDia()
      modifies this`frequenciaDiaria
      ensures frequenciaDiaria == Salva(alunos, dataSelecionada)
    {
      var frequenciaSalva: map<string, Presenca> := map[];
      var i := 0;
      while i < |alunos|
        invariant 0 <= i <= |alunos|
        invariant frequenciaSalva == Salva(alunos[..i], dataSelecionada)
      {
        var aluno := alunos[i];
        assert alunos[..i + 1][..i] == alunos[..i];
        if aluno.frequencia.Some? && dataSelecionada in aluno.frequencia.value {
          frequenciaSalva := frequenciaSalva[aluno.id := aluno.frequencia.value[dataSelecionada]];
        }
        i := i + 1;
      }
      assert alunos[..i] == alunos;
      frequenciaDiaria := frequenciaSalva;
    }

    /** The students arrive from the service; the effect then reloads the working map. */
    method CarregarAlunos(dados: seq<Aluno>)
      modifies this`alunos, this`frequenciaDiaria
      ensures alunos == dados && dataSelecionada == old(dataSelecionada)
      ensures frequenciaDiaria == Salva(dados, dataSelecionada)
    {
      alunos := dados;
      CarregarFrequenciaDoDia();
    }

    /** A new date is picked; the effect then reloads the working map. */
    method SelecionarData(data: string)
      modifies this`dataSelecionada, this`frequenciaDiaria
      ensures dataSelecionada == data && alunos == old(alunos)
      ensures frequenciaDiaria == Salva(alunos, data)
    {
      dataSelecionada := data;
      CarregarFrequenciaDoDia();
    }

    /** `handleStatusChange(alunoId, status)`: only that student's entry changes. */
    method HandleStatusChange(alunoId: string, status: Presenca)
      modifies this`frequenciaDiaria
      ensures frequenciaDiaria == old(frequenciaDiaria)[alunoId := status]
      ensures forall k :: k != alunoId ==> (k in frequenciaDiaria <==> k in old(frequenciaDiaria))
      ensures forall k :: k != alunoId && k in frequenciaDiaria ==> frequenciaDiaria[k] == old(frequenciaDiaria)[k]
    {
      frequenciaDiaria := frequenciaDiaria[alunoId := status];
    }

    /** `handleSalvarChamada`: one write per student whose working status is new,
        then the records are reloaded and the effect rebuilds the working map.
        The writes are issued concurrently in the source and all assumed to succeed here. */
    method HandleSalvarChamada() returns (escritas: seq<Escrita>)
      modifies this`alunos, this`frequenciaDiaria
      ensures escritas == Escritas(old(alunos), old(frequenciaDiaria), dataSelecionada)
      ensures alunos == Recarregar(old(alunos), escritas)
      ensures frequenciaDiaria == Salva(alunos, dataSelecionada)
    {
      escritas := [];
      var i := 0;
      while i < |alunos|
        invariant 0 <= i <= |alunos|
        invariant escritas == Escritas(alunos[..i], frequenciaDiaria, dataSelecionada)
      {
        var aluno := alunos[i];
        assert alunos[..i + 1][..i] == alunos[..i];
        var decisao := Decisao(aluno, frequenciaDiaria, dataSelecionada);
        if decisao.Some? {
          escritas := escritas + [Escrita(aluno.id, decisao.value)];
        }
        i := i + 1;
      }
      assert alunos[..i] == alunos;
      alunos := Recarregar(alunos, escritas);
      CarregarFrequenciaDoDia();
    }
  }
}
