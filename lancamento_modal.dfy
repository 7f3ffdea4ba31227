/** The grade-entry modal: a form holding the four periods of one student, edited
    assessment by assessment and handed back whole on submit. */
module LancamentoModal {
  import opened Records

  /** One change event of an assessment input: the input's `name` and value.
      For the two numeric inputs, `numero` is `Number(value)`, `None` when that is NaN. */
  datatype Edicao = EditNome(texto: string) | EditNota(numero: Option<real>) | EditValorMax(numero: Option<real>)

  /** `{ ...aval, [name]: updatedValue }`, where a numeric value is `Number(value) || 0`. */
  function Aplicar(a: Avaliacao, e: Edicao): (r: Avaliacao)
    ensures r.id == a.id
    ensures r.nome == (if e.EditNome? then e.texto else a.nome)
    ensures r.nota == (if e.EditNota? then Some(Pontos(e.numero)) else a.nota)
    ensures r.valorMax == (if e.EditValorMax? then Some(Pontos(e.numero)) else a.valorMax)
    ensures e.EditNota? ==> r.nota.Some? && (e.numero.None? ==> Valor(r, Nota) == 0.0)
  {
    match e
    case EditNome(t) => a.(nome := t)
    case EditNota(n) => a.(nota := Some(Pontos(n)))
    case EditValorMax(n) => a.(valorMax := Some(Pontos(n)))
  }

  /** `avaliacoes.map(aval => aval.id === id ? {...} : aval)` */
  function Editar(avs: seq<Avaliacao>, id: string, e: Edicao): (r: seq<Avaliacao>)
    ensures |r| == |avs|
    ensures forall i :: 0 <= i < |avs| && avs[i].id != id ==> r[i] == avs[i]
    ensures forall i :: 0 <= i < |avs| && avs[i].id == id ==> r[i] == Aplicar(avs[i], e)
    decreases |avs|
  {
    if avs == [] then []
    else
      var last := avs[|avs| - 1];
      Editar(avs[..|avs| - 1], id, e) + [if last.id == id then Aplicar(last, e) else last]
  }

  /** `avaliacoes.filter(aval => aval.id !== id)` */
  function Remover(avs: seq<Avaliacao>, id: string): (r: seq<Avaliacao>)
    ensures |r| <= |avs|
    ensures forall a :: a in r <==> a in avs && a.id != id
    ensures (forall i :: 0 <= i < |avs| ==> avs[i].id != id) ==> r == avs
    decreases |avs|
  {
    if avs == [] then []
    else
      var last := avs[|avs| - 1];
      Remover(avs[..|avs| - 1], id) + (if last.id == id then [] else [last])
  }

  /** `prev[bimestre] || []`: the list of a period, a missing period read as empty.
      Spreading a value that is not an array throws, so callers never pass one. */
  function Itens(p: Periodo): (r: seq<Avaliacao>)
    requires !p.NotArray?
    ensures p.Missing? ==> r == []
    ensures p.Lista? ==> r == p.avaliacoes
  {
    if p.Missing? then [] else p.avaliacoes
  }

  function Digito(d: nat): (c: char)
    requires d < 10
    ensures '0' <= c <= '9'
    ensures c as int - '0' as int == d
  {
    ('0' as int + d) as char
  }

  /** The decimal digits of a timestamp, as a template literal prints it. */
  function Decimal(n: nat): (r: string)
    ensures |r| >= 1
    ensures forall i :: 0 <= i < |r| ==> '0' <= r[i] <= '9'
    ensures n > 0 ==> r[0] != '0'
  {
    if n < 10 then [Digito(n)] else Decimal(n / 10) + [Digito(n % 10)]
  }

  /** The number a string of decimal digits spells, read independently of `Decimal`. */
  function ValorDecimal(s: string): nat
    requires forall i :: 0 <= i < |s| ==> '0' <= s[i] <= '9'
    decreases |s|
  {
    if s == [] then 0 else 10 * ValorDecimal(s[..|s| - 1]) + (s[|s| - 1] as int - '0' as int)
  }

  /** The printed digits spell the timestamp back. */
  lemma {:induction false} DecimalValor(n: nat)
    ensures ValorDecimal(Decimal(n)) == n
    decreases n
  {
    if n >= 10 {
      DecimalValor(n / 10);
      var r := Decimal(n);
      assert r[..|r| - 1] == Decimal(n / 10);
    }
  }

  /** Different timestamps give different ids for new assessments. */
  lemma IdsNovosDistintos(m: nat, n: nat)
    requires m != n
    ensures NovaAvaliacao(m).id != NovaAvaliacao(n).id
  {
    DecimalValor(m);
    DecimalValor(n);
    SufixoDoId(m);
    SufixoDoId(n);
  }

  lemma SufixoDoId(n: nat)
    ensures |NovaAvaliacao(n).id| >= 4 && NovaAvaliacao(n).id[4..] == Decimal(n)
  {
  }

  /** `{ id: new_<Date.now()>, nome: 'Nova Avaliação', valorMax: 10, nota: 0 }` */
  function NovaAvaliacao(agora: nat): (a: Avaliacao)
    ensures a.nome == "Nova Avaliação"
    ensures Valor(a, ValorMax) == 10.0 && Valor(a, Nota) == 0.0
  {
    Avaliacao("new_" + Decimal(agora), "Nova Avaliação", Some(10.0), Some(0.0))
  }

  /** `[...(prev[bimestre] || []), nova]` */
  function Adicionar(p: Periodo, nova: Avaliacao): (r: Periodo)
    requires !p.NotArray?
    ensures r.Lista? && r.avaliacoes == Itens(p) + [nova]
  {
    Lista(Itens(p) + [nova])
  }

  /** The two figures under a period's form: `total` and `valorMaxTotal`. */
  datatype Totais = Totais(total: real, valorMaxTotal: real)

  function TotaisDoBimestre(p: Periodo): (t: Totais)
    requires !p.NotArray?
    ensures t.total == Soma(Itens(p), Nota) && t.valorMaxTotal == Soma(Itens(p), ValorMax)
    ensures p.Missing? ==> t == Totais(0.0, 0.0)
  {
    Totais(Soma(Itens(p), Nota), Soma(Itens(p), ValorMax))
  }

  /** What `handleSubmit` passes to `onSave`: the student's id and `{ notas: formData }`. */
  datatype Salvamento = Salvamento(studentId: string, notas: Notas)

  /** Adding an assessment leaves the period's score total as it was and raises
      its maximum total by 10. */
  lemma AdicionarTotais(p: Periodo, agora: nat)
    requires !p.NotArray?
    ensures TotaisDoBimestre(Adicionar(p, NovaAvaliacao(agora)))
            == Totais(TotaisDoBimestre(p).total, TotaisDoBimestre(p).valorMaxTotal + 10.0)
  {
    var avs, nova := Itens(p), NovaAvaliacao(agora);
    SomaConcat(avs, [nova], Nota);
    SomaConcat(avs, [nova], ValorMax);
    assert [nova][..0] == [];
  }

  /** Removing the assessment just added, by its fresh id, gives back the period's list. */
  lemma {:induction false} RemoverAdicionado(avs: seq<Avaliacao>, nova: Avaliacao)
    requires forall i :: 0 <= i < |avs| ==> avs[i].id != nova.id
    ensures Remover(avs + [nova], nova.id) == avs
  {
    assert (avs + [nova])[..|avs|] == avs;
  }

  /** Removal keeps order: filtering a concatenation filters each part. */
  lemma {:induction false} RemoverConcat(a: seq<Avaliacao>, b: seq<Avaliacao>, id: string)
    ensures Remover(a + b, id) == Remover(a, id) + Remover(b, id)
    decreases |b|
  {
    if b == [] {
      assert a + b == a;
    } else {
      var b' := b[..|b| - 1];
      assert (a + b)[..|a + b| - 1] == a + b';
      RemoverConcat(a, b', id);
    }
  }

  /** Editing a field other than `nota`, or an id that is absent, leaves the score
      total unchanged. */
  lemma {:induction false} EditarNotaInalterada(avs: seq<Avaliacao>, id: string, e: Edicao)
    requires !e.EditNota? || forall i :: 0 <= i < |avs| ==> avs[i].id != id
    ensures Soma(Editar(avs, id, e), Nota) == Soma(avs, Nota)
    decreases |avs|
  {
    if avs != [] {
      var init := avs[..|avs| - 1];
      EditarNotaInalterada(init, id, e);
      var editados := Editar(avs, id, e);
      assert editados[..|avs| - 1] == Editar(init, id, e);
      assert Valor(editados[|avs| - 1], Nota) == Valor(avs[|avs| - 1], Nota);
    }
  }

  /** Editing the `nota` of the one assessment with that id replaces its contribution
      to the score total by the new value (0 for a non-number). */
  lemma {:induction false} EditarNotaSubstitui(avs: seq<Avaliacao>, id: string, e: Edicao, k: nat)
    requires forall i, j :: 0 <= i < j < |avs| && avs[i].id == id ==> avs[j].id != id
    requires k < |avs| && avs[k].id == id && e.EditNota?
    ensures Soma(Editar(avs, id, e), Nota) == Soma(avs, Nota) - Valor(avs[k], Nota) + Pontos(e.numero)
    decreases |avs|
  {
    var init := avs[..|avs| - 1];
    var editados := Editar(avs, id, e);
    assert editados[..|avs| - 1] == Editar(init, id, e);
    if k == |avs| - 1 {
      EditarNotaInalterada(init, id, e);
      assert Valor(editados[k], Nota) == Pontos(e.numero);
    } else {
      EditarNotaSubstitui(init, id, e, k);
      assert avs[|avs| - 1].id != id;
      assert Valor(editados[|avs| - 1], Nota) == Valor(avs[|avs| - 1], Nota);
    }
  }

  /** Editing the same field of the same assessment twice with the same input is editing it once. */
  lemma EditarIdempotente(avs: seq<Avaliacao>, id: string, e: Edicao)
    ensures Editar(Editar(avs, id, e), id, e) == Editar(avs, id, e)
  {
  }

  /** The modal's component state. */
  class Lancamento {
    var formData: Notas
    var activeTab: Bimestre

    /** `useState({ b1: [], b2: [], b3: [], b4: [] })` and `useState('b1')` */
    constructor ()
      ensures formData == NotasVazias && activeTab == B1
    {
      formData := NotasVazias;
      activeTab := B1;
    }

    /** The effect that copies `student.notas` into the form when it is present. */
    method SincronizarAluno(notas: Option<Notas>)
      modifies this`formData
      ensures formData == if notas.Some? then notas.value else old(formData)
    {
      if notas.Some? {
        formData := notas.value;
      }
    }

    method SelecionarAba(b: Bimestre)
      modifies this`activeTab
      ensures activeTab == b
    {
      activeTab := b;
    }

    /** `handleInputChange(e, bimestre, id)`: only the period `b` changes, and in it
        only the assessments whose id is `id`. */
    method HandleInputChange(b: Bimestre, id: string, e: Edicao)
      requires formData.Get(b).Lista?
      modifies this`formData
      ensures formData == old(formData).With(b, Lista(Editar(old(formData).Get(b).avaliacoes, id, e)))
    {
      var updatedBimestre := Editar(formData.Get(b).avaliacoes, id, e);
      formData := formData.With(b, Lista(updatedBimestre));
    }

    /** `addAvaliacao(bimestre)`, with `Date.now()` passed in as `agora`. */
    method AddAvaliacao(b: Bimestre, agora: nat)
      requires !formData.Get(b).NotArray?
      modifies this`formData
      ensures formData == old(formData).With(b, Adicionar(old(formData).Get(b), NovaAvaliacao(agora)))
      ensures TotaisDoBimestre(formData.Get(b)).total == TotaisDoBimestre(old(formData).Get(b)).total
    {
      AdicionarTotais(formData.Get(b), agora);
      formData := formData.With(b, Adicionar(formData.Get(b), NovaAvaliacao(agora)));
    }

    /** `removeAvaliacao(bimestre, id)` */
    method RemoveAvaliacao(b: Bimestre, id: string)
      requires formData.Get(b).Lista?
      modifies this`formData
      ensures formData == old(formData).With(b, Lista(Remover(old(formData).Get(b).avaliacoes, id)))
    {
      var updatedBimestre := Remover(formData.Get(b).avaliacoes, id);
      formData := formData.With(b, Lista(updatedBimestre));
    }

    /** `handleSubmit`: the whole four-period form goes to `onSave` unchanged. */
    method HandleSubmit(studentId: string) returns (s: Salvamento)
      ensures s.studentId == studentId && s.notas == formData
    {
      s := Salvamento(studentId, formData);
    }

    /** The totals shown under the active tab's form. */
    function TotaisDaAba(): (t: Totais)
      reads this
      requires !formData.Get(activeTab).NotArray?
      ensures t == TotaisDoBimestre(formData.Get(activeTab))
    {
      TotaisDoBimestre(formData.Get(activeTab))
    }
  }
}
