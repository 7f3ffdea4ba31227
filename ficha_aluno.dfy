/** The student sheet: per-period details and the list of absence days. */
module FichaAluno {
  import opened Records
  import NotasFaltas

  /** What `renderBimestreDetails` shows for one period. */
  datatype Detalhe = NenhumaAvaliacao | Total(totalNota: real, totalMax: real)

  /** `renderBimestreDetails(bimestre)`. A value that is neither missing nor an
      array has no `reduce` and throws, so it is excluded. */
  function DetalheBimestre(p: Periodo): (d: Detalhe)
    requires !p.NotArray?
    ensures d.NenhumaAvaliacao? <==> p.Missing? || p.avaliacoes == []
    ensures d.Total? ==> d.totalNota == Soma(p.avaliacoes, Nota) && d.totalMax == Soma(p.avaliacoes, ValorMax)
  {
    if p.Missing? || |p.avaliacoes| == 0 then NenhumaAvaliacao
    else Total(Soma(p.avaliacoes, Nota), Soma(p.avaliacoes, ValorMax))
  }

  /** The four panels, in the order b1, b2, b3, b4. */
  function Detalhes(notas: Notas): (r: seq<Detalhe>)
    requires forall b :: !notas.Get(b).NotArray?
    ensures |r| == 4
    ensures r[0] == DetalheBimestre(notas.Get(B1)) && r[1] == DetalheBimestre(notas.Get(B2))
    ensures r[2] == DetalheBimestre(notas.Get(B3)) && r[3] == DetalheBimestre(notas.Get(B4))
  {
    [DetalheBimestre(notas.Get(B1)), DetalheBimestre(notas.Get(B2)),
     DetalheBimestre(notas.Get(B3)), DetalheBimestre(notas.Get(B4))]
  }

  /** `Object.keys(frequencia).filter(key => frequencia[key] === 'ausente')`, or `[]`
      without an attendance map. The key order is not modelled. */
  function DiasDeFalta(frequencia: Option<map<string, Presenca>>): (r: set<string>)
    ensures frequencia.None? ==> r == {}
    ensures frequencia.Some? ==> forall d :: d in r <==> d in frequencia.value && frequencia.value[d] == Ausente
  {
    if frequencia.None? then {}
    else set d | d in frequencia.value && frequencia.value[d] == Ausente
  }

  /** Recording a status for one date changes the absence list at that date only:
      it gains the date when the status is `ausente` and loses it otherwise. */
  lemma DiasDeFaltaAposRegistro(m: map<string, Presenca>, d: string, s: Presenca)
    ensures DiasDeFalta(Some(m[d := s])) == if s == Ausente then DiasDeFalta(Some(m)) + {d}
                                            else DiasDeFalta(Some(m)) - {d}
  {
  }

  /** A justified absence is not an absence day. */
  lemma AtestadoNaoEFalta(m: map<string, Presenca>, d: string)
    requires d in m && m[d] != Ausente
    ensures d !in DiasDeFalta(Some(m))
  {
  }

  function TotalNotaDe(d: Detalhe): real {
    if d.Total? then d.totalNota else 0.0
  }

  function TotalMaxDe(d: Detalhe): real {
    if d.Total? then d.totalMax else 0.0
  }

  /** The four period totals on the sheet add up to the totals of the grade table. */
  lemma DetalhesSomam(notas: Notas)
    requires forall b :: !notas.Get(b).NotArray?
    ensures var r := Detalhes(notas);
            TotalNotaDe(r[0]) + TotalNotaDe(r[1]) + TotalNotaDe(r[2]) + TotalNotaDe(r[3])
              == NotasFaltas.Total(notas, Nota)
    ensures var r := Detalhes(notas);
            TotalMaxDe(r[0]) + TotalMaxDe(r[1]) + TotalMaxDe(r[2]) + TotalMaxDe(r[3])
              == NotasFaltas.Total(notas, ValorMax)
  {
    NotasFaltas.TotalPorBimestre(notas, Nota);
    NotasFaltas.TotalPorBimestre(notas, ValorMax);
  }
}
