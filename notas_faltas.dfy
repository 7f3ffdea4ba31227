/** The grade table page: `calcularStatus` totals a student's scores over all
    periods and classifies the result. */
module NotasFaltas {
  import opened Records

  datatype Situacao = Reprovado | Recuperacao | Aprovado

  /** The label shown for each status. */
  function Rotulo(s: Situacao): (r: string)
    ensures r in {"Reprovado", "Recuperação", "Aprovado"}
    ensures (r == "Reprovado") <==> s == Reprovado
    ensures (r == "Recuperação") <==> s == Recuperacao
    ensures (r == "Aprovado") <==> s == Aprovado
  {
    match s
    case Reprovado => "Reprovado"
    case Recuperacao => "Recuperação"
    case Aprovado => "Aprovado"
  }

  /** Distinct statuses are shown with distinct labels. */
  lemma RotuloInjetivo(s: Situacao, t: Situacao)
    ensures Rotulo(s) == Rotulo(t) ==> s == t
  {
    assert "Reprovado"[0] != "Aprovado"[0] && "Recuperação"[0] != "Aprovado"[0];
    assert "Reprovado"[2] != "Recuperação"[2];
  }

  /** What one period value contributes: its sum when it is an array, nothing otherwise. */
  function Contribuicao(p: Periodo, m: Medida): real {
    if p.Lista? then Soma(p.avaliacoes, m) else 0.0
  }

  /** Contributions of a prefix of `Object.values(notas)`. */
  function SomaPeriodos(ps: seq<Periodo>, m: Medida): real
    decreases |ps|
  {
    if ps == [] then 0.0 else SomaPeriodos(ps[..|ps| - 1], m) + Contribuicao(ps[|ps| - 1], m)
  }

  /** `notaFinal` (m = Nota) or `valorMaxFinal` (m = ValorMax). */
  function Total(notas: Notas, m: Medida): (r: real)
    ensures r == Soma(Todas(notas.Values()), m)
  {
    SomaPeriodosTodas(notas.Values(), m);
    SomaPeriodos(notas.Values(), m)
  }

  /** All assessments of the array-valued periods, in order. */
  function Todas(ps: seq<Periodo>): seq<Avaliacao>
    decreases |ps|
  {
    if ps == [] then []
    else Todas(ps[..|ps| - 1]) + (if ps[|ps| - 1].Lista? then ps[|ps| - 1].avaliacoes else [])
  }

  /** `percentual`: exact division where the source divides in floating point. */
  function Percentual(notaFinal: real, valorMaxFinal: real): (r: real)
    ensures valorMaxFinal > 0.0 ==> r * valorMaxFinal == 100.0 * notaFinal
    ensures valorMaxFinal <= 0.0 ==> r == 0.0
  {
    if valorMaxFinal > 0.0 then (notaFinal / valorMaxFinal) * 100.0 else 0.0
  }

  function Classificar(percentual: real): (r: Situacao)
    ensures r == Reprovado <==> percentual < 50.0
    ensures r == Recuperacao <==> 50.0 <= percentual < 70.0
    ensures r == Aprovado <==> 70.0 <= percentual
  {
    if percentual < 50.0 then Reprovado
    else if percentual < 70.0 then Recuperacao
    else Aprovado
  }

  /** The totals over every period are the sums over all assessments of all
      array-valued periods; other period values contribute nothing. */
  lemma {:induction false} SomaPeriodosTodas(ps: seq<Periodo>, m: Medida)
    ensures SomaPeriodos(ps, m) == Soma(Todas(ps), m)
    decreases |ps|
  {
    if ps != [] {
      var init := ps[..|ps| - 1];
      var last := ps[|ps| - 1];
      SomaPeriodosTodas(init, m);
      SomaConcat(Todas(init), if last.Lista? then last.avaliacoes else [], m);
    }
  }

  /** The total is the sum of the four periods' contributions. */
  lemma TotalPorBimestre(notas: Notas, m: Medida)
    ensures Total(notas, m) == Contribuicao(notas.b1, m) + Contribuicao(notas.b2, m)
                               + Contribuicao(notas.b3, m) + Contribuicao(notas.b4, m)
  {
    var v := notas.Values();
    assert v[..1][..0] == [];
    assert v[..2][..1] == v[..1] && v[..3][..2] == v[..2] && v[..3] == v[..|v| - 1];
    assert SomaPeriodos(v[..1], m) == Contribuicao(v[0], m);
    assert SomaPeriodos(v[..2], m) == SomaPeriodos(v[..1], m) + Contribuicao(v[1], m);
    assert SomaPeriodos(v[..3], m) == SomaPeriodos(v[..2], m) + Contribuicao(v[2], m);
  }

  /** A period that is not an array contributes nothing: replacing it by an empty
      array leaves both totals unchanged. */
  lemma NaoArrayIgnorado(notas: Notas, b: Bimestre, m: Medida)
    requires !notas.Get(b).Lista?
    ensures Total(notas.With(b, Lista([])), m) == Total(notas, m)
  {
    SomaPeriodosPontual(notas.With(b, Lista([])).Values(), notas.Values(), m);
  }

  /** Period sequences whose values contribute the same, position by position, have the same total. */
  lemma {:induction false} SomaPeriodosPontual(ps: seq<Periodo>, qs: seq<Periodo>, m: Medida)
    requires |ps| == |qs|
    requires forall i :: 0 <= i < |ps| ==> Contribuicao(ps[i], m) == Contribuicao(qs[i], m)
    ensures SomaPeriodos(ps, m) == SomaPeriodos(qs, m)
    decreases |ps|
  {
    if ps != [] {
      SomaPeriodosPontual(ps[..|ps| - 1], qs[..|qs| - 1], m);
    }
  }

  /** The three-way status in terms of the totals, by cross-multiplication:
      a positive maximum is needed for anything but Reprovado. */
  lemma {:induction false} ClassificarLimites(notaFinal: real, valorMaxFinal: real)
    ensures Classificar(Percentual(notaFinal, valorMaxFinal)) == Reprovado
            <==> valorMaxFinal <= 0.0 || 100.0 * notaFinal < 50.0 * valorMaxFinal
    ensures Classificar(Percentual(notaFinal, valorMaxFinal)) == Recuperacao
            <==> valorMaxFinal > 0.0 && 50.0 * valorMaxFinal <= 100.0 * notaFinal < 70.0 * valorMaxFinal
    ensures Classificar(Percentual(notaFinal, valorMaxFinal)) == Aprovado
            <==> valorMaxFinal > 0.0 && 70.0 * valorMaxFinal <= 100.0 * notaFinal
  {
    if valorMaxFinal > 0.0 {
      var q := notaFinal / valorMaxFinal;
      assert q * valorMaxFinal == notaFinal;
      var p := Percentual(notaFinal, valorMaxFinal);
      assert p * valorMaxFinal == 100.0 * notaFinal;
      PercentualMenor(p, valorMaxFinal, 100.0 * notaFinal, 50.0);
      PercentualMenor(p, valorMaxFinal, 100.0 * notaFinal, 70.0);
    }
  }

  /** For a positive maximum, comparing p with a threshold is comparing p * max with threshold * max. */
  lemma PercentualMenor(p: real, max: real, pm: real, t: real)
    requires max > 0.0 && p * max == pm
    ensures p < t <==> pm < t * max
  {
    if p < t {
      assert (t - p) * max > 0.0;
    } else {
      assert (p - t) * max >= 0.0;
    }
  }

  /** Exactly 50 percent is Recuperação, exactly 70 percent is Aprovado, and an
      empty or non-positive maximum is Reprovado. */
  lemma LimitesExatos(notaFinal: real, valorMaxFinal: real)
    ensures valorMaxFinal > 0.0 && 2.0 * notaFinal == valorMaxFinal
            ==> Classificar(Percentual(notaFinal, valorMaxFinal)) == Recuperacao
    ensures valorMaxFinal > 0.0 && 10.0 * notaFinal == 7.0 * valorMaxFinal
            ==> Classificar(Percentual(notaFinal, valorMaxFinal)) == Aprovado
    ensures valorMaxFinal <= 0.0 ==> Classificar(Percentual(notaFinal, valorMaxFinal)) == Reprovado
  {
    ClassificarLimites(notaFinal, valorMaxFinal);
  }

  /** `calcularStatus(notas)`: the nested `forEach` accumulation and the status
      reassignment. */
  method CalcularStatus(notas: Notas) returns (notaFinal: real, valorMaxFinal: real, status: Situacao)
    ensures notaFinal == Total(notas, Nota)
    ensures valorMaxFinal == Total(notas, ValorMax)
    ensures status == Classificar(Percentual(notaFinal, valorMaxFinal))
  {
    notaFinal, valorMaxFinal := 0.0, 0.0;
    var periodos := notas.Values();
    var i := 0;
    while i < |periodos|
      invariant 0 <= i <= |periodos|
      invariant notaFinal == SomaPeriodos(periodos[..i], Nota)
      invariant valorMaxFinal == SomaPeriodos(periodos[..i], ValorMax)
    {
      var bimestre := periodos[i];
      assert periodos[..i + 1][..i] == periodos[..i];
      if bimestre.Lista? {
        var avs := bimestre.avaliacoes;
        var j := 0;
        while j < |avs|
          invariant 0 <= j <= |avs|
          invariant notaFinal == SomaPeriodos(periodos[..i], Nota) + Soma(avs[..j], Nota)
          invariant valorMaxFinal == SomaPeriodos(periodos[..i], ValorMax) + Soma(avs[..j], ValorMax)
        {
          assert avs[..j + 1][..j] == avs[..j];
          notaFinal := notaFinal + Pontos(avs[j].nota);
          valorMaxFinal := valorMaxFinal + Pontos(avs[j].valorMax);
          j := j + 1;
        }
        assert avs[..j] == avs;
      }
      i := i + 1;
    }
    assert periodos[..i] == periodos;
    var percentual := if valorMaxFinal > 0.0 then (notaFinal / valorMaxFinal) * 100.0 else 0.0;
    status := Aprovado;
    if percentual < 50.0 {
      status := Reprovado;
    } else if percentual < 70.0 {
      status := Recuperacao;
    }
  }
}
