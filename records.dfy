/** The student record shared by the pages: four grading periods (bimestres) of
    assessments, and an attendance map from ISO date to status. */
module Records {

  datatype Option<T> = None | Some(value: T) {
    function GetOr(default: T): T {
      match this
      case Some(v) => v
      case None => default
    }
  }

  /** Attendance status of one student on one date: `presente`, `ausente`, `atestado`. */
  datatype Presenca = Presente | Ausente | Atestado

  function PresencaValue(p: Presenca): (r: string)
    ensures r in {"presente", "ausente", "atestado"}
    ensures (r == "presente") <==> p == Presente
    ensures (r == "ausente") <==> p == Ausente
    ensures (r == "atestado") <==> p == Atestado
  {
    match p
    case Presente => "presente"
    case Ausente => "ausente"
    case Atestado => "atestado"
  }

  /** One assessment `{id, nome, valorMax, nota}`. A score that is absent or not
      a number is `None`. */
  datatype Avaliacao = Avaliacao(id: string, nome: string, valorMax: Option<real>, nota: Option<real>)

  /** `x || 0`: a missing (or NaN) score counts as zero. */
  function Pontos(x: Option<real>): (r: real)
    ensures x.None? ==> r == 0.0
    ensures x.Some? ==> r == x.value
  {
    x.GetOr(0.0)
  }

  /** The value stored under one period key: absent or falsy (`null`, `""`, `0`,
      `false`), which every use reads as no assessments; an array of assessments;
      or a truthy value that is not an array. */
  datatype Periodo = Missing | Lista(avaliacoes: seq<Avaliacao>) | NotArray

  datatype Bimestre = B1 | B2 | B3 | B4

  /** The `notas` object `{b1, b2, b3, b4}`. */
  datatype Notas = Notas(b1: Periodo, b2: Periodo, b3: Periodo, b4: Periodo) {

    function Get(b: Bimestre): Periodo {
      match b
      case B1 => b1
      case B2 => b2
      case B3 => b3
      case B4 => b4
    }

    /** `{ ...notas, [b]: p }` */
    function With(b: Bimestre, p: Periodo): (r: Notas)
      ensures r.Get(b) == p
      ensures forall c :: c != b ==> r.Get(c) == Get(c)
    {
      match b
      case B1 => this.(b1 := p)
      case B2 => this.(b2 := p)
      case B3 => this.(b3 := p)
      case B4 => this.(b4 := p)
    }

    /** `Object.values(notas)`, in key order b1, b2, b3, b4. */
    function Values(): (r: seq<Periodo>)
      ensures |r| == 4
      ensures r[0] == Get(B1) && r[1] == Get(B2) && r[2] == Get(B3) && r[3] == Get(B4)
    {
      [b1, b2, b3, b4]
    }
  }

  /** Four empty periods: the modal's initial form and the service's default record shape. */
  const NotasVazias: Notas := Notas(Lista([]), Lista([]), Lista([]), Lista([]))

  /** The two numeric fields that the totals add up. */
  datatype Medida = Nota | ValorMax

  function Valor(a: Avaliacao, m: Medida): real {
    match m
    case Nota => Pontos(a.nota)
    case ValorMax => Pontos(a.valorMax)
  }

  /** `avaliacoes.reduce((acc, aval) => acc + (aval[m] || 0), 0)` */
  function Soma(avs: seq<Avaliacao>, m: Medida): (r: real)
    ensures avs == [] ==> r == 0.0
    ensures (forall i :: 0 <= i < |avs| ==> Valor(avs[i], m) >= 0.0) ==> r >= 0.0
    decreases |avs|
  {
    if avs == [] then 0.0 else Soma(avs[..|avs| - 1], m) + Valor(avs[|avs| - 1], m)
  }

  /** The sum distributes over concatenation. */
  lemma {:induction false} SomaConcat(a: seq<Avaliacao>, b: seq<Avaliacao>, m: Medida)
    ensures Soma(a + b, m) == Soma(a, m) + Soma(b, m)
    decreases |b|
  {
    if b == [] {
      assert a + b == a;
    } else {
      var b' := b[..|b| - 1];
      assert (a + b)[..|a + b| - 1] == a + b';
      SomaConcat(a, b', m);
    }
  }

  /** Summing from the front gives the same total as the left fold. */
  lemma SomaCons(a: Avaliacao, rest: seq<Avaliacao>, m: Medida)
    ensures Soma([a] + rest, m) == Valor(a, m) + Soma(rest, m)
  {
    SomaConcat([a], rest, m);
    assert [a][..0] == [];
  }
}
