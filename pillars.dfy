/** The six pillar scores of a submission and the choice of the weakest one, as the
    submission handler computes it: `Math.min` over the values, then `find` over the keys. */
module Pillars {
  import opened Wrappers

  datatype Pillar =
    | ClaridadDireccion
    | DominioEmocional
    | EnergiaEnfoque
    | Autoliderazgo
    | InfluenciaComunicacion
    | ConexionProposito

  /** The column name, which is also the key of the `scores` object and the stored area. */
  function Key(p: Pillar): string
  {
    match p
    case ClaridadDireccion => "claridad_direccion"
    case DominioEmocional => "dominio_emocional"
    case EnergiaEnfoque => "energia_enfoque"
    case Autoliderazgo => "autoliderazgo"
    case InfluenciaComunicacion => "influencia_comunicacion"
    case ConexionProposito => "conexion_proposito"
  }

  /** The declaration order of the `scores` object literal, which `Object.keys` follows. */
  const Order: seq<Pillar> :=
    [ClaridadDireccion, DominioEmocional, EnergiaEnfoque, Autoliderazgo, InfluenciaComunicacion, ConexionProposito]

  /** The place of a pillar in Order. */
  function Position(p: Pillar): (i: nat)
    ensures i < |Order| && Order[i] == p
  {
    match p
    case ClaridadDireccion => 0
    case DominioEmocional => 1
    case EnergiaEnfoque => 2
    case Autoliderazgo => 3
    case InfluenciaComunicacion => 4
    case ConexionProposito => 5
  }

  /** No key is shared, so a stored area names one pillar. */
  lemma KeysAreDistinct(p: Pillar, q: Pillar)
    ensures Key(p) == Key(q) <==> p == q
  {
    if p != q {
      assert Key(p)[..3] != Key(q)[..3] || |Key(p)| != |Key(q)| || Key(p)[10..] != Key(q)[10..];
    }
  }

  datatype Scores = Scores(
    claridadDireccion: real,
    dominioEmocional: real,
    energiaEnfoque: real,
    autoliderazgo: real,
    influenciaComunicacion: real,
    conexionProposito: real)

  function ScoreOf(s: Scores, p: Pillar): real
  {
    match p
    case ClaridadDireccion => s.claridadDireccion
    case DominioEmocional => s.dominioEmocional
    case EnergiaEnfoque => s.energiaEnfoque
    case Autoliderazgo => s.autoliderazgo
    case InfluenciaComunicacion => s.influenciaComunicacion
    case ConexionProposito => s.conexionProposito
  }

  /** `Object.values(scores)`: the scores in key order. */
  function Values(s: Scores): (vs: seq<real>)
    ensures |vs| == |Order|
    ensures forall i :: 0 <= i < |Order| ==> vs[i] == ScoreOf(s, Order[i])
  {
    [s.claridadDireccion, s.dominioEmocional, s.energiaEnfoque,
     s.autoliderazgo, s.influenciaComunicacion, s.conexionProposito]
  }

  /** `Math.min(...xs)` on a non-empty list: an element that no element is below. */
  function MinOf(xs: seq<real>): (m: real)
    requires |xs| > 0
    ensures m in xs
    ensures forall i :: 0 <= i < |xs| ==> m <= xs[i]
  {
    if |xs| == 1 then xs[0]
    else
      var rest := MinOf(xs[1..]);
      if xs[0] <= rest then xs[0] else rest
  }

  /** `keys.find(key => scores[key] === m)`: the first key whose score is `m`. */
  function FindWithScore(keys: seq<Pillar>, s: Scores, m: real): (r: Option<Pillar>)
    ensures r.Some? ==> r.value in keys && ScoreOf(s, r.value) == m
    ensures forall j :: 0 <= j < |keys| && ScoreOf(s, keys[j]) == m ==> r.Some? && r.value in keys[..j + 1]
  {
    if keys == [] then None
    else if ScoreOf(s, keys[0]) == m then Some(keys[0])
    else
      var r := FindWithScore(keys[1..], s, m);
      assert forall j :: 1 <= j < |keys| ==> keys[1..][..j] == keys[1..j + 1];
      r
  }

  /** `Math.min(...Object.values(scores))`. */
  function LowestScore(s: Scores): (m: real)
    ensures m in Values(s)
    ensures forall p: Pillar :: m <= ScoreOf(s, p)
  {
    assert forall p: Pillar :: Values(s)[Position(p)] == ScoreOf(s, p);
    MinOf(Values(s))
  }

  /** The area the handler stores as `area_mas_baja`: its score is the lowest. */
  function AreaWithLowestScore(s: Scores): (p: Pillar)
    ensures ScoreOf(s, p) == LowestScore(s)
  {
    assert Values(s)[0] == s.claridadDireccion;
    FindWithScore(Order, s, LowestScore(s)).value
  }

  /** The independent description of the choice: a pillar with the lowest score that every
      pillar before it in Order strictly beats. */
  ghost predicate IsFirstMinimum(s: Scores, p: Pillar)
  {
    (forall q :: ScoreOf(s, p) <= ScoreOf(s, q)) &&
    (forall q :: Position(q) < Position(p) ==> ScoreOf(s, q) > ScoreOf(s, p))
  }

  /** The chosen area's score is at most every pillar's score. */
  lemma LowestAreaIsMinimum(s: Scores)
    ensures forall q :: ScoreOf(s, AreaWithLowestScore(s)) <= ScoreOf(s, q)
  {
    forall q ensures ScoreOf(s, AreaWithLowestScore(s)) <= ScoreOf(s, q) {
      assert Values(s)[Position(q)] == ScoreOf(s, q);
    }
  }

  /** Reading Order at a place gives back that place. */
  lemma PositionOfOrder(k: nat)
    requires k < |Order|
    ensures Position(Order[k]) == k
  {
    if k == 0 {} else if k == 1 {} else if k == 2 {} else if k == 3 {} else if k == 4 {} else {}
  }

  /** A pillar at place `j` with the lowest score puts the choice at `j` or before. */
  lemma ChoiceNoLaterThan(s: Scores, j: nat)
    requires j < |Order| && ScoreOf(s, Order[j]) == LowestScore(s)
    ensures Position(AreaWithLowestScore(s)) <= j
  {
    var a := AreaWithLowestScore(s);
    var r := FindWithScore(Order, s, LowestScore(s));
    var before := Order[..j + 1];
    assert r.value == a && a in before;
    if Position(a) > j {
      forall i | 0 <= i < |before| ensures before[i] != a {
        PositionOfOrder(i);
      }
    }
  }

  /** Ties go to the earliest key: no pillar before the chosen one reaches the minimum. */
  lemma LowestAreaTieBreak(s: Scores)
    ensures forall q :: Position(q) < Position(AreaWithLowestScore(s)) ==>
      ScoreOf(s, q) > ScoreOf(s, AreaWithLowestScore(s))
  {
    var a := AreaWithLowestScore(s);
    LowestAreaIsMinimum(s);
    forall q | Position(q) < Position(a) ensures ScoreOf(s, q) > ScoreOf(s, a) {
      if ScoreOf(s, q) == ScoreOf(s, a) {
        ChoiceNoLaterThan(s, Position(q));
      }
    }
  }

  /** Two first minima of the same scores are the same pillar. */
  lemma FirstMinimumUnique(s: Scores, p: Pillar, p': Pillar)
    requires IsFirstMinimum(s, p) && IsFirstMinimum(s, p')
    ensures p == p'
  {
    assert ScoreOf(s, p) <= ScoreOf(s, p') && ScoreOf(s, p') <= ScoreOf(s, p);
  }

  /** The handler's choice is the first minimum, and it is the only one. */
  lemma AreaWithLowestScoreCharacterised(s: Scores, p: Pillar)
    ensures IsFirstMinimum(s, AreaWithLowestScore(s))
    ensures IsFirstMinimum(s, p) <==> p == AreaWithLowestScore(s)
  {
    LowestAreaIsMinimum(s);
    LowestAreaTieBreak(s);
    if IsFirstMinimum(s, p) {
      FirstMinimumUnique(s, p, AreaWithLowestScore(s));
    }
  }

  /** Distinct scores 1..6 in key order choose the first pillar. */
  lemma IncreasingScoresChooseFirst()
    ensures AreaWithLowestScore(Scores(1.0, 2.0, 3.0, 4.0, 5.0, 6.0)) == ClaridadDireccion
  {
    var s := Scores(1.0, 2.0, 3.0, 4.0, 5.0, 6.0);
    assert IsFirstMinimum(s, ClaridadDireccion);
    AreaWithLowestScoreCharacterised(s, ClaridadDireccion);
  }

  /** A tie for the minimum between the first two pillars goes to the first. */
  lemma TieChoosesFirstKey()
    ensures AreaWithLowestScore(Scores(3.0, 3.0, 5.0, 5.0, 5.0, 5.0)) == ClaridadDireccion
  {
    var s := Scores(3.0, 3.0, 5.0, 5.0, 5.0, 5.0);
    assert IsFirstMinimum(s, ClaridadDireccion);
    AreaWithLowestScoreCharacterised(s, ClaridadDireccion);
  }

  /** A tie between the fourth and the sixth pillar goes to the fourth. */
  lemma TieChoosesEarlierKey()
    ensures AreaWithLowestScore(Scores(5.0, 4.0, 5.0, 2.0, 5.0, 2.0)) == Autoliderazgo
  {
    var s := Scores(5.0, 4.0, 5.0, 2.0, 5.0, 2.0);
    assert IsFirstMinimum(s, Autoliderazgo) by {
      forall q ensures ScoreOf(s, Autoliderazgo) <= ScoreOf(s, q) {}
      forall q | Position(q) < Position(Autoliderazgo) ensures ScoreOf(s, q) > ScoreOf(s, Autoliderazgo) {}
    }
    AreaWithLowestScoreCharacterised(s, Autoliderazgo);
  }
}
