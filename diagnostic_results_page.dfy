/** The results page: the six pillar cards, their average, the three zones, the weakest pillar
    (the stored area, or a recomputed minimum) and the recommended training. */
module DiagnosticResultsPage {
  import opened Wrappers
  import opened JsText
  import opened Pillars
  import opened UseDiagnosticResults

  /** One entry of `pillars`. */
  datatype PillarCard = PillarCard(name: string, score: real, key: string)

  /** `pillars`, in the order the page lists them. */
  function Cards(d: DiagnosticData): (cards: seq<PillarCard>)
    ensures |cards| == 6
  {
    [PillarCard("Visión y Claridad", d.claridadDireccion, "claridad_direccion"),
     PillarCard("Dominio emocional en momentos críticos", d.dominioEmocional, "dominio_emocional"),
     PillarCard("Enfoque y energía personal", d.energiaEnfoque, "energia_enfoque"),
     PillarCard("Liderazgo", d.autoliderazgo, "autoliderazgo"),
     PillarCard("Influencia y comunicación", d.influenciaComunicacion, "influencia_comunicacion"),
     PillarCard("Adaptabilidad y Cambio", d.cambioAdaptabilidad, "cambio_adaptabilidad")]
  }

  /** No two cards share a name, and no two share a key. */
  lemma CardsAreDistinct(d: DiagnosticData, i: nat, j: nat)
    requires i < 6 && j < 6
    ensures Cards(d)[i].name == Cards(d)[j].name ==> i == j
    ensures Cards(d)[i].key == Cards(d)[j].key ==> i == j
  {
    var c := Cards(d);
    if i != j {
      assert |c[i].name| != |c[j].name|;
      assert |c[i].key| != |c[j].key|;
    }
  }

  /** `reduce((sum, p) => sum + p.score, 0)`, folding from the left. */
  function SumScores(cards: seq<PillarCard>): real
  {
    if cards == [] then 0.0 else SumScores(cards[..|cards| - 1]) + cards[|cards| - 1].score
  }

  /** `averageScore`. */
  function AverageScore(d: DiagnosticData): (avg: real)
    ensures avg == (d.claridadDireccion + d.dominioEmocional + d.energiaEnfoque + d.autoliderazgo +
                    d.influenciaComunicacion + d.cambioAdaptabilidad) / 6.0
  {
    var cards := Cards(d);
    SumOfSix(cards);
    SumScores(cards) / (|cards| as real)
  }

  /** The left fold over six cards is their sum. */
  lemma SumOfSix(c: seq<PillarCard>)
    requires |c| == 6
    ensures SumScores(c) == c[0].score + c[1].score + c[2].score + c[3].score + c[4].score + c[5].score
  {
    assert c[..1][..0] == [];
    assert SumScores(c[..1]) == c[0].score;
    assert c[..2][..1] == c[..1];
    assert SumScores(c[..2]) == c[0].score + c[1].score;
    assert c[..3][..2] == c[..2];
    assert SumScores(c[..3]) == c[0].score + c[1].score + c[2].score;
    assert c[..4][..3] == c[..3];
    assert SumScores(c[..4]) == c[0].score + c[1].score + c[2].score + c[3].score;
    assert c[..5][..4] == c[..4];
    assert SumScores(c[..5]) == c[0].score + c[1].score + c[2].score + c[3].score + c[4].score;
    assert c[..6][..5] == c[..5];
    assert c[..6] == c;
  }

  /** The average lies between the lowest and the highest card score. */
  lemma AverageBetweenExtremes(d: DiagnosticData, lo: real, hi: real)
    requires forall i :: 0 <= i < 6 ==> lo <= Cards(d)[i].score <= hi
    ensures lo <= AverageScore(d) <= hi
  {
    var c := Cards(d);
    assert lo <= c[0].score && lo <= c[1].score && lo <= c[2].score && lo <= c[3].score && lo <= c[4].score && lo <= c[5].score;
    assert c[0].score <= hi && c[1].score <= hi && c[2].score <= hi && c[3].score <= hi && c[4].score <= hi && c[5].score <= hi;
  }

  datatype Zone = Optima | Mejora | Critica
  {
    function Name(): string
    {
      match this
      case Optima => "Zona Óptima"
      case Mejora => "Zona de Mejora"
      case Critica => "Zona Crítica"
    }
  }

  /** `getZoneInfo(score).zone`: 7 and up, 4 up to 7, below 4. */
  function GetZone(score: real): (z: Zone)
    ensures z == Optima <==> score >= 7.0
    ensures z == Mejora <==> 4.0 <= score < 7.0
    ensures z == Critica <==> score < 4.0
  {
    if score >= 7.0 then Optima
    else if score >= 4.0 then Mejora
    else Critica
  }

  /** `pillars.find(p => p.key === key)`. */
  function FindByKey(cards: seq<PillarCard>, key: string): (r: Option<PillarCard>)
    ensures r.Some? ==> r.value in cards && r.value.key == key
    ensures r.None? <==> forall i :: 0 <= i < |cards| ==> cards[i].key != key
  {
    if cards == [] then None
    else if cards[0].key == key then Some(cards[0])
    else
      var r := FindByKey(cards[1..], key);
      assert forall i :: 1 <= i < |cards| ==> cards[i] == cards[1..][i - 1];
      r
  }

  /** Where the accumulator of `pillars.reduce((min, p) => p.score < min.score ? p : min)` ends:
      a lowest card that every earlier card strictly beats. */
  function ReduceMinIndex(cards: seq<PillarCard>): (m: nat)
    requires |cards| > 0
    ensures m < |cards|
    ensures forall j :: 0 <= j < |cards| ==> cards[m].score <= cards[j].score
    ensures forall j :: 0 <= j < m ==> cards[j].score > cards[m].score
  {
    if |cards| == 1 then 0
    else
      var init := cards[..|cards| - 1];
      var k := ReduceMinIndex(init);
      assert forall j :: 0 <= j < |init| ==> init[j] == cards[j];
      if cards[|cards| - 1].score < cards[k].score then |cards| - 1 else k
  }

  /** `weakestPillar`: the card whose key is the stored area, else the recomputed minimum. */
  function Weakest(d: DiagnosticData): PillarCard
  {
    match FindByKey(Cards(d), d.areaMasBaja)
    case Some(c) => c
    case None => Cards(d)[ReduceMinIndex(Cards(d))]
  }

  /** A card whose key is the stored area is the weakest. */
  lemma StoredAreaDecides(d: DiagnosticData, i: nat)
    requires i < 6 && Cards(d)[i].key == d.areaMasBaja
    ensures Weakest(d) == Cards(d)[i]
  {
    var c := FindByKey(Cards(d), d.areaMasBaja).value;
    var j :| 0 <= j < 6 && Cards(d)[j] == c;
    CardsAreDistinct(d, i, j);
  }

  /** With no card for the stored area, the weakest is the first card with the lowest score. */
  lemma OtherwiseFirstMinimum(d: DiagnosticData)
    requires forall i :: 0 <= i < 6 ==> Cards(d)[i].key != d.areaMasBaja
    ensures exists m :: 0 <= m < 6 && Weakest(d) == Cards(d)[m] &&
                        (forall j :: 0 <= j < 6 ==> Cards(d)[m].score <= Cards(d)[j].score) &&
                        (forall j :: 0 <= j < m ==> Cards(d)[j].score > Cards(d)[m].score)
  {
    var m := ReduceMinIndex(Cards(d));
    assert Weakest(d) == Cards(d)[m];
  }

  /** The backend stores `conexion_proposito`, a key no card has (the page calls the sixth
      pillar `cambio_adaptabilidad`), so such a record is always decided by the recomputation. */
  lemma ConexionPropositoIsRecomputed(d: DiagnosticData)
    requires d.areaMasBaja == Key(ConexionProposito)
    ensures Weakest(d) == Cards(d)[ReduceMinIndex(Cards(d))]
  {
    var c := Cards(d);
    assert c[0].key[1] != d.areaMasBaja[1];
    assert |c[1].key| != |d.areaMasBaja| && |c[2].key| != |d.areaMasBaja| && |c[3].key| != |d.areaMasBaja|;
    assert |c[4].key| != |d.areaMasBaja| && |c[5].key| != |d.areaMasBaja|;
  }

  /** The data carries exactly the scores the server saw, the sixth arriving under the page's
      name. The endpoint as written sends it only under the other name. */
  predicate SameScores(d: DiagnosticData, s: Scores)
  {
    d.claridadDireccion == s.claridadDireccion && d.dominioEmocional == s.dominioEmocional &&
    d.energiaEnfoque == s.energiaEnfoque && d.autoliderazgo == s.autoliderazgo &&
    d.influenciaComunicacion == s.influenciaComunicacion && d.cambioAdaptabilidad == s.conexionProposito
  }

  /** The recomputed minimum sits where the handler's choice does. */
  lemma RecomputationIsHandlerChoice(d: DiagnosticData, s: Scores)
    requires SameScores(d, s)
    ensures ReduceMinIndex(Cards(d)) == Position(AreaWithLowestScore(s))
  {
    var c := Cards(d);
    var m := ReduceMinIndex(c);
    var p := Order[m];
    PositionOfOrder(m);
    assert forall q :: c[Position(q)].score == ScoreOf(s, q);
    assert IsFirstMinimum(s, p);
    AreaWithLowestScoreCharacterised(s, p);
  }

  /** The first five cards carry the column names as keys. */
  lemma CardKeyIsColumn(d: DiagnosticData, p: Pillar)
    requires p != ConexionProposito
    ensures Cards(d)[Position(p)].key == Key(p)
  {
  }

  /** Whichever way the page decides, it highlights the pillar the submission handler chose,
      provided the page gets the six scores the handler saw. */
  lemma PageAgreesWithHandler(d: DiagnosticData, s: Scores)
    requires SameScores(d, s) && d.areaMasBaja == Key(AreaWithLowestScore(s))
    ensures Weakest(d) == Cards(d)[Position(AreaWithLowestScore(s))]
  {
    var a := AreaWithLowestScore(s);
    if a == ConexionProposito {
      ConexionPropositoIsRecomputed(d);
      RecomputationIsHandlerChoice(d, s);
    } else {
      CardKeyIsColumn(d, a);
      StoredAreaDecides(d, Position(a));
    }
  }

  /** A training title and address. */
  datatype Link = Link(title: string, url: string)

  /** `trainingLinks`, keyed by pillar name; it also has an entry no card uses. */
  const TrainingLinks: map<string, Link> := map[
    "Visión y Claridad" := Link("Cómo mantener el enfoque correcto", "https://entrenamiento.com/enfoque"),
    "Dominio emocional en momentos críticos" := Link("Aprende a controlar lo que te frena", "https://entrenamiento.com/emociones"),
    "Enfoque y energía personal" := Link("Sálvate de la procrastinación", "https://entrenamiento.com/procrastinacion"),
    "Liderazgo" := Link("Por qué terminan las rachas ganadoras", "https://entrenamiento.com/rachas"),
    "Influencia y comunicación" := Link("La crítica en equipos / Arte de convencer", "https://entrenamiento.com/comunicacion"),
    "Adaptabilidad y Cambio" := Link("No puedes cambiar lo que no eres consciente", "https://entrenamiento.com/proposito"),
    "Apertura al cambio profundo" := Link("La estrategia del camaleón", "https://entrenamiento.com/cambio")
  ]

  /** Every card name has a fallback training, so the lookup below is defined. */
  lemma EveryCardHasFallback(d: DiagnosticData)
    ensures forall i :: 0 <= i < 6 ==> Cards(d)[i].name in TrainingLinks
  {
  }

  /** `recommendedTraining`: the stored training when the record has one, else the fallback for
      the weakest pillar's name. */
  function Recommended(d: DiagnosticData): (l: Link)
    ensures d.entrenamientosRecomendados.Some? ==>
      l == Link(d.entrenamientosRecomendados.value.nombreEntrenamiento, d.entrenamientosRecomendados.value.linkEntrenamiento)
    ensures d.entrenamientosRecomendados.None? ==> Weakest(d).name in TrainingLinks && l == TrainingLinks[Weakest(d).name]
  {
    match d.entrenamientosRecomendados
    case Some(t) => Link(t.nombreEntrenamiento, t.linkEntrenamiento)
    case None =>
      EveryCardHasFallback(d);
      assert Weakest(d) in Cards(d);
      TrainingLinks[Weakest(d).name]
  }

  /** A card as drawn: its name, its zone and whether it is ringed as the weakest. */
  datatype CardView = CardView(name: string, zone: Zone, isWeakest: bool)

  /** What the page shows. A report's `analysis` is the personalised analysis panel, drawn only
      for a truthy `model_response`. */
  datatype Screen =
    | Spinner
    | NotFound(message: string)
    | Report(average: real, averageZone: Zone, weakest: string, recommended: Link, cards: seq<CardView>,
             analysis: Option<string>)

  const NotLoaded := "No se pudieron cargar tus resultados del diagnóstico."

  function CardViews(d: DiagnosticData): (views: seq<CardView>)
    ensures |views| == 6
  {
    var w := Weakest(d);
    seq(6, i requires 0 <= i < 6 => CardView(Cards(d)[i].name, GetZone(Cards(d)[i].score), Cards(d)[i].name == w.name))
  }

  /** The render: the spinner while loading, then "not found" for an error or no data, then
      the report. */
  function Render(loading: bool, error: Option<string>, data: Option<DiagnosticData>): (s: Screen)
    ensures loading ==> s == Spinner
    ensures !loading && (Given(error) || data.None?) ==> s == NotFound(OrElse(error.GetOr(""), NotLoaded))
    ensures s.Report? <==> !loading && !Given(error) && data.Some?
    ensures s.Report? ==>
      (s.average == AverageScore(data.value) && s.averageZone == GetZone(s.average) &&
       s.weakest == Weakest(data.value).name && s.recommended == Recommended(data.value) &&
       s.cards == CardViews(data.value))
    ensures s.Report? ==> s.analysis == (if Given(data.value.modelResponse) then data.value.modelResponse else None)
  {
    if loading then Spinner
    else if Given(error) || data.None? then NotFound(OrElse(error.GetOr(""), NotLoaded))
    else
      var d := data.value;
      Report(AverageScore(d), GetZone(AverageScore(d)), Weakest(d).name, Recommended(d), CardViews(d),
             if Given(d.modelResponse) then d.modelResponse else None)
  }

  /** Exactly one card of a report is ringed as the weakest. */
  lemma ExactlyOneWeakestCard(d: DiagnosticData)
    ensures exists i :: 0 <= i < 6 && CardViews(d)[i].isWeakest
    ensures forall i, j :: 0 <= i < 6 && 0 <= j < 6 && CardViews(d)[i].isWeakest && CardViews(d)[j].isWeakest ==> i == j
  {
    var k := WeakestCardIndex(d);
    assert CardViews(d)[k].isWeakest;
    forall i, j | 0 <= i < 6 && 0 <= j < 6 && CardViews(d)[i].isWeakest && CardViews(d)[j].isWeakest
      ensures i == j
    {
      CardsAreDistinct(d, i, j);
    }
  }

  /** The card ringed as the weakest is the weakest pillar's card, and no other. */
  lemma RingedCardIsWeakest(d: DiagnosticData)
    ensures forall i :: 0 <= i < 6 ==> (CardViews(d)[i].isWeakest <==> Cards(d)[i] == Weakest(d))
  {
    var k := WeakestCardIndex(d);
    forall i | 0 <= i < 6
      ensures CardViews(d)[i].isWeakest <==> Cards(d)[i] == Weakest(d)
    {
      CardsAreDistinct(d, i, k);
    }
  }

  /** The place of the weakest card among the six. */
  lemma WeakestCardIndex(d: DiagnosticData) returns (k: nat)
    ensures k < 6 && Cards(d)[k] == Weakest(d)
  {
    if FindByKey(Cards(d), d.areaMasBaja).Some? {
      assert Weakest(d) in Cards(d);
      k :| 0 <= k < 6 && Cards(d)[k] == Weakest(d);
    } else {
      k := ReduceMinIndex(Cards(d));
    }
  }

  /** Six sevens are in the optimal zone on average; six threes in the critical one. */
  lemma ZoneExamples(d: DiagnosticData)
    ensures SameScores(d, Scores(7.0, 7.0, 7.0, 7.0, 7.0, 7.0)) ==> GetZone(AverageScore(d)) == Optima
    ensures SameScores(d, Scores(3.0, 3.0, 3.0, 3.0, 3.0, 3.0)) ==> GetZone(AverageScore(d)) == Critica
  {
  }
}
