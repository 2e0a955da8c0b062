/** The two tables the diagnostic functions share, and the query primitives they use. */
module DiagnosticTables {
  import opened Wrappers
  import opened Pillars

  /** A row of `respuestas_diagnostico`. `model_response` is the narrative an outside process
      writes later; `id_entrenamiento` is nullable in the table. */
  datatype DiagnosticRow = DiagnosticRow(
    id: int,
    nombre: string,
    email: string,
    telefono: Option<string>,
    submissionId: string,
    scores: Scores,
    areaMasBaja: string,
    idEntrenamiento: Option<int>,
    modelResponse: Option<string>)

  /** A row of `entrenamientos_recomendados`, the read-only training catalogue. */
  datatype TrainingRow = TrainingRow(
    id: int,
    area: string,
    nombreEntrenamiento: string,
    linkEntrenamiento: string,
    descripcion: Option<string>)

  /** The rows an `.eq(...)` chain keeps, in table order. */
  function Filter<T(!new)>(rows: seq<T>, keep: T -> bool): (r: seq<T>)
    ensures |r| <= |rows|
    ensures forall x :: x in r <==> x in rows && keep(x)
  {
    if rows == [] then []
    else (if keep(rows[0]) then [rows[0]] else []) + Filter(rows[1..], keep)
  }

  /** PostgREST's `.single()`: the row when exactly one row is selected, an error otherwise. */
  function Single<T>(rows: seq<T>): (r: Option<T>)
    ensures r.Some? <==> |rows| == 1
    ensures r.Some? ==> r.value == rows[0]
  {
    if |rows| == 1 then Some(rows[0]) else None
  }

  /** Nothing is selected when no row passes. */
  lemma {:induction false} FilterNone<T(!new)>(rows: seq<T>, keep: T -> bool)
    requires forall k :: 0 <= k < |rows| ==> !keep(rows[k])
    ensures Filter(rows, keep) == []
  {
    if rows != [] {
      FilterNone(rows[1..], keep);
    }
  }

  /** Exactly the row at `i` is selected when it is the only row that passes. */
  lemma {:induction false} FilterSingleton<T(!new)>(rows: seq<T>, keep: T -> bool, i: nat)
    requires i < |rows| && keep(rows[i])
    requires forall k :: 0 <= k < |rows| && k != i ==> !keep(rows[k])
    ensures Filter(rows, keep) == [rows[i]]
  {
    if i == 0 {
      FilterNone(rows[1..], keep);
    } else {
      FilterSingleton(rows[1..], keep, i - 1);
    }
  }

  /** Two rows that pass are both selected. */
  lemma {:induction false} FilterKeepsTwo<T(!new)>(rows: seq<T>, keep: T -> bool, i: nat, j: nat)
    requires i < j < |rows| && keep(rows[i]) && keep(rows[j])
    ensures |Filter(rows, keep)| >= 2
  {
    if i == 0 {
      assert rows[1..][j - 1] == rows[j];
      assert rows[j] in Filter(rows[1..], keep);
    } else {
      FilterKeepsTwo(rows[1..], keep, i - 1, j - 1);
    }
  }

  /** The row at `i` passes and no other row does. */
  predicate OnlyPassAt<T>(rows: seq<T>, keep: T -> bool, i: int)
  {
    0 <= i < |rows| && keep(rows[i]) && forall k :: 0 <= k < |rows| && k != i ==> !keep(rows[k])
  }

  /** `.single()` after a filter finds a row exactly when one row of the table passes. */
  lemma SingleFilter<T(!new)>(rows: seq<T>, keep: T -> bool)
    ensures Single(Filter(rows, keep)).Some? <==> exists i :: OnlyPassAt(rows, keep, i)
    ensures forall i :: OnlyPassAt(rows, keep, i) ==> Filter(rows, keep) == [rows[i]]
  {
    forall i | OnlyPassAt(rows, keep, i)
      ensures Filter(rows, keep) == [rows[i]]
    {
      FilterSingleton(rows, keep, i);
    }
    if Single(Filter(rows, keep)).Some? {
      var x := Filter(rows, keep)[0];
      assert x in Filter(rows, keep);
      var i :| 0 <= i < |rows| && rows[i] == x;
      forall k | 0 <= k < |rows| && k != i
        ensures !keep(rows[k])
      {
        if keep(rows[k]) {
          if i < k {
            FilterKeepsTwo(rows, keep, i, k);
          } else {
            FilterKeepsTwo(rows, keep, k, i);
          }
        }
      }
      assert OnlyPassAt(rows, keep, i);
    }
  }

  /** `.eq('id', k).single()` on the catalogue. */
  function TrainingWithId(trainings: seq<TrainingRow>, k: int): (r: Option<TrainingRow>)
    ensures r.Some? ==> r.value in trainings && r.value.id == k
  {
    Single(Filter(trainings, (t: TrainingRow) => t.id == k))
  }

  /** Catalogue ids are pairwise distinct, as a primary key is. */
  predicate DistinctIds(trainings: seq<TrainingRow>)
  {
    forall i, j :: 0 <= i < |trainings| && 0 <= j < |trainings| && trainings[i].id == trainings[j].id ==> i == j
  }

  /** With distinct ids, every catalogue training is found by its own id. */
  lemma TrainingWithOwnId(trainings: seq<TrainingRow>, t: TrainingRow)
    requires DistinctIds(trainings) && t in trainings
    ensures TrainingWithId(trainings, t.id) == Some(t)
  {
    var i :| 0 <= i < |trainings| && trainings[i] == t;
    FilterSingleton(trainings, (x: TrainingRow) => x.id == t.id, i);
  }
}
