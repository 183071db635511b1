/**
 * The task list panel `src/pages/TaskMaster.jsx`: the progress percentage
 * shown above the list and the add-task form.
 */
module TaskMaster {

  import opened JsText
  import Seqs

  datatype Tarea = Tarea(texto: string, completada: bool)

  function Completadas(tareas: seq<Tarea>): (r: nat)
    ensures r <= |tareas|
  {
    |Seqs.Filter(tareas, (t: Tarea) => t.completada)|
  }

  /**
   * `Math.round(x)` for a non-negative rational `x = num / den`: the integer
   * `p` with `p <= x + 1/2 < p + 1`, computed exactly.
   */
  function Redondear(num: nat, den: nat): (p: nat)
    requires den > 0
    ensures 2 * p * den <= 2 * num + den < 2 * (p + 1) * den
  {
    (2 * num + den) / (2 * den)
  }

  /** `totalTareas === 0 ? 0 : Math.round((tareasCompletadas / totalTareas) * 100)` */
  function Progreso(tareas: seq<Tarea>): (p: nat)
    ensures |tareas| == 0 ==> p == 0
    ensures |tareas| > 0 ==> 2 * p * |tareas| <= 200 * Completadas(tareas) + |tareas| < 2 * (p + 1) * |tareas|
  {
    if |tareas| == 0 then 0 else Redondear(100 * Completadas(tareas), |tareas|)
  }

  lemma MulLe(a: nat, b: nat, t: nat)
    requires a <= b
    ensures a * t <= b * t
  {
    assert b * t == a * t + (b - a) * t;
  }

  /** Cancelling a common factor from a strict inequality between products. */
  lemma MulLtCancel(a: nat, b: nat, t: nat)
    requires a * t < b * t
    ensures a < b
  {
    MulMono(b, a, t);
  }

  lemma MulMono(a: nat, b: nat, t: nat)
    ensures a <= b ==> a * t <= b * t
  {
    if a <= b {
      MulLe(a, b, t);
    }
  }

  /** A rounded fraction of at most one hundred percent is at most 100. */
  lemma RedondearHasta100(num: nat, den: nat)
    requires den > 0 && num <= 100 * den
    ensures Redondear(num, den) <= 100
  {
    var p := Redondear(num, den);
    var t := 2 * den;
    assert p * t < 101 * t;
    MulLtCancel(p, 101, t);
  }

  lemma RedondearCompleto(den: nat)
    requires den > 0
    ensures Redondear(100 * den, den) == 100
  {
    RedondearHasta100(100 * den, den);
    var p := Redondear(100 * den, den);
    var t := 2 * den;
    assert 100 * t < (p + 1) * t;
    MulLtCancel(100, p + 1, t);
  }

  lemma RedondearNulo(den: nat)
    requires den > 0
    ensures Redondear(0, den) == 0
  {
    var p := Redondear(0, den);
    var t := 2 * den;
    assert p * t < 1 * t;
    MulLtCancel(p, 1, t);
  }

  /** The percentage is always between 0 and 100. */
  lemma ProgresoAcotado(tareas: seq<Tarea>)
    ensures 0 <= Progreso(tareas) <= 100
  {
    if |tareas| > 0 {
      RedondearHasta100(100 * Completadas(tareas), |tareas|);
    }
  }

  /** With every task done the bar is full. */
  lemma ProgresoCompleto(tareas: seq<Tarea>)
    requires |tareas| > 0 && forall i :: 0 <= i < |tareas| ==> tareas[i].completada
    ensures Progreso(tareas) == 100
  {
    Seqs.FilterKeepsAll(tareas, (t: Tarea) => t.completada);
    RedondearCompleto(|tareas|);
  }

  /** With no task done the bar is empty. */
  lemma ProgresoNulo(tareas: seq<Tarea>)
    requires forall i :: 0 <= i < |tareas| ==> !tareas[i].completada
    ensures Progreso(tareas) == 0
  {
    Seqs.FilterKeepsNone(tareas, (t: Tarea) => t.completada);
    if |tareas| > 0 {
      RedondearNulo(|tareas|);
    }
  }

  /** `2 * q * n` is `q` times `2 * n`. */
  lemma Doble(q: nat, n: nat)
    ensures 2 * q * n == q * (2 * n)
  {
    assert 2 * q * n == q * n + q * n;
  }

  /** `Redondear` is the only integer `q` with `q <= num / den + 1/2 < q + 1`. */
  lemma RedondearUnico(num: nat, den: nat, q: nat)
    requires den > 0
    requires 2 * q * den <= 2 * num + den < 2 * (q + 1) * den
    ensures Redondear(num, den) == q
  {
    var p := Redondear(num, den);
    var t := 2 * den;
    Doble(q, den);
    Doble(p + 1, den);
    Doble(p, den);
    Doble(q + 1, den);
    MulLtCancel(q, p + 1, t);
    MulLtCancel(p, q + 1, t);
  }

  /**
   * The percentage is `Math.round` of `100 * done / total`: the only integer
   * `q` with `q <= 100 * done / total + 1/2 < q + 1`.
   */
  lemma ProgresoUnico(tareas: seq<Tarea>, q: nat)
    requires |tareas| > 0
    requires 2 * q * |tareas| <= 200 * Completadas(tareas) + |tareas| < 2 * (q + 1) * |tareas|
    ensures Progreso(tareas) == q
  {
    RedondearUnico(100 * Completadas(tareas), |tareas|, q);
  }

  /** Rounding is monotone in the numerator. */
  lemma RedondearMonotono(a: nat, b: nat, den: nat)
    requires den > 0 && a <= b
    ensures Redondear(a, den) <= Redondear(b, den)
  {
    var pa, pb := Redondear(a, den), Redondear(b, den);
    Doble(pa, den);
    Doble(pb + 1, den);
    MulLtCancel(pa, pb + 1, 2 * den);
  }

  lemma CompletadasConcat(a: seq<Tarea>, b: seq<Tarea>)
    ensures Completadas(a + b) == Completadas(a) + Completadas(b)
  {
    Seqs.FilterAppend(a, b, (t: Tarea) => t.completada);
  }

  /** Ticking off a task never lowers the percentage. */
  lemma ProgresoCrece(tareas: seq<Tarea>, i: nat)
    requires i < |tareas|
    ensures Progreso(tareas[i := tareas[i].(completada := true)]) >= Progreso(tareas)
  {
    var x := tareas[i];
    var y := x.(completada := true);
    var despues := tareas[i := y];
    assert tareas == tareas[..i] + [x] + tareas[i + 1..];
    assert despues == tareas[..i] + [y] + tareas[i + 1..];
    CompletadasConcat(tareas[..i] + [x], tareas[i + 1..]);
    CompletadasConcat(tareas[..i], [x]);
    CompletadasConcat(tareas[..i] + [y], tareas[i + 1..]);
    CompletadasConcat(tareas[..i], [y]);
    assert [x][1..] == [] && [y][1..] == [];
    assert Completadas([x]) <= Completadas([y]);
    RedondearMonotono(100 * Completadas(tareas), 100 * Completadas(despues), |tareas|);
  }

  /** The add-task form: its one field, the text being typed. */
  class FormularioTarea {
    var nuevaTarea: string

    constructor ()
      ensures nuevaTarea == ""
    {
      nuevaTarea := "";
    }

    /**
     * `handleSubmit`: a non-blank text is handed to `onAgregarTarea` as typed
     * (untrimmed) and the input is cleared; a blank one is ignored.
     */
    method HandleSubmit() returns (agregada: Option<string>)
      modifies this
      ensures Blank(old(nuevaTarea)) ==> agregada.None? && nuevaTarea == old(nuevaTarea)
      ensures !Blank(old(nuevaTarea)) ==> agregada == Some(old(nuevaTarea)) && nuevaTarea == ""
    {
      if Trim(nuevaTarea) != "" {
        agregada := Some(nuevaTarea);
        nuevaTarea := "";
      } else {
        agregada := None;
      }
    }
  }
}
