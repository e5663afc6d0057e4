/** The timestamps the clinic compares and the Spanish weekday names it
    derives from them. A timestamp is a proleptic Gregorian day ordinal
    (day 1 is Monday 0001-01-01, as in Python's `date.toordinal`) and a time
    of day; two timestamps are the same only when both parts are equal. */
module Calendario {
  import opened Texto

  datatype FechaHora = FechaHora(ordinal: int, minutoDelDia: int)

  /** The seven canonical weekday names, Monday first. */
  const DiasValidos: seq<string> :=
    ["lunes", "martes", "miércoles", "jueves", "viernes", "sábado", "domingo"]

  /** Python's `date.weekday()`: 0 is Monday, 6 is Sunday. */
  function DiaDeLaSemana(fh: FechaHora): (r: nat)
    ensures r < 7
  {
    (fh.ordinal + 6) % 7
  }

  /** `obtener_dia_semana_en_espanol`: the canonical name of the weekday. */
  function DiaSemanaEnEspanol(fh: FechaHora): (r: string)
    ensures r in DiasValidos
  {
    DiasValidos[DiaDeLaSemana(fh)]
  }

  /** The canonical names are already in small letters. */
  lemma DiasValidosEnMinuscula(k: nat)
    requires k < 7
    ensures Minuscula(DiasValidos[k]) == DiasValidos[k]
  {
    var s := DiasValidos[k];
    assert forall i :: 0 <= i < |s| ==> !EsMayuscula(s[i]);
    MinusculaFija(s);
  }

  /** The derived name folds to itself, so a case-insensitive test against
      it is a test against the name as it is. */
  lemma DiaSemanaEnMinuscula(fh: FechaHora)
    ensures Minuscula(DiaSemanaEnEspanol(fh)) == DiaSemanaEnEspanol(fh)
  {
    DiasValidosEnMinuscula(DiaDeLaSemana(fh));
  }

  /** The names repeat with a period of exactly seven days. */
  lemma {:induction false} DiaSemanaSemanal(fh: FechaHora, semanas: int, minuto: int)
    ensures DiaSemanaEnEspanol(FechaHora(fh.ordinal + 7 * semanas, minuto)) == DiaSemanaEnEspanol(fh)
  {
    assert (fh.ordinal + 7 * semanas + 6) % 7 == (fh.ordinal + 6) % 7;
  }

  /** The day after a given day has the next name in the list, and Monday
      follows Sunday. */
  lemma DiaSiguiente(fh: FechaHora, minuto: int)
    ensures DiaDeLaSemana(FechaHora(fh.ordinal + 1, minuto)) == (DiaDeLaSemana(fh) + 1) % 7
  {
  }

  /** Ordinal 1 (0001-01-01) is a Monday, ordinal 739418 is Monday
      2025-06-16 and ordinal 739419 is Tuesday 2025-06-17. */
  lemma DiasConocidos(minuto: int)
    ensures DiaSemanaEnEspanol(FechaHora(1, minuto)) == "lunes"
    ensures DiaSemanaEnEspanol(FechaHora(739418, minuto)) == "lunes"
    ensures DiaSemanaEnEspanol(FechaHora(739419, minuto)) == "martes"
  {
  }
}
