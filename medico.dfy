/** A doctor with an append-only list of specialties (`modelo/modelomedico.py`). */
module ModeloMedico {
  import opened Wrappers
  import opened ModeloEspecialidad
  import opened ModeloExcepciones

  /** No two specialties of the list share a name (compared as written). */
  predicate NombresDistintos(es: seq<Especialidad>)
  {
    forall i, j :: 0 <= i < j < |es| ==> es[i].tipo != es[j].tipo
  }

  /** The name of the first specialty, in insertion order, offered on `dia`. */
  function PrimeraEspecialidad(es: seq<Especialidad>, dia: string): (r: Option<string>)
    ensures r.None? <==> forall i :: 0 <= i < |es| ==> !VerificarDia(es[i], dia)
    ensures r.Some? ==>
      exists i :: 0 <= i < |es| && VerificarDia(es[i], dia) && r.value == es[i].tipo &&
        forall j :: 0 <= j < i ==> !VerificarDia(es[j], dia)
  {
    if es == [] then None
    else if VerificarDia(es[0], dia) then Some(es[0].tipo)
    else
      var r := PrimeraEspecialidad(es[1..], dia);
      if r.Some? then
        var k :| 0 <= k < |es[1..]| && VerificarDia(es[1..][k], dia) && r.value == es[1..][k].tipo &&
          forall j :: 0 <= j < k ==> !VerificarDia(es[1..][j], dia);
        assert forall j :: 0 <= j < k + 1 ==> !VerificarDia(es[j], dia) by {
          forall j | 0 <= j < k + 1 ensures !VerificarDia(es[j], dia) {
            if j > 0 { assert es[j] == es[1..][j - 1]; }
          }
        }
        assert VerificarDia(es[k + 1], dia) && r.value == es[k + 1].tipo;
        r
      else
        r
  }

  /** Appending a specialty keeps the answer for a day that an earlier
      specialty already covers; for any other day the new one answers if it
      offers that day. */
  lemma {:induction false} PrimeraEspecialidadTrasAgregar(es: seq<Especialidad>, e: Especialidad, dia: string)
    ensures PrimeraEspecialidad(es + [e], dia) ==
      if PrimeraEspecialidad(es, dia).Some? then PrimeraEspecialidad(es, dia)
      else if VerificarDia(e, dia) then Some(e.tipo) else None
  {
    if es != [] {
      assert (es + [e])[1..] == es[1..] + [e];
      PrimeraEspecialidadTrasAgregar(es[1..], e, dia);
    }
  }

  class Medico {
    const nombre: string
    const matricula: string
    var especialidades: seq<Especialidad>

    /** Name and licence are non-empty and specialty names are distinct. */
    ghost predicate Valid()
      reads this
    {
      nombre != [] && matricula != [] && NombresDistintos(especialidades)
    }

    /** `Medico(nombre, matricula)` once its checks have passed; see `CrearMedico`. */
    constructor (nombre: string, matricula: string)
      requires nombre != [] && matricula != []
      ensures Valid()
      ensures this.nombre == nombre && this.matricula == matricula && especialidades == []
    {
      this.nombre := nombre;
      this.matricula := matricula;
      especialidades := [];
    }

    /** `obtener_matricula`: the licence is a constant of the object. */
    function ObtenerMatricula(): string
    {
      matricula
    }

    /** `agregar_especialidad`: rejects a specialty whose name is already on
        the list and otherwise appends it. Days are not compared. Any doctor
        may be asked, so validity is kept rather than demanded. */
    method AgregarEspecialidad(e: Especialidad) returns (r: Outcome<Error>)
      modifies this
      ensures old(Valid()) ==> Valid()
      ensures r.Fail? <==> exists i :: 0 <= i < |old(especialidades)| && old(especialidades)[i].tipo == e.tipo
      ensures r.Fail? ==> r.error == ValorInvalido
      ensures especialidades == if r.Pass? then old(especialidades) + [e] else old(especialidades)
    {
      var i := 0;
      while i < |especialidades|
        invariant 0 <= i <= |especialidades|
        invariant forall k :: 0 <= k < i ==> especialidades[k].tipo != e.tipo
      {
        if ObtenerEspecialidad(especialidades[i]) == ObtenerEspecialidad(e) {
          return Fail(ValorInvalido);
        }
        i := i + 1;
      }
      especialidades := especialidades + [e];
      r := Pass;
    }

    /** `obtener_especialidad_para_dia`: the first match, or none. */
    method ObtenerEspecialidadParaDia(dia: string) returns (r: Option<string>)
      ensures r == PrimeraEspecialidad(especialidades, dia)
    {
      var i := 0;
      while i < |especialidades|
        invariant 0 <= i <= |especialidades|
        invariant PrimeraEspecialidad(especialidades[i..], dia) == PrimeraEspecialidad(especialidades, dia)
      {
        if VerificarDia(especialidades[i], dia) {
          return Some(especialidades[i].tipo);
        }
        assert especialidades[i..][1..] == especialidades[i + 1..];
        i := i + 1;
      }
      r := None;
    }
  }

  /** `Medico(nombre, matricula)`: fails with `ValueError` when either is
      empty; a new doctor has no specialties. */
  method CrearMedico(nombre: string, matricula: string) returns (r: Result<Medico, Error>)
    ensures r.Failure? <==> nombre == [] || matricula == []
    ensures r.Failure? ==> r.error == ValorInvalido
    ensures r.Success? ==>
      && fresh(r.value) && r.value.Valid()
      && r.value.nombre == nombre && r.value.matricula == matricula
      && r.value.especialidades == []
  {
    if nombre == [] || matricula == [] {
      return Failure(ValorInvalido);
    }
    var m := new Medico(nombre, matricula);
    r := Success(m);
  }
}
