/** A patient (`modelo/modelopaciente.py`): an immutable value. */
module ModeloPaciente {
  import opened Wrappers
  import opened ModeloExcepciones

  datatype Paciente = Paciente(nombre: string, dni: string, fechaNacimiento: string)

  /** `obtener_dni` */
  function ObtenerDni(p: Paciente): string
  {
    p.dni
  }

  /** `Paciente(nombre, dni, fecha_nacimiento)`: fails with `ValueError`
      when any of the three fields is empty; otherwise keeps all three. */
  function CrearPaciente(nombre: string, dni: string, fechaNacimiento: string): (r: Result<Paciente, Error>)
    ensures r.Success? <==> nombre != [] && dni != [] && fechaNacimiento != []
    ensures r.Failure? ==> r.error == ValorInvalido
    ensures r.Success? ==>
      ObtenerDni(r.value) == dni && r.value.nombre == nombre && r.value.fechaNacimiento == fechaNacimiento
  {
    if nombre == [] || dni == [] || fechaNacimiento == [] then Failure(ValorInvalido)
    else Success(Paciente(nombre, dni, fechaNacimiento))
  }
}
