/** The exception classes of the clinic, as the constructors of one error
    datatype. `ValorInvalido` stands for Python's `ValueError`, raised by
    the constructors of the value objects and by `Medico.agregar_especialidad`. */
module ModeloExcepciones {

  datatype Error =
    | ValorInvalido
    | PacienteNoEncontrado(dni: string)
    | MedicoNoEncontrado(matricula: string)
    | MedicoNoDisponible(dia: string)
    | TurnoOcupado(matricula: string)
    | RecetaInvalida
    | EspecialidadNoValida(solicitada: string, dia: string, ofrecida: string)
    | PacienteDuplicado(dni: string)
    | MedicoDuplicado(matricula: string)
}
