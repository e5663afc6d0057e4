# Clinic management core, modelled in Dafny

This project models the in-memory core of a small clinic-management system. `Clinica` holds:

- a patient registry keyed by DNI;
- a doctor registry keyed by licence (matrícula);
- the global list of booked appointments (turnos);
- one clinical history (historia clínica) per patient.

Around it sit the entities the clinic coordinates:

- `Especialidad`: a specialty name with the weekdays it is offered;
- `Medico`: a doctor with an append-only list of specialties;
- `Paciente`, `Turno` and `Receta`: immutable values;
- `HistoriaClinica`: two append-only logs, one of appointments and one of prescriptions.

Each source module becomes one Dafny module:

| Dafny file | module | models |
|---|---|---|
| `especialidad.dfy` | `ModeloEspecialidad` | `modelo/modeloespecialidad.py`, as a datatype with a validity predicate (the object is never changed) |
| `medico.dfy` | `ModeloMedico` | `modelo/modelomedico.py`, as a class whose `especialidades` field is appended to in place |
| `paciente.dfy`, `turno.dfy`, `receta.dfy` | `ModeloPaciente`, `ModeloTurno`, `ModeloReceta` | the immutable values, each with a factory function that returns `Failure(ValorInvalido)` where the Python constructor raises `ValueError` |
| `historia_clinica.dfy` | `ModeloHistoriaClinica` | `modelo/modelohistoriaclinica.py`, as a class whose two logs are appended to in place |
| `reglas_clinica.dfy` | `ReglasClinica` | the clinic's state as a value (`Estado`), the guard chains of booking and prescribing, one function per state-changing operation, the invariant and its preservation |
| `clinica.dfy` | `ModeloClinica` | `modelo/modeloclinica.py`, as the class `Clinica` |
| `escenarios.dfy` | `EscenariosClinica` | the situations of `tests/test_excepciones.py`, stated on the state functions and replayed on the objects |

The supporting modules are:

- `Wrappers`: `Option`, `Result` and `Outcome`;
- `ModeloExcepciones`: one `Error` datatype whose constructors are the exception classes, with `ValorInvalido` for `ValueError`;
- `Texto`: the case fold that stands for `str.lower`;
- `Calendario`: timestamps and Spanish weekday names.

The four state-changing operations of `Clinica` (`AgregarPaciente`, `AgregarMedico`, `AgendarTurno` and `EmitirReceta`) each:

- are proved against their operation function in `ReglasClinica`. `Paso(Vista(), r) == AgendarTurnoEn(old(Vista()), old(Agenda()), …)` states the whole new state and the result;
- keep `Valid()`, which holds two things:
  - every history object belongs to the patient registered under its DNI, and holds what the ghost copy `historiales` says;
  - `Invariante(Vista())`.

`AgregarEspecialidadAMedico` also keeps `Valid()`, and its new state is stated as an update of `Agenda()`. The helpers `Inscribir`, `Anotar` and `Recetar` keep only the coupling `Acoplada()`. The queries are stated against `EnOrden`, `PrimeraEspecialidad` and `ReglaEspecialidad`.

`Invariante` says that:

- patients and histories have the same DNIs;
- each registry stores every entry under its own key, and its insertion order lists each key once;
- no two appointments share a (licence, exact timestamp) pair;
- every appointment and prescription refers to the registered patient and doctor;
- each history holds exactly its patient's appointments, in booking order.

Lemmas prove that every operation keeps this invariant. A further lemma proves that the global appointment count equals the sum of the appointment counts of all histories.

Timestamps are `FechaHora(ordinal, minutoDelDia)`. The ordinal is the proleptic Gregorian day number of Python's `date.toordinal`, where day 1 is Monday 0001-01-01. The weekday is `(ordinal + 6) % 7`, with Monday as 0, as `date.weekday()` computes it. Two timestamps are equal only when both parts are.

## Model

| member | source | states |
|---|---|---|
| Texto.MinusculaIdempotente | modelo/modeloespecialidad.py:21 | folding an already folded string changes nothing, so stored days compare the same after a second `lower()` |
| Texto.MinusculaVacia | modelo/modeloclinica.py:98 | the fold of a string is empty exactly when the string is |
| Texto.MinusculaFija | modelo/modeloespecialidad.py:15 | a string without capitals folds to itself |
| Texto.Minuscula | modelo/modeloespecialidad.py:17 | `str.lower` character by character, keeping the length; the letters it folds are those "## Left out" names |
| Calendario.DiaSemanaEnEspanol | modelo/modeloclinica.py:80-83 | the derived name is one of the seven canonical names |
| Calendario.DiaSemanaEnMinuscula | modelo/modeloclinica.py:82 | the derived name is already in small letters |
| Calendario.DiasValidosEnMinuscula | modelo/modeloespecialidad.py:15 | each of the seven canonical names folds to itself |
| Calendario.DiaSemanaSemanal | modelo/modeloclinica.py:80-83 | names repeat every seven days, whatever the time of day |
| Calendario.DiaSiguiente | modelo/modeloclinica.py:83 | the next day has the next weekday index, and Sunday is followed by Monday |
| Calendario.DiasConocidos | modelo/modeloclinica.py:80-83 | ordinal 1 and 2025-06-16 are "lunes", and 2025-06-17 is "martes" |
| Calendario.DiaDeLaSemana | modelo/modeloclinica.py:83 | `datetime.weekday()`: an index below seven, Monday 0; `DiasConocidos` pins it to known dates |
| ModeloEspecialidad.TodosLosDiasValidos | modelo/modeloespecialidad.py:15-18 | the validation loop accepts exactly when every day, folded, is a canonical name |
| ModeloEspecialidad.CrearEspecialidad | modelo/modeloespecialidad.py:10-21 | the constructor succeeds iff the name and the day list are non-empty and every folded day is canonical, and otherwise fails with `ValueError`; on success the name is kept as given and the days are the given ones folded, in order and of the same length |
| ModeloEspecialidad.VerificarDia | modelo/modeloespecialidad.py:27-29 | on a valid specialty, a day that is offered folds to a canonical name |
| ModeloEspecialidad.VerificarDiaIgnoraMayusculas | modelo/modeloespecialidad.py:27-29 | the day test gives the same answer for a day and its folded form |
| ModeloEspecialidad.VerificarDiaTrasCrear | modelo/modeloespecialidad.py:21-29 | on a constructed specialty, a day is offered iff it matches, up to case, one of the days given at construction |
| ModeloEspecialidad.ObtenerEspecialidad | modelo/modeloespecialidad.py:23-25 | the stored name, non-empty on a valid specialty |
| ModeloMedico.PrimeraEspecialidad | modelo/modelomedico.py:31-36 | none iff no specialty offers the day; otherwise the name of the first specialty in insertion order that does, with no earlier one offering it (so a doctor with no specialties gets none for every day) |
| ModeloMedico.PrimeraEspecialidadTrasAgregar | modelo/modelomedico.py:25-36 | appending a specialty keeps the answer for days already covered, and otherwise the new specialty answers when it offers the day |
| ModeloMedico.Medico.constructor | modelo/modelomedico.py:10-16 | name and licence as given, and no specialties |
| ModeloMedico.Medico.AgregarEspecialidad | modelo/modelomedico.py:18-25 | fails with `ValueError` iff a specialty with the same name (case-sensitive) is already on the list, and then the list is unchanged; otherwise the specialty is appended at the end, days not compared; names that were pairwise distinct stay so, and any doctor object may be asked |
| ModeloMedico.Medico.ObtenerEspecialidadParaDia | modelo/modelomedico.py:31-36 | the scanning loop returns the first match, as `PrimeraEspecialidad` |
| ModeloMedico.Medico.ObtenerMatricula | modelo/modelomedico.py:27-29 | the licence, a constant of the object; `AgregarMedico` keys the registry by it |
| ModeloMedico.CrearMedico | modelo/modelomedico.py:10-16 | fails with `ValueError` iff the name or the licence is empty; otherwise a fresh doctor with that name and licence and no specialties |
| ModeloPaciente.CrearPaciente | modelo/modelopaciente.py:6-16 | succeeds iff name, DNI and birth date are all non-empty, and otherwise fails with `ValueError`; `obtener_dni` then returns the given DNI, and the other fields are kept |
| ModeloPaciente.ObtenerDni | modelo/modelopaciente.py:14-16 | the stored DNI; `CrearPaciente` proves it is the DNI given |
| ModeloTurno.CrearTurno | modelo/modeloturno.py:11-26 | succeeds iff patient, doctor and timestamp are present and the specialty is non-empty, and otherwise fails with `ValueError`; `obtener_medico` and `obtener_fecha_hora` return what was given, and the specialty is stored as spelled |
| ModeloTurno.ObtenerMedico | modelo/modeloturno.py:20-22 | the stored doctor reference; `CrearTurno` proves it is the doctor given |
| ModeloTurno.ObtenerFechaHora | modelo/modeloturno.py:24-26 | the stored timestamp; `CrearTurno` proves it is the timestamp given |
| ModeloReceta.CrearReceta | modelo/modeloreceta.py:12-22 | succeeds iff patient and doctor are present and the list is non-empty, and otherwise fails with `ValueError`; the list is stored as given, dated with the supplied time |
| ModeloReceta.RecetaAceptaNombresVacios | modelo/modeloreceta.py:13-17 | a list holding one empty name is accepted and stored as is |
| ModeloHistoriaClinica.HistoriaClinica.constructor | modelo/modelohistoriaclinica.py:12-18 | a new history for the patient has both logs empty |
| ModeloHistoriaClinica.HistoriaClinica.AgregarTurno | modelo/modelohistoriaclinica.py:20-24 | fails with `ValueError` iff no appointment is given, changing nothing; otherwise exactly one appointment at the end of the appointment log, and the prescription log unchanged |
| ModeloHistoriaClinica.HistoriaClinica.AgregarReceta | modelo/modelohistoriaclinica.py:26-30 | fails with `ValueError` iff no prescription is given, changing nothing; otherwise exactly one prescription at the end of its log, and the appointment log unchanged |
| ModeloHistoriaClinica.HistoriaClinica.ObtenerTurnos | modelo/modelohistoriaclinica.py:32-34 | the appointment log as a value, which later appends do not change |
| ModeloHistoriaClinica.HistoriaClinica.ObtenerRecetas | modelo/modelohistoriaclinica.py:36-38 | the prescription log as a value |
| ModeloHistoriaClinica.CrearHistoriaClinica | modelo/modelohistoriaclinica.py:12-18 | fails with `ValueError` iff the patient is missing; otherwise a fresh history of that patient with empty logs |
| ReglasClinica.AgregarLibreSinSolapamientos | modelo/modeloclinica.py:73-78 | appending an appointment whose (licence, timestamp) slot is free keeps the list free of clashes |
| ReglasClinica.TurnosDe | modelo/modeloclinica.py:121-126 | a patient's appointments are all for that patient, no more than the global list holds, and empty when they have none |
| ReglasClinica.TurnosDeFiltra | modelo/modeloclinica.py:121-126 | every entry of a patient's list is in the global list, and every appointment of that patient in the global list is on it |
| ReglasClinica.TurnosDeAgregar | modelo/modeloclinica.py:123-126 | appending an appointment extends exactly its own patient's list |
| ReglasClinica.ConteoTotal | modelo/modeloclinica.py:121-126 | when every appointment belongs to one of a duplicate-free list of patients, the per-patient lists together count every appointment once |
| ReglasClinica.ReglaEspecialidad | modelo/modeloclinica.py:92-102 | `MedicoNoDisponible(dia)` iff the doctor's first specialty for the day is missing or has an empty name; `EspecialidadNoValida` iff it exists and differs from the requested name up to case, and the error names the requested and the offered specialty; success iff that first specialty exists and matches the request up to case, and then it is the first specialty offering that day |
| ReglasClinica.ReglaAgenda | modelo/modeloclinica.py:104-119 | the guard order of booking: patient not found, then doctor not found, then `TurnoOcupado` for a taken (licence, exact timestamp) slot, then the specialty rule on the timestamp's weekday; each of the first three errors exactly under its condition, and once those pass the verdict is exactly the specialty rule's; success iff all checks pass |
| ReglasClinica.ReglaAgendaIgnoraMayusculas | modelo/modeloclinica.py:98 | whether booking succeeds does not depend on how the requested specialty is capitalised |
| ReglasClinica.ReglaReceta | modelo/modeloclinica.py:132-139 | the guard order of prescribing: patient, doctor, then `RecetaInvalida` on an empty list; success iff all three pass |
| ReglasClinica.EnOrden | modelo/modeloclinica.py:49-55 | the registry's entries, one per key of the insertion order and in that order |
| ReglasClinica.EnOrdenCompleto | modelo/modeloclinica.py:49-55 | when the order holds every key, every stored entry is listed |
| ReglasClinica.AgregarPacienteEn | modelo/modeloclinica.py:32-39 | fails with `PacienteDuplicado` iff the DNI is registered, changing nothing; otherwise the DNI maps to the patient and to an empty history, joins the insertion order, and nothing else changes |
| ReglasClinica.AgregarMedicoEn | modelo/modeloclinica.py:41-47 | fails with `MedicoDuplicado` iff the licence is registered, changing nothing; otherwise only the doctor registry and its order gain the doctor |
| ReglasClinica.AgendarTurnoEn | modelo/modeloclinica.py:104-126 | the result is `ReglaAgenda`'s verdict; a failure changes nothing; a success appends exactly one appointment, with the registered patient and doctor, the timestamp and the requested spelling, to the global list and to that patient's history only |
| ReglasClinica.EmitirRecetaEn | modelo/modeloclinica.py:132-149 | the result is `ReglaReceta`'s verdict; a failure changes nothing; a success appends exactly one prescription to that patient's history only; appointments and registries are untouched |
| ReglasClinica.InvarianteVacia | modelo/modeloclinica.py:26-30 | the empty clinic satisfies the invariant |
| ReglasClinica.TurnosOkExtiende | modelo/modeloclinica.py:38-47 | registering a patient or doctor keeps every appointment referring to registered entries |
| ReglasClinica.RecetasOkExtiende | modelo/modeloclinica.py:38-47 | registering a patient or doctor keeps every prescription referring to registered entries |
| ReglasClinica.AgregarPacienteConserva | modelo/modeloclinica.py:32-39 | registering a patient keeps the invariant, including equal patient and history key sets |
| ReglasClinica.AgregarMedicoConserva | modelo/modeloclinica.py:41-47 | registering a doctor keeps the invariant |
| ReglasClinica.AgendarTurnoConserva | modelo/modeloclinica.py:104-126 | booking keeps the invariant: still no two appointments in one (licence, timestamp) slot, and each history still holds exactly its patient's appointments |
| ReglasClinica.EmitirRecetaConserva | modelo/modeloclinica.py:132-149 | prescribing keeps the invariant |
| ReglasClinica.ConteoGlobal | modelo/modeloclinica.py:121-126 | in every state satisfying the invariant, the length of the global appointment list equals the sum of the histories' appointment counts |
| ReglasClinica.SumaEsConteo | modelo/modeloclinica.py:121-126 | the histories' appointment counts are the per-patient lists of the global list |
| ModeloClinica.Clinica.constructor | modelo/modeloclinica.py:26-30 | a clinic with empty registries, no appointments and no histories, satisfying the invariant |
| ModeloClinica.Clinica.Inscribir | modelo/modeloclinica.py:38-39 | the patient and the new history are stored under the DNI together, and each history still matches its patient |
| ModeloClinica.Clinica.AgregarPaciente | modelo/modeloclinica.py:32-39 | new state and result are those of `AgregarPacienteEn`; on success the DNI's history is a fresh object of that patient and no other history changes; on failure the history map is unchanged |
| ModeloClinica.Clinica.AgregarMedico | modelo/modeloclinica.py:41-47 | new state and result are those of `AgregarMedicoEn`, and the histories are untouched |
| ModeloClinica.Clinica.ObtenerPacientes | modelo/modeloclinica.py:49-51 | one entry per registered patient, in registration order, each the stored patient, with distinct DNIs and none missing |
| ModeloClinica.Clinica.ObtenerMedicos | modelo/modeloclinica.py:53-55 | one entry per registered doctor, in registration order, each the stored doctor object, with distinct licences and none missing |
| ModeloClinica.Clinica.ObtenerMedicoPorMatricula | modelo/modeloclinica.py:57-61 | `MedicoNoEncontrado` iff the licence is absent, and otherwise the stored doctor object itself |
| ModeloClinica.Clinica.AgregarEspecialidadAMedico | modelo/cli.py:138-156 | the licence is looked up and that doctor asked to add the specialty: `MedicoNoEncontrado` iff the licence is absent; otherwise `ValueError` iff the doctor already has a specialty of that name; only that licence's list of specialties changes, by one appended entry on success; registries, appointments and histories are unchanged and the invariant kept |
| ModeloClinica.Clinica.ValidarExistenciaPaciente | modelo/modeloclinica.py:63-66 | fails with `PacienteNoEncontrado` iff the DNI is not registered |
| ModeloClinica.Clinica.ValidarExistenciaMedico | modelo/modeloclinica.py:68-71 | fails with `MedicoNoEncontrado` iff the licence is not registered |
| ModeloClinica.Clinica.ValidarTurnoNoDuplicado | modelo/modeloclinica.py:73-78 | the scan fails with `TurnoOcupado(matricula)` iff some appointment has that doctor's licence and exactly that timestamp, whoever the patient |
| ModeloClinica.Clinica.ObtenerEspecialidadDisponible | modelo/modeloclinica.py:85-90 | `MedicoNoDisponible(dia)` iff the doctor's first specialty for the day is missing or empty-named; otherwise that name |
| ModeloClinica.Clinica.ValidarEspecialidadEnDia | modelo/modeloclinica.py:92-102 | the result is `ReglaEspecialidad` on the doctor's current specialties |
| ModeloClinica.Clinica.ValidarAgenda | modelo/modeloclinica.py:106-119 | the four checks of booking, in their order, give `ReglaAgenda` on the registries, the doctors' current specialties and the appointment list |
| ModeloClinica.Clinica.Anotar | modelo/modeloclinica.py:122-126 | the appointment goes at the end of the global list and of the given history, and each history still matches its patient |
| ModeloClinica.Clinica.AgendarTurno | modelo/modeloclinica.py:104-126 | new state and result are those of `AgendarTurnoEn` on the doctors' specialties at call time, and the histories map still holds the same objects |
| ModeloClinica.Clinica.ObtenerTurnos | modelo/modeloclinica.py:128-130 | the appointment list as a value, with no two appointments in one (licence, timestamp) slot |
| ModeloClinica.Clinica.Recetar | modelo/modeloclinica.py:146-149 | the prescription goes at the end of the given history, and each history still matches its patient |
| ModeloClinica.Clinica.EmitirReceta | modelo/modeloclinica.py:132-149 | new state and result are those of `EmitirRecetaEn` with the supplied time, and the histories map still holds the same objects |
| ModeloClinica.Clinica.ObtenerHistoriaClinica | modelo/modeloclinica.py:151-154 | `PacienteNoEncontrado` iff the DNI is absent; otherwise the stored history object itself, of that patient, holding exactly the patient's appointments in booking order and only prescriptions for that patient |
| EscenariosClinica.PediatriaLosLunes | tests/test_excepciones.py:20 | `Especialidad("Pediatría", ["lunes"])` is accepted as given |
| EscenariosClinica.Preparada | tests/test_excepciones.py:16-23 | after the set-up, exactly one patient with its history and exactly one doctor are registered |
| EscenariosClinica.TurnoOcupadoAlRepetir | tests/test_excepciones.py:34-38 | the Monday booking succeeds, and the same booking again is `TurnoOcupado` and leaves the single appointment as it was |
| EscenariosClinica.MedicoNoDisponibleElMartes | tests/test_excepciones.py:29-32 | a Tuesday booking for the Monday-only doctor is `MedicoNoDisponible("martes")` |
| EscenariosClinica.RecetasRechazadas | tests/test_excepciones.py:25-42 | an unknown DNI is `PacienteNoEncontrado`, and an empty medication list is `RecetaInvalida` |
| EscenariosClinica.TurnoYRecetaEnLaHistoria | tests/test_excepciones.py:16-23 | booking and then prescribing both succeed, leaving one appointment and one prescription in the patient's history |
| EscenariosClinica.PediatriaSinMayusculas | modelo/modeloclinica.py:98 | `PEDIATRÍA` and `Pediatría` fold to the same string |
| EscenariosClinica.ClinicaDelTest | tests/test_excepciones.py:16-23 | the set-up replayed on the objects yields a valid clinic whose state is `Preparada` and whose only doctor offers Pediatría on Mondays |
| EscenariosClinica.ClinicaSinEspecialidades | tests/test_excepciones.py:17-23 | registering the doctor before giving it any specialty yields the same registries, with an empty list of specialties |
| EscenariosClinica.ClinicaPorMatricula | modelo/cli.py:138-156 | adding Pediatría afterwards by licence through the clinic reaches the same clinic as the set-up |
| EscenariosClinica.TurnoOcupadoEnLaClinica | tests/test_excepciones.py:34-38 | on either clinic, a Monday booking spelt `PEDIATRÍA` succeeds and repeating it is `TurnoOcupado` |

## Left out

- `modelo/cli.py`, the interactive console, is modelled only in its lookup-then-add path for specialties (modelo/cli.py:138-156), as `Clinica.AgregarEspecialidadAMedico`. Its menus, `input`/`print`, comma splitting and `strptime` parsing are left out.
- The `__str__` methods only render text. Neither they nor `strftime` are modelled.
- `modelo/modelo.py` only re-exports names. `modelo/modeloexcepciones.py` only declares exception classes, which are the constructors of `Error` here, without messages.
- The `datetime` library is not modelled. A timestamp is a day ordinal plus a minute of the day. Seconds and microseconds are not represented, so timestamps that differ only in them are equal here.
- The clock read `datetime.now()` in `Receta` becomes the parameter `ahora` of `CrearReceta`, `EmitirRecetaEn` and `Clinica.EmitirReceta`.
- Texto.Minuscula: weaker than `str.lower`. It folds only the capitals of ASCII and of the Latin-1 supplement, one character to one character. Other Unicode case mappings, including ones that change length, are not modelled. That range covers every capital in the seven weekday names (`MIÉRCOLES`, `SÁBADO`).
- Python's `None` is modelled only where the source tests an argument with `not x`, which rejects `None` exactly like an empty value. That covers the optional arguments of the factory functions and of `AgregarTurno`/`AgregarReceta`, and the nullable `Medico?`. A `None` string or list is rejected there like the empty one: `ValueError` at modelo/modelopaciente.py:7, modelo/modelomedico.py:11, modelo/modeloespecialidad.py:11, modelo/modeloturno.py:12 and modelo/modeloreceta.py:13, and `RecetaInvalidaException` at modelo/modeloclinica.py:138. Strings and sequences here cannot be null, so such a `None` is the empty value in the model. A `None` passed anywhere else is not modelled. In the source it meets the next guard instead. A `None` DNI or licence is not a registry key, so it gives `PacienteNoEncontradoException` (modelo/modeloclinica.py:65-66) or `MedicoNoEncontradoException` (modelo/modeloclinica.py:70-71). A `None` requested specialty gives `TurnoOcupadoException` on a taken slot (modelo/modeloclinica.py:77-78), `MedicoNoDisponibleException` on a day the doctor does not work (modelo/modeloclinica.py:95-96), and otherwise `AttributeError` at `.lower()` (modelo/modeloclinica.py:98). `Medico.agregar_especialidad(None)` on a doctor with no specialties appends `None` without error (modelo/modelomedico.py:21-25). Only the remaining cases raise `AttributeError`.
- The constructors of `Medico` and `HistoriaClinica` require what their factory methods `CrearMedico` and `CrearHistoriaClinica` check first. The error path lives in the factory, because a Dafny constructor cannot fail.
- Doctors are shared references, as in the source. `Clinica.AgregarEspecialidadAMedico` is the command-line route: look the doctor up by licence, then call `AgregarEspecialidad` on it. A caller can also call `AgregarEspecialidad` on the object that `ObtenerMedicoPorMatricula` returns, since that method asks nothing of the doctor. `Clinica.Valid()` does not depend on doctors' specialties, so such changes keep it. `AgendarTurno` reads the specialties current at the call, through `Agenda()`. Aliasing between doctor objects and the histories is therefore not a concern. Distinct doctor objects with equal licences outside the registry are not reasoned about.
- `Clinica.ObtenerTurnos`, `ObtenerPacientes`, `ObtenerMedicos` and the history getters return sequences. A Dafny sequence is a value, so "returns a copy" holds by construction rather than by a stated property.
- `ModeloClinica.Clinica.ObtenerHistoriaClinica` returns the live history object, as modelo/modeloclinica.py:151-154 does, not a copy. Appending to it directly, through `agregar_turno`/`agregar_receta` (modelo/modelohistoriaclinica.py:20-30), is outside the model. `Acoplada`, `Invariante` and `ConteoGlobal` assume no caller does so. The command-line front end only prints the history it gets (modelo/cli.py:248-249).
- `Especialidad.dias` is a sequence and may hold the same day twice, as the Python list can.
- ReglasClinica.ReglaEspecialidad: follows `not especialidad_disponible` (modelo/modeloclinica.py:95), which treats an empty specialty name like a missing one. A constructed `Especialidad` never has an empty name, so the two cases differ only for hand-built values.
- `Receta` stores the medication list as a sequence value, where modelo/modeloreceta.py:21 keeps the caller's list object, so later changes to that list through another alias are not modelled. Nothing in the core reads the list after it is stored.
