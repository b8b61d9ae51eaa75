# tracking_carrera in Dafny

tracking_carrera is a university-degree tracker. A FastAPI backend stores a
student's subjects, enrolments (`inscripciones`), grades (`notas`), classes,
study groups and shared notes, and awards achievements (`logros`). A React
frontend derives dashboards, statistics, calendars, a study timer and
flashcard sessions from that data. This project models the core of both
halves and proves properties of the model:

- **Achievements** (`backend/app/services/logros_service.py`). `LogrosDatos`
  holds the records and the shared derived quantities (averages, career
  percentage, date order). `LogrosCarrera`, `LogrosPromedios`, `LogrosRachas`,
  `LogrosPrimeros`, `LogrosNegativos`, `LogrosTiempo`, `LogrosEspecialidades`,
  `LogrosColecciones`, `LogrosRecovery`, `LogrosDesafios`, `LogrosCuriosos`
  and `LogrosSocial` hold the conditions, one module per group of the
  catalogue. The streak and window loops are methods proved equal to their
  specification functions. `LogroService` has the dispatch by achievement id
  and the class `LogroStore`, whose `VerificarYDesbloquear` unlocks exactly
  the newly satisfied achievements.
- **Subjects and social routes** (`backend/app/routes/materias.py`,
  `backend/app/routes/social.py`). `Materias` and `Social` give each handler
  as a function from the tables and the request to a `Result` (the HTTP
  error, or the new tables and the response). `MateriasBase.BaseMaterias`
  and `SocialBase.BaseSocial` are classes whose map and sequence fields the
  handlers update in place, proved to agree with those functions.
- **Professor unlocking** (`backend/app/services/game_engine.py`, module
  `GameEngine`).
- **Study timer** (`EstudioContext.jsx`, `Pomodoro.jsx`,
  `FloatingTimer.jsx`). `EstudioContext.EstudioEngine` is a class with the
  provider's state fields; `Pomodoro` and `FloatingTimer` hold the time
  formats, with their round trips, and the controls.
- **Flashcards** (`FlashcardStats.jsx`, module `Flashcards`). The deck is a
  filtered, stably sorted sequence. The session counters are a class,
  `Flashcards.Sesiones`.
- **Frontend derivations**, one module per page or component. These are
  `Api` (the records the pages receive), `Dashboard`, `DetalleMateria`,
  `Estadisticas`, `Comparativa`, `RendimientoCategorias`, `MapaCalor`,
  `Calculadora`, `Inscripcion`, `PaginaMaterias`, `CuadroCorrelativas`,
  `Grafo`, `ProgresoCarrera`, `ModalNota`, `ModalClase`, `ModalEventoPlan`,
  `Calendario`, `Plan`, `ProximosEventos`, `ProximosCheckpoints`,
  `PostApunte`, `Comunidad` and `Utils`.
- **Support modules.** `Common` has `Option`, filters, sums, a stable
  insertion sort and JS/Python integer rounding. `Strings` has padding,
  decimal printing and parsing, `strip`, `lower` and `split`. `Dates` has
  calendar dates, `YYYY-MM-DD` parsing and printing, day numbers and both
  weekday conventions.

Grades and averages are exact `real`s. Ids are strings. The database is
in-memory sequences and maps, with the unique constraints of
`backend/app/models/models.py` as class invariants. The present instant
(`ahora`, `hoy`), freshly generated ids, `parseFloat`, and the rendering
choice of which dialog is open are parameters of the operations that use
them.

## Model

| member | source | states |
|---|---|---|
| EstudioContext.Initial | frontend/src/context/EstudioContext.jsx:6-18 | the provider starts idle in a full 25-minute focus period with both counters at 0 |
| EstudioContext.StepCountsDown | frontend/src/context/EstudioContext.jsx:20-28 | the countdown drops by one second exactly while running with time left, ends the period exactly at 0, and otherwise does nothing |
| EstudioContext.NextModeStops | frontend/src/context/EstudioContext.jsx:30-49 | ending a period always stops the timer, keeps the configuration, and a new focus period gets the full work time |
| EstudioContext.WorkCompletion | frontend/src/context/EstudioContext.jsx:32-44 | an ended focus period adds one completed session and goes to a long break (cycle reset to 0) once the cycle is full, else to a short break with the cycle advanced by one |
| EstudioContext.BreakCompletion | frontend/src/context/EstudioContext.jsx:45-48 | an ended break leads to a full focus period and leaves both counters alone |
| EstudioContext.CycleInRangeAfterWork | frontend/src/context/EstudioContext.jsx:34-44 | with a cycle length of at least 1 the cycle position after a focus period stays below the cycle length |
| EstudioContext.ApplyKeepsCycle | frontend/src/context/EstudioContext.jsx:20-74 | every exposed operation except a configuration change keeps the cycle position in range |
| EstudioContext.SetConfigKeepsCycle | frontend/src/context/EstudioContext.jsx:74 | a configuration change keeps the cycle position in range when the new cycle is longer than the position |
| EstudioContext.ApplyMonotone | frontend/src/context/EstudioContext.jsx:17-74 | no operation lowers the day's completed sessions, and only the countdown raises them |
| EstudioContext.RunMonotone | frontend/src/context/EstudioContext.jsx:17-74 | any sequence of operations keeps the day's completed sessions at least where they were |
| EstudioContext.RunKeepsCycle | frontend/src/context/EstudioContext.jsx:20-74 | any sequence without configuration changes keeps the cycle position in range |
| EstudioContext.StartPauseIdempotent | frontend/src/context/EstudioContext.jsx:51-56 | start and pause touch only the running flag, and doing either twice is doing it once |
| EstudioContext.SetConfigKeepsTime | frontend/src/context/EstudioContext.jsx:74 | a configuration change leaves the running countdown and mode as they are |
| EstudioContext.ResetsKeepCounters | frontend/src/context/EstudioContext.jsx:58-68 | the timer reset keeps both counters; the cycle reset clears only the cycle position |
| EstudioContext.RoundsAdvance | frontend/src/context/EstudioContext.jsx:30-49 | from the start of a cycle, each of the first k focus periods (k below the cycle length) ends in a short break and advances the cycle by one |
| EstudioContext.NthWorkGoesLong | frontend/src/context/EstudioContext.jsx:37-40 | the N-th consecutive focus period of a cycle, and no earlier one, ends in a long break that restarts the cycle |
| EstudioContext.EstudioEngine.constructor | frontend/src/context/EstudioContext.jsx:6-18 | the object starts in the provider's initial state |
| EstudioContext.EstudioEngine.HandleNextMode | frontend/src/context/EstudioContext.jsx:30-49 | the fields afterwards are the period change of the fields before |
| EstudioContext.EstudioEngine.Tick | frontend/src/context/EstudioContext.jsx:20-28 | the fields afterwards are one run of the countdown effect on the fields before |
| EstudioContext.EstudioEngine.StartTimer | frontend/src/context/EstudioContext.jsx:51-56 | only the running flag is set |
| EstudioContext.EstudioEngine.PauseTimer | frontend/src/context/EstudioContext.jsx:73 | only the running flag is cleared |
| EstudioContext.EstudioEngine.ResetTimerNow | frontend/src/context/EstudioContext.jsx:59-63 | the fields become an idle full focus period, counters kept |
| EstudioContext.EstudioEngine.ResetCyclesNow | frontend/src/context/EstudioContext.jsx:66-68 | only the cycle position is cleared |
| EstudioContext.EstudioEngine.SetConfigTo | frontend/src/context/EstudioContext.jsx:74 | only the configuration changes |
| EstudioContext.EstudioEngine.SetModeTo | frontend/src/context/EstudioContext.jsx:74 | only the mode changes |
| EstudioContext.EstudioEngine.SetTimeLeftTo | frontend/src/context/EstudioContext.jsx:74 | only the countdown changes |
| EstudioContext.EstudioEngine.Perform | frontend/src/context/EstudioContext.jsx:20-74 | performing a sequence of operations one by one leaves the fields as the specification's run of that sequence |
| GameEngine.Profesor.constructor | backend/app/models/models.py:402-413 | a professor row with its id, head-of-chair flag and unlock flag |
| GameEngine.CheckUnlocks | backend/app/services/game_engine.py:5-32 | every professor's unlock flag afterwards is set when the enrolment exists, the professor is linked to its subject and the status unlocks them, and is otherwise what it was |
| GameEngine.NuncaBloquea | backend/app/services/game_engine.py:26-30 | no professor is ever locked again |
| GameEngine.QuienSeDesbloquea | backend/app/services/game_engine.py:15-30 | a locked professor becomes unlocked iff the enrolment exists, they are linked to its subject, and it is `cursando`, or `aprobada` and they head the chair |
| GameEngine.Idempotente | backend/app/services/game_engine.py:5-32 | running the engine twice on the same enrolment is the same as running it once |
| Utils.CreatePageUrl | frontend/src/utils.js:1-13 | any path the table gives starts with `/` |
| Utils.Desconocida | frontend/src/utils.js:12 | a name that is neither in the table nor inherited from `Object.prototype` gives `/` |
| Utils.HeredadoSoloPrototipo | frontend/src/utils.js:2-12 | exactly the names of `Object.prototype`'s members yield something other than a path, and then the inherited member itself |
| Utils.Inyectiva | frontend/src/utils.js:2-11 | two different pages of the table never share a path |
| Utils.RaizSoloDashboard | frontend/src/utils.js:3-12 | `/` comes exactly from `Dashboard` and from unknown, uninherited names |
| Pomodoro.ReadFormatTime | frontend/src/components/estudio/Pomodoro.jsx:23-27 | the `MM:SS` face of any non-negative countdown reads back as that countdown |
| Strings.ReadFields | frontend/src/components/estudio/Pomodoro.jsx:26 | two digit strings around the colon, as both clock faces write them, read as minutes times 60 plus seconds |
| Pomodoro.FormatTimeWidth | frontend/src/components/estudio/Pomodoro.jsx:23-27 | below 100 minutes the face is exactly five characters with the colon in the middle |
| Pomodoro.EditConfig | frontend/src/components/estudio/Pomodoro.jsx:107-110 | typing into a field stores its `parseInt` value, or 1 when that is NaN, and leaves the other fields and the sound flag alone |
| Pomodoro.EditConfigNumber | frontend/src/components/estudio/Pomodoro.jsx:108-109 | a typed non-negative number is stored as that number |
| Pomodoro.ToggleSound | frontend/src/components/estudio/Pomodoro.jsx:69 | the speaker button flips the sound flag and keeps every numeric field |
| Pomodoro.ToggleSoundTwice | frontend/src/components/estudio/Pomodoro.jsx:69 | pressing the speaker button twice restores the configuration |
| Pomodoro.CycleDots | frontend/src/components/estudio/Pomodoro.jsx:136-145 | one dot per session of the cycle, the first `sessionInCycle` filled; a negative cycle length is the RangeError of `Array(n)` |
| Pomodoro.FilledPrefix | frontend/src/components/estudio/Pomodoro.jsx:139-143 | dots filled exactly below position k count k |
| Pomodoro.DotsShowCycle | frontend/src/components/estudio/Pomodoro.jsx:134-146 | under the engine's cycle invariant the dots exist and the filled ones count exactly the sessions done in the cycle |
| Pomodoro.ModeLabel | frontend/src/components/estudio/Pomodoro.jsx:45-49 | the badge reads `Enfoque` exactly in a focus period |
| Pomodoro.ModeLabelInjective | frontend/src/components/estudio/Pomodoro.jsx:45-49 | the three modes have three different badges |
| Pomodoro.HandleApplyConfig | frontend/src/components/estudio/Pomodoro.jsx:30-37 | saving the settings resets the timer through the engine and closes the form |
| Pomodoro.EditField | frontend/src/components/estudio/Pomodoro.jsx:103-111 | an edit changes the engine's configuration as `EditConfig` says and nothing else |
| Pomodoro.ToggleSoundButton | frontend/src/components/estudio/Pomodoro.jsx:66-73 | the button changes only the engine's sound flag |
| Pomodoro.ReiniciarCiclo | frontend/src/components/estudio/Pomodoro.jsx:185-197 | after the confirmation the cycle and then the timer are reset; without it nothing changes |
| Pomodoro.ReiniciarCicloEffect | frontend/src/components/estudio/Pomodoro.jsx:189-192 | the cycle restarts at 0 in an idle full focus period and the day's total is kept |
| Pomodoro.ApplyConfigEffect | frontend/src/components/estudio/Pomodoro.jsx:34-37 | after saving, the countdown is the new focus length in a focus period |
| FloatingTimer.ReadFormatTime | frontend/src/components/estudio/FloatingTimer.jsx:9-13 | the `M:SS` face of any non-negative countdown reads back as that countdown, however many minutes |
| FloatingTimer.View | frontend/src/components/estudio/FloatingTimer.jsx:21-52 | the widget is drawn exactly while the timer runs, captioned `Enfoque` exactly in a focus period and `Descanso` otherwise |
| FloatingTimer.ViewShowsCountdown | frontend/src/components/estudio/FloatingTimer.jsx:34-36 | the widget's clock reads back as the engine's countdown |
| FloatingTimer.PauseHides | frontend/src/components/estudio/FloatingTimer.jsx:43-48 | the pause button makes the widget disappear |
| Flashcards.OrdenTotal | frontend/src/components/estudio/FlashcardStats.jsx:63-69 | the non-random comparator (due cards first, then ascending difficulty) is a total preorder, so the sort is well defined |
| Flashcards.FiltroDoble | frontend/src/components/estudio/FlashcardStats.jsx:50-58 | the subject filter followed by the difficulty filter keeps exactly the cards that pass both, with their multiplicity |
| Flashcards.MazoContenido | frontend/src/components/estudio/FlashcardStats.jsx:49-71 | the deck holds each card of the subject that the difficulty mode admits, as many times as the input holds it, and nothing else |
| Flashcards.OrdenadoPares | frontend/src/components/estudio/FlashcardStats.jsx:63-69 | in a deck sorted by the comparator every earlier card is ordered before every later one |
| Flashcards.MazoOrdenado | frontend/src/components/estudio/FlashcardStats.jsx:63-69 | in the deck every due card comes before every card that is not due, and among cards of the same status difficulty never decreases |
| Flashcards.LeyendaRespetada | frontend/src/components/estudio/FlashcardStats.jsx:183-186 | with the number keys read as the on-screen legend says, each records the answer the legend names |
| Flashcards.LeyendaSoloNumeros | frontend/src/components/estudio/FlashcardStats.jsx:169-188 | the corrected key switch differs from the written one exactly on the keys `1` and `2` |
| Flashcards.TeclasContraLeyenda | frontend/src/components/estudio/FlashcardStats.jsx:183-186 | as written, both number keys record the opposite of what the legend says (`1` right, `2` wrong) |
| Flashcards.CountUno | frontend/src/components/estudio/FlashcardStats.jsx:114-126 | one more answer adds one to the right or the wrong count, as it was right or wrong |
| Flashcards.TramoFinal | frontend/src/components/estudio/FlashcardStats.jsx:122 | a run of right answers that ends at the last answer is no longer than the current streak |
| Flashcards.RegistrarCoherente | frontend/src/components/estudio/FlashcardStats.jsx:121-131 | the counters after an answer still count the history: totals, the trailing run of right answers, and the longest run anywhere |
| Flashcards.CeroCoherente | frontend/src/components/estudio/FlashcardStats.jsx:29-36 | the zero counters agree with the empty history |
| Flashcards.SiguienteValida | frontend/src/components/estudio/FlashcardStats.jsx:107-147 | answering keeps the session valid: the index stays inside the deck and the counters match the history |
| Flashcards.TeclaValida | frontend/src/components/estudio/FlashcardStats.jsx:165-193 | every key press keeps the session valid |
| Flashcards.ReiniciosValidos | frontend/src/components/estudio/FlashcardStats.jsx:149-163 | going back, flipping, leaving, FINALIZAR, REPETIR and starting from a listed card keep the session valid |
| Flashcards.CoherenteSuma | frontend/src/components/estudio/FlashcardStats.jsx:121-131 | right plus wrong answers make the total, and the current streak is at most the best streak, which is at most the total |
| Flashcards.CountSplit | frontend/src/components/estudio/FlashcardStats.jsx:125-126 | every answer is counted as exactly one of right or wrong |
| Flashcards.TramoAciertos | frontend/src/components/estudio/FlashcardStats.jsx:122-129 | a run of k right answers holds at least k right answers |
| Flashcards.SiguienteAvanza | frontend/src/components/estudio/FlashcardStats.jsx:107-147 | answering records exactly one answer for the card on screen, turns it face down, and moves to the next card, or on the last card opens the summary |
| Flashcards.AnteriorSiguiente | frontend/src/components/estudio/FlashcardStats.jsx:154-163 | going back and then answering returns to the same card |
| Flashcards.PorcentajeExito | frontend/src/components/estudio/FlashcardStats.jsx:211-213 | the summary's share of right answers is the exact percentage rounded half up, between 0 and 100, 100 when all were right, 0 when none or before any answer |
| Flashcards.Sesiones.constructor | frontend/src/components/estudio/FlashcardStats.jsx:25-46 | the component's state starts outside study mode, on card 0, with no history and zero counters |
| Flashcards.Sesiones.HandleSiguiente | frontend/src/components/estudio/FlashcardStats.jsx:107-147 | the fields afterwards are the specification's answer step of the fields before |
| Flashcards.Sesiones.HandleAnterior | frontend/src/components/estudio/FlashcardStats.jsx:154-163 | one card back, face down, unless on the first card |
| Flashcards.Sesiones.HandleVoltear | frontend/src/components/estudio/FlashcardStats.jsx:149-152 | only the face shown flips |
| Flashcards.Sesiones.HandleKeyDown | frontend/src/components/estudio/FlashcardStats.jsx:165-193 | the fields afterwards are the written key switch applied in study mode, and nothing happens outside it |
| Flashcards.Sesiones.PulsarFinalizar | frontend/src/components/estudio/FlashcardStats.jsx:255-268 | the summary closes, study mode ends and the index, history and counters start over |
| Flashcards.Sesiones.PulsarRepetir | frontend/src/components/estudio/FlashcardStats.jsx:274-288 | as FINALIZAR, but study mode stays as it was |
| LogroService.CondicionPrimerosDefinida | backend/app/services/logros_service.py:22-41 | the "primeros pasos" section of the dictionary has an entry exactly for its nineteen ids |
| LogroService.CondicionRachasDefinida | backend/app/services/logros_service.py:43-58 | the "rachas y consistencia" section has an entry exactly for its ids |
| LogroService.CondicionColeccionesDefinida | backend/app/services/logros_service.py:60-80 | the "colecciones" section has an entry exactly for its ids |
| LogroService.CondicionPromediosDefinida | backend/app/services/logros_service.py:82-102 | the "promedios" section has an entry exactly for its ids |
| LogroService.CondicionProgresoDefinida | backend/app/services/logros_service.py:104-129 | the "progreso de carrera" section has an entry exactly for its ids |
| LogroService.CondicionEspecialidadesDefinida | backend/app/services/logros_service.py:131-141 | the "especialidades" section has an entry exactly for its ids |
| LogroService.CondicionDesafiosDefinida | backend/app/services/logros_service.py:143-159 | the "desafíos especiales" section has an entry exactly for its ids |
| LogroService.CondicionTiempoDefinida | backend/app/services/logros_service.py:161-166 | the "tiempo y dedicación" section has an entry exactly for its ids |
| LogroService.CondicionRecoveryDefinida | backend/app/services/logros_service.py:168-178 | the "recovery" section has an entry exactly for its ids |
| LogroService.CondicionSocialDefinida | backend/app/services/logros_service.py:180-190 | the "social" section has an entry exactly for its ids |
| LogroService.CondicionCuriososDefinida | backend/app/services/logros_service.py:192-207 | the "curiosos y divertidos" section has an entry exactly for its ids |
| LogroService.CondicionNegativosDefinida | backend/app/services/logros_service.py:209-216 | the "negativos/humorísticos" section has an entry exactly for its ids |
| LogroService.CondicionFinalesDefinida | backend/app/services/logros_service.py:218-223 | the "finales y graduación" section has an entry exactly for its ids |
| LogroService.CondicionDefinida | backend/app/services/logros_service.py:21-224 | the dictionary has an entry exactly for the ids of its thirteen sections |
| LogroService.DesconocidoNoCumple | backend/app/services/logros_service.py:226-232 | `verificar_logro` is false for an id outside the dictionary |
| LogroService.IdRegistro | backend/app/services/logros_service.py:2415 | the row id starts with `ld_`, the achievement, the user and underscores, before the timestamp |
| LogroService.Desbloqueo | backend/app/services/logros_service.py:2402-2427 | the unlock table gains exactly the (achievement, user) key, keeps every earlier row, and a new row carries the id, the timestamp and the context |
| LogroService.DesbloqueoIdempotente | backend/app/services/logros_service.py:2408-2427 | a second unlock of the same pair changes nothing, whatever its timestamp and context |
| LogroService.DesbloquearTodosSnoc | backend/app/services/logros_service.py:2446-2451 | unlocking a list then one more id is unlocking the list and then that id |
| LogroService.DesbloquearTodosClaves | backend/app/services/logros_service.py:2446-2451 | unlocking a list adds exactly its pairs with the user and keeps every earlier row |
| LogroService.LogroStore.constructor | backend/app/services/logros_service.py:2402-2427 | the unlock table starts empty |
| LogroService.LogroStore.Desbloquear | backend/app/services/logros_service.py:2402-2427 | true exactly when the pair had no row, and the table becomes the specification's unlock of the pair |
| LogroService.LogroStore.VerificarYDesbloquear | backend/app/services/logros_service.py:2429-2453 | returns, in catalogue order, exactly the achievements not held when the pass began whose condition holds, and the table holds them all unlocked |
| LogroService.LogroStore.Pasada | backend/app/services/logros_service.py:2443-2453 | the loop of the pass, for any condition test, returns the new achievements in order and unlocks each of them |
| LogroService.NuevosCorrectos | backend/app/services/logros_service.py:2443-2453 | every reported achievement was not held before, holds its condition and is held after; every achievement whose condition holds is held after the pass |
| LogroService.SegundaPasadaVacia | backend/app/services/logros_service.py:2429-2453 | a second pass over the same catalogue and data right after the first reports nothing |
| LogrosDatos.PromedioGeneral | backend/app/services/logros_service.py:250-256 | the general average is 0.0 when no grade counts toward it |
| LogrosDatos.PromedioGeneralAprobado | backend/app/services/logros_service.py:253-256 | once some grade counts, the average is at least 4: a failed grade never drags it down |
| LogrosDatos.PromedioGeneralAlMenos | backend/app/services/logros_service.py:253-256 | for a positive threshold, the average reaches it iff some grade counts and the counting grades' sum reaches threshold times their number |
| LogrosDatos.PromedioGeneralEsMedia | backend/app/services/logros_service.py:253-256 | the average is the mean of the grades with `influye_promedio` and at least 4, and 0.0 without one |
| LogrosDatos.PromedioIgnoraNoValidas | backend/app/services/logros_service.py:253 | adding a grade that does not count leaves the average unchanged |
| LogrosDatos.PromedioGeneralEscala | backend/app/services/logros_service.py:250-256 | with grades on the 0 to 10 scale the average stays on it |
| LogrosDatos.AprobadaDe | backend/app/services/logros_service.py:261 | the first approved enrolment of the subject, and none exactly when no enrolment of it is approved |
| LogrosDatos.NotasDe | backend/app/services/logros_service.py:265 | exactly the grades recorded on the enrolment |
| LogrosDatos.PromedioMateria | backend/app/services/logros_service.py:258-269 | a subject's average is 0.0 without an approved enrolment |
| LogrosDatos.PromedioMateriaEscala | backend/app/services/logros_service.py:258-269 | with grades on the 0 to 10 scale a subject's average stays on it |
| LogrosDatos.InscripcionDe | backend/app/services/logros_service.py:984 | the enrolment a grade belongs to, and none exactly when no enrolment has its id |
| LogrosDatos.PorPalabrasClave | backend/app/services/logros_service.py:281-291 | the subjects, in order, whose lower-cased name contains a keyword: all of them and only them |
| LogrosDatos.FiltrarPorPalabrasClave | backend/app/services/logros_service.py:281-291 | the loop, each name tried against the keywords until one matches, returns exactly the keyword filter |
| LogrosDatos.MateriaPorId | backend/app/services/logros_service.py:312 | the subject with that id, and none exactly when no subject has it |
| LogrosDatos.ConAprobada | backend/app/services/logros_service.py:302-306 | the count of subjects with an approved enrolment is at most the number of subjects |
| LogrosDatos.PorcentajeCarrera | backend/app/services/logros_service.py:293-299 | the career percentage is 0.0 without obligatory subjects |
| LogrosDatos.CalcularPorcentajeCarrera | backend/app/services/logros_service.py:293-318 | the two counting loops compute the specification's percentage |
| LogrosDatos.ContarConAprobada | backend/app/services/logros_service.py:301-306 | the first loop counts the obligatory subjects with an approved enrolment |
| LogrosDatos.SumarCreditosElectivos | backend/app/services/logros_service.py:308-314 | the second loop sums the credits, `creditos or 0`, of the approved electives |
| LogrosDatos.DivAtMostOne | backend/app/services/logros_service.py:317 | a non-negative quotient of a smaller number by a larger positive one is at most 1 |
| LogrosDatos.PorcentajeCarreraRango | backend/app/services/logros_service.py:293-318 | the percentage is never negative, and at most 1 while the electives hold at most 20 credits |
| LogrosDatos.FechaLeTotal | backend/app/services/logros_service.py:429 | Python's date order is a total preorder |
| LogrosDatos.OrdenarPorFecha | backend/app/services/logros_service.py:429 | sorting by date keeps the grades with their multiplicity |
| LogrosDatos.OrdenadasPorFecha | backend/app/services/logros_service.py:429 | the sorted grades are in date order |
| LogrosDatos.OrdenarPorFechaMiembros | backend/app/services/logros_service.py:429 | each sorted grade is one of the input |
| LogrosDatos.Grupo | backend/app/services/logros_service.py:484-492 | the dictionary entry of a key holds exactly the input elements with that key |
| LogrosDatos.GrupoSnoc | backend/app/services/logros_service.py:485-492 | appending an element extends exactly the group of its own key |
| LogrosDatos.GrupoNoVacio | backend/app/services/logros_service.py:484-492 | a group is non-empty iff some element carries its key |
| LogrosDatos.GrupoCount | backend/app/services/logros_service.py:484-496 | a group holds at most as many elements satisfying a test as the whole input |
| LogrosDatos.GrupoTamanio | backend/app/services/logros_service.py:2150-2158 | a group's size is the number of elements carrying its key |
| LogrosDatos.GrupoMiembro | backend/app/services/logros_service.py:484-492 | a member of a group is an input element with the group's key |
| LogrosDatos.GrupoUnico | backend/app/services/logros_service.py:484-492 | when every element carries one key, its group is the whole input |
| LogrosDatos.AgruparPor | backend/app/services/logros_service.py:484-492 | the dictionary-filling loop: a key is present iff some element carries it, and its entry is that element's non-empty group |
| LogrosDatos.AlgunGrupoTodos | backend/app/services/logros_service.py:494-497 | some group passes "non-empty and all satisfy p" iff some element's key-mates all satisfy p |
| LogrosDatos.BuscarGrupo | backend/app/services/logros_service.py:494-497 | the loop over `d.values()` returning at the first passing group is the "some group" test |
| LogrosDatos.TodosLosGrupos | backend/app/services/logros_service.py:989-998 | the loop returning False at the first failing group, then `len(d) > 0`, is "non-empty and every group passes" |
| LogrosDatos.TodasConAprobadaIff | backend/app/services/logros_service.py:1078-1081 | every subject has an approved enrolment iff each has some enrolment with status `aprobada` |
| LogrosDatos.TodasAprobadas | backend/app/services/logros_service.py:1073-1083 | the level loop is False on an empty list and at the first subject without an approved enrolment, else True |
| LogrosDatos.Racha | backend/app/services/logros_service.py:427-438 | the streak counter returns True exactly when the sequence holds n consecutive qualifying elements |
| LogrosDatos.HasRunShorter | backend/app/services/logros_service.py:427-438 | a streak of n holds every shorter streak, so the tiers of a streak condition are nested |
| LogrosDatos.HasRunWeaken | backend/app/services/logros_service.py:427-452 | a streak under a stricter test is a streak under a weaker one |
| LogrosDatos.HasRunCount | backend/app/services/logros_service.py:427-438 | a streak of n means at least n qualifying elements overall |
| LogrosDatos.CountAll | backend/app/services/logros_service.py:494-497 | when every element satisfies a test, all of them are counted |
| LogrosPrimeros.PrimerAlMenosEscalonado | backend/app/services/logros_service.py:327-352 | the first-grade tiers are nested: a grade reaching a mark reaches every lower one, and a 10 reaches 9 and gives `primer_2` |
| LogrosPrimeros.PrimerosMonotonos | backend/app/services/logros_service.py:327-348 | adding a grade never loses `primer_k` or `primera_desaprobada`, and gains `primer_k` exactly when the new grade reaches k |
| LogrosPrimeros.Promedio5Exacto | backend/app/services/logros_service.py:400-402 | `promedio_5` holds iff some grade counts and the counting grades' sum reaches five times their number |
| LogrosPrimeros.PromedioDeFiltradas | backend/app/services/logros_service.py:250-256 | the general average is 0.0 without counting grades and their mean otherwise |
| LogrosRachas.Racha3DiecesEsRacha | backend/app/services/logros_service.py:412-424 | the three-adjacent-10s test on the date-sorted grades is a streak of three 10s |
| LogrosRachas.VerificarRacha | backend/app/services/logros_service.py:427-480 | the streak counter loop (reset on a miss, True when the counter reaches n) computes a streak of n in date order |
| LogrosRachas.RachasEscalonadas | backend/app/services/logros_service.py:427-480 | the streak tiers are nested: ten passes contain five, five 8s are five 7s, five 7s are five passes |
| LogrosRachas.CuatriDeMes | backend/app/services/logros_service.py:525 | a month's term is 1 exactly for February to June, 2 exactly for August to December, and none otherwise |
| LogrosRachas.ClavePeriodoRoundTrip | backend/app/services/logros_service.py:528-541 | splitting the key `f"{año}-{cuatrimestre}"` at the dash and parsing both halves gives back the year and the term |
| LogrosRachas.PeriodoLeTotal | backend/app/services/logros_service.py:545 | the `(año, cuatri)` tuple order is a total preorder |
| LogrosRachas.PeriodosOrdenadosCorrectos | backend/app/services/logros_service.py:517-545 | the sorted periods rise strictly and are exactly the periods of the grades that fall in a term |
| LogrosRachas.PeriodosCrecientes | backend/app/services/logros_service.py:545 | the sorted periods rise strictly, so each appears once |
| LogrosRachas.PeriodosCubren | backend/app/services/logros_service.py:517-531 | every grade dated in a term has its period among the keys |
| LogrosRachas.PeriodosDeLasNotas | backend/app/services/logros_service.py:517-531 | every key is the period of some grade dated in a term |
| LogrosRachas.SinDesaprobar20EsRacha | backend/app/services/logros_service.py:609-616 | twenty last passes are a streak of twenty passes, and so a streak of ten |
| LogrosColecciones.VerificarMejorando | backend/app/services/logros_service.py:754-770 | the nested loops with the `mejorando` flag and inner `break` return True iff five consecutive grades in date order rise strictly |
| LogrosColecciones.CrecienteOrdenada | backend/app/services/logros_service.py:760-766 | in a rising window every grade beats every earlier one |
| LogrosColecciones.CuentaMonotona | backend/app/services/logros_service.py:649-712 | adding a grade never undoes a count achievement or a grade-total achievement |
| LogrosColecciones.ColeccionesEscalonadas | backend/app/services/logros_service.py:649-676 | the collection tiers are nested, and k tens count as k nines and k nines as k eights |
| LogrosColecciones.PrimerasAprobadasEscalonadas | backend/app/services/logros_service.py:715-751 | a clean first fifty contains a clean first twenty |
| LogrosColecciones.VariedadIncluyeExtremos | backend/app/services/logros_service.py:739-741 | `variedad` implies a failed grade and a grade of at least 10 |
| LogrosPromedios.VerificarMantener8Year | backend/app/services/logros_service.py:823-840 | the dictionary by year and the loop over its entries return True iff some year has ten valid grades or more with a mean of at least 8 |
| LogrosPromedios.CalcularPromediosMoviles | backend/app/services/logros_service.py:955-964 | the inner loop over pairs computes one mean per pair of valid grades, in order |
| LogrosPromedios.VerificarSinCaida | backend/app/services/logros_service.py:966-971 | the `bajando` loop with its `break` is True iff no moving average drops below the previous one |
| LogrosPromedios.VerificarSinBajarPromedio | backend/app/services/logros_service.py:948-976 | the loop over windows of twenty returns True iff some window's moving averages, two or more, never drop |
| LogrosPromedios.SinCaidaOrdenada | backend/app/services/logros_service.py:966-971 | a sequence that never drops is ordered: every later average is at least every earlier one |
| LogrosPromedios.PromediosMovilesRango | backend/app/services/logros_service.py:957-964 | a window of n gives at most n/2 moving averages, each between 4 and 10 on the 0 to 10 scale |
| LogrosPromedios.VerificarPromedio7TodasMaterias | backend/app/services/logros_service.py:979-998 | the per-subject dictionary loop returns True iff some grade has an enrolment and every subject with grades has valid grades averaging at least 7 |
| LogrosPromedios.VerificarPromedio9Nivel | backend/app/services/logros_service.py:1015-1035 | the per-level dictionary loop returns True iff some level has five valid grades or more averaging at least 9 |
| LogrosPromedios.Promedio10EsDiez | backend/app/services/logros_service.py:800-804 | ten perfect valid grades make the average exactly 10, and so `promedio_9_5` |
| LogrosPromedios.Mantener7Con50EsPromedio7 | backend/app/services/logros_service.py:865-871 | fifty valid grades averaging 7 give `promedio_7` and fifty counting grades |
| LogrosPromedios.PromediosTipadosCuentan | backend/app/services/logros_service.py:807-945 | the typed averages rest on ten (five for `equilibrado`) counting grades overall |
| LogrosPromedios.Subir1PuntoEsMejorUltimo | backend/app/services/logros_service.py:843-932 | gaining a point with ten grades or more is a better second half |
| LogrosPromedios.TerciosParticion | backend/app/services/logros_service.py:876-882 | the three thirds concatenate to the sorted history, the first two of length n // 3 |
| LogrosPromedios.RecuperacionTienePrimerTercio | backend/app/services/logros_service.py:874-895 | a recovery needs valid grades in the first and in the last third |
| LogrosPromedios.PromedioNoNegativo | backend/app/services/logros_service.py:250-256 | the general average is never negative |
| LogrosPromedios.Mantener8UnAnio | backend/app/services/logros_service.py:823-840 | with one year of grades, `mantener_promedio_8_year` is the test on the whole history |
| LogrosPromedios.MitadCarreraEsPromedio8 | backend/app/services/logros_service.py:1001-1007 | half of the degree with an 8 average implies `promedio_8` |
| LogrosCarrera.ObligatoriasDelNivel | backend/app/services/logros_service.py:1075 | exactly the obligatory subjects of the level, drawn from the table |
| LogrosCarrera.VerificarNivelCompleto | backend/app/services/logros_service.py:1073-1083 | the loop over the level's obligatory subjects computes the level-complete test |
| LogrosCarrera.NivelCompletoIff | backend/app/services/logros_service.py:1073-1083 | a level is complete iff it has an obligatory subject and each has an enrolment with status `aprobada` |
| LogrosCarrera.NivelVacioIncompleto | backend/app/services/logros_service.py:1076-1077 | a level without obligatory subjects is never complete |
| LogrosCarrera.TodasObligatoriasCompletaNiveles | backend/app/services/logros_service.py:1073-1121 | approving every obligatory subject completes every level that has one |
| LogrosCarrera.ContarElectivasAprobadas | backend/app/services/logros_service.py:1133-1141 | the counting loop of `3_electivas` counts the approved enrolments of elective subjects |
| LogrosCarrera.TresElectivasImplicaPrimera | backend/app/services/logros_service.py:1124-1141 | three approved electives include a first one |
| LogrosCarrera.PorcentajeEscalonado | backend/app/services/logros_service.py:1040-1070 | the percentage tiers are nested |
| LogrosCarrera.MateriasAprobadasMonotona | backend/app/services/logros_service.py:1086-1108 | the approved-subject tiers are nested, and adding an enrolment never loses one |
| LogrosEspecialidades.VerificarEspecialidad | backend/app/services/logros_service.py:1179-1288 | the loop over the area's subjects, False at the first one that falls short, computes the area test |
| LogrosEspecialidades.EspecialidadIff | backend/app/services/logros_service.py:1179-1190 | an area holds iff some subject matches its keywords and every matching subject is approved with an average of at least the threshold |
| LogrosEspecialidades.EspecialidadCubre | backend/app/services/logros_service.py:1179-1190 | an area that holds has a matching subject, and every matching subject meets the threshold |
| LogrosEspecialidades.EspecialidadDesdeArea | backend/app/services/logros_service.py:1179-1190 | a matching subject plus all matching subjects meeting the threshold give the area |
| LogrosEspecialidades.MateriaDelArea | backend/app/services/logros_service.py:1179-1190 | when an area holds, each of its subjects meets the threshold |
| LogrosEspecialidades.EspecialidadMonotona | backend/app/services/logros_service.py:1179-1288 | meeting a stricter threshold meets a looser one |
| LogrosEspecialidades.VerificarPromedioEspecialidad | backend/app/services/logros_service.py:1235-1274 | the loop collecting the approved subjects of the area, then the mean of their averages against 9, computes `redes_experto` and `bd_master` |
| LogrosEspecialidades.PromedioEspecialidadTieneNueve | backend/app/services/logros_service.py:1235-1253 | a mean of averages of 9 needs some approved subject of the area averaging 9 or more |
| LogrosEspecialidades.EspecialidadIncluyePrimera | backend/app/services/logros_service.py:1291-1321 | an area whose subjects all meet a threshold has its first subject meeting it |
| LogrosTiempo.HorasEstudioMinutos | backend/app/services/logros_service.py:1631-1652 | reaching h hours means some session and minutes totalling at least 60 h |
| LogrosTiempo.HorasEstudioMonotonas | backend/app/services/logros_service.py:1631-1652 | another session of non-negative length keeps an hours achievement |
| LogrosTiempo.HorasEscalonadas | backend/app/services/logros_service.py:1631-1652 | the hours tiers are nested |
| LogrosTiempo.MadrugonEsDomingo | backend/app/services/logros_service.py:1655-1666 | Python's weekday 6 is JavaScript's day 0, Sunday |
| LogrosTiempo.VerificarFinDeSemanaWarrior | backend/app/services/logros_service.py:1669-1683 | the loop grouping weekend minutes by date returns True iff some Saturday or Sunday adds up to ten hours |
| LogrosTiempo.FinDeSemanaMinutos | backend/app/services/logros_service.py:1669-1683 | the weekend achievement has a weekend date with at least 600 minutes of sessions |
| LogrosSocial.JoinTieneGrupo | backend/app/services/logros_service.py:1984-1992 | a non-empty `SesionGrupo JOIN GrupoEstudio` means the user created some group |
| LogrosSocial.GruposImplicanPrimerGrupo | backend/app/services/logros_service.py:1905-1969 | leading or joining groups includes `primer_grupo` |
| LogrosSocial.MentorEsTutor | backend/app/services/logros_service.py:1928-2023 | ten successful tutoring sessions are three given |
| LogrosSocial.CumpleanosTestigo | backend/app/services/logros_service.py:2122-2138 | the birthday achievement has the user's record and a passing grade dated on their birth month and day |
| LogrosDesafios.VerificarRecuperacionEpica | backend/app/services/logros_service.py:1326-1354 | the per-subject dictionary of partials and the nested loops return True iff in some subject a failed partial is followed by a 10 one to thirty days later |
| LogrosDesafios.RecuperacionEpicaTestigos | backend/app/services/logros_service.py:1326-1354 | an epic recovery has a failed partial and a 10 of the same subject among the grades, one to thirty days apart |
| LogrosDesafios.ParEnGrupo | backend/app/services/logros_service.py:1340-1352 | a recovery found in one subject's sorted group is a pair of the history's grades |
| LogrosDesafios.ComebackMejora | backend/app/services/logros_service.py:1357-1375 | a comeback also gains a point and improves the second half |
| LogrosDesafios.VerificarResistencia | backend/app/services/logros_service.py:1378-1395 | the per-subject loop returns True iff some subject has three grades or more and an approved enrolment |
| LogrosDesafios.ResistenciaNecesita | backend/app/services/logros_service.py:1378-1395 | resistance needs three grades and an approved enrolment |
| LogrosDesafios.SalvadoTieneDesaprobada | backend/app/services/logros_service.py:1398-1414 | being saved by the bell needs a failed grade and a 4 of the same enrolment |
| LogrosDesafios.DiasUnicosCorrectos | backend/app/services/logros_service.py:1430-1511 | `sorted(list(set(fechas)))` rises strictly and holds exactly the recorded days |
| LogrosDesafios.VerificarRachaDias | backend/app/services/logros_service.py:1432-1440 | the loop over `range(len(fechas_unicas) - (n - 1))` tests whether the n-th distinct day after some day is n - 1 days later |
| LogrosDesafios.CrecienteSalto | backend/app/services/logros_service.py:1432-1440 | on strictly rising days, b - a positions apart are at least b - a days apart |
| LogrosDesafios.RachaDiasIff | backend/app/services/logros_service.py:1432-1440 | on distinct sorted days the loop's test is exactly n calendar days in a row |
| LogrosDesafios.RachaDiasUnicos | backend/app/services/logros_service.py:1417-1523 | the run test on the distinct sorted days is n consecutive days among the days as recorded |
| LogrosDesafios.VerificarMaraton | backend/app/services/logros_service.py:1473-1489 | the loop grouping hours by date returns True iff some day's sessions reach eight hours |
| LogrosDesafios.HorasSonMinutos | backend/app/services/logros_service.py:1473-1489 | summing hours is summing minutes over 60, so eight hours is 480 minutes |
| LogrosDesafios.SprintEsMedioMaraton | backend/app/services/logros_service.py:1492-1496 | a sprint is a session of at least four hours |
| LogrosDesafios.PerfeccionDeDieces | backend/app/services/logros_service.py:1547-1558 | five exact 10s in a row in date order are a perfect period |
| LogrosDesafios.NotasDeInscripciones | backend/app/services/logros_service.py:1597-1600 | every grade collected by `notas_materia.extend` is a grade of the history |
| LogrosDesafios.VerificarRecursanteExitoso | backend/app/services/logros_service.py:1583-1607 | the per-subject loop returns True iff a subject taken twice or more is approved with all its grades averaging 9 |
| LogrosDesafios.VerificarIntensivoVerano | backend/app/services/logros_service.py:1610-1626 | the counting loop with its early return is True iff three approvals fall in December, January or February |
| LogrosRecovery.VerificarDe2A10 | backend/app/services/logros_service.py:1688-1700 | the per-enrolment dictionary loop returns True iff some enrolment's grades include a 2 and a 10 |
| LogrosRecovery.De2A10Iff | backend/app/services/logros_service.py:1688-1700 | the dictionary adds nothing: `de_2_a_10` is a 2 and a 10 of the same enrolment, both ways |
| LogrosRecovery.De2A10DesdePar | backend/app/services/logros_service.py:1688-1700 | a 2 and a 10 of one enrolment give the achievement |
| LogrosRecovery.De2A10Testigos | backend/app/services/logros_service.py:1688-1700 | the achievement has such a pair as a witness |
| LogrosRecovery.VerificarSegundaOportunidad | backend/app/services/logros_service.py:1703-1728 | the per-subject loop returns True iff an approved subject's partials were sat on exactly two dates |
| LogrosRecovery.VerificarNuncaMeRindo | backend/app/services/logros_service.py:1731-1756 | the per-subject loop returns True iff an approved subject has partial or final exams on four dates or more |
| LogrosRecovery.ExamenesNecesitan | backend/app/services/logros_service.py:1703-1756 | k distinct exam dates need k exam grades and an approved enrolment |
| LogrosRecovery.ExamenesDelGrupo | backend/app/services/logros_service.py:1703-1756 | one subject's exam grades are exam grades of the history |
| LogrosRecovery.IdFechaLeTotal | backend/app/services/logros_service.py:1761 | the `(inscripcion_id, fecha)` key order is a total preorder |
| LogrosRecovery.ParcialesOrdenadosCorrectos | backend/app/services/logros_service.py:1760-1761 | the sorted partials are ordered by enrolment and date and are a permutation of the partials |
| LogrosRecovery.RecuperatoriosSnoc | backend/app/services/logros_service.py:1765-1769 | appending a partial adds one make-up exactly when it passes right after a failure of the same enrolment |
| LogrosRecovery.ContarRecuperatorios | backend/app/services/logros_service.py:1763-1771 | the loop over `i = 1 .. len - 1` counts the make-ups |
| LogrosRecovery.RecuperatoriosAcotados | backend/app/services/logros_service.py:1765-1769 | there are no more make-ups than failed partials, nor than adjacent pairs |
| LogrosRecovery.PrimerParcial | backend/app/services/logros_service.py:1780-1805 | the first partial by date is a partial exam of that enrolment among the grades |
| LogrosRecovery.RemontadaTestigo | backend/app/services/logros_service.py:1774-1793 | a comeback has an approved enrolment with a failed partial among the grades |
| LogrosRecovery.MilagroTestigo | backend/app/services/logros_service.py:1796-1807 | a miracle has a promoted enrolment with a partial below 6 among the grades |
| LogrosRecovery.PromediosPorClave | backend/app/services/logros_service.py:1830-1834 | at most one average per key, each at least 4 |
| LogrosRecovery.MediaValidaCuatro | backend/app/services/logros_service.py:1826-1833 | the mean of valid grades is at least 4 |
| LogrosRecovery.PhoenixLlegaASiete | backend/app/services/logros_service.py:1810-1840 | a three-point rise between period averages reaches 7 or more |
| LogrosRecovery.ClavesOrdenadasCorrectas | backend/app/services/logros_service.py:1830 | the period keys are distinct and in string order |
| LogrosRecovery.DelAbismoMejora | backend/app/services/logros_service.py:1843-1862 | out of the abyss is a better second half by a point or more |
| LogrosRecovery.ResilienciaNecesita | backend/app/services/logros_service.py:1865-1875 | failures in three subjects take three failed grades |
| LogrosRecovery.MediaSuperaTieneNota | backend/app/services/logros_service.py:1878-1900 | a mean above m needs a grade above m |
| LogrosRecovery.MejorVersionTieneMejorNota | backend/app/services/logros_service.py:1878-1900 | a better last third holds a valid grade above the first third's mean |
| LogrosRecovery.MejorVersionTercio | backend/app/services/logros_service.py:1880-1886 | with ten grades a third is at least three long, so the `tercio < 3` guard never fires |
| LogrosCuriosos.CapicuaRepite | backend/app/services/logros_service.py:2028-2042 | three equal integer parts in a row are an integer part held by three grades |
| LogrosCuriosos.ValorRepetidoTestigo | backend/app/services/logros_service.py:2202-2211 | a grade whose integer part is shared by v grades witnesses a value repeated v times |
| LogrosCuriosos.VerificarFibonacciComoEscrito | backend/app/services/logros_service.py:2045-2064 | the loop over `range(len - 3)` as written, returning at the first window of four that matches a pattern |
| LogrosCuriosos.FibonacciFinalPerdido | backend/app/services/logros_service.py:2049-2062 | the grades 3, 5, 8 on consecutive days fail the condition as written although they hold the 3-5-8 pattern |
| LogrosCuriosos.VerificarFibonacci | backend/app/services/logros_service.py:2045-2064 | the corrected loop over `range(len - 2)`, testing each pattern on a window of its own length, decides the intended condition |
| LogrosCuriosos.FibonacciComoEscritoImplica | backend/app/services/logros_service.py:2045-2064 | every history the code as written accepts is accepted by the corrected condition |
| LogrosCuriosos.TestigoOrdenado | backend/app/services/logros_service.py:2047 | the 3, 5, 8 history is already in date order |
| LogrosCuriosos.MonotoniaIff | backend/app/services/logros_service.py:2202-2211 | the counter dictionary is a count per integer part: monotony is ten grades or more with some integer part held by ten |
| LogrosCuriosos.DiezSietes | backend/app/services/logros_service.py:2067-2211 | ten sevens are both a monotony and a lucky seven |
| LogrosCuriosos.VerificarPerfeccionTriple | backend/app/services/logros_service.py:2072-2086 | the per-date counting loop returns True iff some day has three 10s |
| LogrosCuriosos.PerfeccionTripleColecciona | backend/app/services/logros_service.py:2072-2086 | three 10s on one day are three 10s overall |
| LogrosCuriosos.MaratonistaIff | backend/app/services/logros_service.py:2151-2158 | counting per date is grouping per date: twenty grades on one day |
| LogrosCuriosos.Viernes13EsViernes | backend/app/services/logros_service.py:2089-2097 | Python's Friday (4, Monday first) is JavaScript's day 5, on the 13th |
| LogrosCuriosos.ExisteAppend | backend/app/services/logros_service.py:2100-2148 | the search loops that return at the first match: a search over two lists is a search over one of them |
| LogrosCuriosos.VerificarExiste | backend/app/services/logros_service.py:2100-2108 | the search loop of `año_nuevo` (and `navidad`, `medianoche`) returns True iff some element matches |
| LogrosCuriosos.ColeccionistaDiecesEsColeccion | backend/app/services/logros_service.py:2161-2165 | twenty grades that are all 10 are twenty 10s and no lucky seven |
| LogrosCuriosos.EquilibrioZenEntreNotas | backend/app/services/logros_service.py:2168-2176 | a zen mean is the general average, strictly between 6.99 and 7.01, with valid grades on both sides |
| LogrosCuriosos.EnteroMenor | backend/app/services/logros_service.py:2179-2199 | a larger integer part means a larger grade |
| LogrosCuriosos.EscaleraMejora | backend/app/services/logros_service.py:2179-2199 | the staircase rises strictly, so it is also an improving streak |
| LogrosCuriosos.FechasInscripcion | backend/app/services/logros_service.py:2218-2226 | exactly the enrolment dates that are set |
| LogrosCuriosos.MinFecha | backend/app/services/logros_service.py:2231 | `min` over dates is one of them and no date is earlier |
| LogrosCuriosos.PrimerDiaEsElPrimero | backend/app/services/logros_service.py:2214-2241 | the first-day grade is dated no later than any enrolment and on one of them |
| LogrosNegativos.NegativosSonTropiezos | backend/app/services/logros_service.py:2246-2331 | the worst grade and three near misses are stumbles, the near misses three failed grades |
| LogrosNegativos.VerificarMalaRacha | backend/app/services/logros_service.py:2250-2265 | the streak loop returns True iff three failures in a row in date order |
| LogrosNegativos.VerificarRacha4s | backend/app/services/logros_service.py:2296-2311 | the streak loop returns True iff five grades in a row within 0.1 of 4 |
| LogrosNegativos.RachaCuenta | backend/app/services/logros_service.py:2250-2311 | a streak in date order is made of the input's own grades, so it counts |
| LogrosNegativos.MalaRachaTropieza | backend/app/services/logros_service.py:2250-2265 | a losing streak is a stumble three times over |
| LogrosNegativos.Racha4sIncluyeCuatros | backend/app/services/logros_service.py:2296-2311 | five exact 4s in a row are a streak of 4s, and a streak of 4s is five grades close to 4 |
| LogrosNegativos.BuscarExamenSiguiente | backend/app/services/logros_service.py:2275-2283 | the inner loop, breaking at the first passed exam dated the next day, finds one iff one exists |
| LogrosNegativos.VerificarProcrastinador | backend/app/services/logros_service.py:2268-2293 | the session loop with the counter compared after every session returns True iff sessions exist and five fall the day before a passed exam |
| LogrosNegativos.ContadorPaso | backend/app/services/logros_service.py:2275-2286 | one step of the outer loop adds one to the counter exactly when the inner loop found an exam |
| LogrosNegativos.ProcrastinadorNecesita | backend/app/services/logros_service.py:2268-2293 | last-minute study takes five sessions and some passed exam |
| LogrosNegativos.VerificarRecursante | backend/app/services/logros_service.py:2318-2326 | the per-subject counter loop returns True iff some subject has two enrolments or more |
| LogrosNegativos.RecursanteIff | backend/app/services/logros_service.py:2318-2326 | retaking is two enrolments of the same subject at two positions of the list |
| LogrosNegativos.TodasAprobadasCompletaFinales | backend/app/services/logros_service.py:2336-2364 | approving the whole catalogue approves its obligatory part, so with an exam it earns the last-exam achievements |
| LogrosNegativos.PromediosFinalesEscalonados | backend/app/services/logros_service.py:2367-2398 | the final averages are tiered and imply the whole catalogue approved and a general average of at least 8 |
| LogrosNegativos.CatalogoVacio | backend/app/services/logros_service.py:2360-2364 | with an empty catalogue the career counts as approved, and any partial gives `ultimo_parcial` |
| Materias.Buscar | backend/app/routes/materias.py:743-749 | `data[k]` of the payload dict: none iff no pair has the key, else a value paired with it |
| Materias.Aprobada | backend/app/routes/materias.py:483 | `nota >= 4 if nota >= 0 else False` is exactly `nota >= 4`, never true for a sentinel |
| Materias.ConFinal | backend/app/routes/materias.py:509-513 | an approved final sets status `aprobada`, the approval date, the final grade and `promocionado` iff the grade is 7 or more, and nothing else |
| Materias.NuevaNota | backend/app/routes/materias.py:483-504 | the inserted grade carries the payload's values, the enrolment's subject, and `aprobada` iff the grade is at least 4 |
| Materias.CrearNotaPropaga | backend/app/routes/materias.py:461-515 | 404 iff the enrolment is not the user's; otherwise the grade is added and the enrolment becomes `aprobada` exactly for an approved final |
| Materias.CrearNotaConserva | backend/app/routes/materias.py:461-515 | creating a grade keeps every grade's `aprobada` in step with its value, the counters non-negative and enrolments unique |
| Materias.CambiarNotaCampos | backend/app/routes/materias.py:549-554 | every sent field is read back, a nullable one cleared by a null, and nothing else moves |
| Materias.ActualizarNotaPropaga | backend/app/routes/materias.py:529-572 | 404 unless the grade is the user's; 500 iff a null reaches a NOT NULL column; else the enrolment moves only for a sent grade that is an approved final |
| Materias.ActualizarNotaConserva | backend/app/routes/materias.py:529-572 | updating a grade keeps `aprobada` in step with the value, the counters and uniqueness |
| Materias.CrearInscripcionUnica | backend/app/routes/materias.py:286-329 | 400 exactly on a duplicate (user, subject, attempt), which changes nothing; otherwise the new enrolment starts at 0 classes and uniqueness is kept |
| Materias.UnicasSiMismasClaves | backend/app/routes/materias.py:296-306 | tables whose enrolments keep their keys stay unique |
| Materias.EliminarInscripcionCascada | backend/app/routes/materias.py:401-425 | deleting an enrolment deletes it and its grades and classes, and nothing else; 404 changes nothing |
| Materias.ColumnaDeNombre | backend/app/routes/materias.py:379-383 | every editable column's name is a whitelisted key naming that column |
| Materias.NombreDeColumna | backend/app/routes/materias.py:379-386 | a key names a column exactly when it is in `allowed_fields` |
| Materias.Strptime | backend/app/routes/materias.py:390 | a parsed `%Y-%m-%d` date is a real calendar date |
| Materias.StrptimeFormatYmd | backend/app/routes/materias.py:390 | the `YYYY-MM-DD` form of a date with a four-digit year parses back to that date |
| Materias.AnchoAnio | backend/app/routes/materias.py:390 | a year below 10000 prints in at most four digits |
| Materias.EscritaCabe | backend/app/routes/materias.py:385-394 | every cell the handler can write fits its column's type |
| Materias.EscribirLeer | backend/app/routes/materias.py:391 | a fitting write is read back |
| Materias.EscritaCasos | backend/app/routes/materias.py:388-391 | null clears any column; date columns parse non-empty strings and take nothing else; text and integer columns take their own type; an integer also fits `nota_final` |
| Materias.AsignarEfecto | backend/app/routes/materias.py:385-391 | a key off the whitelist is ignored; a whitelisted key fails iff its value does not fit, and is otherwise read back as written; a null clears it |
| Materias.EscribirMarco | backend/app/routes/materias.py:391 | writing one column leaves every other column as it was |
| Materias.AsignarMarco | backend/app/routes/materias.py:385-391 | one pair leaves every column its key does not name as it was |
| Materias.AplicarSinPermitidos | backend/app/routes/materias.py:385-391 | a payload without whitelisted keys changes nothing |
| Materias.AplicarConserva | backend/app/routes/materias.py:385-391 | a column the payload does not name keeps its value |
| Materias.AplicarFalla | backend/app/routes/materias.py:388-394 | one whitelisted pair whose value does not fit anywhere in the payload makes the whole update fail |
| Materias.ActualizarInscripcionSoloPermitidos | backend/app/routes/materias.py:361-394 | `update_inscripcion` writes only whitelisted columns and the timestamp of that one row; 404 and 500 leave every table as it was |
| Materias.ActualizarInscripcionUnica | backend/app/routes/materias.py:379-394 | the whitelist leaves user, subject and attempt alone, so updates keep enrolments unique |
| Materias.CrearClaseContadores | backend/app/routes/materias.py:645-708 | 404, then 400 iff the class number is taken, 500 iff a NULL counter must be read; otherwise the class is added, the progress goes up by one iff completed, and the total is the larger number |
| Materias.CrearClaseConserva | backend/app/routes/materias.py:645-708 | creating a class keeps the counters non-negative and the enrolments unique, and leaves the grades alone |
| Materias.AsignarClase | backend/app/routes/materias.py:743-745 | a `setattr` never changes the class's id |
| Materias.AplicarClase | backend/app/routes/materias.py:743-745 | the `setattr` loop never changes the class's id |
| Materias.AplicarClaseCompletada | backend/app/routes/materias.py:743-745 | after the loop the stored flag is the payload's last `completada` (false for a null), or unchanged without one |
| Materias.ActualizarClaseContador | backend/app/routes/materias.py:716-754 | 500 iff the commit rejects a value or a NULL counter must move; after success the flag is the payload's, and the counter rises iff the flag was set and falls (floored at 0) iff it was cleared |
| Materias.ProgresoTrasCambioAcotado | backend/app/routes/materias.py:748-752 | the counter after a toggle stays non-negative and moves by at most one |
| Materias.ToggleIdaVuelta | backend/app/routes/materias.py:748-752 | marking a class completed and then not completed restores the counter |
| Materias.ActualizarClaseConserva | backend/app/routes/materias.py:716-754 | updating a class keeps the counters non-negative and the enrolments unique |
| Materias.EliminarClaseConserva | backend/app/routes/materias.py:762-789 | deleting a class keeps the counters non-negative and the enrolments unique |
| Materias.CrearEliminarClase | backend/app/routes/materias.py:645-789 | creating a class and deleting it again restores the class table and the counter |
| Materias.CentinelaForma | backend/app/routes/materias.py:1104-1134 | the placeholder grade is -1, outside the average, not approved, and of exactly the kind the event names (`tp` otherwise) |
| Materias.EstadosAcotados | backend/app/routes/materias.py:150-163 | the four status counts fit in the total, and the credits are five per approved enrolment |
| Materias.EstadisticasIgnoranCentinela | backend/app/routes/materias.py:141-148 | a sentinel grade, or one that does not count, leaves the dashboard as it was |
| Materias.PromedioDashboardAcotado | backend/app/routes/materias.py:148 | the dashboard average is between 0 and any bound of the counted grades |
| MateriasBase.BaseMaterias.constructor | backend/app/models/models.py:194-400 | the tables start empty |
| MateriasBase.BaseMaterias.PostInscripcion | backend/app/routes/materias.py:286-329 | the enrolment handler changes the tables as `CrearInscripcion` says |
| MateriasBase.BaseMaterias.PatchInscripcion | backend/app/routes/materias.py:361-394 | the loop over the payload pairs changes the tables as `ActualizarInscripcion` says |
| MateriasBase.BaseMaterias.DeleteInscripcion | backend/app/routes/materias.py:401-425 | the cascade deletion changes the tables as `EliminarInscripcion` says |
| MateriasBase.BaseMaterias.PostNota | backend/app/routes/materias.py:461-515 | the grade handler changes the tables as `CrearNota` says |
| MateriasBase.BaseMaterias.PatchNota | backend/app/routes/materias.py:529-572 | the grade update changes the tables as `ActualizarNota` says |
| MateriasBase.BaseMaterias.DeleteNota | backend/app/routes/materias.py:585-602 | the grade deletion changes the tables as `EliminarNota` says: 404 unless the user's, else the row goes |
| MateriasBase.BaseMaterias.PostClase | backend/app/routes/materias.py:645-708 | the class handler changes the tables as `CrearClase` says |
| MateriasBase.BaseMaterias.PatchClase | backend/app/routes/materias.py:716-754 | the `setattr` loop and the counter update change the tables as `ActualizarClase` says |
| MateriasBase.BaseMaterias.DeleteClase | backend/app/routes/materias.py:762-789 | the class deletion changes the tables as `EliminarClase` says |
| MateriasBase.BaseMaterias.PostEvento | backend/app/routes/materias.py:1068-1138 | the event is appended; a placeholder grade is added iff the event is an exam or practical work with a subject and the user has an enrolment in course or regular, and then it is the `Centinela` of such an enrolment |
| Social.CodigoInvitacion | backend/app/routes/social.py:174 | the invitation code starts with `UTN_` followed by the hex digits |
| Social.CrearGrupoResultado | backend/app/routes/social.py:152-202 | creation fails with 400 iff the user has no `cursando` or `regular` enrolment in the subject; otherwise the group is active, counts one member, and its creator is its `admin` |
| Social.CrearGrupoConserva | backend/app/routes/social.py:176-200 | with a capacity of at least one, creation keeps the member counters and the capacities |
| Social.CrearGrupoSinCupo | backend/app/routes/social.py:28-185 | a payload with `max_integrantes = 0` stores a group counting one member over its capacity of zero |
| Social.CrearGrupoValidadoConserva | backend/app/routes/social.py:28-202 | the creation with `max_integrantes >= 1` validated keeps the invariants, and refuses exactly a capacity below one |
| Social.IntegrantesAlta | backend/app/routes/social.py:306-316 | a new membership row adds exactly its user to its group and leaves every other group |
| Social.UnirseOrden | backend/app/routes/social.py:260-303 | the refusals come in the source's order (404, already a member, full, wrong code, not enrolled), each deciding the answer, and a refusal changes nothing |
| Social.UnirseEfecto | backend/app/routes/social.py:305-319 | a successful join adds exactly the joining user's membership row and raises that group's counter by one |
| Social.UnirseConserva | backend/app/routes/social.py:260-319 | joins keep every counter equal to its membership rows and every group within its capacity |
| Social.LowerSinPunto | backend/app/routes/social.py:400 | `lower()` turns no other character into a dot |
| Social.FormatoArchivo | backend/app/routes/social.py:400 | the stored format of an upload has no dot and no upper-case letter |
| Social.ContenidoArchivo | backend/app/routes/social.py:396-420 | an upload is stored as `FILE:<id>.<ext>`, whose last dot-piece is the stored format; without a file the text sent is stored with format `texto` |
| Social.Puntero | backend/app/routes/social.py:409 | the last dot-piece of `FILE:<id>.<ext>` is the extension |
| Social.CompartirConserva | backend/app/routes/social.py:384-426 | sharing a note under a fresh id keeps the rating invariants: the new note is active and has no rows |
| Social.CountAlta | backend/app/routes/social.py:474-489 | a new rating row changes the row count of its own note only, by one |
| Social.RecalcularCorrecto | backend/app/routes/social.py:491-494 | the recomputed total is the number of the note's rows and the average lies in 1 to 5 |
| Social.SuyasNoVacias | backend/app/routes/social.py:485-491 | after the insert the note has at least one rating row |
| Social.SuyasEnRango | backend/app/routes/social.py:492 | every rating of the note lies in 1 to 5 |
| Social.CalificarResultado | backend/app/routes/social.py:444-482 | a rating is refused outside 1 to 5 (422), for a missing note (404) and for a second rating by the same user (400); otherwise it adds exactly one row |
| Social.CalificarAgradece | backend/app/routes/social.py:498-509 | a thank-you row from the rater to the owner is added iff the rating succeeds with four stars or more from someone other than the owner |
| Social.CalificarUnaPorUsuario | backend/app/routes/social.py:461-482 | ratings keep at most one row per (note, user) |
| Social.TotalesAlta | backend/app/routes/social.py:484-494 | a new row for one note with that note recomputed keeps every total equal to its rows |
| Social.CalificarForma | backend/app/routes/social.py:474-494 | a successful rating appends its row and recomputes the rated note from all of its rows |
| Social.CalificarValidas | backend/app/routes/social.py:444-482 | ratings keep every row naming an existing note with one to five stars |
| Social.CalificarTotales | backend/app/routes/social.py:484-494 | after a rating every note's total is its number of rows and a rated note's average lies in 1 to 5 |
| Social.CalificarConserva | backend/app/routes/social.py:444-509 | ratings keep one row per user, valid rows, and totals equal to the rows |
| Social.Candidatos | backend/app/routes/social.py:532-540 | `.limit(10)`: at most ten matching users |
| Social.CandidatoCoincide | backend/app/routes/social.py:532-540 | every candidate is a user of the table other than the caller who matches the query on some column |
| Social.CandidatosCompletos | backend/app/routes/social.py:532-540 | below the limit every matching user is a candidate |
| Social.NombresEn | backend/app/routes/social.py:553-556 | the names listed are exactly those of the subject rows whose id is common |
| Social.Fichas | backend/app/routes/social.py:542-568 | one entry per candidate |
| Social.FichasEn | backend/app/routes/social.py:542-568 | the i-th entry is the one of the i-th candidate |
| Social.FichaComunes | backend/app/routes/social.py:545-567 | an entry carries the candidate's id, counts every common subject and lists only common subjects' names |
| Social.BusquedaCorta | backend/app/routes/social.py:522-523 | the search is refused exactly when stripping the query leaves fewer than two characters |
| Social.BusquedaResultados | backend/app/routes/social.py:514-570 | at most ten entries, each a matching user other than the caller with the correct common subjects |
| Social.FichaValida | backend/app/routes/social.py:542-568 | the entry of a matching user is valid |
| Social.BusquedaCompleta | backend/app/routes/social.py:514-570 | with ten matching users or fewer every one of them appears in the result |
| Social.FichaDeCandidato | backend/app/routes/social.py:542-568 | each candidate's entry sits at its position in the result |
| Social.BuscarUnfold | backend/app/routes/social.py:522-570 | an accepted query returns the entries of the candidates |
| SocialBase.SumaDe | backend/app/routes/social.py:491-494 | the one-pass loop computes the sum of the note's stars and its number of rows |
| SocialBase.SumadoPaso | backend/app/routes/social.py:492 | one step of that loop adds the row's stars exactly when it is the note's |
| SocialBase.BaseSocial.constructor | backend/app/models/models.py:516-650 | the tables start empty but for the enrolments |
| SocialBase.BaseSocial.PostGrupo | backend/app/routes/social.py:152-202 | the group handler changes the tables as `CrearGrupo` says |
| SocialBase.BaseSocial.PostUnirse | backend/app/routes/social.py:260-319 | the join handler changes the tables as `UnirseGrupo` says |
| SocialBase.BaseSocial.PostApunte | backend/app/routes/social.py:384-426 | sharing a note changes the tables as `CompartirApunte` says |
| SocialBase.BaseSocial.PostCalificar | backend/app/routes/social.py:444-509 | the rating handler, with its summing loop, changes the tables as `CalificarApunte` says |
| SocialBase.BaseSocial.BuscarUsuarios | backend/app/routes/social.py:514-570 | the loop over the candidates builds the search result `Social.BuscarUsuarios` specifies |
| SocialBase.FichadasPaso | backend/app/routes/social.py:543-568 | appending the next candidate's entry keeps the loop invariant |
| SocialBase.FichadasTodas | backend/app/routes/social.py:543-570 | after the loop the entries are the specified ones |
| Api.PromedioDe | frontend/src/pages/DetalleMateria.jsx:105-117 | the average of the filtered grades is 0 when none passes the filter |
| Api.PromedioAcotado | frontend/src/pages/DetalleMateria.jsx:105-117 | the average lies within any bounds of the grades it takes |
| Api.ParseSafeDate | frontend/src/pages/Estadisticas.jsx:28-32 | an empty string gives `null` and only an empty one does; a valid result is a real calendar date |
| Api.ParseSafeDateFormat | frontend/src/pages/Estadisticas.jsx:28-32 | the `YYYY-MM-DD` key of a date reads back as that local date |
| Api.InicioDelDia | frontend/src/pages/Plan.jsx:83 | `startOfDay(t)` is the midnight at or before t, less than a day before it |
| Api.MomentoLocalCasos | frontend/src/pages/Plan.jsx:77-81 | an empty value is the current instant, a date string is the local midnight of its date, and an Invalid Date exactly when the parse fails |
| Api.DiferenciaDias | frontend/src/pages/Plan.jsx:93 | `differenceInDays(a, b)` counts whole days from b to a, truncated toward zero |
| Api.DiferenciaMedianoches | frontend/src/pages/Plan.jsx:93 | two midnights are as many days apart as their day numbers, and an instant of today is 0 days after its midnight |
| Api.HabilitadasExactas | frontend/src/pages/Plan.jsx:86-88 | the list holds exactly the subjects with a `cursando` or `regular` enrolment, in catalogue order, each as often as in the catalogue |
| Calculadora.NotasActuales | frontend/src/components/estadisticas/CalculadoraPromedio.jsx:19 | `notasFinales.map(n => n.nota)`: one value per final grade, in order |
| Calculadora.NotasSimuladas | frontend/src/components/estadisticas/CalculadoraPromedio.jsx:20-22 | the parsed grades of exactly the rows with both fields filled, in order |
| Calculadora.SinSimulacion | frontend/src/components/estadisticas/CalculadoraPromedio.jsx:24-26 | without a complete row the simulation shows the current average |
| Calculadora.IncompletaNoCuenta | frontend/src/components/estadisticas/CalculadoraPromedio.jsx:21 | a row missing its subject or its grade leaves the average unchanged |
| Calculadora.SimuladoAcotado | frontend/src/components/estadisticas/CalculadoraPromedio.jsx:18-27 | when every grade taking part lies in [lo, hi], so does the simulated average |
| Calculadora.SimuladasAcotadas | frontend/src/components/estadisticas/CalculadoraPromedio.jsx:20-22 | parsed grades within bounds stay within them |
| Calculadora.ActualizaSoloCampo | frontend/src/components/estadisticas/CalculadoraPromedio.jsx:33-37 | only the named field of row i changes |
| Calculadora.SinFilaOrden | frontend/src/components/estadisticas/CalculadoraPromedio.jsx:39-41 | exactly row i goes and the others keep their order; an index out of range removes nothing |
| Calculadora.AgregarConserva | frontend/src/components/estadisticas/CalculadoraPromedio.jsx:29-31 | appending a blank row keeps every existing one in place |
| Calculadora.DisponiblesExactas | frontend/src/components/estadisticas/CalculadoraPromedio.jsx:44-96 | a subject is offered iff its enrolment is not approved, no final grade and no row is for it; "Agregar" is enabled iff some subject is offered |
| Calculadora.Simulacion.constructor | frontend/src/components/estadisticas/CalculadoraPromedio.jsx:12 | the simulation starts with no rows |
| Calculadora.Simulacion.Agregar | frontend/src/components/estadisticas/CalculadoraPromedio.jsx:29-31 | the rows become the old ones plus a blank row |
| Calculadora.Simulacion.Actualizar | frontend/src/components/estadisticas/CalculadoraPromedio.jsx:33-37 | the rows become the old ones with the field of row i set |
| Calculadora.Simulacion.Eliminar | frontend/src/components/estadisticas/CalculadoraPromedio.jsx:39-41 | the rows become the old ones without row i |
| Calendario.GetDias | frontend/src/pages/Calendario.jsx:48-58 | `primerDia` blanks then one cell per day of the month, the k-th after the blanks for day k + 1 |
| Calendario.Celdas | frontend/src/pages/Calendario.jsx:51-57 | the two loops build the blanks and the day cells |
| Calendario.AnioTexto | frontend/src/pages/Calendario.jsx:28-54 | the fixed year prints as `2026` |
| Calendario.CeldaCorrecta | frontend/src/pages/Calendario.jsx:54-55 | a cell's key is the `YYYY-MM-DD` text of its date, reads back as that date, and its events are exactly those with that key |
| Calendario.ReparteEventos | frontend/src/pages/Calendario.jsx:95-105 | the generic and the personal lists of a cell split its events, losing and repeating none |
| Calendario.Navegacion | frontend/src/pages/Calendario.jsx:78-80 | both arrows keep the month in 0 to 11 and undo each other; December wraps to January of the same year |
| Calendario.Pagina.constructor | frontend/src/pages/Calendario.jsx:27-28 | the page opens on the current month |
| Calendario.Pagina.Anterior | frontend/src/pages/Calendario.jsx:78 | the month becomes the previous one, wrapping at January |
| Calendario.Pagina.Siguiente | frontend/src/pages/Calendario.jsx:80 | the month becomes the next one, wrapping at December |
| Calendario.Pagina.Dias | frontend/src/pages/Calendario.jsx:48-58 | the cells of the current month as `getDias` lays them out |
| Comparativa.Texto | frontend/src/components/estadisticas/ComparativaRendimiento.jsx:22-27 | a number interpolated into a label is never empty |
| Comparativa.EtiquetaPeriodo | frontend/src/components/estadisticas/ComparativaRendimiento.jsx:14-29 | an empty date has no label; in `Año` mode every non-empty date has one |
| Comparativa.CamposDeFecha | frontend/src/components/estadisticas/ComparativaRendimiento.jsx:18 | the year and the month of a `YYYY-MM-DD` key are its first two fields |
| Comparativa.EtiquetaDeFecha | frontend/src/components/estadisticas/ComparativaRendimiento.jsx:22-27 | a date's label is its year, or `Y-1C` for March to July, `Y-2C` from August, and `(Y-1)-2C` for January and February |
| Comparativa.VeranoEnSegundoCuatrimestre | frontend/src/components/estadisticas/ComparativaRendimiento.jsx:24-27 | January and February share the term of the August to December before them |
| Comparativa.EtiquetasDeNotas | frontend/src/components/estadisticas/ComparativaRendimiento.jsx:34-37 | a label is listed iff it is the label of some real grade |
| Comparativa.OpcionesCorrectas | frontend/src/components/estadisticas/ComparativaRendimiento.jsx:31-39 | the options are exactly the labels of the real grades, each once, newest first |
| Comparativa.PreseleccionCorrecta | frontend/src/components/estadisticas/ComparativaRendimiento.jsx:41-45 | with options present both selects hold options, the first the newest, and with two or more they differ; with none they keep their values |
| Comparativa.CalcularEstadisticas | frontend/src/components/estadisticas/ComparativaRendimiento.jsx:47-71 | an empty label gives all zeros; otherwise the maximum and minimum are those of the period's real grades |
| Comparativa.EstadisticasAcotadas | frontend/src/components/estadisticas/ComparativaRendimiento.jsx:56-69 | each summary counts the period's approved finals, and both averages lie between its lowest and highest grade |
| Comparativa.PromedioEntre | frontend/src/components/estadisticas/ComparativaRendimiento.jsx:62 | `promediar` lies within any bounds of its grades |
| Comparativa.TendenciaSimetrica | frontend/src/components/estadisticas/ComparativaRendimiento.jsx:76-80 | the arrow is up exactly when the reverse comparison is down, and flat exactly when the two are equal |
| Comunidad.CursandoIdsExactos | frontend/src/pages/Comunidad.jsx:94 | a subject id is listed iff some `cursando` enrolment names it |
| Comunidad.Pestanas | frontend/src/pages/Comunidad.jsx:93-95 | "Mis grupos" holds exactly the groups flagged as the user's; "Descubrir" exactly the other groups of a subject in progress; no group is in both tabs |
| Comunidad.SugeridaHabilitada | frontend/src/pages/Comunidad.jsx:95-112 | the subject of a suggested group is one the creation form offers |
| Comunidad.CrearGrupoCorrecto | frontend/src/pages/Comunidad.jsx:43-90 | a group is requested iff name and subject are set, with the form's fields; the blank form requests nothing; a ten-member request passes the route's capacity check unchanged |
| Comunidad.Formulario.constructor | frontend/src/pages/Comunidad.jsx:43 | the form starts blank, ten members, public |
| Comunidad.Formulario.CambiarNombre | frontend/src/pages/Comunidad.jsx:219 | only the name changes |
| Comunidad.Formulario.CambiarDescripcion | frontend/src/pages/Comunidad.jsx:250 | only the description changes |
| Comunidad.Formulario.ElegirMateria | frontend/src/pages/Comunidad.jsx:225 | only the subject changes |
| Comunidad.Formulario.Crear | frontend/src/pages/Comunidad.jsx:78-90 | the request is `handleCrearGrupo` of the current form, always for ten members and public |
| CuadroCorrelativas.Dualidad | frontend/src/components/materias/CuadroCorrelativas.jsx:6-7 | an edge from a to b is among a's requirements iff it is among what b enables |
| CuadroCorrelativas.ListasPropias | frontend/src/components/materias/CuadroCorrelativas.jsx:6-7 | every listed requirement is the subject's own edge and every enabled one names it |
| CuadroCorrelativas.GetNombre | frontend/src/components/materias/CuadroCorrelativas.jsx:9 | the name shown is never empty |
| CuadroCorrelativas.GetNombreCasos | frontend/src/components/materias/CuadroCorrelativas.jsx:9 | an unknown id reads `Materia`; any other name is that of a subject with the id |
| CuadroCorrelativas.ListBlockCorrecto | frontend/src/components/materias/CuadroCorrelativas.jsx:11-22 | `Ninguna` iff no edge has the type; otherwise one name per edge of the type, in order, naming the other end of the edge |
| Dashboard.PendientesExactas | frontend/src/pages/Dashboard.jsx:46-70 | a grade is pending iff it is `-1`, and a pending grade never counts toward the general average |
| Dashboard.ObligatoriasDesglose | frontend/src/pages/Dashboard.jsx:49-63 | the obligatory count is the approved obligatory enrolments plus the approved ones of unknown subjects, equal to the former when every subject is known |
| Dashboard.CentinelaEnParciales | frontend/src/pages/Dashboard.jsx:75-79 | as written, an 8 together with a counting partial saved as `-1` averages 3.5, and such a partial alone averages -1 |
| Dashboard.PromediosEnRango | frontend/src/pages/Dashboard.jsx:70-83 | with grades of at most 10 the general, partials and finals averages lie in [0, 10] once placeholders are excluded |
| Dashboard.SinCentinelas | frontend/src/pages/Dashboard.jsx:75-83 | without placeholders the averages as written equal the corrected ones |
| DetalleMateria.NotasRealesExactas | frontend/src/pages/DetalleMateria.jsx:103 | a grade survives `notasReales` iff it is not negative |
| DetalleMateria.IgualQueDashboard | frontend/src/pages/DetalleMateria.jsx:105-117 | the subject page's three averages are the dashboard's (corrected) ones over the same grades |
| DetalleMateria.PromediosEnRango | frontend/src/pages/DetalleMateria.jsx:105-117 | each average lies in [0, 10] for grades of at most 10 |
| DetalleMateria.ProgresoRango | frontend/src/pages/DetalleMateria.jsx:129 | the bar is 0 without a class total, within [0, 100] up to the total, and 100 when every class is given |
| DetalleMateria.Guardar | frontend/src/pages/DetalleMateria.jsx:59-77 | a non-empty id updates that record, otherwise a creation for this enrolment; the data are sent unchanged |
| Estadisticas.PromedioO0Acotado | frontend/src/pages/Estadisticas.jsx:65-66 | the `cant ? suma / cant : 0` average lies within any bounds of its grades that contain 0 |
| Estadisticas.FrecuenciaCuenta | frontend/src/pages/Estadisticas.jsx:39 | a bucket's count is the number of grades that round to its value |
| Estadisticas.FrecuenciaBuckets | frontend/src/pages/Estadisticas.jsx:35-41 | there are exactly ten buckets, bucket i for grade i + 1 counting exactly the real grades that round to it |
| Estadisticas.FrecuenciaPrefijo | frontend/src/pages/Estadisticas.jsx:37-40 | the first k buckets together count the grades rounding to 1 to k |
| Estadisticas.FrecuenciaTotal | frontend/src/pages/Estadisticas.jsx:35-41 | the buckets together count every real grade rounding into the scale, so with grades from 0.5 to 10 every real grade is counted once |
| Estadisticas.IndiceDia | frontend/src/pages/Estadisticas.jsx:51 | Sunday is index 6 and the week starts on Monday: the index is the Monday-based weekday, in 0 to 6 |
| Estadisticas.PrimerasClaves | frontend/src/pages/Estadisticas.jsx:58-63 | the buckets `Object.keys` lists are exactly those holding a real grade, each once |
| Estadisticas.TablaEntrada | frontend/src/pages/Estadisticas.jsx:64-67 | the table has one entry per label, each with the average of its bucket |
| Estadisticas.TemporalEtiquetas | frontend/src/pages/Estadisticas.jsx:62-63 | the labels are the seven weekdays from Monday, the twelve months, or the buckets with a grade in string order |
| Estadisticas.TablaEtiquetas | frontend/src/pages/Estadisticas.jsx:64-67 | the labels of the table are its base, in order |
| Estadisticas.EtiquetasOrdenadas | frontend/src/pages/Estadisticas.jsx:63 | `.sort()` keeps every bucket and adds none |
| Estadisticas.PromedioDe | frontend/src/pages/Estadisticas.jsx:66 | an empty bucket averages 0; any other its sum over its count, within the grades' range |
| Estadisticas.GrupoAcotado | frontend/src/pages/Estadisticas.jsx:46 | a bucket holds only real grades, within the grades' bounds |
| Estadisticas.TemporalPromedios | frontend/src/pages/Estadisticas.jsx:44-68 | each entry is the average of its bucket, 0 when empty, and within the grades' range |
| Estadisticas.Agrupar | frontend/src/pages/Estadisticas.jsx:45-61 | the `forEach` leaves the buckets in first-appearance order, each with the sum and the count of its grades |
| Estadisticas.MediaGrupo | frontend/src/pages/Estadisticas.jsx:66 | a label's average over the grouping is that of its bucket among all grades |
| Estadisticas.AgruparTemporal | frontend/src/pages/Estadisticas.jsx:44-68 | the grouping followed by the `map` is `dataTemporal` |
| Estadisticas.MediasTabla | frontend/src/pages/Estadisticas.jsx:64-67 | the `map` over the labels gives the table of bucket averages |
| Estadisticas.GrupoReales | frontend/src/pages/Estadisticas.jsx:46 | a bucket is the same over the real grades as over all grades |
| Estadisticas.PrimerasReales | frontend/src/pages/Estadisticas.jsx:46-58 | a placeholder opens no bucket |
| Estadisticas.SesionesForma | frontend/src/pages/Estadisticas.jsx:85-88 | the sessions come in order Feb/Mar, Julio, Dic, each with its average, and only those above 0 |
| Estadisticas.TresSesiones | frontend/src/pages/Estadisticas.jsx:86-88 | filtering the three sessions on their average keeps exactly the positive ones, in order |
| Estadisticas.FiltroPositivo | frontend/src/pages/Estadisticas.jsx:88 | a named value survives the `promedio > 0` filter exactly when it is positive |
| Estadisticas.TurnosForma | frontend/src/pages/Estadisticas.jsx:71-89 | at most three sessions are shown, each positive, and a session is shown exactly when its considered grades average above 0 |
| Estadisticas.SesionMiembros | frontend/src/pages/Estadisticas.jsx:75-83 | a session's grades are exactly the real finals of enrolments regularised on a different date from their approval, dated in its months |
| Estadisticas.TurnosFuera | frontend/src/pages/Estadisticas.jsx:77-83 | a grade the `forEach` sends nowhere changes no session |
| Estadisticas.TurnosIgnoran | frontend/src/pages/Estadisticas.jsx:76-83 | a direct approval, a grade without its enrolment or a grade dated outside the session months changes nothing |
| Estadisticas.ParcialTurnos | frontend/src/pages/Estadisticas.jsx:85-88 | after the `forEach`, the three sums and counts give the sessions' averages |
| Estadisticas.SumarTurnos | frontend/src/pages/Estadisticas.jsx:72-88 | the `forEach` with three sums and counts gives the session averages, or fails where a considered grade has no date |
| Estadisticas.CalcularTurnos | frontend/src/pages/Estadisticas.jsx:71-89 | the method computes `dataTurnos` |
| Estadisticas.Puntos | frontend/src/pages/Estadisticas.jsx:97-102 | one point per grade |
| Estadisticas.Ultimos | frontend/src/pages/Estadisticas.jsx:103 | `slice(-15)` keeps the last 15 elements, or all of them |
| Estadisticas.EvolucionUltimo | frontend/src/pages/Estadisticas.jsx:92-104 | at most fifteen points, the latest ones, and the last is the average of every grade that counts |
| Estadisticas.PuntosEntrada | frontend/src/pages/Estadisticas.jsx:97-102 | point i carries the i-th grade's date and the mean of the first i + 1 grades |
| Estadisticas.EvolucionAcotada | frontend/src/pages/Estadisticas.jsx:92-104 | every point lies within the range of the grades |
| Estadisticas.CronologicasAcotadas | frontend/src/pages/Estadisticas.jsx:93-95 | sorting by date keeps the grades within their range |
| Estadisticas.PuntoAcotado | frontend/src/pages/Estadisticas.jsx:98-101 | a running mean lies within the range of its grades |
| Estadisticas.Acumular | frontend/src/pages/Estadisticas.jsx:96-102 | the `map` with a running sum gives the points, or fails on a grade without a date |
| Estadisticas.CalcularEvolucion | frontend/src/pages/Estadisticas.jsx:92-104 | the method computes `dataEvolucion` |
| Estadisticas.RachaInicial | frontend/src/pages/Estadisticas.jsx:134 | the run is the number of leading grades of at least 4, the next one failing |
| Estadisticas.RachaSignificado | frontend/src/pages/Estadisticas.jsx:127-136 | the streak is 0 with fewer than two grades that count; otherwise the newest r real grades pass and the next, if any, fails |
| Estadisticas.CalcularRacha | frontend/src/pages/Estadisticas.jsx:132-134 | the loop with `break` computes the streak |
| Estadisticas.RachaUnica | frontend/src/pages/Estadisticas.jsx:134 | only one length satisfies the leading-run description |
| Grafo.ColumnaCentrada | frontend/src/pages/GrafoMaterias.jsx:74-80 | the column of year L + 1 is at x = 400 + 300 L; neighbours are 200 apart and the column is centred on y = 150 |
| Grafo.Agrupar | frontend/src/pages/GrafoMaterias.jsx:71-72 | the grouping has five lists whenever it does not throw |
| Grafo.AgruparFiltra | frontend/src/pages/GrafoMaterias.jsx:71-72 | the grouping throws iff some subject has a level below 1; list L holds the subjects of year L + 1, in order, so years above 5 are dropped |
| Grafo.GetPosiciones | frontend/src/pages/GrafoMaterias.jsx:69-85 | the two loops give the positions of `getPosiciones`, or its exception |
| Grafo.FallaPersiste | frontend/src/pages/GrafoMaterias.jsx:72 | once a push throws the whole `forEach` does |
| Grafo.ClavesNivel | frontend/src/pages/GrafoMaterias.jsx:76-81 | a year's loop writes exactly the numbers of its subjects |
| Grafo.OtraClave | frontend/src/pages/GrafoMaterias.jsx:76-81 | a key none of the year's subjects has keeps its position |
| Grafo.PropiaClave | frontend/src/pages/GrafoMaterias.jsx:76-81 | with distinct numbers each subject ends at its own slot |
| Grafo.PosicionHasta | frontend/src/pages/GrafoMaterias.jsx:75-82 | later years do not move the subjects of an earlier one |
| Grafo.UnicosEnNiveles | frontend/src/pages/GrafoMaterias.jsx:72 | distinct numbers stay distinct across the per-year lists |
| Grafo.FilterSinRepetir | frontend/src/pages/GrafoMaterias.jsx:72 | filtering a list without repeats leaves none |
| Grafo.PosicionDeMateria | frontend/src/pages/GrafoMaterias.jsx:69-85 | each subject of years 1 to 5 is keyed by its number at x = 400 + 300 (year - 1) and y = 150 + 200 t - 100 (len - 1) |
| Grafo.ClavesPosiciones | frontend/src/pages/GrafoMaterias.jsx:69-85 | every key is the number of a subject of years 1 to 5 |
| Grafo.ClaveEnNivel | frontend/src/pages/GrafoMaterias.jsx:75-82 | a written key comes from some year's subject |
| Grafo.PuedeInscribirse | frontend/src/pages/GrafoMaterias.jsx:87-90 | a subject can be enrolled iff no enrolment has its number |
| Grafo.ClickCorrecto | frontend/src/pages/GrafoMaterias.jsx:92-100 | a click opens the detail page of the subject's first enrolment iff it is not `disponible`, else the dialog for that subject |
| Grafo.HandleInscribir | frontend/src/pages/GrafoMaterias.jsx:102-109 | the request names the selected subject, its number and the term, with status `cursando` |
| Grafo.Wheel | frontend/src/pages/GrafoMaterias.jsx:112-116 | the zoom stays in [0.3, 3], and equals the scaled value when that is inside |
| Grafo.BotonesSinLimite | frontend/src/pages/GrafoMaterias.jsx:115-131 | the toolbar buttons can leave [0.3, 3] where the wheel stops at its ends |
| Inscripcion.CumpleExacto | frontend/src/pages/Inscripcion.jsx:210-216 | the requirements are met iff every `aprobada` edge of the subject names an approved subject; other edge types never block |
| Inscripcion.SinRequisitos | frontend/src/pages/Inscripcion.jsx:210-216 | a subject with no edge has its requirements met |
| Inscripcion.ConfigDeCasos | frontend/src/pages/Inscripcion.jsx:199-223 | an approved, in-course or regular enrolment gives its card; otherwise DISPONIBLE iff the requirements are met, else BLOQUEADA |
| Inscripcion.ConfigActiva | frontend/src/pages/Inscripcion.jsx:203-207 | an active enrolment decides the card and hides the button |
| Inscripcion.ConfigCorrecta | frontend/src/pages/Inscripcion.jsx:199-223 | without an active enrolment the card is DISPONIBLE iff the requirements are met; only DISPONIBLE offers enrolment and only BLOQUEADA is locked |
| Inscripcion.BloqueadaNoFuerza | frontend/src/pages/Inscripcion.jsx:200-219 | a `bloqueada` enrolment alone does not lock the card |
| Inscripcion.InscribirCorrecto | frontend/src/pages/Inscripcion.jsx:177-192 | the request updates iff the subject has an enrolment, that one; a creation is attempt 1; the status sent is `cursando` |
| Inscripcion.EnAnioExacto | frontend/src/pages/Inscripcion.jsx:298 | a subject is under a year tab iff it has that year and its name contains the search text, ignoring case |
| MapaCalor.DiaLocal | frontend/src/components/estadisticas/MapaCalorEstudio.jsx:10-14 | -1 exactly for a missing date, otherwise a weekday from 0 (Sunday) or NaN |
| MapaCalor.MinutosPorDia | frontend/src/components/estadisticas/MapaCalorEstudio.jsx:17-21 | seven totals, day i summing the minutes of the sessions on weekday i |
| MapaCalor.AgregarSesion | frontend/src/components/estadisticas/MapaCalorEstudio.jsx:17-21 | one more session adds its minutes to its own weekday and to no other |
| MapaCalor.SinFechaNoCuenta | frontend/src/components/estadisticas/MapaCalorEstudio.jsx:11-21 | a session without a date adds to no day |
| MapaCalor.MaxDesde | frontend/src/components/estadisticas/MapaCalorEstudio.jsx:22 | `Math.max(...xs, 60)` is at least 60 and every element, and is one of them |
| MapaCalor.MaxMinutos | frontend/src/components/estadisticas/MapaCalorEstudio.jsx:22 | the scale is at least an hour and at least every day's total |
| MapaCalor.ColorEntero | frontend/src/components/estadisticas/MapaCalorEstudio.jsx:24-31 | the colour buckets in integer form: below a quarter, a half and three quarters of the scale |
| MapaCalor.CocienteMenor | frontend/src/components/estadisticas/MapaCalorEstudio.jsx:26-29 | comparing the ratio is comparing the minutes against the scaled threshold |
| MapaCalor.ColorMonotono | frontend/src/components/estadisticas/MapaCalorEstudio.jsx:24-31 | more minutes never fall in a paler bucket |
| MapaCalor.LeyendaFija | frontend/src/components/estadisticas/MapaCalorEstudio.jsx:86 | the legend always shows empty, low, high and twice the top style, never the medium one |
| MapaCalor.FormatTiempoPositivo | frontend/src/components/estadisticas/MapaCalorEstudio.jsx:33-39 | below an hour only the minutes; from an hour the hours and, only when non-zero, the minutes, whole hours keeping a trailing space |
| MapaCalor.SinActividadSoloCero | frontend/src/components/estadisticas/MapaCalorEstudio.jsx:34 | "Sin actividad" is shown iff the time is 0 |
| MapaCalor.EtiquetaCelda | frontend/src/components/estadisticas/MapaCalorEstudio.jsx:68 | a cell is empty iff it has no positive time |
| MapaCalor.EtiquetaEnTooltip | frontend/src/components/estadisticas/MapaCalorEstudio.jsx:33-68 | a cell's text is the head of its tooltip |
| ModalClase.EnviarCorrecto | frontend/src/components/detalle/ModalClase.jsx:46-61 | a class is sent iff it has a title and a date; it keeps the edited class's number or takes the one offered, has a checkpoint type only as a checkpoint, and is always completed |
| ModalClase.NuevaClaseNumerada | frontend/src/components/detalle/ModalClase.jsx:52 | a new class saved from the subject page is numbered one past its classes |
| ModalClase.ParticipacionPorDefecto | frontend/src/components/detalle/ModalClase.jsx:24-34 | a blank form and an edited class rated 0 or unrated show 3; any other rating is kept |
| ModalClase.BotonMasEstricto | frontend/src/components/detalle/ModalClase.jsx:47-158 | whatever the button allows the handler sends, but a short summary passes the handler though it disables the button |
| ModalClase.Dialogo.constructor | frontend/src/components/detalle/ModalClase.jsx:18-24 | the dialog starts with the blank form for today |
| ModalClase.Dialogo.Abrir | frontend/src/components/detalle/ModalClase.jsx:26-44 | opening loads the edited class, or the blank form |
| ModalClase.Dialogo.CambiarCheckpoint | frontend/src/components/detalle/ModalClase.jsx:134 | only the checkpoint switch changes |
| ModalClase.Dialogo.Guardar | frontend/src/components/detalle/ModalClase.jsx:46-61 | saving sends what `handleSubmit` sends for the current form |
| ModalEventoPlan.EnviarCorrecto | frontend/src/components/planificacion/ModalEventoPlan.jsx:40-52 | an event is sent iff it has a title, a date and, unless of type `otro`, a subject; it names a non-empty subject iff not `otro`; a new event carries `-1`, an edited one keeps its grade |
| ModalEventoPlan.ResetCorrecto | frontend/src/components/planificacion/ModalEventoPlan.jsx:31-38 | a reset form cannot be sent, is a `parcial` with no subject counting toward the average, and once titled as `otro` sends the `-1` placeholder |
| ModalEventoPlan.Dialogo.constructor | frontend/src/components/planificacion/ModalEventoPlan.jsx:11-16 | the dialog starts reset |
| ModalEventoPlan.Dialogo.Abrir | frontend/src/components/planificacion/ModalEventoPlan.jsx:18-29 | opening loads the edited event, or resets |
| ModalEventoPlan.Dialogo.Guardar | frontend/src/components/planificacion/ModalEventoPlan.jsx:40-52 | saving sends what `handleSubmit` sends for the current form |
| ModalNota.ExclusionMutua | frontend/src/components/detalle/ModalNota.jsx:118-126 | at most one type switch is on from the blank form on; turning one on leaves it the only one; no switch touches another field |
| ModalNota.TipoPrecedencia | frontend/src/components/detalle/ModalNota.jsx:51-54 | final wins over partial, partial over TP, `otro` only without a flag; with one flag the type names it |
| ModalNota.EnviarCorrecto | frontend/src/components/detalle/ModalNota.jsx:46-64 | a grade is sent iff titled with a number in [0, 10]; it carries that number, the type by precedence and an id exactly when editing |
| ModalNota.EditarSinCambios | frontend/src/components/detalle/ModalNota.jsx:24-64 | opening a valid grade and saving it untouched sends it back under its own id |
| ModalNota.Dialogo.constructor | frontend/src/components/detalle/ModalNota.jsx:15-22 | the dialog starts with the blank form |
| ModalNota.Dialogo.Abrir | frontend/src/components/detalle/ModalNota.jsx:24-44 | opening loads the edited grade, or the blank form |
| ModalNota.Dialogo.CambiarTp | frontend/src/components/detalle/ModalNota.jsx:118 | the TP switch; switching on clears the other two, and at most one type stays on |
| ModalNota.Dialogo.CambiarParcial | frontend/src/components/detalle/ModalNota.jsx:122 | the partial switch, likewise |
| ModalNota.Dialogo.CambiarFinal | frontend/src/components/detalle/ModalNota.jsx:126 | the final switch, likewise |
| ModalNota.Dialogo.Guardar | frontend/src/components/detalle/ModalNota.jsx:46-64 | saving sends what `handleSubmit` sends for the current form |
| PaginaMaterias.EstadoCorrecto | frontend/src/pages/Materias.jsx:26-90 | the detail is open exactly for an active enrolment, which has an id to navigate to; the page agrees with the enrolment page on available and locked subjects |
| PaginaMaterias.UrlDetalle | frontend/src/pages/Materias.jsx:89-90 | a detail URL exists iff the button is enabled |
| PaginaMaterias.ListadasExacto | frontend/src/pages/Materias.jsx:154-155 | tab `E` lists the electives and a year tab that year's compulsory subjects; the search keeps names containing the text, ignoring case |
| PaginaMaterias.Alternar | frontend/src/pages/Materias.jsx:83 | a click closes the row iff it was open, else opens exactly it |
| PaginaMaterias.AlternarUnico | frontend/src/pages/Materias.jsx:83 | after a click at most the clicked row is open, and only if it was closed |
| Plan.FilaLeTotal | frontend/src/pages/Plan.jsx:94 | the comparator on instants is a total preorder |
| Plan.DiasRestantesCasos | frontend/src/pages/Plan.jsx:77-93 | no day count for an Invalid Date, 0 for an event without a date, else the difference of day ordinals from today |
| Plan.TodosOrdenados | frontend/src/pages/Plan.jsx:90-94 | every event is listed once, earliest first, with the instant and days its own date gives |
| Plan.FuturosExactos | frontend/src/pages/Plan.jsx:96 | the upcoming list is the entries with no negative day count, still sorted; an event is in it iff its date is missing or not before today |
| Plan.TileMarcada | frontend/src/pages/Plan.jsx:127-145 | a tile is marked iff an event's date text equals its key, which from year 1000 is the padded `YYYY-MM-DD` of the day |
| Plan.MutacionCorrecta | frontend/src/pages/Plan.jsx:36-42 | a new event is created and an edited one updated under its id unless empty; the payload goes unchanged |
| PostApunte.IndiceDe | frontend/src/components/social/PostApunte.jsx:17 | the index found is an occurrence of the pattern, and 0 for a prefix |
| PostApunte.NombreTrasPrefijo | frontend/src/components/social/PostApunte.jsx:16-75 | for a file the name and the download id are the content without its prefix; other content shows no name |
| PostApunte.IdaYVuelta | frontend/src/components/social/PostApunte.jsx:16-17 | `FILE:` plus a name reads back as a file with that name |
| PostApunte.ContenidoDelServidor | backend/app/routes/social.py:400-409 | an uploaded file shows as `<id>.<format>`, also the download id; a text note shows as a file only if its text starts with the prefix |
| PostApunte.TextoComoArchivo | backend/app/routes/social.py:409 | a text note starting with the prefix is drawn as a file card |
| PostApunte.IconoSinMayusculas | frontend/src/components/social/PostApunte.jsx:20-26 | the icon ignores case, and any format but the five named gets the default |
| PostApunte.IconosEjemplo | frontend/src/components/social/PostApunte.jsx:20-26 | `PDF`, `Docx` and `XLS` get their icons; `texto` and none the default |
| ProgresoCarrera.ConteosDisjuntos | frontend/src/components/dashboard/ProgresoCarrera.jsx:8-10 | the approved, in-course and regular counts never add up to more than the enrolments |
| ProgresoCarrera.PorcentajeRango | frontend/src/components/dashboard/ProgresoCarrera.jsx:44 | with no more done than obligatory subjects and 0 to 20 credits the percentage is in [0, 100], and 100 when everything is done |
| ProgresoCarrera.PorcentajeAcotado | frontend/src/components/dashboard/ProgresoCarrera.jsx:37-44 | the card's percentage lies in [0, 100] under the same conditions |
| ProgresoCarrera.AMaterias | frontend/src/components/dashboard/ProgresoCarrera.jsx:14 | the subjects carried over one for one |
| ProgresoCarrera.AInscripciones | frontend/src/components/dashboard/ProgresoCarrera.jsx:8 | the enrolments carried over one for one |
| ProgresoCarrera.BuscarIgual | frontend/src/components/dashboard/ProgresoCarrera.jsx:14-19 | the card's subject lookup finds what the service's finds |
| ProgresoCarrera.MismosCreditos | frontend/src/components/dashboard/ProgresoCarrera.jsx:13-22 | the card's credits are the service's elective credits |
| ProgresoCarrera.CreditosSnoc | frontend/src/components/dashboard/ProgresoCarrera.jsx:18-22 | one more enrolment adds its own credits on top |
| ProgresoCarrera.CreditoUltimo | frontend/src/components/dashboard/ProgresoCarrera.jsx:13-22 | one enrolment adds on the card what it adds in the service |
| ProgresoCarrera.MismasObligatorias | frontend/src/components/dashboard/ProgresoCarrera.jsx:37 | the card's obligatory total is the service's |
| ProgresoCarrera.ContarObligatorias | frontend/src/components/dashboard/ProgresoCarrera.jsx:37 | counting obligatory subjects agrees on both sides |
| ProgresoCarrera.MismaRazon | frontend/src/components/dashboard/ProgresoCarrera.jsx:37-44 | the card shows the service's career percentage rounded to a whole per cent whenever there are obligatory subjects and the two counts of approved ones agree |
| ProgresoCarrera.SinObligatorias | frontend/src/components/dashboard/ProgresoCarrera.jsx:44 | without obligatory subjects 20 credits read 100 on the card where the service reports 0 |
| ProgresoCarrera.CalcularProgresoNivel | frontend/src/components/dashboard/ProgresoCarrera.jsx:24-35 | a year's total is never 0 |
| ProgresoCarrera.NivelCorrecto | frontend/src/components/dashboard/ProgresoCarrera.jsx:24-35 | the total is the year's obligatory subjects or 1, and the count is the approved enrolments of them, a part of the obligatory ones done |
| ProximosCheckpoints.OrdenadosCorrectos | frontend/src/components/dashboard/ProximosCheckpoints.jsx:10-12 | the sorted selection is a permutation of the upcoming dated checkpoint classes, earliest first |
| ProximosCheckpoints.CheckpointsValidos | frontend/src/components/dashboard/ProximosCheckpoints.jsx:10-13 | at most five, each an upcoming checkpoint, earliest first |
| ProximosCheckpoints.CincoPrimeros | frontend/src/components/dashboard/ProximosCheckpoints.jsx:10-13 | an upcoming checkpoint left out means five are shown, none later than it |
| ProximosCheckpoints.DiasDeSeleccionado | frontend/src/components/dashboard/ProximosCheckpoints.jsx:21-23 | a shown checkpoint has no negative day count, 0 exactly within its last 24 hours |
| ProximosCheckpoints.UrgenciaTramos | frontend/src/components/dashboard/ProximosCheckpoints.jsx:25-29 | red up to 3 days, amber to 7, cyan after; never less urgent as the day nears |
| ProximosCheckpoints.InsigniaHoy | frontend/src/components/dashboard/ProximosCheckpoints.jsx:75 | the badge reads HOY iff no whole day remains, else the number followed by `d` |
| ProximosCheckpoints.DibujadoSiResuelve | frontend/src/components/dashboard/ProximosCheckpoints.jsx:15-49 | a checkpoint is drawn iff selected and its enrolment names a catalogue subject, the subject of the first enrolment with that id |
| ProximosEventos.VentanaExacta | frontend/src/components/dashboard/ProximosEventos.jsx:81-90 | an event is on the card iff its instant is in [today, today + 14 days); none repeated or lost, earliest first |
| ProximosEventos.VentanaPorFecha | frontend/src/components/dashboard/ProximosEventos.jsx:74-90 | a dated event is on the card iff its date is one of the fourteen days from today; an undated one always; an Invalid Date never |
| ProximosEventos.HoyExacto | frontend/src/components/dashboard/ProximosEventos.jsx:126-135 | a dated event shows HOY iff it falls today; an undated one only at exactly midnight |
| RendimientoCategorias.AnotarPaso | frontend/src/components/estadisticas/RendimientoCategorias.jsx:42-46 | one step adds the grade to a total exactly when it enters it |
| RendimientoCategorias.AcumuladosPaso | frontend/src/components/estadisticas/RendimientoCategorias.jsx:16-47 | each iteration keeps the four totals those of the grades seen |
| RendimientoCategorias.SumaSegunMateria | frontend/src/components/estadisticas/RendimientoCategorias.jsx:17-39 | a grade enters one department and one length total, chosen by its subject, and none when a lookup fails |
| RendimientoCategorias.CalcularData | frontend/src/components/estadisticas/RendimientoCategorias.jsx:5-72 | the `forEach` and the bars give the chart of the four category averages |
| RendimientoCategorias.ResumidoDisjunto | frontend/src/components/estadisticas/RendimientoCategorias.jsx:42-46 | a total over two disjoint tests is the sum of the two |
| RendimientoCategorias.Cabeza | frontend/src/components/estadisticas/RendimientoCategorias.jsx:16 | the filtered total splits into the head and the rest |
| RendimientoCategorias.ParesIguales | frontend/src/components/estadisticas/RendimientoCategorias.jsx:39-46 | the department pair and the length pair add up to the same totals, those of the grades whose subject is found |
| RendimientoCategorias.Ignorada | frontend/src/components/estadisticas/RendimientoCategorias.jsx:14-22 | a grade that is not a real final, or whose enrolment or subject is missing, changes nothing |
| RendimientoCategorias.IgnoradaEn | frontend/src/components/estadisticas/RendimientoCategorias.jsx:42-46 | a grade outside a test leaves its total unchanged |
| RendimientoCategorias.BarrasAcotadas | frontend/src/components/estadisticas/RendimientoCategorias.jsx:50-71 | with grades on the 0 to 10 scale every bar is too, and an empty category shows 0 |
| RendimientoCategorias.DataEnEscala | frontend/src/components/estadisticas/RendimientoCategorias.jsx:50-71 | four bars within the scale when each average is |
| RendimientoCategorias.EnEscala | frontend/src/components/estadisticas/RendimientoCategorias.jsx:53 | a `c ? s / c : 0` average within the scale |
| Dates.ParseYmd | frontend/src/pages/Estadisticas.jsx:30 | a parsed date has no negative field; `None` stands for NaN fields |
| Dates.ParseFormatYmd | frontend/src/pages/Calendario.jsx:54 | a `YYYY-MM-DD` key reads back as its date |
| Dates.FormatYmdInjective | frontend/src/pages/Calendario.jsx:54 | two valid dates share a key iff they are the same date |
| Dates.JsLocalDate | frontend/src/pages/Estadisticas.jsx:31 | `new Date(y, m - 1, d)` reads years 0 to 99 as 1900 to 1999 and keeps the other fields |
| Dates.JsWeekday | frontend/src/components/estadisticas/MapaCalorEstudio.jsx:13 | `getDay()` is in 0 to 6 |
| Dates.PyWeekday | backend/app/services/logros_service.py:1661 | `weekday()` is in 0 to 6 |
| Dates.WeekdayConventions | frontend/src/pages/Estadisticas.jsx:51 | JavaScript's Sunday 0 is Python's 6, and the conventions differ by one day |
| Dates.DaysInMonth | frontend/src/pages/Calendario.jsx:50 | the last day of a month is 28 to 31 |
| Strings.PadStart | frontend/src/pages/Plan.jsx:129-130 | `padStart` gives the width, or the text when already that long |
| Strings.PadStartForma | frontend/src/pages/Plan.jsx:129-130 | the padded text is the original behind a run of the pad character |
| Strings.Strip | backend/app/routes/social.py:522 | `strip()` leaves no whitespace at either end, and is empty iff every character was whitespace |
| Strings.StripVacio | backend/app/routes/social.py:522-523 | trimming both ends is empty exactly for an all-whitespace text |
| Strings.Lower | frontend/src/pages/Inscripcion.jsx:298 | `toLowerCase` keeps the length and maps each character |
| Strings.LowerIdempotent | frontend/src/pages/Inscripcion.jsx:298 | lower-casing twice is lower-casing once |
| Strings.Split | frontend/src/pages/Estadisticas.jsx:30 | `split` gives at least one piece |
| Strings.SplitThree | frontend/src/pages/Estadisticas.jsx:30 | three separator-free pieces joined by `-` split back into them |
| Strings.IntToString | frontend/src/components/dashboard/ProximosCheckpoints.jsx:75 | an interpolated integer is never empty and is its digits when not negative |
| Common.MathRound | frontend/src/components/dashboard/ProgresoCarrera.jsx:44 | `Math.round` is the integer within half a unit, halves rounded up |
| Common.RoundHalfUp | frontend/src/pages/DetalleMateria.jsx:129 | the same for a non-negative argument, never negative |
| Common.JsRem | frontend/src/components/estadisticas/MapaCalorEstudio.jsx:36 | JavaScript's `%` takes the sign of the dividend and is below the divisor in magnitude |
| Common.Trunc | backend/app/services/logros_service.py:740 | Python `int(x)` truncates toward zero |
| Common.Mean | backend/app/services/logros_service.py:250-256 | the mean is missing exactly for no values |
| Common.MeanBounds | backend/app/services/logros_service.py:250-256 | a mean lies between the smallest and the largest term |
| Common.SortBy | frontend/src/pages/Plan.jsx:94 | the stable sort keeps the length and the elements |
| Common.Dedup | frontend/src/components/estadisticas/ComparativaRendimiento.jsx:38 | collapsing repeats keeps every value, adds none, and leaves no two neighbours equal |

## Left out

- Materias.EstadisticasDashboard: `promedio_general` is the exact mean. The `round(promedio, 2)` of backend/app/routes/materias.py:162 is not modelled, because decimal rounding of a float is presentation.
- Social.Recalcular: `calificacion_promedio` is the exact mean of the ratings, without the `round(promedio, 2)` of backend/app/routes/social.py:493, for the same reason.
- Api.PromedioDe: the averages the pages print are exact means. `toFixed(2)` and `parseFloat(x.toFixed(2))` are not modelled. `Dashboard.PromedioGeneral`, the `DetalleMateria` averages and `Calculadora.PromedioActual` and `Calculadora.PromedioSimulado` inherit this.
- Estadisticas.PromedioO0: the frequency, time series, turno and evolution averages are exact, without `parseFloat(…toFixed(2))`.
- Comparativa.CalcularEstadisticas: `promediar` is exact, without `toFixed(2)`.
- RendimientoCategorias.Promedio: the four category averages are exact, without `toFixed(2)`.
- Flashcards.PorcentajeExito: rounds the exact ratio half-up. JS computes `(correctas / total) * 100` in doubles before `Math.round`, so 57 right out of 200 gives 28 in the browser (0.285 * 100 is 28.499…) and 29 in the model.
- ProgresoCarrera.Porcentaje: also rounds the exact ratio. The browser's double product can fall just below a half and round down.
- DetalleMateria.ProgresoClases: also rounds the exact ratio of `progreso_clases` to `total_clases`, as above.
- Flashcards.Mazo: models only the ordered deck. The random order chosen by `Math.random` (frontend/src/components/estudio/FlashcardStats.jsx:60-61) is nondeterministic and is not modelled.
- Flashcards.Sesiones.HandleSiguiente: the `setTimeout` delays before the index moves or the summary shows are taken as immediate. The sound cues are no-ops.
- Strings.Strip: removes ASCII whitespace only. Python's `str.strip` also removes the other Unicode whitespace characters.
- Strings.Lower: lower-cases ASCII letters and the accented Spanish capitals only. Python's `str.lower` and JS `toLowerCase` are full Unicode.
- Social.Coincide: `ilike` is a literal, case-insensitive containment. The `%` and `_` wildcards that `ilike` gives a query containing them are not modelled.
- Materias.CrearNota: like every materias handler, it leaves out the `verificar_logros_usuario` re-check that runs after the commit (backend/app/routes/materias.py:114-123). That re-check's try/except returning `[]` and the `logros_desbloqueados` key it adds to the response are left out too. The achievement check itself is `LogroService.LogroStore.VerificarYDesbloquear`.
- MateriasBase.BaseMaterias.PostEvento: `.first()` on the enrolment query is modelled as an unspecified choice (`:|`) among the matching enrolments. The database's row order is not modelled.
- Utils.CreatePageUrl: a name that is an inherited member of `Object.prototype` (`constructor`, `toString`, …) yields `Heredado(name)`. The value that member would turn into as a URL is not modelled.
- Estadisticas.Racha: the standard deviation (`Math.sqrt` of the variance) returned beside the streak is floating point and is not modelled. `statsRetencion`, a difference of millisecond timestamps, is not modelled either.
- Plan.Clave: a comparator on an Invalid Date gives NaN, where ECMAScript leaves the order to the engine. The model sorts such an entry as if at instant 0. The other date sorts do the same.
- Dates: the JS `Date` constructor's normalisation of an out-of-range month or day (say, 2024-02-31) is not modelled, and neither are time zones or daylight-saving shifts. A date is a calendar day, and an instant is a number of milliseconds.
- Grafo: pan and zoom by dragging, the SVG geometry of the edges, and the animation are not modelled. Only positions, clicks and the wheel and button zoom are.
- HTTP, authentication and the ORM are left out: `apiClient.js`, `AuthContext.jsx`, JWT, password hashing, FastAPI routing, sessions, transactions, and Pydantic coercions other than the ones the handlers depend on. Which values a commit accepts is fixed by assumed typing rules, given in the two lines below, and not by a database engine.
- Materias.ActualizarInscripcion: which `setattr` values the commit accepts depends on the database engine and on SQLAlchemy's type coercion, neither of which the source fixes. The model assumes strict typing. A null clears any editable column. A date column takes only a non-empty string that parses as `%Y-%m-%d`. A text column takes only a string. `ano_academico`, `progreso_clases` and `total_clases` take only an integer. `nota_final` takes an integer or a decimal. `promocionada` takes only a boolean. Any other value makes the update a 500. So `{"promocionada": 1}` is a 500 in the model, where SQLAlchemy's `Boolean` would store true.
- Materias.ActualizarClase: the same assumption for classes. `inscripcion_id` and `titulo` take a string. `numero_clase` takes an integer. `participacion` takes an integer or null. `fecha` takes a string that parses as `%Y-%m-%d`. `es_checkpoint`, `asistio` and `completada` take a boolean, or a null read back as false. Any other value makes the update a 500. A key of a column outside the model is ignored.
- Social.CrearGrupo: the `verificar_logros_sociales` call after the commit (backend/app/routes/social.py:206, defined at 736-786) is not modelled. It can insert `logro_social` and `logro_compartidor` unlock rows. The unlock logic itself is `LogroService.LogroStore.VerificarYDesbloquear`.
- Social.UnirseGrupo: the same `verificar_logros_sociales` call after a join (backend/app/routes/social.py:322) is not modelled either.
- Uploaded file bytes on disk are not modelled. Only the stored `FILE:<id>.<ext>` content is.
- The repeated route registrations in backend/app/routes/social.py are not modelled: only the first `obtener_grupo` and `listar_apuntes` are. The group-message stubs are left out as well.
- The chat components, participant search debounce, audio (`AmbienteSonoro.jsx`, `playSound`, the start cue), `CountdownCircle.jsx` arc maths, `AnalisisCuellosBotella.jsx`, and the purely presentational components (colours, CSS classes, icons beyond the choice of which one) are not modelled.
- The `print` logging of the achievement service and the scripts `backend/app/main.py`, `backend/fix_user.py`, `backend/check_logros.py` and `backend/test_pass.py` are not modelled.

## Findings

| source | as written | input that shows it | evidently intended | confidence | as-written member | corrected member |
|---|---|---|---|---|---|---|
| backend/app/services/logros_service.py:2045-2064 | `fibonacci` starts a window only at the indices of `range(len(notas) - 3)`, so a run of 3-5-8 in the last three grades is never examined, and neither is a history of exactly three grades. | grades 3, 5, 8 on consecutive days | any 3-5-8 (or 1-1-2-3 / 2-3-5-8) run of consecutive grades unlocks the achievement | not executed | LogrosCuriosos.VerificarFibonacciComoEscrito | LogrosCuriosos.VerificarFibonacci |
| frontend/src/components/estudio/FlashcardStats.jsx:183-186 | key `1` records a correct answer and key `2` an incorrect one | pressing `1` after the legend (lines 488-497) says `1 Incorrecto` | key `1` incorrect, key `2` correct, as the legend says | not executed | Flashcards.TeclasContraLeyenda | Flashcards.LeyendaRespetada |
| backend/app/routes/social.py:28-185 | `crear_grupo` accepts any `max_integrantes` and stores the creator as the first member | `max_integrantes = 0` | a capacity of at least 1, so that `integrantes_actuales <= max_integrantes` holds from creation on | not executed | Social.CrearGrupoSinCupo | Social.CrearGrupoValidadoConserva |
| frontend/src/pages/Dashboard.jsx:75-83 | the partials and finals averages filter on `influye_promedio` only, without the `nota >= 0` test of the general average; the placeholders `crear_evento` stores do not count toward the average, but a grade saved later as `-1` with `influye_promedio` true does | typing `-1` in the pending-grade box (frontend/src/components/dashboard/PendientesCalificacion.jsx, lines 17-20 and 87-100), which sends `{nota: -1, influye_promedio: true}` and is not stopped by `min="0"`; with a partial of 8 the partials average reads 3.5 | negative grades excluded, as in the general average (line 69): 8 | not executed | Dashboard.CentinelaEnParciales | Dashboard.PromediosEnRango |
