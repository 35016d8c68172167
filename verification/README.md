# N-1 event engine — a Dafny model

This project models the event engine of the N-1 contingency simulator
(`src/motor_eventos.py`). The engine takes a batch of timed events (`Evento`)
and orders them by time offset. It then dispatches them one by one against the
network directory (`rede`: its lines and its equipment). Each dispatch changes
the state of at most one line or one piece of equipment. It also emits
notifications for the SCADA consumer.

The model is functional:

- The network, the events and the notifications are immutable datatypes.
- Dispatch (`_executar_evento`) is a pure function from (network, event) to
  (network', notifications, whether the power-flow hook was reached).
- The run (`run_scenario`, fast-forward mode) is a fold over the stably sorted
  batch. It stops at the index of the first loop check that finds the stop flag set.

Modules, one per component:

- `Wrappers`: `Option`.
- `Values`: the dynamically typed dictionary values `Value` and `dict.get`.
- `Network`: `Linha`, `Equipamento`, `Rede`, and the linear-scan lookups.
- `Events`: `Evento`, the event `Kind`, and the classification of `tipo` strings.
- `Notifications`: a typed notification, the `(name, payload)` pair the
  consumer receives, and a decoder for that pair.
- `Dispatch`: the state transitions and `Execute`.
- `Ordering`: the stable sort by offset, and the proof that a stable sort is unique.
- `Engine`: the fold, the run, the run loop, and the stop properties.
- `Demo`: the example scenario of `src/simulador.py`.

Points of the code's behaviour that the model keeps:

- A line failure sets the line's `estado` attribute to `"fora"`. Before any
  failure the attribute does not exist, so `Linha.estado` is an `Option<string>`.
- The power-flow hook is reached after every event that does not return early.
  That includes manual alarms and unknown kinds.
- The example scenario produces four notifications:
  `falha_linha`, `estado_equipamento` for the recloser, `estado_equipamento`
  for the transformer, and `transformador_saida`.
- The stop flag is checked once per iteration, before the real-time wait.
  It is not checked again after the wait. In the model the stop signal is the
  index of the first check that finds the flag set. The flag is never cleared
  during a run: only `start_in_thread` clears it, before the run starts.

## Model

| member | source | states |
|---|---|---|
| Network.FindLinha | src/motor_eventos.py:91-95 | Returns the position of the first line in list order whose id is the target. Returns None exactly when no line has that id. |
| Network.FindEquipamento | src/motor_eventos.py:85-89 | Returns the position of the first equipment in list order whose id is the target. Returns None exactly when no equipment has that id. |
| Events.Classify | src/motor_eventos.py:153-194 | Every `tipo` string maps to exactly one kind, and the kind's name gives back the same string. A string is `Unknown` exactly when it is none of the six recognised names. |
| Events.ClassifyKindName | src/motor_eventos.py:153-194 | Naming a kind and then classifying that name gives back the same kind. This holds for every kind whose name is not shared with another kind. |
| Notifications.Payload | src/motor_eventos.py:123-191 | The payload dictionary of every notification (`falha_linha`, `estado_equipamento`, `transformador_saida`, `alarme_manual`) can be decoded back to the same notification. So no two different notifications reach the consumer as the same (name, payload) pair. |
| Dispatch.UpdateEquipmentState | src/motor_eventos.py:109-130 | After the update, `parametros["estado"]` holds the new state. Every other parameter key is unchanged, with the same value. The equipment's id, type and bus are unchanged. |
| Dispatch.UpdateEquipmentStatePayload | src/motor_eventos.py:123-130 | The notification is named `estado_equipamento`. Its payload holds the id, the type, the previous `estado` (None when it was absent), the new state and the reason. |
| Dispatch.Execute | src/motor_eventos.py:149-197 | An event whose line or equipment target is missing changes nothing, emits nothing, and does not reach the power-flow hook. Every other event reaches the hook. Dispatch never adds, removes, reorders or renames entities, and it emits at most two notifications. It writes only what the engine writes: a line `estado` stays or becomes "fora"; an equipment keeps every parameter but `estado`, which stays or becomes "aberto", "falha", "fechado" or "inativo". |
| Dispatch.LineFailureEffect | src/motor_eventos.py:153-164 | `falha_linha` on a resolved line sets that line's `estado` to `"fora"` and changes nothing else. It emits exactly one `falha_linha` notification with the line id and its origin and destination buses. |
| Dispatch.EquipmentEventEffect | src/motor_eventos.py:166-187 | Opening, failure, restoration and transformer outage write "aberto", "falha", "fechado" or "inativo" into the resolved equipment's `estado` parameter. The reason is the kind string, "restauracao" or "transformador_saida". Nothing else changes. They emit exactly one `estado_equipamento` notification, and a transformer outage then emits `transformador_saida`. |
| Dispatch.RestoreClosedRecloser | src/motor_eventos.py:174-179 | Restoring a recloser that is already "fechado" leaves the network unchanged. It still emits a notification from "fechado" to "fechado". |
| Dispatch.ManualAlarmEffect | src/motor_eventos.py:189-191 | `alarme_manual` leaves the network unchanged. It emits one `alarme_manual` notification whose payload is the event's parameters, verbatim. |
| Dispatch.UnknownKindEffect | src/motor_eventos.py:193-197 | An unrecognised kind leaves the network unchanged and emits nothing. Dispatch still reaches the power-flow hook. |
| Ordering.SortByOffset | src/motor_eventos.py:209 | The sorted batch is a permutation of the input with ascending offsets. For every offset, the events that share it keep their input order (a stable sort). |
| Ordering.StableSortUnique | src/motor_eventos.py:209 | Two sequences that are both stable sorts of the same batch are equal. So the dispatch order is fully determined, ties included. |
| Engine.FoldAppend | src/motor_eventos.py:214-228 | Dispatching `a` and then `b` equals dispatching `a + b`. Nothing done for `a` is undone, and the notifications of `b` follow those of `a`. |
| Engine.ApplyAll | src/motor_eventos.py:214-228 | Dispatching any sequence of events keeps every entity. Over the whole sequence a line `estado` is either unchanged or "fora". Every equipment parameter other than `estado` keeps its presence and value, and `estado` is either unchanged or one of the four equipment states. |
| Engine.MissingTargetSkipped | src/motor_eventos.py:149-197 | An event whose line or equipment is missing at its turn can be removed from the batch without changing the final network or the notifications. Every later event still takes effect. |
| Engine.Scenario | src/motor_eventos.py:209-228 | The dispatched events are a prefix of the sorted batch. The prefix ends at the first stop check that finds the flag set. The run is interrupted exactly when that check comes before the last event. The final network is the result of dispatching that prefix. The deliveries are that prefix's notifications in order when a consumer is registered; with no consumer registered, nothing is delivered. |
| Engine.RunLoop | src/motor_eventos.py:214-228 | The loop (one stop check, then one dispatch, per iteration) computes the same network, deliveries, dispatched events and interruption as the fold. |
| Engine.RunScenario | src/motor_eventos.py:202-230 | Sorting the batch once and then running the loop computes the same result as `Scenario`. |
| Engine.StopKeepsPrefix | src/motor_eventos.py:214-217 | Stopping before event `i` of the sorted batch gives the same network, deliveries and dispatched events as a complete run of only the first `i` sorted events. Event `i` and every later event are never dispatched. |
| Engine.StopThenResume | src/motor_eventos.py:214-217 | The effects of events dispatched before a stop remain. Dispatching the undispatched rest from the stopped state gives the uninterrupted run's network. The uninterrupted run's deliveries extend the stopped run's deliveries. |
| Engine.NoStopDispatchesAll | src/motor_eventos.py:209-228 | Without a stop, every event is dispatched exactly once, in stable offset order. An event whose target does not resolve still counts as dispatched and does not end the run. |
| Demo.DemoScenario | src/simulador.py:11-29 | The example run (fast-forward, consumer registered, no stop) dispatches its three events in order. It delivers, in order, `falha_linha{1}`, `estado_equipamento{1: fechado→aberto}`, `estado_equipamento{2: ativo→inativo}` and `transformador_saida{2}`. It ends with line 1 "fora", recloser 1 "aberto" and transformer 2 "inativo". |

## Left out

- `start_in_thread` and `stop` (src/motor_eventos.py:232-249): these are threads, `join` timeouts and the "already running" check on `is_alive()`. The model takes the stop flag as an input to the run instead: the index of the first loop check that finds it set.
- Real-time waiting (src/motor_eventos.py:219-225): this uses the wall clock and `sleep`. Only the fast-forward path is modelled. Its event order is the same as the real-time order.
- The power-flow collaborator (src/motor_eventos.py:132-147): a foreign numeric call, a timestamped JSON file write and a "powerflow" notification. Only the point where it is offered is modelled, as the `powerflowOffered` flag of a dispatch step.
- Consumer failure isolation (src/motor_eventos.py:104-107): the callback is external. Delivery is modelled as appending to the delivered log when a consumer is registered; its exceptions are not modelled.
- Payload key order: the source builds payloads as insertion-ordered Python dicts, and a consumer that prints them (src/simulador.py:6-7) sees that order. The model's payload is a `map`, which has no key order.
- Logging throughout: it has no effect on state.
- Offsets are `real`. Python floats (including NaN, which breaks `sorted`) and the `float()` and `int()` conversions in the `Evento` constructor are not modelled.
- Dictionary values are limited to None, bool, int, float and str. Nested containers in parameter dictionaries are not modelled. They are forwarded unchanged in any case.
- Object identity: the model mutates the first matching list position. In Python, the same object listed twice, or two equipments sharing one `parametros` dictionary, would see the change in both places.
- Entities without an `id` attribute (`getattr(e, "id", None)`) are not modelled: every entity has an integer id.
- Bus and load lists, and the float fields `comprimento_km`, `vn_kv` and `potencia_kw`: the engine never reads or writes them.
- `src/utils.py`, the top-level `simulador.py` (power flow and Modbus server), `scripts/` and `tests/test_motor_eventos.py` are not part of this model. The test file exercises an API that `src/motor_eventos.py` does not have.
