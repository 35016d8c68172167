/** Dispatch of one event against the network: resolve the target, apply the
    single state transition the kind prescribes, and produce the notifications
    offered to the SCADA consumer. */
module Dispatch {
  import opened Wrappers
  import opened Values
  import opened Network
  import opened Events
  import opened Notifications

  /** The outcome of dispatching one event: the network afterwards, the
      notifications offered to the consumer in emission order, and whether
      control reached the power-flow hook at the end of dispatch. */
  datatype Step = Step(rede: Rede, notas: seq<Notification>, powerflowOffered: bool)

  /** An equipment after its state update, and the notification describing it. */
  datatype Updated = Updated(equipamento: Equipamento, nota: Notification)

  /** The equipment transition each kind prescribes: the new `estado` and the
      `motivo` reported with it. */
  function Transition(k: Kind): Option<(string, string)> {
    match k
    case RecloserOpening => Some(("aberto", "abertura_religador"))
    case RecloserFailure => Some(("falha", "falha_religador"))
    case RecloserRestoration => Some(("fechado", "restauracao"))
    case TransformerOutage => Some(("inativo", "transformador_saida"))
    case _ => None
  }

  /** Writes `novo` into the equipment's `estado` parameter and describes the
      change: previous value (None when absent), new value and reason. */
  function UpdateEquipmentState(eq: Equipamento, novo: string, motivo: string): (u: Updated)
    ensures Get(u.equipamento.parametros, "estado") == Str(novo)
    ensures u.equipamento.(parametros := eq.parametros) == eq
    ensures forall k :: k != "estado" ==>
              (k in u.equipamento.parametros <==> k in eq.parametros)
              && (k in eq.parametros ==> u.equipamento.parametros[k] == eq.parametros[k])
  {
    var anterior := Get(eq.parametros, "estado");
    Updated(eq.(parametros := eq.parametros["estado" := Str(novo)]),
            EquipmentStateChanged(eq.id, eq.tipo, anterior, novo, motivo))
  }

  /** The notification of a state update, as the consumer receives it: named
      "estado_equipamento", with the equipment's id and type, the previous
      `estado` (None when it was absent), the new one, and the reason. */
  lemma UpdateEquipmentStatePayload(eq: Equipamento, novo: string, motivo: string)
    ensures var u := UpdateEquipmentState(eq, novo, motivo);
      && Name(u.nota) == "estado_equipamento"
      && Payload(u.nota) ==
           map["equipamento_id" := Int(eq.id), "tipo" := Str(eq.tipo),
               "estado_anterior" := Get(eq.parametros, "estado"),
               "estado_atual" := Str(novo), "motivo" := Str(motivo)]
  {
  }

  /** A line failure: resolve the line, mark it "fora", report its buses. */
  function LineEvent(rede: Rede, alvo: int): (s: Step)
    ensures EngineWrites(rede, s.rede)
  {
    match FindLinha(rede.linhas, alvo)
    case None => Step(rede, [], false)
    case Some(i) =>
      var l := rede.linhas[i];
      Step(rede.(linhas := rede.linhas[i := l.(estado := Some("fora"))]),
           [LineFailed(l.id, l.barraOrigem, l.barraDestino)],
           true)
  }

  /** The shared body of the four equipment kinds: resolve the target, update
      it, and for a transformer outage follow up with the outage notification. */
  function EquipmentEvent(rede: Rede, alvo: int, novo: string, motivo: string, transformer: bool): (s: Step)
    requires Str(novo) in EquipmentStates
    ensures EngineWrites(rede, s.rede)
  {
    match FindEquipamento(rede.equipamentos, alvo)
    case None => Step(rede, [], false)
    case Some(i) =>
      var u := UpdateEquipmentState(rede.equipamentos[i], novo, motivo);
      Step(rede.(equipamentos := rede.equipamentos[i := u.equipamento]),
           [u.nota] + (if transformer then [TransformerRemoved(u.equipamento.id)] else []),
           true)
  }

  /** The values an equipment event can write into `estado`. */
  const EquipmentStates: set<Value> := {Str("aberto"), Str("falha"), Str("fechado"), Str("inativo")}

  /** `b` differs from `a` only by writes the engine performs: a line's `estado`
      stays as it was or becomes "fora"; an equipment's parameters keep every key
      but "estado", with the same values, and its `estado` stays as it was or
      holds one of the four equipment states. */
  ghost predicate EngineWrites(a: Rede, b: Rede) {
    && SameTopology(a, b)
    && (forall j :: 0 <= j < |a.linhas| ==>
          b.linhas[j].estado == a.linhas[j].estado || b.linhas[j].estado == Some("fora"))
    && (forall j :: 0 <= j < |a.equipamentos| ==>
          KeepsOtherParams(a.equipamentos[j].parametros, b.equipamentos[j].parametros))
    && (forall j :: 0 <= j < |a.equipamentos| ==>
          Get(b.equipamentos[j].parametros, "estado") == Get(a.equipamentos[j].parametros, "estado")
          || Get(b.equipamentos[j].parametros, "estado") in EquipmentStates)
  }

  /** Every key other than "estado" is present in `q` exactly when it is in
      `p`, with the same value. */
  ghost predicate KeepsOtherParams(p: Params, q: Params) {
    forall k :: k != "estado" ==> (k in q <==> k in p) && (k in p ==> q[k] == p[k])
  }

  lemma EngineWritesReflexive(a: Rede)
    ensures EngineWrites(a, a)
  {
  }

  lemma EngineWritesTransitive(a: Rede, b: Rede, c: Rede)
    requires EngineWrites(a, b) && EngineWrites(b, c)
    ensures EngineWrites(a, c)
  {
    SameTopologyTransitive(a, b, c);
  }

  /** The event names a line or equipment that the directory does not hold. */
  predicate TargetMissing(rede: Rede, ev: Evento) {
    var k := Classify(ev.tipo);
    || (k == LineFailure && forall j :: 0 <= j < |rede.linhas| ==> rede.linhas[j].id != ev.alvoId)
    || (Transition(k).Some? &&
        forall j :: 0 <= j < |rede.equipamentos| ==> rede.equipamentos[j].id != ev.alvoId)
  }

  /** Dispatches one event. An unresolved target is an early return: nothing
      changes, nothing is emitted and the power-flow hook is not reached. */
  function Execute(rede: Rede, ev: Evento): (s: Step)
    ensures SameTopology(rede, s.rede)
    ensures EngineWrites(rede, s.rede)
    ensures s.powerflowOffered <==> !TargetMissing(rede, ev)
    ensures !s.powerflowOffered ==> s.rede == rede && s.notas == []
    ensures |s.notas| <= 2
  {
    match Classify(ev.tipo)
    case LineFailure => LineEvent(rede, ev.alvoId)
    case RecloserOpening => EquipmentEvent(rede, ev.alvoId, "aberto", ev.tipo, false)
    case RecloserFailure => EquipmentEvent(rede, ev.alvoId, "falha", ev.tipo, false)
    case RecloserRestoration => EquipmentEvent(rede, ev.alvoId, "fechado", "restauracao", false)
    case TransformerOutage => EquipmentEvent(rede, ev.alvoId, "inativo", "transformador_saida", true)
    case ManualAlarm => Step(rede, [AlarmRaised(ev.parametros)], true)
    case Unknown(_) => Step(rede, [], true)
  }

  /** A line failure on a resolved line marks exactly that line "fora" and emits
      one "falha_linha" notification with the line id and its two buses. */
  lemma LineFailureEffect(rede: Rede, ev: Evento, i: nat)
    requires ev.tipo == "falha_linha"
    requires FindLinha(rede.linhas, ev.alvoId) == Some(i)
    ensures var s := Execute(rede, ev);
      && s.rede.equipamentos == rede.equipamentos
      && |s.rede.linhas| == |rede.linhas|
      && s.rede.linhas[i] == rede.linhas[i].(estado := Some("fora"))
      && (forall j :: 0 <= j < |rede.linhas| && j != i ==> s.rede.linhas[j] == rede.linhas[j])
      && s.notas == [LineFailed(ev.alvoId, rede.linhas[i].barraOrigem, rede.linhas[i].barraDestino)]
      && Payload(s.notas[0]) == map["linha_id" := Int(ev.alvoId),
                                     "origem" := Int(rede.linhas[i].barraOrigem),
                                     "destino" := Int(rede.linhas[i].barraDestino)]
      && s.powerflowOffered
  {
  }

  /** The four equipment kinds on a resolved equipment write the table's new
      state into that equipment's `estado` parameter only, and emit one
      "estado_equipamento" notification (then, for a transformer outage, one
      "transformador_saida" notification), even when the state does not change. */
  lemma EquipmentEventEffect(rede: Rede, ev: Evento, i: nat)
    requires Transition(Classify(ev.tipo)).Some?
    requires FindEquipamento(rede.equipamentos, ev.alvoId) == Some(i)
    ensures var s := Execute(rede, ev);
      var (novo, motivo) := Transition(Classify(ev.tipo)).value;
      var eq := rede.equipamentos[i];
      && s.rede.linhas == rede.linhas
      && |s.rede.equipamentos| == |rede.equipamentos|
      && s.rede.equipamentos[i] == eq.(parametros := eq.parametros["estado" := Str(novo)])
      && (forall j :: 0 <= j < |rede.equipamentos| && j != i ==> s.rede.equipamentos[j] == rede.equipamentos[j])
      && s.notas == [EquipmentStateChanged(ev.alvoId, eq.tipo, Get(eq.parametros, "estado"), novo, motivo)]
                    + (if ev.tipo == "transformador_saida" then [TransformerRemoved(ev.alvoId)] else [])
      && s.powerflowOffered
  {
  }

  /** Restoring a recloser that is already "fechado" leaves the network as it
      was, yet still reports a change from "fechado" to "fechado". */
  lemma RestoreClosedRecloser(rede: Rede, ev: Evento, i: nat)
    requires ev.tipo == "restauracao_religador"
    requires FindEquipamento(rede.equipamentos, ev.alvoId) == Some(i)
    requires Get(rede.equipamentos[i].parametros, "estado") == Str("fechado")
    ensures Execute(rede, ev).rede == rede
    ensures Execute(rede, ev).notas ==
              [EquipmentStateChanged(ev.alvoId, rede.equipamentos[i].tipo, Str("fechado"), "fechado", "restauracao")]
  {
    var eq := rede.equipamentos[i];
    assert eq.parametros["estado" := Str("fechado")] == eq.parametros;
    assert rede.equipamentos[i := eq] == rede.equipamentos;
  }

  /** A manual alarm changes nothing and forwards the event's parameters
      verbatim as the single notification's payload. */
  lemma ManualAlarmEffect(rede: Rede, ev: Evento)
    requires ev.tipo == "alarme_manual"
    ensures Execute(rede, ev).rede == rede
    ensures |Execute(rede, ev).notas| == 1
    ensures Name(Execute(rede, ev).notas[0]) == "alarme_manual"
    ensures Payload(Execute(rede, ev).notas[0]) == ev.parametros
    ensures Execute(rede, ev).powerflowOffered
  {
  }

  /** Any unrecognised kind changes nothing and emits nothing, but dispatch
      still runs on to the power-flow hook. */
  lemma UnknownKindEffect(rede: Rede, ev: Evento)
    requires ev.tipo !in KnownNames
    ensures Execute(rede, ev) == Step(rede, [], true)
  {
  }
}
