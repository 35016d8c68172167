/** The notifications the engine pushes to the SCADA consumer: a typed view of
    each payload shape, the (name, dictionary) pair the consumer actually
    receives, and a decoder that reads the pair back. */
module Notifications {
  import opened Wrappers
  import opened Values

  datatype Notification =
      /** "falha_linha": a line was taken out of service. */
    | LineFailed(linhaId: int, origem: int, destino: int)
      /** "estado_equipamento": an equipment's `estado` parameter was written. */
    | EquipmentStateChanged(equipamentoId: int, tipo: string, estadoAnterior: Value,
                            estadoAtual: string, motivo: string)
      /** "transformador_saida": a transformer left service. */
    | TransformerRemoved(transformadorId: int)
      /** "alarme_manual": the event's own parameters, forwarded verbatim. */
    | AlarmRaised(payload: Params)

  /** The event name passed as the callback's first argument. */
  function Name(n: Notification): string {
    match n
    case LineFailed(_, _, _) => "falha_linha"
    case EquipmentStateChanged(_, _, _, _, _) => "estado_equipamento"
    case TransformerRemoved(_) => "transformador_saida"
    case AlarmRaised(_) => "alarme_manual"
  }

  /** The payload dictionary passed as the callback's second argument. It
      loses nothing: the consumer can recover the notification from it. */
  function Payload(n: Notification): (p: Params)
    ensures Decode(Name(n), p) == Some(n)
  {
    match n
    case LineFailed(l, o, d) =>
      map["linha_id" := Int(l), "origem" := Int(o), "destino" := Int(d)]
    case EquipmentStateChanged(e, t, antes, agora, motivo) =>
      map["equipamento_id" := Int(e), "tipo" := Str(t), "estado_anterior" := antes,
          "estado_atual" := Str(agora), "motivo" := Str(motivo)]
    case TransformerRemoved(t) =>
      map["transformador_id" := Int(t)]
    case AlarmRaised(p) => p
  }

  /** How a consumer reads a (name, payload) pair back into a notification;
      None for a name or dictionary shape the engine never emits. */
  function Decode(name: string, p: Params): Option<Notification> {
    if name == "falha_linha" then
      if "linha_id" in p && "origem" in p && "destino" in p
         && p["linha_id"].Int? && p["origem"].Int? && p["destino"].Int?
      then Some(LineFailed(p["linha_id"].i, p["origem"].i, p["destino"].i))
      else None
    else if name == "estado_equipamento" then
      if "equipamento_id" in p && "tipo" in p && "estado_anterior" in p
         && "estado_atual" in p && "motivo" in p
         && p["equipamento_id"].Int? && p["tipo"].Str? && p["estado_atual"].Str? && p["motivo"].Str?
      then Some(EquipmentStateChanged(p["equipamento_id"].i, p["tipo"].s, p["estado_anterior"],
                                      p["estado_atual"].s, p["motivo"].s))
      else None
    else if name == "transformador_saida" then
      if "transformador_id" in p && p["transformador_id"].Int?
      then Some(TransformerRemoved(p["transformador_id"].i))
      else None
    else if name == "alarme_manual" then
      Some(AlarmRaised(p))
    else
      None
  }
}
