/** Scheduled events and the classification of their kind strings. */
module Events {
  import opened Values

  /** A scheduled action: fires `tempo` seconds after the scenario starts,
      targets the line or equipment with id `alvoId`, and carries a free-form
      parameter dictionary (an omitted dictionary is the empty one). */
  datatype Evento = Evento(tempo: real, tipo: string, alvoId: int, parametros: Params)

  /** The event kinds the dispatcher distinguishes; every other string is `Unknown`. */
  datatype Kind =
    | LineFailure
    | RecloserOpening
    | RecloserFailure
    | RecloserRestoration
    | TransformerOutage
    | ManualAlarm
    | Unknown(name: string)

  /** The kind strings the dispatcher recognises. */
  const KnownNames: set<string> := {
    "falha_linha", "abertura_religador", "falha_religador",
    "restauracao_religador", "transformador_saida", "alarme_manual"
  }

  /** The string an event of kind `k` carries in its `tipo` field. */
  function KindName(k: Kind): string {
    match k
    case LineFailure => "falha_linha"
    case RecloserOpening => "abertura_religador"
    case RecloserFailure => "falha_religador"
    case RecloserRestoration => "restauracao_religador"
    case TransformerOutage => "transformador_saida"
    case ManualAlarm => "alarme_manual"
    case Unknown(name) => name
  }

  /** A kind no other kind shares a name with: an `Unknown` kind never carries a
      recognised string. */
  predicate Canonical(k: Kind) {
    k.Unknown? ==> k.name !in KnownNames
  }

  /** The kind of the `tipo` string, compared exactly as the dispatcher's
      if/elif chain compares it. */
  function Classify(tipo: string): (k: Kind)
    ensures KindName(k) == tipo
    ensures Canonical(k)
    ensures k.Unknown? <==> tipo !in KnownNames
  {
    if tipo == "falha_linha" then LineFailure
    else if tipo == "abertura_religador" then RecloserOpening
    else if tipo == "falha_religador" then RecloserFailure
    else if tipo == "restauracao_religador" then RecloserRestoration
    else if tipo == "transformador_saida" then TransformerOutage
    else if tipo == "alarme_manual" then ManualAlarm
    else Unknown(tipo)
  }

  /** Naming a canonical kind and classifying the name gives the kind back. */
  lemma ClassifyKindName(k: Kind)
    requires Canonical(k)
    ensures Classify(KindName(k)) == k
  {
  }
}
