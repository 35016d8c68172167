/** The network directory the engine works on: the lines and equipment of the
    `rede` dictionary, and the linear-scan lookups that resolve an event target. */
module Network {
  import opened Wrappers
  import opened Values

  /** A line between two buses. `estado` is absent until a line-failure event
      attaches it to the object; the length in km plays no part in the engine. */
  datatype Linha = Linha(id: int, barraOrigem: int, barraDestino: int, estado: Option<string>)

  /** A piece of equipment (recloser, transformer, ...) attached to a bus. Its
      mutable state lives in `parametros["estado"]`. */
  datatype Equipamento = Equipamento(id: int, tipo: string, barra: int, parametros: Params)

  /** The "linhas" and "equipamentos" lists of the `rede` dictionary, in list
      order; a missing key reads as an empty list. */
  datatype Rede = Rede(linhas: seq<Linha>, equipamentos: seq<Equipamento>)

  /** The index of the first line whose id is `id`, or None when no line has it. */
  function FindLinha(linhas: seq<Linha>, id: int): (r: Option<nat>)
    ensures r.Some? ==> r.value < |linhas| && linhas[r.value].id == id
    ensures r.Some? ==> forall j :: 0 <= j < r.value ==> linhas[j].id != id
    ensures r.None? <==> forall j :: 0 <= j < |linhas| ==> linhas[j].id != id
  {
    if |linhas| == 0 then None
    else if linhas[0].id == id then Some(0)
    else
      match FindLinha(linhas[1..], id)
      case None => None
      case Some(k) => Some(k + 1)
  }

  /** The index of the first equipment whose id is `id`, or None when none has it. */
  function FindEquipamento(equipamentos: seq<Equipamento>, id: int): (r: Option<nat>)
    ensures r.Some? ==> r.value < |equipamentos| && equipamentos[r.value].id == id
    ensures r.Some? ==> forall j :: 0 <= j < r.value ==> equipamentos[j].id != id
    ensures r.None? <==> forall j :: 0 <= j < |equipamentos| ==> equipamentos[j].id != id
  {
    if |equipamentos| == 0 then None
    else if equipamentos[0].id == id then Some(0)
    else
      match FindEquipamento(equipamentos[1..], id)
      case None => None
      case Some(k) => Some(k + 1)
  }

  /** `b` has the same entities as `a`, in the same order, differing at most in
      the mutable fields: a line's `estado` and an equipment's `parametros`. */
  predicate SameTopology(a: Rede, b: Rede) {
    && |a.linhas| == |b.linhas|
    && |a.equipamentos| == |b.equipamentos|
    && (forall j :: 0 <= j < |a.linhas| ==> b.linhas[j] == a.linhas[j].(estado := b.linhas[j].estado))
    && (forall j :: 0 <= j < |a.equipamentos| ==>
          b.equipamentos[j] == a.equipamentos[j].(parametros := b.equipamentos[j].parametros))
  }

  lemma SameTopologyTransitive(a: Rede, b: Rede, c: Rede)
    requires SameTopology(a, b) && SameTopology(b, c)
    ensures SameTopology(a, c)
  {
  }
}
