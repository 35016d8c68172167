/** The example scenario shipped with the engine: a line failure at 2 s, a
    recloser opening at 4 s and a transformer outage at 8 s, on a network of
    one line, one recloser and one transformer. */
module Demo {
  import opened Wrappers
  import opened Values
  import opened Network
  import opened Events
  import opened Notifications
  import opened Dispatch
  import opened Ordering
  import opened Engine

  const L1: Linha := Linha(1, 1, 2, None)
  const Religador: Equipamento := Equipamento(1, "religador", 2, map["estado" := Str("fechado")])
  const Trafo: Equipamento := Equipamento(2, "transformador", 1, map["estado" := Str("ativo")])
  const DemoRede: Rede := Rede([L1], [Religador, Trafo])

  const FalhaL1: Evento := Evento(2.0, "falha_linha", 1, map[])
  const AbreReligador: Evento := Evento(4.0, "abertura_religador", 1, map[])
  const SaiTrafo: Evento := Evento(8.0, "transformador_saida", 2, map[])
  const DemoEventos: seq<Evento> := [FalhaL1, AbreReligador, SaiTrafo]

  /** The expected notifications, in delivery order. */
  const DemoNotas: seq<Notification> := [
    LineFailed(1, 1, 2),
    EquipmentStateChanged(1, "religador", Str("fechado"), "aberto", "abertura_religador"),
    EquipmentStateChanged(2, "transformador", Str("ativo"), "inativo", "transformador_saida"),
    TransformerRemoved(2)
  ]

  /** The network after the run: the line is out, the recloser open and the
      transformer inactive. */
  const DemoFinal: Rede := Rede(
    [L1.(estado := Some("fora"))],
    [Religador.(parametros := map["estado" := Str("aberto")]),
     Trafo.(parametros := map["estado" := Str("inativo")])])

  /** The network after the line failure, and after the recloser opening. */
  const AfterLine: Rede := Rede([L1.(estado := Some("fora"))], [Religador, Trafo])
  const AfterRecloser: Rede := Rede(AfterLine.linhas, [DemoFinal.equipamentos[0], Trafo])

  /** The line failure resolves line 1 and takes it out. */
  lemma DemoLineStep()
    ensures Execute(DemoRede, FalhaL1) == Step(AfterLine, [DemoNotas[0]], true)
  {
    assert Classify("falha_linha") == LineFailure;
    assert FindLinha([L1], 1) == Some(0);
  }

  /** The opening resolves recloser 1 and moves it from "fechado" to "aberto". */
  lemma DemoRecloserStep()
    ensures Execute(AfterLine, AbreReligador) == Step(AfterRecloser, [DemoNotas[1]], true)
  {
    assert Classify("abertura_religador") == RecloserOpening;
    assert FindEquipamento([Religador, Trafo], 1) == Some(0);
    assert Religador.parametros["estado" := Str("aberto")] == map["estado" := Str("aberto")];
  }

  /** The outage resolves transformer 2, moves it from "ativo" to "inativo" and
      reports the outage. */
  lemma DemoTransformerStep()
    ensures Execute(AfterRecloser, SaiTrafo) == Step(DemoFinal, DemoNotas[2..], true)
  {
    assert Classify("transformador_saida") == TransformerOutage;
    var eqs := AfterRecloser.equipamentos;
    assert FindEquipamento(eqs, 2) == Some(1) by {
      assert eqs[0].id == 1 && eqs[1].id == 2;
    }
    assert Trafo.parametros["estado" := Str("inativo")] == map["estado" := Str("inativo")];
  }

  /** Dispatching the first two events in order. */
  lemma DemoFoldTwo()
    ensures Fold(Execute, DemoRede, [FalhaL1, AbreReligador]) == State(AfterRecloser, DemoNotas[..2])
  {
    DemoLineStep();
    DemoRecloserStep();
    FoldSnoc(Execute, DemoRede, [], FalhaL1);
    assert [] + [FalhaL1] == [FalhaL1];
    assert Fold(Execute, DemoRede, [FalhaL1]) == State(AfterLine, [DemoNotas[0]]);
    FoldSnoc(Execute, DemoRede, [FalhaL1], AbreReligador);
    assert [FalhaL1] + [AbreReligador] == [FalhaL1, AbreReligador];
    assert [DemoNotas[0]] + [DemoNotas[1]] == DemoNotas[..2];
  }

  /** Dispatching the three events in order yields the expected network and notifications. */
  lemma DemoFold()
    ensures Fold(Execute, DemoRede, DemoEventos) == State(DemoFinal, DemoNotas)
  {
    DemoFoldTwo();
    DemoTransformerStep();
    FoldSnoc(Execute, DemoRede, [FalhaL1, AbreReligador], SaiTrafo);
    assert [FalhaL1, AbreReligador] + [SaiTrafo] == DemoEventos;
    assert DemoNotas[..2] + DemoNotas[2..] == DemoNotas;
  }

  /** The example's events are already in offset order, so the sort keeps them. */
  lemma DemoSorted()
    ensures SortByOffset(DemoEventos) == DemoEventos
  {
    assert Ordered(DemoEventos);
    SortOfOrderedIsIdentity(DemoEventos);
  }

  /** Run fast-forward with a registered consumer and no stop, the example
      dispatches all three events in offset order, delivers exactly the four
      notifications of `DemoNotas` ("falha_linha", "estado_equipamento" for
      the recloser, "estado_equipamento" for the transformer, then
      "transformador_saida") and leaves the line out, the recloser open and
      the transformer inactive. */
  lemma DemoScenario()
    ensures Scenario(true, DemoRede, DemoEventos, None) == Run(DemoFinal, DemoNotas, DemoEventos, false)
  {
    DemoSorted();
    ScenarioOfOrdered(true, DemoRede, DemoEventos, None);
    DemoFold();
    assert DemoEventos[..3] == DemoEventos;
  }
}
