/**
 The escapes of `Witnesses` as runs of the whole system: append one batch, complete, and the session is
 pending with nothing left that could settle it.
 */
module EscapingRuns {
  import opened Common
  import opened Observations
  import opened Ingestion
  import opened Confluence
  import opened SourceEvidence
  import opened Snapshots
  import opened Gate
  import opened Completion
  import opened Grounding
  import opened SessionMemory
  import opened Protocol
  import opened AcceptedSeries
  import opened Witnesses

  function OneContext(): string -> SessionContext {
    _ => SHOP
  }

  function SomeConfig(settings: Settings): Config {
    Config(0, settings, 1.0, 1.0, 1.0, 1.0, 1.0)
  }

  function Collected(b: Buffer): Memory {
    Memory(map["s1" := Record(b, Collecting, None, None, None, 1.0)], map[])
  }

  function Stuck(): Memory {
    Memory(map["s1" := Record(EmptyBuffer, Pending, Some(Acceptance(0, "s1")), None, None, 1.0)], map[])
  }

  lemma AppendStep(os: seq<Frame>, b: Buffer, settings: Settings, status: AckStatus)
    requires BatchOf(os).Valid() && CheckBatch(SHOP, "s1", BatchOf(os)).None?
    requires Ingests(SHOP, EmptyBuffer, BatchOf(os), Ok((b, status)))
    ensures Appends(SomeConfig(settings), SHOP, EmptyMemory, "s1", BatchOf(os), 0.0, Collected(b), Ok(status))
  {
    hide Ingests, CheckBatch, Frame.Valid, BatchOf, Batch.Valid, SHOP;
    var record := Opened(EmptyMemory, "s1", 0.0, SomeConfig(settings));
    assert Publishes(SomeConfig(settings), EmptyMemory, "s1", record, BatchOf(os), 0.0, Ok((b, status)), Collected(b), Ok(status));
  }

  lemma BeginStep(os: seq<Frame>, b: Buffer, settings: Settings, modelId: string)
    requires Snapshotted(SHOP, b, os) && Witnesses.Escapes(b, settings)
    ensures Begins(SomeConfig(settings), SHOP, Collected(b), "s1", modelId, 0, 0.0, Stuck(), Escaped)
  {
    hide Prepare, BufferInv, Enumerates, Frame.Valid, ContextValid, Admissible, HitsKnown;
    var config := SomeConfig(settings);
    var record := Opened(Collected(b), "s1", 0.0, config);
    var prepared := Prepare(SHOP, os, b.sourceHits, settings, modelId, Acceptance(0, "s1"));
    assert prepared == Refused;
    assert Put(Collected(b), "s1", Stuck().sessions["s1"]) == Stuck();
    assert Begun(config, Collected(b), "s1", record, prepared, 0, 0.0) == (Stuck(), Escaped);
  }

  /** The run: it ends with a session that is pending without a job, a call or a task. */
  lemma EscapeIsARun(os: seq<Frame>, b: Buffer, settings: Settings, modelId: string)
    returns (worlds: seq<World>, actions: seq<Action>)
    requires BatchOf(os).Valid() && Accepts(SHOP, EmptyBuffer, BatchOf(os), b) && BufferInv(SHOP, b)
    requires Enumerates(os, b.observations) && Witnesses.Escapes(b, settings)
    ensures RunOf(OneContext(), SomeConfig(settings), worlds, actions) && |actions| == 2
    ensures actions[0].Append? && actions[0].batch == BatchOf(os) && actions[0].ack.Ok?
    ensures actions[1].Begin? && actions[1].result == Escaped
    ensures worlds[2].memory == Stuck() && worlds[2].calls == map[] && worlds[2].tasks == map[]
  {
    hide BufferInv, Enumerates, Ingests, CheckBatch, Frame.Valid, ContextValid, Witnesses.Escapes, Batch.Valid, BatchOf,
      Snapshotted, Appends, Begins, SHOP, Remembering, BeganWorld;
    ShopIsValid();
    SnapshotHolds(SHOP, b, os);
    var status := if Ingests(SHOP, EmptyBuffer, BatchOf(os), Ok((b, Accepted))) then Accepted else Duplicate;
    ShopSession();
    AppendStep(os, b, settings, status);
    BeginStep(os, b, settings, modelId);
    ShopFlag();
    var w0 := InitialWorld(SomeConfig(settings), 0.0);
    var first := Action.Append("s1", BatchOf(os), false, Ok(status), Collected(b));
    var second := Begin("s1", modelId, false, 0, Escaped, Stuck());
    var w1 := Remembering(w0, Collected(b), {});
    RememberingParts(w0, Collected(b), {});
    var w2 := BeganWorld(w1, "s1", 0, Escaped, Stuck());
    BeganParts(w1, "s1", 0, Escaped, Stuck());
    worlds, actions := [w0, w1, w2], [first, second];
    assert StepOf(OneContext(), w0, first, w1);
    assert StepOf(OneContext(), w1, second, w2);
  }

  lemma ShopSession()
    ensures SHOP.sessionId == "s1"
  {
  }

  lemma ShopFlag()
    ensures SHOP.(completedV1 := false) == SHOP
  {
  }
}
