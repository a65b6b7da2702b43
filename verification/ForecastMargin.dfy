/**
 By how much the total of a pipeline exceeds its forecast (getForecast of deals.service.ts), step
 by step and over every run: the exact condition for the forecast to stay within the pipeline.
 */
module ForecastMargin {
  import opened Wrappers
  import opened Deals
  import opened DealViews

  function Margin(deals: seq<Deal>, stages: seq<Stage>): real {
    Pipeline(deals, stages) - Weighted(deals, stages)
  }

  // The part of a value that is not expected.
  function Rest(value: real, probability: real): real {
    value * (1.0 - probability)
  }

  // What a deal adds to the margin.
  function Gap(deal: Deal, stages: seq<Stage>): real {
    Rest(Share(deal, stages), Chance(deal, stages))
  }

  lemma GapIsTheRest(deal: Deal, stages: seq<Stage>)
    ensures Gap(deal, stages) == Share(deal, stages) - Expected(deal, stages)
  {
    hide FindStage;
    Split(Share(deal, stages), Chance(deal, stages));
  }

  lemma Split(value: real, probability: real)
    ensures Rest(value, probability) == value - Weigh(value, probability)
  {
  }

  // ---------------------------------------------------------------- steps on deals

  lemma {:induction false} OneMoreDeal(deals: seq<Deal>, deal: Deal, stages: seq<Stage>)
    ensures Margin(deals + [deal], stages) == Margin(deals, stages) + Gap(deal, stages)
  {
    hide Share, Expected, Gap;
    if deals == [] {
      assert deals + [deal] == [deal] && [deal][1..] == [];
      GapIsTheRest(deal, stages);
    } else {
      OneMoreDeal(deals[1..], deal, stages);
      assert (deals + [deal])[0] == deals[0] && (deals + [deal])[1..] == deals[1..] + [deal];
    }
  }

  lemma {:induction false} OtherDeal(deals: seq<Deal>, id: nat, deal: Deal, stages: seq<Stage>)
    requires id < |deals|
    ensures Margin(deals[id := deal], stages)
         == Margin(deals, stages) - Gap(deals[id], stages) + Gap(deal, stages)
  {
    hide Share, Expected, Gap;
    var after := deals[id := deal];
    if id == 0 {
      assert after[0] == deal && after[1..] == deals[1..];
      GapIsTheRest(deal, stages);
      GapIsTheRest(deals[0], stages);
    } else {
      OtherDeal(deals[1..], id - 1, deal, stages);
      assert after[0] == deals[0] && after[1..] == deals[1..][id - 1 := deal];
    }
  }

  // ---------------------------------------------------------------- steps on stages

  lemma {:induction false} FindInEdited(stages: seq<Stage>, id: nat, probability: real, isWon: bool, isLost: bool,
        other: nat)
    ensures FindStage(Edited(stages, id, probability, isWon, isLost), other)
         == if other == id && FindStage(stages, id).Some?
            then Some(FindStage(stages, id).value.(probability := probability, isWon := isWon, isLost := isLost))
            else FindStage(stages, other)
  {
    if stages != [] {
      var edited := Edited(stages, id, probability, isWon, isLost);
      assert edited[1..] == Edited(stages[1..], id, probability, isWon, isLost);
      FindInEdited(stages[1..], id, probability, isWon, isLost, other);
    }
  }

  lemma {:induction false} EditedOwn(stages: seq<Stage>, pipelineId: nat, id: nat, probability: real, isWon: bool,
        isLost: bool)
    ensures StagesOf(Edited(stages, id, probability, isWon, isLost), pipelineId)
         == Edited(StagesOf(stages, pipelineId), id, probability, isWon, isLost)
  {
    if stages != [] {
      var edited := Edited(stages, id, probability, isWon, isLost);
      var own := StagesOf(stages[1..], pipelineId);
      EditedOwn(stages[1..], pipelineId, id, probability, isWon, isLost);
      assert edited[1..] == Edited(stages[1..], id, probability, isWon, isLost);
      if stages[0].pipelineId == pipelineId {
        assert ([stages[0]] + own)[1..] == own;
      }
    }
  }

  lemma {:induction false} EditMoves(deals: seq<Deal>, stages: seq<Stage>, id: nat, probability: real, isWon: bool,
        isLost: bool)
    ensures Margin(deals, Edited(stages, id, probability, isWon, isLost))
         == Margin(deals, stages) + EditGain(deals, stages, id, probability)
  {
    hide FindStage, Edited, Share, Expected, Weigh;
    if deals == [] {
      Nothing(Chance(Deal(0, id, Open, 0.0), stages) - probability);
    } else {
      var edited := Edited(stages, id, probability, isWon, isLost);
      EditMoves(deals[1..], stages, id, probability, isWon, isLost);
      EditMovesOne(deals[0], stages, id, probability, isWon, isLost);
      if deals[0].status == Open && deals[0].stageId == id {
        assert OpenOn(deals, id)[1..] == OpenOn(deals[1..], id);
        if FindStage(stages, id).Some? {
          Distribute(deals[0].value, Total(OpenOn(deals[1..], id)),
                     FindStage(stages, id).value.probability - probability);
        }
      }
    }
  }

  function EditGain(deals: seq<Deal>, stages: seq<Stage>, id: nat, probability: real): real {
    if FindStage(stages, id).None? then 0.0
    else Weigh(Total(OpenOn(deals, id)), FindStage(stages, id).value.probability - probability)
  }

  lemma Nothing(probability: real)
    ensures Weigh(0.0, probability) == 0.0
  {
  }

  lemma EditMovesOne(deal: Deal, stages: seq<Stage>, id: nat, probability: real, isWon: bool, isLost: bool)
    ensures var edited := Edited(stages, id, probability, isWon, isLost);
      Share(deal, edited) - Expected(deal, edited)
      == Share(deal, stages) - Expected(deal, stages)
         + if deal.status == Open && deal.stageId == id && FindStage(stages, id).Some?
           then Weigh(deal.value, FindStage(stages, id).value.probability - probability) else 0.0
  {
    hide FindStage, Edited;
    FindInEdited(stages, id, probability, isWon, isLost, deal.stageId);
    Nothing(Chance(deal, stages));
    Nothing(Chance(deal, Edited(stages, id, probability, isWon, isLost)));
  }

  lemma {:induction false} WithoutOwn(stages: seq<Stage>, pipelineId: nat, id: nat)
    ensures StagesOf(Without(stages, id), pipelineId) == Without(StagesOf(stages, pipelineId), id)
  {
    if stages != [] {
      var own := StagesOf(stages[1..], pipelineId);
      WithoutOwn(stages[1..], pipelineId, id);
      assert ([stages[0]] + own)[1..] == own;
      assert ([stages[0]] + Without(stages[1..], id))[1..] == Without(stages[1..], id);
    }
  }

  lemma {:induction false} UnusedStage(deals: seq<Deal>, stages: seq<Stage>, id: nat)
    requires forall deal <- deals :: deal.stageId != id
    ensures Margin(deals, Without(stages, id)) == Margin(deals, stages)
    ensures OpenOn(deals, id) == []
  {
    hide FindStage, Without, Weigh;
    if deals != [] {
      assert deals[0] in deals;
      UnusedStage(deals[1..], stages, id);
    }
  }

  lemma {:induction false} AppendOwn(stages: seq<Stage>, stage: Stage, pipelineId: nat)
    ensures StagesOf(stages + [stage], pipelineId)
         == StagesOf(stages, pipelineId) + if stage.pipelineId == pipelineId then [stage] else []
  {
    if stages == [] {
      assert stages + [stage] == [stage] && [stage][1..] == [];
    } else {
      assert (stages + [stage])[0] == stages[0] && (stages + [stage])[1..] == stages[1..] + [stage];
      AppendOwn(stages[1..], stage, pipelineId);
    }
  }

  lemma NewStage(b: Board, pipelineId: nat, stage: Stage)
    requires DistinctStages(b) && stage.id == b.nextStage
    ensures Margin(b.deals, StagesOf(b.stages + [stage], pipelineId)) == Margin(b.deals, StagesOf(b.stages, pipelineId))
  {
    hide Pipeline, Weighted, Weigh;
    var own := StagesOf(b.stages, pipelineId);
    AppendOwn(b.stages, stage, pipelineId);
    StagesOfIn(b.stages, pipelineId);
    if stage.pipelineId == pipelineId {
      assert forall deal <- b.deals :: deal.stageId != stage.id;
      UnusedStage(b.deals, own, stage.id);
      assert FindStage(own, stage.id).None?;
      OneMoreStage(b.deals, own, stage);
      Nothing(stage.probability);
    } else {
      assert own + [] == own;
    }
  }

  // ---------------------------------------------------------------- any step

  // What a step adds to the margin of a pipeline: read off the board before the step.
  function Gain(b: Board, step: Step, pipelineId: nat): real {
    var stages := StagesOf(b.stages, pipelineId);
    match step
    case DoCreate(p, stageId, value, _) =>
      if Offers(b, p, stageId) then Gap(Deal(p, stageId, Open, value), stages) else 0.0
    case DoConvert(p, stageId, value) =>
      if p in b.pipelines && FindStage(b.stages, stageId).Some? then Gap(Deal(p, stageId, Open, value), stages) else 0.0
    case DoUpdate(id, value) =>
      if id < |b.deals| then Gap(b.deals[id].(value := value), stages) - Gap(b.deals[id], stages) else 0.0
    case DoMove(id, stageId, _) =>
      if id < |b.deals| && Offers(b, b.deals[id].pipelineId, stageId)
      then Gap(Landed(b.deals[id], FindStage(b.stages, stageId).value), stages) - Gap(b.deals[id], stages)
      else 0.0
    case DoEditStage(id, probability, _, _) => EditGain(b.deals, stages, id, probability)
    case DoAddPipeline(_) | DoAddStage(_, _, _, _) | DoRemoveStage(_) => 0.0
  }

  lemma MarginStep(b: Board, step: Step, pipelineId: nat)
    requires DistinctStages(b)
    ensures var c := Next(b, step);
      Margin(c.deals, StagesOf(c.stages, pipelineId))
      == Margin(b.deals, StagesOf(b.stages, pipelineId)) + Gain(b, step, pipelineId)
  {
    hide Margin, Gap, EditGain, FindStage, Edited, Without, StagesOf;
    var stages := StagesOf(b.stages, pipelineId);
    match step
    case DoCreate(p, stageId, value, _) => OneMoreDeal(b.deals, Deal(p, stageId, Open, value), stages);
    case DoConvert(p, stageId, value) => OneMoreDeal(b.deals, Deal(p, stageId, Open, value), stages);
    case DoUpdate(id, value) =>
      if id < |b.deals| { OtherDeal(b.deals, id, b.deals[id].(value := value), stages); }
    case DoMove(id, stageId, _) =>
      if id < |b.deals| && Offers(b, b.deals[id].pipelineId, stageId) {
        OtherDeal(b.deals, id, Landed(b.deals[id], FindStage(b.stages, stageId).value), stages);
      }
    case DoEditStage(id, probability, isWon, isLost) =>
      EditedOwn(b.stages, pipelineId, id, probability, isWon, isLost);
      EditMoves(b.deals, stages, id, probability, isWon, isLost);
    case DoAddStage(p, probability, isWon, isLost) =>
      NewStage(b, pipelineId, Stage(b.nextStage, p, probability, isWon, isLost));
    case DoRemoveStage(id) =>
      if !InUse(b, id) {
        WithoutOwn(b.stages, pipelineId, id);
        UnusedStage(b.deals, stages, id);
      }
    case DoAddPipeline(_) =>
  }

  // ---------------------------------------------------------------- main results

  predicate WithinPipeline(b: Board, pipelineId: nat) {
    Weighted(b.deals, StagesOf(b.stages, pipelineId)) <= Pipeline(b.deals, StagesOf(b.stages, pipelineId))
  }

  // From any reachable board, a step leaves the forecast within the pipeline exactly when it takes no more from the
  // margin than there is.
  lemma StepStaysWithin(b: Board, step: Step, pipelineId: nat)
    requires DistinctStages(b)
    ensures WithinPipeline(Next(b, step), pipelineId)
       <==> -Gain(b, step, pipelineId)
            <= Pipeline(b.deals, StagesOf(b.stages, pipelineId)) - Weighted(b.deals, StagesOf(b.stages, pipelineId))
  {
    MarginStep(b, step, pipelineId);
    hide Next, Gain, Pipeline, Weighted, StagesOf;
  }

  // For a conversion, which alone may bring a negative value: on any board, in terms of the call's own arguments.
  lemma ConversionStaysWithin(b: Board, p: nat, stageId: nat, value: real, pipelineId: nat)
    requires p in b.pipelines && FindStage(b.stages, stageId).Some?
    ensures var stage := FindStage(StagesOf(b.stages, pipelineId), stageId);
      WithinPipeline(Next(b, DoConvert(p, stageId, value)), pipelineId)
      <==> if stage.None? then WithinPipeline(b, pipelineId)
           else -(value * (1.0 - stage.value.probability))
                <= Pipeline(b.deals, StagesOf(b.stages, pipelineId)) - Weighted(b.deals, StagesOf(b.stages, pipelineId))
  {
    var stages := StagesOf(b.stages, pipelineId);
    var deal := Deal(p, stageId, Open, value);
    OneMoreDeal(b.deals, deal, stages);
    GapOf(deal, stages);
    hide Pipeline, Weighted, StagesOf, FindStage, Gap;
  }

  lemma GapOf(deal: Deal, stages: seq<Stage>)
    requires deal.status == Open
    ensures var stage := FindStage(stages, deal.stageId);
      Gap(deal, stages) == if stage.None? then 0.0 else deal.value * (1.0 - stage.value.probability)
  {
    hide FindStage;
  }

  function Gains(b: Board, steps: seq<Step>, pipelineId: nat): real
    decreases |steps|
  {
    if steps == [] then 0.0
    else Gain(b, steps[0], pipelineId) + Gains(Next(b, steps[0]), steps[1..], pipelineId)
  }

  lemma {:induction false} MarginRun(b: Board, steps: seq<Step>, pipelineId: nat)
    requires DistinctStages(b)
    ensures var c := Run(b, steps);
      Margin(c.deals, StagesOf(c.stages, pipelineId))
      == Margin(b.deals, StagesOf(b.stages, pipelineId)) + Gains(b, steps, pipelineId)
    decreases |steps|
  {
    hide Margin, Gain, Next, StagesOf, DistinctStages;
    if steps != [] {
      MarginStep(b, steps[0], pipelineId);
      DistinctStagesStep(b, steps[0]);
      MarginRun(Next(b, steps[0]), steps[1..], pipelineId);
    }
  }

  // After any run whatever, the forecast lies within the pipeline if and only if what the steps added to the margin is
  // not negative in all.
  lemma ForecastExactly(steps: seq<Step>, pipelineId: nat)
    ensures WithinPipeline(Run(EMPTY, steps), pipelineId) <==> Gains(EMPTY, steps, pipelineId) >= 0.0
  {
    MarginRun(EMPTY, steps, pipelineId);
    hide Run, Gains, Weighted, Pipeline, StagesOf;
    NothingYet(pipelineId);
  }

  lemma NothingYet(pipelineId: nat)
    ensures Margin(EMPTY.deals, StagesOf(EMPTY.stages, pipelineId)) == 0.0
  {
  }

  // One line of the forecast lies within its total exactly when its total is not negative and its probability at most
  // one, or the other way round; with a probability from 0 to 1, when the total is not negative or the stage certain.
  lemma LineStaysWithin(line: Line, deals: seq<Deal>, stage: Stage)
    requires IsLine(line, deals, stage)
    ensures line.forecastedValue <= line.totalValue
       <==> (line.totalValue >= 0.0 && stage.probability <= 1.0) || (line.totalValue <= 0.0 && stage.probability >= 1.0)
  {
    hide Total, OpenOn;
    Sign(line.totalValue, 1.0 - stage.probability);
    Split(line.totalValue, stage.probability);
  }

  lemma Sign(value: real, rest: real)
    ensures value * rest >= 0.0 <==> (value >= 0.0 && rest >= 0.0) || (value <= 0.0 && rest <= 0.0)
  {
    if value < 0.0 && rest > 0.0 {
      assert value * rest < 0.0;
    } else if value > 0.0 && rest < 0.0 {
      assert value * rest < 0.0;
    }
  }
}
