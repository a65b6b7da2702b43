/**
 What the stage checks of create and moveStage are worth: every deal sits on a stage of its own
 pipeline, so the columns of the Kanban board partition the open deals, the board and the
 forecast agree stage by stage, and the forecast stays within the pipeline while no value is
 negative.
 */
module DealViews {
  import opened Wrappers
  import opened Deals

  // ---------------------------------------------------------------- placement

  ghost predicate DistinctStages(b: Board) {
    Distinct(b.stages)
    && (forall i :: 0 <= i < |b.stages| ==> b.stages[i].id < b.nextStage)
    && (forall deal <- b.deals :: FindStage(b.stages, deal.stageId).Some?)
  }

  predicate Placed(b: Board, deal: Deal) {
    Offers(b, deal.pipelineId, deal.stageId)
  }

  lemma FindIsTheOne(stages: seq<Stage>, i: nat)
    requires Distinct(stages)
    requires i < |stages|
    ensures FindStage(stages, stages[i].id) == Some(stages[i])
  {
    if i > 0 {
      assert stages[i] == stages[1..][i - 1];
      FindIsTheOne(stages[1..], i - 1);
    }
  }

  lemma {:induction false} FindAppend(stages: seq<Stage>, stage: Stage, id: nat)
    ensures FindStage(stages + [stage], id)
         == if FindStage(stages, id).Some? then FindStage(stages, id) else if stage.id == id then Some(stage) else None
  {
    if stages == [] {
      assert stages + [stage] == [stage];
    } else {
      assert (stages + [stage])[1..] == stages[1..] + [stage];
      FindAppend(stages[1..], stage, id);
    }
  }

  lemma {:induction false} FindEdited(stages: seq<Stage>, id: nat, probability: real, isWon: bool, isLost: bool,
        other: nat)
    ensures var found := FindStage(Edited(stages, id, probability, isWon, isLost), other);
            found.Some? == FindStage(stages, other).Some?
            && (found.Some? ==> found.value.pipelineId == FindStage(stages, other).value.pipelineId)
  {
    if stages != [] {
      FindEdited(stages[1..], id, probability, isWon, isLost, other);
      var edited := Edited(stages, id, probability, isWon, isLost);
      assert edited[1..] == Edited(stages[1..], id, probability, isWon, isLost);
    }
  }

  // Stages do not leave their pipeline, and a stage in use is not removed.
  lemma StagesStay(b: Board, step: Step, id: nat, pipelineId: nat)
    requires FindStage(b.stages, id).Some? && (step.DoRemoveStage? && step.stageId == id ==> InUse(b, id))
    ensures FindStage(Next(b, step).stages, id).Some?
    ensures Offers(Next(b, step), pipelineId, id) <==> Offers(b, pipelineId, id)
  {
    hide FindStage, Edited, Without;
    match step
    case DoAddStage(p, probability, isWon, isLost) =>
      FindAppend(b.stages, Stage(b.nextStage, p, probability, isWon, isLost), id);
    case DoEditStage(other, probability, isWon, isLost) => FindEdited(b.stages, other, probability, isWon, isLost, id);
    case _ =>
  }

  lemma StagesStayDistinct(b: Board, step: Step)
    requires DistinctStages(b)
    ensures var c := Next(b, step);
            Distinct(c.stages)
            && forall i :: 0 <= i < |c.stages| ==> c.stages[i].id < c.nextStage
  {
    hide FindStage, Edited;
    if step.DoRemoveStage? {
      WithoutDistinct(b.stages, step.stageId);
      var c := Next(b, step);
      forall i | 0 <= i < |c.stages| ensures c.stages[i].id < c.nextStage {
        assert c.stages[i] in c.stages;
      }
    }
  }

  predicate Distinct(stages: seq<Stage>) {
    forall i, j :: 0 <= i < j < |stages| ==> stages[i].id != stages[j].id
  }

  lemma DistinctCons(stage: Stage, rest: seq<Stage>)
    requires Distinct(rest) && forall other <- rest :: other.id != stage.id
    ensures Distinct([stage] + rest)
  {
    var all := [stage] + rest;
    forall i, j | 0 <= i < j < |all| ensures all[i].id != all[j].id {
      assert all[j] == rest[j - 1] && rest[j - 1] in rest;
      if i > 0 {
        assert all[i] == rest[i - 1];
      }
    }
  }

  lemma DistinctTail(stages: seq<Stage>)
    requires Distinct(stages) && stages != []
    ensures Distinct(stages[1..]) && forall other <- stages[1..] :: other.id != stages[0].id
  {
  }

  lemma {:induction false} WithoutDistinct(stages: seq<Stage>, id: nat)
    requires Distinct(stages)
    ensures Distinct(Without(stages, id))
  {
    hide Distinct;
    if stages == [] {
      NoStagesDistinct();
    } else {
      DistinctTail(stages);
      WithoutDistinct(stages[1..], id);
      if stages[0].id != id {
        DistinctCons(stages[0], Without(stages[1..], id));
      }
    }
  }

  lemma NoStagesDistinct()
    ensures Distinct([])
  {
  }

  lemma DistinctStagesStep(b: Board, step: Step)
    requires DistinctStages(b)
    ensures DistinctStages(Next(b, step))
  {
    hide FindStage, Edited, Without;
    var c := Next(b, step);
    StagesStayDistinct(b, step);
    forall i | 0 <= i < |c.deals| ensures FindStage(c.stages, c.deals[i].stageId).Some? {
      if i < |b.deals| {
        assert b.deals[i] in b.deals;
        StagesStay(b, step, b.deals[i].stageId, 0);
      }
    }
  }

  predicate PlacedAfter(b: Board, step: Step, dealId: nat) {
    if dealId < |b.deals| then
      Placed(b, b.deals[dealId])
      || (step.DoMove? && step.dealId == dealId && Offers(b, b.deals[dealId].pipelineId, step.stageId))
    else step.DoConvert? ==> Offers(b, step.pipelineId, step.stageId)
  }

  // A deal's placement after a step: a new deal is placed iff its stage is of the pipeline named for it, which only a
  // conversion does not check; a moved deal is placed; the others stay as they are.
  lemma PlacementStep(b: Board, step: Step, dealId: nat)
    requires DistinctStages(b) && dealId < |Next(b, step).deals|
    ensures Placed(Next(b, step), Next(b, step).deals[dealId]) <==> PlacedAfter(b, step, dealId)
  {
    hide FindStage, Edited, Without;
    if dealId < |b.deals| {
      assert b.deals[dealId] in b.deals;
      StagesStay(b, step, b.deals[dealId].stageId, b.deals[dealId].pipelineId);
    }
  }

  predicate AllPlaced(b: Board) {
    forall deal <- b.deals :: Placed(b, deal)
  }

  predicate Checked(b: Board, step: Step) {
    step.DoConvert? ==>
      Offers(b, step.pipelineId, step.stageId) || Convert(b, step.pipelineId, step.stageId, step.value).1.Err?
  }

  predicate AllChecked(b: Board, steps: seq<Step>)
    decreases |steps|
  {
    steps == [] || (Checked(b, steps[0]) && AllChecked(Next(b, steps[0]), steps[1..]))
  }

  lemma {:induction false} DealsStayInTheirPipeline(b: Board, steps: seq<Step>)
    requires DistinctStages(b) && AllPlaced(b) && AllChecked(b, steps)
    ensures DistinctStages(Run(b, steps)) && AllPlaced(Run(b, steps))
    decreases |steps|
  {
    hide Next, DistinctStages, Placed;
    if steps != [] {
      var c := Next(b, steps[0]);
      DistinctStagesStep(b, steps[0]);
      forall i | 0 <= i < |c.deals| ensures Placed(c, c.deals[i]) {
        PlacementStep(b, steps[0], i);
        CheckedCreates(b, steps[0]);
        if i < |b.deals| {
          assert b.deals[i] in b.deals;
        }
      }
      DealsStayInTheirPipeline(c, steps[1..]);
    }
  }

  lemma CheckedCreates(b: Board, step: Step)
    requires Checked(b, step)
    ensures |Next(b, step).deals| > |b.deals| && step.DoConvert? ==> Offers(b, step.pipelineId, step.stageId)
  {
  }

  // A conversion can put a deal on another pipeline's stage: two pipelines, a stage of the first, and a lead whose deal
  // names the second with that stage.
  lemma ConversionMisplaces()
    ensures var b := Run(EMPTY, [DoAddPipeline(0), DoAddPipeline(1), DoAddStage(0, 0.5, false, false),
                                 DoConvert(1, 0, 100.0)]);
            |b.deals| == 1 && !Placed(b, b.deals[0])
  {
    OneStage(1);
    var b := Board({0, 1}, [Stage(0, 0, 0.5, false, false)], 1, [], []);
    assert FindStage(b.stages, 0) == Some(b.stages[0]);
    assert Next(b, DoConvert(1, 0, 100.0)).deals == [Deal(1, 0, Open, 100.0)];
    FourSteps(EMPTY, DoAddPipeline(0), DoAddPipeline(1), DoAddStage(0, 0.5, false, false), DoConvert(1, 0, 100.0));
    hide Run, Next, FindStage;
  }

  // Two pipelines, and one stage on the first.
  lemma OneStage(pipelineId: nat)
    ensures Next(Next(Next(EMPTY, DoAddPipeline(0)), DoAddPipeline(pipelineId)), DoAddStage(0, 0.5, false, false))
         == Board({0, pipelineId}, [Stage(0, 0, 0.5, false, false)], 1, [], [])
  {
    assert {} + {0} + {pipelineId} == {0, pipelineId};
  }

  lemma OneStep(b: Board, step: Step, steps: seq<Step>)
    ensures Run(b, [step] + steps) == Run(Next(b, step), steps)
  {
    hide Next;
    assert ([step] + steps)[1..] == steps;
  }

  lemma FourSteps(b: Board, first: Step, second: Step, third: Step, fourth: Step)
    ensures Run(b, [first, second, third, fourth]) == Next(Next(Next(Next(b, first), second), third), fourth)
  {
    hide Next;
    var c := Next(Next(b, first), second);
    OneStep(b, first, [second, third, fourth]);
    OneStep(Next(b, first), second, [third, fourth]);
    OneStep(c, third, [fourth]);
    OneStep(Next(c, third), fourth, []);
    assert [first, second, third, fourth] == [first] + [second, third, fourth];
    assert [second, third, fourth] == [second] + [third, fourth];
    assert [third, fourth] == [third] + [fourth] && [fourth] == [fourth] + [];
  }

  // ---------------------------------------------------------------- the Kanban board

  predicate OpenIn(deal: Deal, pipelineId: nat) {
    deal.pipelineId == pipelineId && deal.status == Open
  }

  function StagesOf(stages: seq<Stage>, pipelineId: nat): (own: seq<Stage>) {
    if stages == [] then []
    else if stages[0].pipelineId == pipelineId then [stages[0]] + StagesOf(stages[1..], pipelineId)
    else StagesOf(stages[1..], pipelineId)
  }

  function OpenDeals(deals: seq<Deal>, pipelineId: nat): (open: seq<Deal>)
    ensures forall deal <- open :: OpenIn(deal, pipelineId)
  {
    if deals == [] then []
    else if OpenIn(deals[0], pipelineId) then [deals[0]] + OpenDeals(deals[1..], pipelineId)
    else OpenDeals(deals[1..], pipelineId)
  }

  // The deals of a stage, in the order given.
  function OnStage(deals: seq<Deal>, stageId: nat): (column: seq<Deal>)
    ensures forall deal <- column :: deal.stageId == stageId
  {
    if deals == [] then []
    else if deals[0].stageId == stageId then [deals[0]] + OnStage(deals[1..], stageId)
    else OnStage(deals[1..], stageId)
  }

  function Total(deals: seq<Deal>): real {
    if deals == [] then 0.0 else deals[0].value + Total(deals[1..])
  }

  datatype Column = Column(stage: Stage, deals: seq<Deal>, count: nat, totalValue: real)

  function Columns(stages: seq<Stage>, deals: seq<Deal>): seq<Column> {
    if stages == [] then []
    else
      var own := OnStage(deals, stages[0].id);
      [Column(stages[0], own, |own|, Total(own))] + Columns(stages[1..], deals)
  }

  function KanbanBoard(b: Board, pipelineId: nat): seq<Column> {
    Columns(StagesOf(b.stages, pipelineId), OpenDeals(b.deals, pipelineId))
  }

  function Cards(columns: seq<Column>): seq<Deal> {
    if columns == [] then [] else columns[0].deals + Cards(columns[1..])
  }

  predicate HasStage(stages: seq<Stage>, id: nat) {
    exists i :: 0 <= i < |stages| && stages[i].id == id
  }

  function Seated(deals: seq<Deal>, stages: seq<Stage>): (seated: seq<Deal>)
    ensures |seated| <= |deals|
    ensures |seated| == |deals| <==> forall i :: 0 <= i < |deals| ==> HasStage(stages, deals[i].stageId)
  {
    if deals == [] then []
    else
      assert forall i :: 1 <= i < |deals| ==> deals[i] == deals[1..][i - 1];
      assert forall i :: 0 <= i < |deals[1..]| ==> deals[1..][i] == deals[i + 1];
      if HasStage(stages, deals[0].stageId) then [deals[0]] + Seated(deals[1..], stages)
      else Seated(deals[1..], stages)
  }

  lemma SeatedCons(deals: seq<Deal>, stages: seq<Stage>)
    requires deals != []
    ensures multiset(Seated(deals, stages))
         == (if HasStage(stages, deals[0].stageId) then multiset{deals[0]} else multiset{})
           + multiset(Seated(deals[1..], stages))
  {
    hide HasStage;
    Prepend(deals[0], Seated(deals[1..], stages));
  }

  lemma OnStageCons(deals: seq<Deal>, id: nat)
    requires deals != []
    ensures multiset(OnStage(deals, id))
         == (if deals[0].stageId == id then multiset{deals[0]} else multiset{}) + multiset(OnStage(deals[1..], id))
  {
    Prepend(deals[0], OnStage(deals[1..], id));
  }

  lemma {:induction false} SeatsSplit(deals: seq<Deal>, stages: seq<Stage>)
    requires stages != [] && !HasStage(stages[1..], stages[0].id)
    ensures multiset(Seated(deals, stages))
      == multiset(OnStage(deals, stages[0].id)) + multiset(Seated(deals, stages[1..]))
  {
    hide HasStage;
    if deals != [] {
      SeatsSplit(deals[1..], stages);
      OneMoreSeat(deals, stages);
    }
  }

  lemma {:induction false} OneMoreSeat(deals: seq<Deal>, stages: seq<Stage>)
    requires deals != [] && stages != [] && !HasStage(stages[1..], stages[0].id)
    requires multiset(Seated(deals[1..], stages))
          == multiset(OnStage(deals[1..], stages[0].id)) + multiset(Seated(deals[1..], stages[1..]))
    ensures multiset(Seated(deals, stages))
         == multiset(OnStage(deals, stages[0].id)) + multiset(Seated(deals, stages[1..]))
  {
    hide HasStage, Seated, OnStage;
    SeatedCons(deals, stages);
    SeatedCons(deals, stages[1..]);
    OnStageCons(deals, stages[0].id);
    HasStageCons(stages[0], stages[1..], deals[0].stageId);
    assert [stages[0]] + stages[1..] == stages;
  }

  lemma Prepend(deal: Deal, deals: seq<Deal>)
    ensures multiset([deal] + deals) == multiset{deal} + multiset(deals)
  {
  }

  lemma {:induction false} CardsAreSeated(stages: seq<Stage>, deals: seq<Deal>)
    requires Distinct(stages)
    ensures multiset(Cards(Columns(stages, deals))) == multiset(Seated(deals, stages))
  {
    if stages == [] {
      NobodySeated(deals);
    } else {
      DistinctTail(stages);
      CardsAreSeated(stages[1..], deals);
      SeatsSplit(deals, stages);
      assert Columns(stages, deals)[1..] == Columns(stages[1..], deals);
    }
  }

  lemma {:induction false} NobodySeated(deals: seq<Deal>)
    ensures Seated(deals, []) == []
  {
    if deals != [] {
      NobodySeated(deals[1..]);
    }
  }

  lemma {:induction false} StagesOfAre(stages: seq<Stage>, pipelineId: nat)
    requires Distinct(stages)
    ensures Distinct(StagesOf(stages, pipelineId)) && forall stage <- StagesOf(stages, pipelineId) :: stage in stages
  {
    hide Distinct;
    if stages == [] {
      NoStagesDistinct();
    } else {
      DistinctTail(stages);
      StagesOfAre(stages[1..], pipelineId);
      if stages[0].pipelineId == pipelineId {
        DistinctCons(stages[0], StagesOf(stages[1..], pipelineId));
      }
    }
  }

  lemma {:induction false} StagesOfHave(stages: seq<Stage>, pipelineId: nat, id: nat)
    requires Distinct(stages)
    ensures HasStage(StagesOf(stages, pipelineId), id)
       <==> FindStage(stages, id).Some? && FindStage(stages, id).value.pipelineId == pipelineId
  {
    hide Distinct, HasStage;
    if stages == [] {
      NoStage(id);
    } else {
      DistinctTail(stages);
      StagesOfHave(stages[1..], pipelineId, id);
      HasStageCons(stages[0], StagesOf(stages[1..], pipelineId), id);
      if stages[0].id == id {
        assert FindStage(stages[1..], id).None?;
      }
    }
  }

  lemma NoStage(id: nat)
    ensures !HasStage([], id)
  {
  }

  lemma HasStageCons(stage: Stage, rest: seq<Stage>, id: nat)
    ensures HasStage([stage] + rest, id) <==> stage.id == id || HasStage(rest, id)
  {
    var all := [stage] + rest;
    assert all[0] == stage;
    assert forall i :: 0 <= i < |rest| ==> all[i + 1] == rest[i];
  }

  // Every card is an open deal of the pipeline, none is shown twice, and none is missing exactly when each open deal of
  // the pipeline sits on one of its stages.
  lemma ColumnsPartition(b: Board, pipelineId: nat)
    requires DistinctStages(b)
    ensures multiset(Cards(KanbanBoard(b, pipelineId))) <= multiset(OpenDeals(b.deals, pipelineId))
    ensures multiset(Cards(KanbanBoard(b, pipelineId))) == multiset(OpenDeals(b.deals, pipelineId))
       <==> forall deal <- OpenDeals(b.deals, pipelineId) :: Placed(b, deal)
  {
    var stages := StagesOf(b.stages, pipelineId);
    var open := OpenDeals(b.deals, pipelineId);
    var seated := Seated(open, stages);
    StagesOfAre(b.stages, pipelineId);
    CardsAreSeated(stages, open);
    SeatedIsPart(open, stages);
    assert |multiset(seated)| == |seated| && |multiset(open)| == |open|;
    forall deal <- open ensures HasStage(stages, deal.stageId) <==> Placed(b, deal) {
      StagesOfHave(b.stages, pipelineId, deal.stageId);
    }
    if |seated| == |open| {
      forall deal <- open ensures Placed(b, deal) {
        assert HasStage(stages, deal.stageId);
      }
    } else {
      var i :| 0 <= i < |open| && !HasStage(stages, open[i].stageId);
      assert open[i] in open && !Placed(b, open[i]);
    }
  }

  lemma {:induction false} SeatedIsPart(deals: seq<Deal>, stages: seq<Stage>)
    ensures multiset(Seated(deals, stages)) <= multiset(deals)
    ensures |Seated(deals, stages)| == |deals| ==> Seated(deals, stages) == deals
  {
    if deals != [] {
      SeatedIsPart(deals[1..], stages);
      Prepend(deals[0], deals[1..]);
      Prepend(deals[0], Seated(deals[1..], stages));
      assert [deals[0]] + deals[1..] == deals;
    }
  }

  // ---------------------------------------------------------------- the forecast

  // The open deals of a stage, whatever pipeline they name.
  function OpenOn(deals: seq<Deal>, stageId: nat): seq<Deal> {
    if deals == [] then []
    else if deals[0].status == Open && deals[0].stageId == stageId then [deals[0]] + OpenOn(deals[1..], stageId)
    else OpenOn(deals[1..], stageId)
  }

  datatype Line = Line(stage: Stage, totalValue: real, forecastedValue: real, dealCount: nat)

  // Deal by deal: the value of the open deals on the given stages, plain and weighted by the stage's probability.
  function Share(deal: Deal, stages: seq<Stage>): real {
    if deal.status == Open && FindStage(stages, deal.stageId).Some? then deal.value else 0.0
  }

  function Chance(deal: Deal, stages: seq<Stage>): real {
    if FindStage(stages, deal.stageId).Some? then FindStage(stages, deal.stageId).value.probability else 0.0
  }

  function Expected(deal: Deal, stages: seq<Stage>): real {
    Weigh(Share(deal, stages), Chance(deal, stages))
  }

  function Weigh(value: real, probability: real): real {
    value * probability
  }

  function Pipeline(deals: seq<Deal>, stages: seq<Stage>): real {
    if deals == [] then 0.0 else Share(deals[0], stages) + Pipeline(deals[1..], stages)
  }

  function Weighted(deals: seq<Deal>, stages: seq<Stage>): real {
    if deals == [] then 0.0 else Expected(deals[0], stages) + Weighted(deals[1..], stages)
  }

  lemma {:induction false} OneMoreStage(deals: seq<Deal>, stages: seq<Stage>, stage: Stage)
    requires FindStage(stages, stage.id).None?
    ensures Pipeline(deals, stages + [stage]) == Pipeline(deals, stages) + Total(OpenOn(deals, stage.id))
    ensures Weighted(deals, stages + [stage])
      == Weighted(deals, stages) + Weigh(Total(OpenOn(deals, stage.id)), stage.probability)
  {
    hide FindStage, Share, Expected;
    if deals != [] {
      var deal := deals[0];
      OneMoreStage(deals[1..], stages, stage);
      ShareOfMore(deal, stages, stage);
      if deal.status == Open && deal.stageId == stage.id {
        assert OpenOn(deals, stage.id)[1..] == OpenOn(deals[1..], stage.id);
        Distribute(deal.value, Total(OpenOn(deals[1..], stage.id)), stage.probability);
      }
    }
  }

  lemma Distribute(a: real, b: real, p: real)
    ensures Weigh(a + b, p) == Weigh(a, p) + Weigh(b, p)
  {
  }

  lemma ShareOfMore(deal: Deal, stages: seq<Stage>, stage: Stage)
    requires FindStage(stages, stage.id).None?
    ensures var more := stages + [stage];
            if deal.status == Open && deal.stageId == stage.id then
              Share(deal, stages) == 0.0 && Expected(deal, stages) == 0.0
              && Share(deal, more) == deal.value && Expected(deal, more) == Weigh(deal.value, stage.probability)
            else
              Share(deal, more) == Share(deal, stages)
              && Expected(deal, more) == Expected(deal, stages)
  {
    hide FindStage;
    FindAppend(stages, stage, deal.stageId);
  }

  // getForecast: a query for each stage, and two running totals.
  method GetForecast(b: Board, pipelineId: nat) returns (totalPipeline: real, totalForecast: real, breakdown: seq<Line>)
    requires DistinctStages(b)
    ensures totalPipeline == Pipeline(b.deals, StagesOf(b.stages, pipelineId))
    ensures totalForecast == Weighted(b.deals, StagesOf(b.stages, pipelineId))
    ensures |breakdown| == |StagesOf(b.stages, pipelineId)|
    ensures forall i :: 0 <= i < |breakdown| ==> IsLine(breakdown[i], b.deals, StagesOf(b.stages, pipelineId)[i])
  {
    hide DistinctStages, StagesOf, FindStage, Share, Expected;
    var stages := StagesOf(b.stages, pipelineId);
    OwnStagesDistinct(b, pipelineId);
    totalForecast, totalPipeline, breakdown := 0.0, 0.0, [];
    NoStagesNoMoney(b.deals);
    for i := 0 to |stages|
      invariant |breakdown| == i
      invariant forall j :: 0 <= j < i ==> IsLine(breakdown[j], b.deals, stages[j])
      invariant totalPipeline == Pipeline(b.deals, stages[..i])
      invariant totalForecast == Weighted(b.deals, stages[..i])
    {
      var stage := stages[i];
      var agg := OpenOn(b.deals, stage.id);
      var stageTotal := Total(agg);
      var stageForecast := stageTotal * stage.probability;
      NotYetListed(stages, i);
      OneMoreStage(b.deals, stages[..i], stage);
      assert stages[..i + 1] == stages[..i] + [stage];
      totalForecast := totalForecast + stageForecast;
      totalPipeline := totalPipeline + stageTotal;
      breakdown := breakdown + [Line(stage, stageTotal, stageForecast, |agg|)];
    }
    assert stages[..|stages|] == stages;
  }

  predicate IsLine(line: Line, deals: seq<Deal>, stage: Stage) {
    line.stage == stage && line.totalValue == Total(OpenOn(deals, stage.id))
      && line.dealCount == |OpenOn(deals, stage.id)|
    && line.forecastedValue == line.totalValue * stage.probability
  }

  lemma OwnStagesDistinct(b: Board, pipelineId: nat)
    requires DistinctStages(b)
    ensures Distinct(StagesOf(b.stages, pipelineId))
  {
    StagesOfAre(b.stages, pipelineId);
  }

  lemma {:induction false} NoStagesNoMoney(deals: seq<Deal>)
    ensures Pipeline(deals, []) == 0.0 && Weighted(deals, []) == 0.0
  {
    if deals != [] {
      NoStagesNoMoney(deals[1..]);
    }
  }

  lemma NotYetListed(stages: seq<Stage>, i: nat)
    requires Distinct(stages) && i < |stages|
    ensures FindStage(stages[..i], stages[i].id).None?
  {
    forall j | 0 <= j < |stages[..i]| ensures stages[..i][j].id != stages[i].id {
      assert stages[..i][j] == stages[j];
    }
  }

  // ---------------------------------------------------------------- board against forecast

  predicate AtHome(deals: seq<Deal>, stageId: nat, pipelineId: nat) {
    forall i :: 0 <= i < |deals| && deals[i].status == Open && deals[i].stageId == stageId ==>
      deals[i].pipelineId == pipelineId
  }

  // A column holds no more deals than the forecast counts on its stage, and the same ones exactly when no open deal of
  // another pipeline sits there.
  lemma {:induction false} ColumnAgainstLine(deals: seq<Deal>, stageId: nat, pipelineId: nat)
    ensures var column := OnStage(OpenDeals(deals, pipelineId), stageId);
            |column| <= |OpenOn(deals, stageId)|
            && (|column| == |OpenOn(deals, stageId)| <==> AtHome(deals, stageId, pipelineId))
    ensures AtHome(deals, stageId, pipelineId)
      ==> OnStage(OpenDeals(deals, pipelineId), stageId) == OpenOn(deals, stageId)
  {
    if deals != [] {
      ColumnAgainstLine(deals[1..], stageId, pipelineId);
      AtHomeCons(deals, stageId, pipelineId);
      hide AtHome;
      if OpenIn(deals[0], pipelineId) {
        var open := OpenDeals(deals, pipelineId);
        assert open[0] == deals[0] && open[1..] == OpenDeals(deals[1..], pipelineId);
      }
    }
  }

  lemma AtHomeCons(deals: seq<Deal>, stageId: nat, pipelineId: nat)
    requires deals != []
    ensures AtHome(deals, stageId, pipelineId)
       <==> AtHome(deals[1..], stageId, pipelineId)
            && (deals[0].status == Open && deals[0].stageId == stageId ==> deals[0].pipelineId == pipelineId)
  {
    assert forall i :: 1 <= i < |deals| ==> deals[i] == deals[1..][i - 1];
    assert forall i :: 0 <= i < |deals[1..]| ==> deals[1..][i] == deals[i + 1];
  }

  // When every deal is placed, the board and the forecast agree on every stage of every pipeline, and the pipeline
  // total is the value of all its open deals.
  lemma BoardAndForecastAgree(b: Board, pipelineId: nat)
    requires DistinctStages(b) && AllPlaced(b)
    ensures forall stage <- StagesOf(b.stages, pipelineId) ::
      OnStage(OpenDeals(b.deals, pipelineId), stage.id) == OpenOn(b.deals, stage.id)
    ensures Pipeline(b.deals, StagesOf(b.stages, pipelineId)) == Total(OpenDeals(b.deals, pipelineId))
  {
    var stages := StagesOf(b.stages, pipelineId);
    StagesOfAre(b.stages, pipelineId);
    forall stage | stage in stages
      ensures OnStage(OpenDeals(b.deals, pipelineId), stage.id) == OpenOn(b.deals, stage.id)
    {
      OwnStage(b.stages, pipelineId, stage);
      forall i | 0 <= i < |b.deals| && b.deals[i].status == Open && b.deals[i].stageId == stage.id
        ensures b.deals[i].pipelineId == pipelineId
      {
        assert b.deals[i] in b.deals;
      }
      ColumnAgainstLine(b.deals, stage.id, pipelineId);
    }
    AllCounted(b, b.deals, pipelineId);
  }

  lemma OwnStage(stages: seq<Stage>, pipelineId: nat, stage: Stage)
    requires Distinct(stages) && stage in StagesOf(stages, pipelineId)
    ensures FindStage(stages, stage.id) == Some(stage) && stage.pipelineId == pipelineId
  {
    StagesOfAre(stages, pipelineId);
    var i :| 0 <= i < |stages| && stages[i] == stage;
    FindIsTheOne(stages, i);
    var own := StagesOf(stages, pipelineId);
    var j :| 0 <= j < |own| && own[j] == stage;
    assert HasStage(own, stage.id);
    StagesOfHave(stages, pipelineId, stage.id);
  }

  lemma {:induction false} AllCounted(b: Board, deals: seq<Deal>, pipelineId: nat)
    requires DistinctStages(b) && forall deal <- deals :: Placed(b, deal)
    ensures Pipeline(deals, StagesOf(b.stages, pipelineId)) == Total(OpenDeals(deals, pipelineId))
  {
    hide FindStage;
    if deals != [] {
      AllCounted(b, deals[1..], pipelineId);
      assert deals[0] in deals;
      StagesOfHave(b.stages, pipelineId, deals[0].stageId);
      FoundIffHas(StagesOf(b.stages, pipelineId), deals[0].stageId);
      if OpenIn(deals[0], pipelineId) {
        assert OpenDeals(deals, pipelineId)[1..] == OpenDeals(deals[1..], pipelineId);
      }
    }
  }

  lemma FoundIffHas(stages: seq<Stage>, id: nat)
    ensures FindStage(stages, id).Some? <==> HasStage(stages, id)
  {
  }

  // ---------------------------------------------------------------- forecast against pipeline

  // What the DTOs of deals and stages enforce. The one of a conversion does not bound the value of the deal.
  predicate Bounded(step: Step) {
    match step
    case DoCreate(_, _, value, _) => value >= 0.0
    case DoUpdate(_, value) => value >= 0.0
    case DoConvert(_, _, value) => value >= 0.0
    case DoAddStage(_, probability, _, _) => 0.0 <= probability <= 1.0
    case DoEditStage(_, probability, _, _) => 0.0 <= probability <= 1.0
    case _ => true
  }

  ghost predicate WithinBounds(b: Board) {
    && (forall deal <- b.deals :: deal.value >= 0.0)
    && (forall i :: 0 <= i < |b.stages| ==> 0.0 <= b.stages[i].probability <= 1.0)
  }

  lemma BoundsStep(b: Board, step: Step)
    requires WithinBounds(b) && Bounded(step)
    ensures WithinBounds(Next(b, step))
  {
    hide FindStage, Edited, Without;
    var c := Next(b, step);
    if step.DoEditStage? {
      EditedBounds(b.stages, step.stageId, step.probability, step.isWon, step.isLost);
    } else if step.DoRemoveStage? {
      forall i | 0 <= i < |c.stages| ensures 0.0 <= c.stages[i].probability <= 1.0 {
        assert c.stages[i] in b.stages;
      }
    }
  }

  lemma {:induction false} EditedBounds(stages: seq<Stage>, id: nat, probability: real, isWon: bool, isLost: bool)
    requires forall i :: 0 <= i < |stages| ==> 0.0 <= stages[i].probability <= 1.0
    requires 0.0 <= probability <= 1.0
    ensures forall i :: 0 <= i < |stages| ==>
      0.0 <= Edited(stages, id, probability, isWon, isLost)[i].probability <= 1.0
  {
    if stages != [] {
      assert forall i :: 0 <= i < |stages[1..]| ==> stages[1..][i] == stages[i + 1];
      EditedBounds(stages[1..], id, probability, isWon, isLost);
    }
  }

  lemma {:induction false} BoundsRun(b: Board, steps: seq<Step>)
    requires WithinBounds(b) && forall step <- steps :: Bounded(step)
    ensures WithinBounds(Run(b, steps))
    decreases |steps|
  {
    hide Next, WithinBounds, Bounded;
    if steps != [] {
      BoundsStep(b, steps[0]);
      BoundsRun(Next(b, steps[0]), steps[1..]);
    }
  }

  lemma {:induction false} WeightedIsLess(deals: seq<Deal>, stages: seq<Stage>)
    requires forall i :: 0 <= i < |deals| ==> deals[i].value >= 0.0
    requires forall i :: 0 <= i < |stages| ==> 0.0 <= stages[i].probability <= 1.0
    ensures 0.0 <= Weighted(deals, stages) <= Pipeline(deals, stages)
  {
    hide Share, Expected;
    if deals != [] {
      assert forall i :: 0 <= i < |deals[1..]| ==> deals[1..][i] == deals[i + 1];
      WeightedIsLess(deals[1..], stages);
      ShareIsWeighed(deals[0], stages);
    }
  }

  lemma ShareIsWeighed(deal: Deal, stages: seq<Stage>)
    requires deal.value >= 0.0
    requires forall i :: 0 <= i < |stages| ==> 0.0 <= stages[i].probability <= 1.0
    ensures 0.0 <= Expected(deal, stages) <= Share(deal, stages)
  {
    hide FindStage;
    if FindStage(stages, deal.stageId).Some? {
      var stage := FindStage(stages, deal.stageId).value;
      var i :| 0 <= i < |stages| && stages[i] == stage;
    }
    Fraction(Share(deal, stages), Chance(deal, stages));
  }

  lemma Fraction(value: real, probability: real)
    requires value >= 0.0 && 0.0 <= probability <= 1.0
    ensures 0.0 <= Weigh(value, probability) <= value
  {
    assert value * (1.0 - probability) >= 0.0;
  }

  // After any run in which no conversion brought a negative value, the forecast of a pipeline lies between nothing and
  // its total.
  lemma ForecastWithinPipeline(steps: seq<Step>, pipelineId: nat)
    requires forall step <- steps :: Bounded(step)
    ensures var b := Run(EMPTY, steps);
            0.0 <= Weighted(b.deals, StagesOf(b.stages, pipelineId))
                <= Pipeline(b.deals, StagesOf(b.stages, pipelineId))
  {
    hide Run, Weighted, Pipeline, FindStage, Bounded;
    BoundsRun(EMPTY, steps);
    var b := Run(EMPTY, steps);
    var stages := StagesOf(b.stages, pipelineId);
    StagesOfIn(b.stages, pipelineId);
    forall i | 0 <= i < |stages| ensures 0.0 <= stages[i].probability <= 1.0 {
      assert stages[i] in b.stages;
    }
    forall i | 0 <= i < |b.deals| ensures b.deals[i].value >= 0.0 {
      assert b.deals[i] in b.deals;
    }
    WeightedIsLess(b.deals, stages);
  }

  lemma {:induction false} StagesOfIn(stages: seq<Stage>, pipelineId: nat)
    ensures forall stage <- StagesOf(stages, pipelineId) :: stage in stages
  {
    if stages != [] {
      StagesOfIn(stages[1..], pipelineId);
    }
  }

  // A conversion whose deal has a negative value, on a stage with even chances.
  lemma NegativeConversion()
    ensures var b := Run(EMPTY, [DoAddPipeline(0), DoAddPipeline(0), DoAddStage(0, 0.5, false, false),
                                 DoConvert(0, 0, -100.0)]);
            Weighted(b.deals, StagesOf(b.stages, 0)) > Pipeline(b.deals, StagesOf(b.stages, 0))
  {
    OneStage(0);
    var stage := Stage(0, 0, 0.5, false, false);
    var b := Board({0, 0}, [stage], 1, [], []);
    var deal := Deal(0, 0, Open, -100.0);
    assert FindStage([stage], 0) == Some(stage);
    assert Next(b, DoConvert(0, 0, -100.0)) == b.(deals := [deal]);
    FourSteps(EMPTY, DoAddPipeline(0), DoAddPipeline(0), DoAddStage(0, 0.5, false, false), DoConvert(0, 0, -100.0));
    assert [stage][1..] == [] && [deal][1..] == [];
    assert StagesOf([stage], 0) == [stage];
    assert Pipeline([deal], [stage]) == -100.0;
    assert Weighted([deal], [stage]) == -50.0;
    hide Run, Next, FindStage, Pipeline, Weighted, StagesOf;
  }

  // ---------------------------------------------------------------- the service

  class DealsService {
    var pipelines: set<nat>
    var stages: seq<Stage>
    var nextStage: nat
    var deals: seq<Deal>
    var moves: seq<Move>

    function Contents(): Board
      reads this
    {
      Board(pipelines, stages, nextStage, deals, moves)
    }

    constructor ()
      ensures Contents() == EMPTY
    {
      pipelines, stages, nextStage, deals, moves := {}, [], 0, [], [];
    }

    method CreateDeal(pipelineId: nat, stageId: nat, value: real, historyFails: bool)
        returns (result: Result<nat, Error>)
      modifies this
      ensures (Contents(), result) == Create(old(Contents()), pipelineId, stageId, value, historyFails)
    {
      var stage := FindStage(stages, stageId);
      if stage.None? || stage.value.pipelineId != pipelineId {
        return Err(StageNotInPipeline);
      }
      deals := deals + [Deal(pipelineId, stageId, Open, value)];
      if historyFails {
        return Err(HistoryNotWritten);
      }
      moves := moves + [Move(|deals| - 1, None, stageId)];
      return Ok(|deals| - 1);
    }

    method MoveDeal(id: nat, stageId: nat) returns (result: Result<Deal, Error>)
      modifies this
      ensures (Contents(), result) == MoveStage(old(Contents()), id, stageId)
    {
      if id >= |deals| {
        return Err(NotFound);
      }
      var deal := deals[id];
      var newStage := FindStage(stages, stageId);
      if newStage.None? || newStage.value.pipelineId != deal.pipelineId {
        return Err(StageNotInPipeline);
      }
      var updates := deal.(stageId := stageId);
      if newStage.value.isWon {
        updates := updates.(status := Won);
      } else if newStage.value.isLost {
        updates := updates.(status := Lost);
      }
      deals := deals[id := updates];
      moves := moves + [Move(id, Some(deal.stageId), stageId)];
      return Ok(updates);
    }

    method UpdateDeal(id: nat, value: real) returns (result: Result<Deal, Error>)
      modifies this
      ensures (Contents(), result) == Update(old(Contents()), id, value)
    {
      if id >= |deals| {
        return Err(NotFound);
      }
      deals := deals[id := deals[id].(value := value)];
      return Ok(deals[id]);
    }
  }
}
