/**
 Deals on pipelines (deals.service.ts), with the stage edits of pipelines.service.ts and the
 deal that leads.service.ts creates when a lead is converted: the stage history of a deal, the
 pipeline its stage belongs to, and the Kanban and forecast views.
 */
module Deals {
  import opened Wrappers

  datatype Status = Open | Won | Lost | OnHold

  datatype Stage = Stage(id: nat, pipelineId: nat, probability: real, isWon: bool, isLost: bool)

  datatype Deal = Deal(pipelineId: nat, stageId: nat, status: Status, value: real)

  // A row of the stage history; the first one of a deal has no source.
  datatype Move = Move(dealId: nat, source: Option<nat>, target: nat)

  // Stages are listed in their order on the board; a deal's id is its position.
  datatype Board = Board(pipelines: set<nat>, stages: seq<Stage>, nextStage: nat, deals: seq<Deal>, moves: seq<Move>)

  datatype Error = NotFound | StageNotInPipeline | ForeignKey | HistoryNotWritten

  // ---------------------------------------------------------------- operations

  function FindStage(stages: seq<Stage>, id: nat): (stage: Option<Stage>)
    ensures stage.Some? <==> exists i :: 0 <= i < |stages| && stages[i].id == id
    ensures stage.Some? ==> stage.value in stages && stage.value.id == id
  {
    if stages == [] then None
    else if stages[0].id == id then Some(stages[0])
    else
      var rest := FindStage(stages[1..], id);
      assert forall i :: 1 <= i < |stages| ==> stages[i] == stages[1..][i - 1];
      rest
  }

  predicate Offers(b: Board, pipelineId: nat, stageId: nat) {
    var stage := FindStage(b.stages, stageId);
    stage.Some? && stage.value.pipelineId == pipelineId
  }

  // create: the deal and its first history row are two writes; the second may fail alone.
  function Create(b: Board, pipelineId: nat, stageId: nat, value: real,
        historyFails: bool): (Board, Result<nat, Error>)
  {
    if !Offers(b, pipelineId, stageId) then (b, Err(StageNotInPipeline))
    else
      var created := b.(deals := b.deals + [Deal(pipelineId, stageId, Open, value)]);
      if historyFails then (created, Err(HistoryNotWritten))
      else (created.(moves := b.moves + [Move(|b.deals|, None, stageId)]), Ok(|b.deals|))
  }

  function Landed(deal: Deal, stage: Stage): Deal {
    deal.(stageId := stage.id, status := if stage.isWon then Won else if stage.isLost then Lost else deal.status)
  }

  // moveStage, of a call that saw the deal in a stage: the history row names the stage seen, and the read is not part
  // of the transaction that writes.
  function MoveSeen(b: Board, id: nat, stageId: nat, seen: nat): (Board, Result<Deal, Error>) {
    if id >= |b.deals| then (b, Err(NotFound))
    else if !Offers(b, b.deals[id].pipelineId, stageId) then (b, Err(StageNotInPipeline))
    else
      var deal := Landed(b.deals[id], FindStage(b.stages, stageId).value);
      (b.(deals := b.deals[id := deal], moves := b.moves + [Move(id, Some(seen), stageId)]), Ok(deal))
  }

  function MoveStage(b: Board, id: nat, stageId: nat): (Board, Result<Deal, Error>) {
    if id >= |b.deals| then (b, Err(NotFound)) else MoveSeen(b, id, stageId, b.deals[id].stageId)
  }

  // The update DTO leaves pipelineId and stageId out.
  function Update(b: Board, id: nat, value: real): (Board, Result<Deal, Error>) {
    if id >= |b.deals| then (b, Err(NotFound))
    else (b.(deals := b.deals[id := b.deals[id].(value := value)]), Ok(b.deals[id].(value := value)))
  }

  // convert: the deal of a lead is created as asked, with no history; only the foreign keys are checked.
  function Convert(b: Board, pipelineId: nat, stageId: nat, value: real): (Board, Result<nat, Error>) {
    if pipelineId !in b.pipelines || FindStage(b.stages, stageId).None? then (b, Err(ForeignKey))
    else (b.(deals := b.deals + [Deal(pipelineId, stageId, Open, value)]), Ok(|b.deals|))
  }

  function AddStage(b: Board, pipelineId: nat, probability: real, isWon: bool, isLost: bool): Board {
    if pipelineId !in b.pipelines then b
    else b.(stages := b.stages + [Stage(b.nextStage, pipelineId, probability, isWon, isLost)],
      nextStage := b.nextStage + 1)
  }

  function Edited(stages: seq<Stage>, id: nat, probability: real, isWon: bool, isLost: bool): (edited: seq<Stage>)
    ensures |edited| == |stages|
    ensures forall i :: 0 <= i < |stages| ==>
      edited[i].id == stages[i].id && edited[i].pipelineId == stages[i].pipelineId
  {
    if stages == [] then []
    else
      [if stages[0].id == id then stages[0].(probability := probability, isWon := isWon, isLost := isLost)
       else stages[0]]
      + Edited(stages[1..], id, probability, isWon, isLost)
  }

  function Without(stages: seq<Stage>, id: nat): (kept: seq<Stage>)
    ensures forall other :: other != id ==> FindStage(kept, other) == FindStage(stages, other)
    ensures forall stage <- kept :: stage in stages && stage.id != id
  {
    if stages == [] then []
    else if stages[0].id == id then Without(stages[1..], id)
    else
      var kept := Without(stages[1..], id);
      assert ([stages[0]] + kept)[1..] == kept;
      [stages[0]] + kept
  }

  predicate InUse(b: Board, stageId: nat) {
    (exists deal <- b.deals :: deal.stageId == stageId) || exists move <- b.moves :: move.target == stageId
  }

  // deleteStage: the foreign keys of deals and of the history stop it.
  function RemoveStage(b: Board, stageId: nat): Board {
    if InUse(b, stageId) then b else b.(stages := Without(b.stages, stageId))
  }

  datatype Step =
    | DoCreate(pipelineId: nat, stageId: nat, value: real, historyFails: bool)
    | DoMove(dealId: nat, stageId: nat, seen: nat)
    | DoUpdate(dealId: nat, value: real)
    | DoConvert(pipelineId: nat, stageId: nat, value: real)
    | DoAddPipeline(pipelineId: nat)
    | DoAddStage(pipelineId: nat, probability: real, isWon: bool, isLost: bool)
    | DoEditStage(stageId: nat, probability: real, isWon: bool, isLost: bool)
    | DoRemoveStage(stageId: nat)

  function Next(b: Board, step: Step): Board {
    match step
    case DoCreate(pipelineId, stageId, value, historyFails) => Create(b, pipelineId, stageId, value, historyFails).0
    case DoMove(id, stageId, seen) => MoveSeen(b, id, stageId, seen).0
    case DoUpdate(id, value) => Update(b, id, value).0
    case DoConvert(pipelineId, stageId, value) => Convert(b, pipelineId, stageId, value).0
    case DoAddPipeline(pipelineId) => b.(pipelines := b.pipelines + {pipelineId})
    case DoAddStage(pipelineId, probability, isWon, isLost) => AddStage(b, pipelineId, probability, isWon, isLost)
    case DoEditStage(id, probability, isWon, isLost) => b.(stages := Edited(b.stages, id, probability, isWon, isLost))
    case DoRemoveStage(id) => RemoveStage(b, id)
  }

  const EMPTY := Board({}, [], 0, [], [])

  function Run(b: Board, steps: seq<Step>): Board
    decreases |steps|
  {
    if steps == [] then b else Run(Next(b, steps[0]), steps[1..])
  }

  // ---------------------------------------------------------------- open and closed deals

  // A move leaves a deal open exactly when it was open and the stage is neither a won nor a lost one; a stage marked as
  // both counts as won.
  lemma MoveDecidesStatus(b: Board, id: nat, stageId: nat)
    requires id < |b.deals| && Offers(b, b.deals[id].pipelineId, stageId)
    ensures var stage := FindStage(b.stages, stageId).value;
            var after := MoveStage(b, id, stageId).0.deals[id];
            after.stageId == stageId && after.value == b.deals[id].value
            && (after.status == Open <==> b.deals[id].status == Open && !stage.isWon && !stage.isLost)
            && (stage.isWon ==> after.status == Won) && (stage.isLost && !stage.isWon ==> after.status == Lost)
  {
  }

  // What the callers are told: a changed or moved deal is answered as it now is, a new one by its number.
  lemma AnswersExactly(b: Board, id: nat, pipelineId: nat, stageId: nat, value: real, seen: nat, fails: bool)
    ensures Update(b, id, value).1
         == if id < |b.deals| then Ok(Update(b, id, value).0.deals[id]) else Err(NotFound)
    ensures MoveSeen(b, id, stageId, seen).1
         == if id >= |b.deals| then Err(NotFound)
            else if !Offers(b, b.deals[id].pipelineId, stageId) then Err(StageNotInPipeline)
            else Ok(MoveSeen(b, id, stageId, seen).0.deals[id])
    ensures Create(b, pipelineId, stageId, value, fails).1
         == if !Offers(b, pipelineId, stageId) then Err(StageNotInPipeline)
            else if fails then Err(HistoryNotWritten)
            else Ok(|Create(b, pipelineId, stageId, value, fails).0.deals| - 1)
    ensures Convert(b, pipelineId, stageId, value).1
         == if pipelineId in b.pipelines && FindStage(b.stages, stageId).Some?
            then Ok(|Convert(b, pipelineId, stageId, value).0.deals| - 1) else Err(ForeignKey)
    ensures id < |b.deals| ==> Update(b, id, value).0.deals[id].value == value
  {
    hide FindStage;
  }

  // A stage goes exactly when no deal is on it and no move ever led to it; the other stages stay.
  lemma RemovedExactly(b: Board, stageId: nat, other: nat)
    ensures var after := RemoveStage(b, stageId).stages;
      && (FindStage(after, stageId).Some? <==>
            FindStage(b.stages, stageId).Some?
            && ((exists i :: 0 <= i < |b.deals| && b.deals[i].stageId == stageId)
                || exists i :: 0 <= i < |b.moves| && b.moves[i].target == stageId))
      && (other != stageId ==> FindStage(after, other) == FindStage(b.stages, other))
  {
    if exists i :: 0 <= i < |b.deals| && b.deals[i].stageId == stageId {
      var i :| 0 <= i < |b.deals| && b.deals[i].stageId == stageId;
      assert b.deals[i] in b.deals;
    }
    if exists i :: 0 <= i < |b.moves| && b.moves[i].target == stageId {
      var i :| 0 <= i < |b.moves| && b.moves[i].target == stageId;
      assert b.moves[i] in b.moves;
    }
  }

  // Nothing opens a closed deal again: one that is won or lost stays off the board and out of the forecast, even when
  // it is moved back to an ordinary stage.
  lemma {:induction false} ClosedDealsStayClosed(b: Board, steps: seq<Step>, id: nat)
    requires id < |b.deals| && b.deals[id].status != Open
    ensures id < |Run(b, steps).deals| && Run(b, steps).deals[id].status != Open
    decreases |steps|
  {
    hide FindStage, Edited, Without;
    if steps != [] {
      ClosedDealsStayClosed(Next(b, steps[0]), steps[1..], id);
    }
  }

  // ---------------------------------------------------------------- stage history

  function MovesOf(moves: seq<Move>, dealId: nat): (own: seq<Move>)
    ensures forall move <- own :: move in moves && move.dealId == dealId
  {
    if moves == [] then []
    else
      var last := moves[|moves| - 1];
      if last.dealId == dealId then MovesOf(moves[..|moves| - 1], dealId) + [last]
      else MovesOf(moves[..|moves| - 1], dealId)
  }

  // From nowhere to the current stage, each move starting where the one before ended.
  predicate IsChain(moves: seq<Move>, stageId: nat) {
    moves != [] && moves[|moves| - 1].target == stageId && moves[0].source == None
    && forall i :: 0 < i < |moves| ==> moves[i].source == Some(moves[i - 1].target)
  }

  predicate HasHistory(b: Board, dealId: nat)
    requires dealId < |b.deals|
  {
    IsChain(MovesOf(b.moves, dealId), b.deals[dealId].stageId)
  }

  // A step that leaves a deal with a history that is not a chain: a creation whose second write failed, a conversion,
  // and a move by a call that saw the deal in another stage.
  predicate Breaks(b: Board, step: Step, dealId: nat) {
    match step
    case DoCreate(pipelineId, stageId, _, historyFails) =>
      dealId == |b.deals| && Offers(b, pipelineId, stageId) && historyFails
    case DoConvert(pipelineId, stageId, _) =>
      dealId == |b.deals| && pipelineId in b.pipelines && FindStage(b.stages, stageId).Some?
    case DoMove(id, stageId, seen) =>
      id == dealId && id < |b.deals| && Offers(b, b.deals[id].pipelineId, stageId) && seen != b.deals[id].stageId
    case _ => false
  }

  lemma MovesAppend(moves: seq<Move>, move: Move, dealId: nat)
    ensures MovesOf(moves + [move], dealId)
         == if move.dealId == dealId then MovesOf(moves, dealId) + [move] else MovesOf(moves, dealId)
  {
    assert (moves + [move])[..|moves|] == moves;
  }

  lemma ChainAppend(moves: seq<Move>, stageId: nat, move: Move)
    requires move.source.Some?
    requires moves != [] ==> moves[|moves| - 1].target == stageId
    ensures IsChain(moves + [move], move.target) <==> IsChain(moves, stageId) && move.source == Some(stageId)
  {
    var all := moves + [move];
    if IsChain(all, move.target) {
      assert all[0].source == None;
      assert forall i :: 0 <= i < |moves| ==> all[i] == moves[i];
      assert all[|moves|].source == Some(all[|moves| - 1].target);
    }
  }

  // The last move of a deal, if any, led to its stage; no move is of a deal that does not exist.
  ghost predicate MovesFit(b: Board) {
    (forall move <- b.moves :: move.dealId < |b.deals|)
    && forall id | 0 <= id < |b.deals| :: LastMoveFits(b, id)
  }

  ghost predicate LastMoveFits(b: Board, id: nat)
    requires id < |b.deals|
  {
    var own := MovesOf(b.moves, id);
    own != [] ==> own[|own| - 1].target == b.deals[id].stageId
  }

  lemma MovesFitStep(b: Board, step: Step)
    requires MovesFit(b)
    ensures MovesFit(Next(b, step)) && |b.deals| <= |Next(b, step).deals| <= |b.deals| + 1
  {
    hide IsChain, MovesOf, Edited, Without, FindStage;
    var c := Next(b, step);
    forall id | 0 <= id < |c.deals| ensures LastMoveFits(c, id) {
      NoMovesYet(b, |b.deals|);
      if |c.moves| == |b.moves| + 1 {
        MovesAppend(b.moves, c.moves[|b.moves|], id);
      }
      if id < |b.deals| {
        assert LastMoveFits(b, id);
      }
    }
  }

  lemma NoMovesYet(b: Board, id: nat)
    requires MovesFit(b) && id >= |b.deals|
    ensures MovesOf(b.moves, id) == []
  {
    NoMoves(b.moves, id);
  }

  lemma {:induction false} NoMoves(moves: seq<Move>, id: nat)
    requires forall move <- moves :: move.dealId != id
    ensures MovesOf(moves, id) == []
  {
    if moves != [] {
      NoMoves(moves[..|moves| - 1], id);
    }
  }

  // One step keeps a deal's history a chain exactly when it does not break it; and what is broken stays so.
  lemma HistoryStep(b: Board, step: Step, dealId: nat)
    requires MovesFit(b) && dealId < |Next(b, step).deals|
    ensures HasHistory(Next(b, step), dealId)
      <==> (dealId < |b.deals| ==> HasHistory(b, dealId)) && !Breaks(b, step, dealId)
  {
    hide IsChain, MovesOf, Edited, Without, FindStage;
    var c := Next(b, step);
    NoMovesYet(b, |b.deals|);
    if |c.moves| == |b.moves| + 1 {
      var move := c.moves[|b.moves|];
      assert c.moves == b.moves + [move];
      MovesAppend(b.moves, move, dealId);
      if step.DoMove? && move.dealId == dealId {
        assert LastMoveFits(b, dealId);
        ChainAppend(MovesOf(b.moves, dealId), b.deals[dealId].stageId, move);
      } else if dealId == |b.deals| {
        SingleMove(move);
        assert MovesOf(c.moves, dealId) == [move];
      }
    } else if dealId == |b.deals| {
      NoChain(c.deals[dealId].stageId);
    }
  }

  lemma SingleMove(move: Move)
    ensures IsChain([move], move.target) <==> move.source == None
  {
  }

  lemma NoChain(stageId: nat)
    ensures !IsChain([], stageId)
  {
  }

  predicate EverBroken(b: Board, steps: seq<Step>, dealId: nat)
    decreases |steps|
  {
    steps != [] && (Breaks(b, steps[0], dealId) || EverBroken(Next(b, steps[0]), steps[1..], dealId))
  }

  lemma {:induction false} HistoryFrom(b: Board, steps: seq<Step>, dealId: nat)
    requires MovesFit(b) && dealId < |Run(b, steps).deals|
    ensures HasHistory(Run(b, steps), dealId)
      <==> (dealId < |b.deals| ==> HasHistory(b, dealId)) && !EverBroken(b, steps, dealId)
    decreases |steps|
  {
    hide HasHistory, Next, Breaks;
    if steps == [] {
    } else {
      MovesFitStep(b, steps[0]);
      HistoryFrom(Next(b, steps[0]), steps[1..], dealId);
      if dealId < |Next(b, steps[0]).deals| {
        HistoryStep(b, steps[0], dealId);
      } else {
        UnbornUnbroken(b, steps[0], dealId);
      }
    }
  }

  lemma UnbornUnbroken(b: Board, step: Step, dealId: nat)
    requires dealId >= |Next(b, step).deals| && dealId >= |b.deals|
    ensures !Breaks(b, step, dealId)
  {
  }
}
