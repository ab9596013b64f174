// Readings of a run's history.
module TestHistory {
  import opened EventLoop
  import opened TestModel

  predicate IsFailure(item: Item) {
    item == Popped(Fail) || item == Raised
  }

  // Some fail entry was dispatched, or an exception ended the loop.
  predicate SawFailure(h: History) {
    h.Then? && (IsFailure(h.item) || SawFailure(h.past))
  }

  // Some failure came after the first stage was entered.
  predicate FailedInStage(h: History) {
    h.Then? && ((IsFailure(h.item) && !StageOf(h.past).NoStage?) || FailedInStage(h.past))
  }

  // The stage entered last.
  function StageOf(h: History): Stage {
    match h
    case Blank => NoStage
    case Then(past, Entered(g)) => g
    case Then(past, _) => StageOf(past)
  }

  // The history without what happened before the first stage was entered.
  function SinceSetup(h: History): History {
    match h
    case Blank => Blank
    case Then(past, item) =>
      if StageOf(past).NoStage? && !item.Entered? then SinceSetup(past) else Then(SinceSetup(past), item)
  }

  // The stages entered, in order.
  function Visited(h: History): seq<Stage> {
    match h
    case Blank => []
    case Then(past, Entered(g)) => Visited(past) + [g]
    case Then(past, _) => Visited(past)
  }

  // How many failures came while g was the current stage.
  function FailuresIn(h: History, g: Stage): nat {
    match h
    case Blank => 0
    case Then(past, item) => FailuresIn(past, g) + (if IsFailure(item) && StageOf(past) == g then 1 else 0)
  }

  // The steps removed, and the action steps run, while g was the current stage.
  function RemovedIn(h: History, g: Stage): seq<Step> {
    match h
    case Blank => []
    case Then(past, Removed(x)) => if StageOf(past) == g then RemovedIn(past, g) + [x] else RemovedIn(past, g)
    case Then(past, _) => RemovedIn(past, g)
  }

  function RanIn(h: History, g: Stage): seq<Step> {
    match h
    case Blank => []
    case Then(past, Ran(x)) => if StageOf(past) == g then RanIn(past, g) + [x] else RanIn(past, g)
    case Then(past, _) => RanIn(past, g)
  }

  // How many NextStep tokens were dispatched.
  function TokensPopped(h: History): nat {
    match h
    case Blank => 0
    case Then(past, item) => TokensPopped(past) + (if item == Popped(NextStep) then 1 else 0)
  }

  // The only ways through the stages.
  function PathTo(g: Stage, skipTest: bool): seq<Stage> {
    match g
    case NoStage => []
    case Setup => [Setup]
    case Testing => [Setup, Testing]
    case Teardown => (if skipTest then [Setup] else [Setup, Testing]) + [Teardown]
    case Done => (if skipTest then [Setup] else [Setup, Testing]) + [Teardown, Done]
  }
}
