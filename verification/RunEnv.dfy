/** What surrounds a run: everything the loop asks is an oracle that answers anything. */
module RunEnv {
  import opened Basics
  import opened Transcript
  import opened Preserve
  import opened Budget
  import opened Guard
  import opened Reconnect

  const DEFAULT_MAX_TURNS := 12

  /** One collected stream; `forwards` tells whether prose reached the user. */
  datatype Collected = Collected(
    text: string, calls: seq<ToolCall>, dropped: nat, error: string, reasoning: bool,
    inputTokens: int, forwards: bool)

  /** What executing a tool call came to. Its result always carries the id of the call. */
  datatype Executed = Executed(
    output: string, retriable: bool, sign: string, changed: bool, requestedModel: string,
    specReview: bool, abort: Option<string>)

  /** The fixed texts the loop speaks. */
  datatype Notice =
    | DroppedCall | NoOutput | MidStep | PlanOpen | Acceptance | Aborted | LastPrompt | LastAnswer
    | NoOutputStop(turns: nat)
    | FailureStop(tool: ToolName, count: nat)
    | FailureHint(tool: ToolName, output: string)
    | Remind(reminder: Reminder)
    | SwitchFailed(model: string)

  /** Everything outside the loop: per connect, per turn, or per call of a turn. */
  datatype Env = Env(
    link: Link<Collected>,
    classifier: Classifier,
    parsers: Parsers,
    summarize: (nat, nat) -> ((nat, seq<Message>) -> Result<string>),
    toolTokens: nat -> nat,
    alive: (nat, nat) -> bool,
    drain: nat -> string,
    drainFinal: nat -> string,
    execute: (nat, nat, ToolCall) -> Executed,
    feedback: nat -> string,
    switchFails: (nat, string) -> bool,
    stallBackoffDone: nat -> bool,
    stalled: string -> bool,
    admits: string -> bool,
    midStep: string -> bool,
    remaining: string -> Option<nat>,
    safeArguments: string -> string,
    words: Notice -> string)

  datatype Options = Options(
    maxTurns: int, images: nat, requireCompletion: bool, selfCorrect: bool, switcher: bool,
    contextWindow: int, preserveLast: int)

  datatype Ending =
    | Failed(error: string)
    | Answered
    | Incomplete
    | NoOutputHalt
    | GuardHalt(tool: ToolName)
    | SpecReview
    | OutOfTurns

  /** How the run ends, and its final answer. */
  datatype Halt = Halt(how: Ending, answer: string)

  datatype RunResult = RunResult(messages: seq<Message>, finalAnswer: string, turns: nat, how: Ending)

  function Turns(maxTurns: int): (n: nat)
    ensures n > 0
  {
    if maxTurns <= 0 then DEFAULT_MAX_TURNS else maxTurns
  }

  function SummarizerAt(env: Env, turn: nat, site: nat): Summarizer {
    Summarizer(env.summarize(turn, site), env.classifier.contextLimit)
  }
}
