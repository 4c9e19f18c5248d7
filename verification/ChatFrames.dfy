/** Chat-completions streaming: the frames a client is sent, and what a client makes of them. */
module ChatFrames {
  import opened Js

  datatype Delta =
    | Role
    | Content(text: string)
    | Announce(index: nat, id: string, name: Json)
    | Fragment(index: nat, arguments: string)
    | NoDelta

  /** One `data:` frame. `U` is the usage object's type; ids and timestamps are left out. */
  datatype Frame<+U> =
    | Chunk(delta: Delta, finish: Option<string>)
    | UsageFrame(model: string, usage: U)
    | Done
    | Error(message: string)

  /** `data: [DONE]` and the error envelope are the two ways a stream may end. */
  predicate IsEnding<U>(f: Frame<U>) {
    f.Done? || f.Error?
  }

  datatype Call = Call(id: string, name: Json, arguments: string)

  datatype Outcome = Open | Completed | Failed(message: string)

  datatype Answer<+U> = Answer(
    content: string, calls: seq<Call>, finish: Option<string>, usage: Option<U>, model: Option<string>, outcome: Outcome)

  function Nothing<U>(): Answer<U> {
    Answer("", [], None, None, None, Open)
  }

  /**
    * How a client folds one frame. `None` marks a stream no client can make sense of: a tool index
    * announced out of order, a fragment for an index never announced, or a frame behind the ending.
    */
  function Receive<U>(a: Answer<U>, f: Frame<U>): Option<Answer<U>> {
    if a.outcome != Open then None
    else
      match f
      case Done => Some(a.(outcome := Completed))
      case Error(message) => Some(a.(outcome := Failed(message)))
      case UsageFrame(model, usage) => Some(a.(usage := Some(usage), model := Some(model)))
      case Chunk(delta, finish) =>
        var b := if finish.Some? then a.(finish := finish) else a;
        match delta
        case Role => Some(b)
        case NoDelta => Some(b)
        case Content(text) => Some(b.(content := b.content + text))
        case Announce(index, id, name) =>
          if index == |b.calls| then Some(b.(calls := b.calls + [Call(id, name, "")])) else None
        case Fragment(index, arguments) =>
          if index < |b.calls| then
            Some(b.(calls := b.calls[index := b.calls[index].(arguments := b.calls[index].arguments + arguments)]))
          else None
  }

  function ReceiveAll<U>(a: Answer<U>, frames: seq<Frame<U>>): Option<Answer<U>>
    decreases |frames|
  {
    if frames == [] then Some(a)
    else
      var next := Receive(a, frames[0]);
      if next.None? then None else ReceiveAll(next.value, frames[1..])
  }

  lemma {:induction false} ReceiveAppend<U>(a: Answer<U>, front: seq<Frame<U>>, back: seq<Frame<U>>)
    ensures ReceiveAll(a, front + back) ==
            if ReceiveAll(a, front).None? then None else ReceiveAll(ReceiveAll(a, front).value, back)
    decreases |front|
  {
    if front == [] {
      assert front + back == back;
    } else {
      TailAppend(front, back);
      if Receive(a, front[0]).Some? {
        ReceiveAppend(Receive(a, front[0]).value, front[1..], back);
      }
    }
  }

  lemma {:induction false} ReceiveOne<U>(a: Answer<U>, f: Frame<U>)
    ensures ReceiveAll(a, [f]) == Receive(a, f)
  {
  }
}
