// The model's input: a committed prefix and a staged suffix
// (harness/contextbuilder/builder.go).
module ContextBuilder {
  import opened Session

  const TOOL_CALL_RUNNING_PAYLOAD :=
    "Tool call is still running. Its result arrives in a later turn: continue with independent work, or end your turn to wait for it."

  // What a running call shows.
  const RUNNING_OUTPUT: seq<ResultOutput> := [ResultOutput(Text, TOOL_CALL_RUNNING_PAYLOAD)]

  datatype Context = Context(effort: string, committed: seq<Item>, staged: seq<Item>)

  // The placeholder of a running call, told by its output as the source does.
  predicate IsPlaceholder(item: Item, callID: Id) {
    item.ToolResult? && item.callID == callID && item.output == RUNNING_OUTPUT
  }

  // slices.DeleteFunc on the placeholders of a call.
  function WithoutPlaceholders(items: seq<Item>, callID: Id): seq<Item> {
    if items == [] then []
    else
      WithoutPlaceholders(items[..|items| - 1], callID)
      + (if IsPlaceholder(items[|items| - 1], callID) then [] else [items[|items| - 1]])
  }

  function AddMessage(context: Context, text: string): Context {
    context.(staged := context.staged + [Message(User, text)])
  }

  function AddControl(context: Context, request: ControlMessage): Context {
    match request.mode
    case UpdateSettings => context.(effort := request.effort)
    case Heartbeat => AddMessage(context, request.reason)
    case _ => context
  }

  function AddResponse(context: Context, output: seq<Item>): Context {
    context.(committed := context.committed + output)
  }

  function AddResult(context: Context, callID: Id, output: seq<ResultOutput>, running: bool): Context {
    context.(staged := WithoutPlaceholders(context.staged, callID)
                       + [ToolResult(callID, if running then RUNNING_OUTPUT else output, !running)])
  }

  function Committed(context: Context): Context {
    context.(committed := context.committed + context.staged, staged := [])
  }

  // The input of the request that would be sent now.
  function Build(context: Context): seq<Item> {
    context.committed + context.staged
  }

  class Builder {
    var effort: string
    var committedPrefix: seq<Item>
    var stagedSuffix: seq<Item>

    ghost function Value(): Context
      reads this
    {
      Context(effort, committedPrefix, stagedSuffix)
    }

    // NewBuilder and SetSystemPrompt: the prefix starts with the system message.
    constructor (effort: string, systemPrompt: string)
      ensures Value() == Context(effort, [Message(System, systemPrompt)], [])
    {
      this.effort := effort;
      committedPrefix := [Message(System, systemPrompt)];
      stagedSuffix := [];
    }

    method AddExternalInput(text: string)
      modifies this
      ensures Value() == AddMessage(old(Value()), text)
    {
      stagedSuffix := stagedSuffix + [Message(User, text)];
    }

    method AddControlMessage(request: ControlMessage)
      modifies this
      ensures Value() == AddControl(old(Value()), request)
    {
      match request.mode
      case UpdateSettings => effort := request.effort;
      case Heartbeat => stagedSuffix := stagedSuffix + [Message(User, request.reason)];
      case _ =>
    }

    method AddModelResponse(output: seq<Item>)
      modifies this
      ensures Value() == AddResponse(old(Value()), output)
    {
      committedPrefix := committedPrefix + output;
    }

    method AddToolResult(callID: Id, payload: seq<ResultOutput>, running: bool)
      modifies this
      ensures Value() == AddResult(old(Value()), callID, payload, running)
    {
      var output := payload;
      if running {
        output := RUNNING_OUTPUT;
      }
      var kept: seq<Item> := [];
      var i := 0;
      while i < |stagedSuffix|
        invariant 0 <= i <= |stagedSuffix|
        invariant kept == WithoutPlaceholders(stagedSuffix[..i], callID)
      {
        assert stagedSuffix[..i + 1][..i] == stagedSuffix[..i];
        if !IsPlaceholder(stagedSuffix[i], callID) {
          kept := kept + [stagedSuffix[i]];
        }
        i := i + 1;
      }
      assert stagedSuffix[..|stagedSuffix|] == stagedSuffix;
      stagedSuffix := kept + [ToolResult(callID, output, !running)];
    }

    method Commit()
      modifies this
      ensures Value() == Committed(old(Value()))
    {
      committedPrefix := committedPrefix + stagedSuffix;
      stagedSuffix := [];
    }

    method BuildRequest() returns (requestEffort: string, input: seq<Item>)
      ensures requestEffort == Value().effort && input == Build(Value())
    {
      requestEffort := effort;
      input := committedPrefix;
      input := input + stagedSuffix;
    }
  }
}
