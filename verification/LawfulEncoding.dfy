// An encoding of records as the log assumes it: one that can be decoded and has no
// newline. Records become trees, and trees become bytes of which none begins another.
module LawfulEncoding {
  import opened Utf8
  import opened Session
  import opened Codec

  datatype Tree = Leaf | Num(n: int) | Pair(left: Tree, right: Tree)

  // ---- Trees as bytes ----

  function Unary(n: nat): Bytes {
    if n == 0 then [0] else [1] + Unary(n - 1)
  }

  function Encode(tree: Tree): Bytes {
    match tree
    case Leaf => [2]
    case Num(n) => if n >= 0 then [3] + Unary(n) else [4] + Unary(-n)
    case Pair(left, right) => [5] + (Encode(left) + Encode(right))
  }

  lemma {:induction false} UnaryIsPrefixFree(n: nat, m: nat, a: Bytes, b: Bytes)
    requires Unary(n) + a == Unary(m) + b
    ensures n == m && a == b
  {
    assert (Unary(n) + a)[0] == (Unary(m) + b)[0];
    assert (Unary(n) + a)[1..] == (Unary(m) + b)[1..];
    if n == 0 {
      assert (Unary(n) + a)[1..] == a && (Unary(m) + b)[1..] == b;
    } else {
      assert (Unary(n) + a)[1..] == Unary(n - 1) + a && (Unary(m) + b)[1..] == Unary(m - 1) + b;
      UnaryIsPrefixFree(n - 1, m - 1, a, b);
    }
  }

  // The first byte of an encoding tells which it is.
  function Tag(tree: Tree): Byte {
    match tree
    case Leaf => 2
    case Num(n) => if n >= 0 then 3 else 4
    case Pair(_, _) => 5
  }

  function Rest(tree: Tree): Bytes {
    match tree
    case Leaf => []
    case Num(n) => Unary(if n >= 0 then n else -n)
    case Pair(left, right) => Encode(left) + Encode(right)
  }

  lemma TagAndRest(tree: Tree, a: Bytes)
    ensures var all := Encode(tree) + a;
      all[0] == Tag(tree) && all[1..] == Rest(tree) + a
  {
    hide Encode, Unary;
    IsTagAndRest(tree);
    assert [Tag(tree)] + Rest(tree) + a == [Tag(tree)] + (Rest(tree) + a);
  }

  lemma IsTagAndRest(tree: Tree)
    ensures Encode(tree) == [Tag(tree)] + Rest(tree)
  {
    hide Unary;
    if tree.Leaf? {
      assert [Tag(tree)] + [] == [Tag(tree)];
    }
  }

  lemma {:induction false} EncodeIsPrefixFree(t: Tree, u: Tree, a: Bytes, b: Bytes)
    requires Encode(t) + a == Encode(u) + b
    ensures t == u && a == b
    decreases t
  {
    hide Unary, Encode;
    TagAndRest(t, a);
    TagAndRest(u, b);
    match t
    case Leaf =>
    case Num(n) =>
      UnaryIsPrefixFree(if n >= 0 then n else -n, if u.n >= 0 then u.n else -u.n, a, b);
    case Pair(left, right) =>
      assert Rest(t) + a == Encode(left) + (Encode(right) + a);
      assert Rest(u) + b == Encode(u.left) + (Encode(u.right) + b);
      EncodeIsPrefixFree(left, u.left, Encode(right) + a, Encode(u.right) + b);
      EncodeIsPrefixFree(right, u.right, a, b);
  }

  lemma EncodeIsInjective(t: Tree, u: Tree)
    requires Encode(t) == Encode(u)
    ensures t == u
  {
    assert Encode(t) + [] == Encode(u) + [];
    EncodeIsPrefixFree(t, u, [], []);
  }

  lemma {:induction false} UnaryHasNoNewline(n: nat)
    ensures NEWLINE !in Unary(n)
  {
    if n > 0 {
      UnaryHasNoNewline(n - 1);
    }
  }

  lemma {:induction false} EncodeHasNoNewline(tree: Tree)
    ensures NEWLINE !in Encode(tree)
  {
    match tree
    case Leaf =>
    case Num(n) => UnaryHasNoNewline(if n >= 0 then n else -n);
    case Pair(left, right) =>
      EncodeHasNoNewline(left);
      EncodeHasNoNewline(right);
  }

  // ---- Records as trees ----

  function Text(s: string): Tree {
    if s == [] then Leaf else Pair(Num(s[0] as int), Text(s[1..]))
  }

  function Flag(b: bool): Tree {
    if b then Num(1) else Num(0)
  }

  lemma {:induction false} TextIsInjective(a: string, b: string)
    requires Text(a) == Text(b)
    ensures a == b
    decreases |a|
  {
    if a != [] {
      TextIsInjective(a[1..], b[1..]);
      assert a == [a[0]] + a[1..] && b == [b[0]] + b[1..];
    }
  }

  function Texts(values: seq<string>): Tree {
    if values == [] then Leaf else Pair(Text(values[0]), Texts(values[1..]))
  }

  lemma {:induction false} TextsAreInjective(a: seq<string>, b: seq<string>)
    requires Texts(a) == Texts(b)
    ensures a == b
    decreases |a|
  {
    hide Text;
    if a != [] {
      TextIsInjective(a[0], b[0]);
      TextsAreInjective(a[1..], b[1..]);
      assert a == [a[0]] + a[1..] && b == [b[0]] + b[1..];
    }
  }

  function StatusTree(status: OpStatus): Tree {
    match status
    case Ready => Num(0)
    case Awaiting => Num(1)
    case Canceling => Num(2)
    case Completed => Num(3)
    case Failed => Num(4)
    case Canceled => Num(5)
    case Unsupported(name) => Pair(Leaf, Text(name))
  }

  function JsonTree(json: Json): Tree {
    match json
    case Absent => Leaf
    case Json(text, valid) => Pair(Text(text), Flag(valid))
  }

  function OperationTree(o: Operation): Tree {
    Pair(Pair(Pair(Text(o.id), Text(o.kind)), Pair(Num(o.version), StatusTree(o.status))),
         Pair(Pair(JsonTree(o.state), JsonTree(o.idempotency)), Num(o.maxOutputLength)))
  }

  lemma StatusIsInjective(x: OpStatus, y: OpStatus)
    requires StatusTree(x) == StatusTree(y)
    ensures x == y
  {
    hide Text;
    if x.Unsupported? {
      TextIsInjective(x.name, y.name);
    }
  }

  lemma JsonIsInjective(x: Json, y: Json)
    requires JsonTree(x) == JsonTree(y)
    ensures x == y
  {
    hide Text;
    if x.Json? {
      TextIsInjective(x.text, y.text);
    }
  }

  lemma OperationIsInjective(x: Operation, y: Operation)
    requires OperationTree(x) == OperationTree(y)
    ensures x == y
  {
    hide Text, StatusTree, JsonTree;
    TextIsInjective(x.id, y.id);
    TextIsInjective(x.kind, y.kind);
    StatusIsInjective(x.status, y.status);
    JsonIsInjective(x.state, y.state);
    JsonIsInjective(x.idempotency, y.idempotency);
  }

  function OperationTrees(values: seq<Operation>): Tree {
    if values == [] then Leaf else Pair(OperationTree(values[0]), OperationTrees(values[1..]))
  }

  lemma {:induction false} OperationsAreInjective(a: seq<Operation>, b: seq<Operation>)
    requires OperationTrees(a) == OperationTrees(b)
    ensures a == b
    decreases |a|
  {
    hide OperationTree;
    if a != [] {
      OperationIsInjective(a[0], b[0]);
      OperationsAreInjective(a[1..], b[1..]);
      assert a == [a[0]] + a[1..] && b == [b[0]] + b[1..];
    }
  }

  function ModeTree(mode: ControlMode): Tree {
    Num(match mode case StopHard => 0 case StopWhenIdle => 1 case Heartbeat => 2 case UpdateSettings => 3)
  }

  function ControlTree(c: ControlMessage): Tree {
    Pair(ModeTree(c.mode), Pair(Text(c.reason), Text(c.effort)))
  }

  function KindTree(kind: InputKind): Tree {
    match kind
    case External => Num(0)
    case Control => Num(1)
    case Crash => Num(2)
    case OtherKind(name) => Pair(Leaf, Text(name))
  }

  function PayloadTree(payload: Payload): Tree {
    Pair(JsonTree(payload.json),
         Pair(match payload.text case None => Leaf case Some(text) => Pair(Leaf, Text(text)),
              match payload.control case None => Leaf case Some(control) => Pair(Leaf, ControlTree(control))))
  }

  lemma PayloadIsInjective(x: Payload, y: Payload)
    requires PayloadTree(x) == PayloadTree(y)
    ensures x == y
  {
    hide Text, JsonTree;
    JsonIsInjective(x.json, y.json);
    if x.text.Some? {
      TextIsInjective(x.text.value, y.text.value);
    }
    if x.control.Some? {
      TextIsInjective(x.control.value.reason, y.control.value.reason);
      TextIsInjective(x.control.value.effort, y.control.value.effort);
    }
  }

  function InputTree(input: Input): Tree {
    Pair(Pair(Text(input.id), KindTree(input.kind)), PayloadTree(input.payload))
  }

  lemma InputIsInjective(x: Input, y: Input)
    requires InputTree(x) == InputTree(y)
    ensures x == y
  {
    hide Text, PayloadTree;
    TextIsInjective(x.id, y.id);
    if x.kind.OtherKind? {
      TextIsInjective(x.kind.name, y.kind.name);
    }
    PayloadIsInjective(x.payload, y.payload);
  }

  function OutputTree(output: ResultOutput): Tree {
    Pair(Num(match output.kind case Text => 0 case Image => 1), Text(output.value))
  }

  lemma ResultOutputIsInjective(x: ResultOutput, y: ResultOutput)
    requires OutputTree(x) == OutputTree(y)
    ensures x == y
  {
    hide Text;
    TextIsInjective(x.value, y.value);
  }

  function OutputTrees(values: seq<ResultOutput>): Tree {
    if values == [] then Leaf else Pair(OutputTree(values[0]), OutputTrees(values[1..]))
  }

  lemma {:induction false} OutputsAreInjective(a: seq<ResultOutput>, b: seq<ResultOutput>)
    requires OutputTrees(a) == OutputTrees(b)
    ensures a == b
    decreases |a|
  {
    hide OutputTree;
    if a != [] {
      ResultOutputIsInjective(a[0], b[0]);
      OutputsAreInjective(a[1..], b[1..]);
      assert a == [a[0]] + a[1..] && b == [b[0]] + b[1..];
    }
  }

  function ItemTree(item: Item): Tree {
    match item
    case Message(role, text) =>
      Pair(Num(0), Pair(Num(match role case User => 0 case Assistant => 1 case System => 2), Text(text)))
    case ToolCall(call) => Pair(Num(1), Pair(Text(call.callID), Pair(Text(call.name), Text(call.arguments))))
    case ToolResult(callID, output, final) => Pair(Num(2), Pair(Text(callID), Pair(OutputTrees(output), Flag(final))))
    case Reasoning(raw) => Pair(Num(3), Text(raw))
  }

  lemma ItemIsInjective(x: Item, y: Item)
    requires ItemTree(x) == ItemTree(y)
    ensures x == y
  {
    hide Text, OutputTrees;
    match x
    case Message(_, text) => TextIsInjective(text, y.text);
    case ToolCall(call) =>
      TextIsInjective(call.callID, y.call.callID);
      TextIsInjective(call.name, y.call.name);
      TextIsInjective(call.arguments, y.call.arguments);
    case ToolResult(callID, output, _) =>
      TextIsInjective(callID, y.callID);
      OutputsAreInjective(output, y.output);
    case Reasoning(raw) => TextIsInjective(raw, y.raw);
  }

  function ItemTrees(values: seq<Item>): Tree {
    if values == [] then Leaf else Pair(ItemTree(values[0]), ItemTrees(values[1..]))
  }

  lemma {:induction false} ItemsAreInjective(a: seq<Item>, b: seq<Item>)
    requires ItemTrees(a) == ItemTrees(b)
    ensures a == b
    decreases |a|
  {
    hide ItemTree;
    if a != [] {
      ItemIsInjective(a[0], b[0]);
      ItemsAreInjective(a[1..], b[1..]);
      assert a == [a[0]] + a[1..] && b == [b[0]] + b[1..];
    }
  }

  function CallStatusTree(status: CallStatus): Tree {
    Pair(Text(status.error), Pair(Flag(status.errorTruncated), Texts(status.waitingFor)))
  }

  function TurnTree(turn: Turn): Tree {
    Pair(Pair(Text(turn.id), Text(turn.previousTurnID)), Flag(turn.turnType == Regular))
  }

  function DataTree(data: Data): Tree {
    match data
    case ForkData(parentID, previousTurnID) => Pair(Num(0), Pair(Text(parentID), Text(previousTurnID)))
    case InputData(input) => Pair(Num(1), InputTree(input))
    case TurnData(turn) => Pair(Num(2), TurnTree(turn))
    case ResponseData(response) => Pair(Num(3), Pair(Text(response.turnID), ItemTrees(response.output)))
    case StatusData(status) =>
      Pair(Num(4), Pair(Pair(Text(status.turnID), Text(status.callID)),
                        Pair(CallStatusTree(status.status), OperationTrees(status.operations))))
  }

  lemma ToolCallStatusIsInjective(x: ToolCallStatus, y: ToolCallStatus)
    requires DataTree(StatusData(x)) == DataTree(StatusData(y))
    ensures x == y
  {
    hide Text, Texts, OperationTrees;
    TextIsInjective(x.turnID, y.turnID);
    TextIsInjective(x.callID, y.callID);
    TextIsInjective(x.status.error, y.status.error);
    TextsAreInjective(x.status.waitingFor, y.status.waitingFor);
    OperationsAreInjective(x.operations, y.operations);
  }

  lemma DataIsInjective(x: Data, y: Data)
    requires DataTree(x) == DataTree(y)
    ensures x == y
  {
    hide Text, InputTree, ItemTrees, OperationTrees, CallStatusTree;
    match x
    case ForkData(parentID, previousTurnID) =>
      TextIsInjective(parentID, y.parentID);
      TextIsInjective(previousTurnID, y.previousTurnID);
    case InputData(input) => InputIsInjective(input, y.input);
    case TurnData(turn) =>
      TextIsInjective(turn.id, y.turn.id);
      TextIsInjective(turn.previousTurnID, y.turn.previousTurnID);
    case ResponseData(response) =>
      TextIsInjective(response.turnID, y.response.turnID);
      ItemsAreInjective(response.output, y.response.output);
    case StatusData(status) => ToolCallStatusIsInjective(status, y.status);
  }

  function RecordTree(record: Record): Tree {
    match record
    case SessionRecord(version, session) => Pair(Num(0), Pair(Num(version), Pair(Text(session.id), Num(session.createdAt))))
    case ItemRecord(item, operations) =>
      Pair(Num(1), Pair(Pair(Num(item.sequence), Num(item.recordedAt)),
                        Pair(DataTree(item.data), OperationTrees(operations))))
    case OperationRecord(operation) => Pair(Num(2), OperationTree(operation))
  }

  lemma RecordIsInjective(x: Record, y: Record)
    requires RecordTree(x) == RecordTree(y)
    ensures x == y
  {
    hide Text, DataTree, OperationTree, OperationTrees;
    match x
    case SessionRecord(_, session) => TextIsInjective(session.id, y.session.id);
    case ItemRecord(item, operations) =>
      DataIsInjective(item.data, y.item.data);
      OperationsAreInjective(operations, y.operations);
    case OperationRecord(operation) => OperationIsInjective(operation, y.operation);
  }

  // ---- The encoding ----

  ghost function DecodeRecord(bytes: Bytes): Option<Record> {
    if record: Record :| Encode(RecordTree(record)) == bytes then Some(record) else None
  }

  ghost function TreeEncoding(): Encoding {
    Encoding((record: Record) => Encode(RecordTree(record)), (bytes: Bytes) => DecodeRecord(bytes))
  }

  // What the log assumes of its encoding can be had.
  lemma LawfulEncodingExists()
    ensures Lawful(TreeEncoding())
  {
    hide RecordTree;
    forall record: Record
      ensures DecodeRecord(Encode(RecordTree(record))) == Some(record)
      ensures NEWLINE !in Encode(RecordTree(record))
    {
      var decoded := DecodeRecord(Encode(RecordTree(record)));
      assert decoded.Some?;
      EncodeIsInjective(RecordTree(decoded.value), RecordTree(record));
      RecordIsInjective(decoded.value, record);
      EncodeHasNoNewline(RecordTree(record));
    }
  }
}
