/** The ADO.NET side of receiving and ending conversations (DB.cs): the command object
    and its parameter collection, the setup of the receive and end-dialog commands, and
    the reading of a received row back into a message. */
module Db {
  import opened Errors
  import opened Messages

  datatype SqlDbType = NVarChar | UniqueIdentifier

  datatype Direction = Input | Output

  /** A parameter's `Value`: null (never set), `DBNull.Value`, a string or a GUID. */
  datatype DbValue = Unset | DBNull | Text(text: string) | GuidValue(guid: Guid)

  /** A `SqlParameter`. */
  datatype SqlParameter = SqlParameter(
    name: string,
    dbType: SqlDbType,
    size: int,
    direction: Direction,
    value: DbValue)

  /** An element of a command's parameter collection, which is typed `object`: either a
      `SqlParameter` or something else. */
  datatype ParameterObject = Sql(parameter: SqlParameter) | Foreign

  /** `new SqlParameter(name, type, size)` (size 0 when not given): an input parameter
      without a value. */
  function Declared(name: string, dbType: SqlDbType, size: int): (p: SqlParameter)
    ensures p.name == name && p.dbType == dbType && p.size == size
    ensures p.direction == Input && p.value == Unset
  {
    SqlParameter(name, dbType, size, Input, Unset)
  }

  /** `new SqlParameter(name, guid)`: an input parameter holding the GUID. */
  function BoundGuid(name: string, id: Guid): (p: SqlParameter)
    ensures p.name == name && p.dbType == UniqueIdentifier
    ensures p.direction == Input && p.value == GuidValue(id)
  {
    SqlParameter(name, UniqueIdentifier, 0, Input, GuidValue(id))
  }

  /** `AsSqlParameter`: a `SqlParameter` is itself; anything else reads as a nameless
      parameter holding `DBNull`. */
  function AsSqlParameter(obj: ParameterObject): (p: SqlParameter)
    ensures obj.Sql? ==> p == obj.parameter
    ensures obj.Foreign? ==> p.name == "" && p.value == DBNull
  {
    match obj
    case Sql(q) => q
    case Foreign => SqlParameter("", NVarChar, 0, Input, DBNull)
  }

  /** `o` is a `SqlParameter` named `name`. */
  predicate Named(o: ParameterObject, name: string)
  {
    o.Sql? && o.parameter.name == name
  }

  /** The value the server binds to `name` when it runs a command with these
      parameters: that of the first parameter so named, if any. */
  function Binding(ps: seq<ParameterObject>, name: string): Option<DbValue>
  {
    if ps == [] then None
    else if Named(ps[0], name) then Some(ps[0].parameter.value)
    else Binding(ps[1..], name)
  }

  /** Parameters placed after others that do not carry the name are bound as if alone. */
  lemma {:induction false} BindingSkips(ps: seq<ParameterObject>, qs: seq<ParameterObject>, name: string)
    requires forall k :: 0 <= k < |ps| ==> !Named(ps[k], name)
    ensures Binding(ps + qs, name) == Binding(qs, name)
  {
    if ps != [] {
      assert (ps + qs)[0] == ps[0] && !Named(ps[0], name);
      assert (ps + qs)[1..] == ps[1..] + qs;
      BindingSkips(ps[1..], qs, name);
    } else {
      assert ps + qs == qs;
    }
  }

  /** `p`, with its direction set to `Output` when `output` holds. */
  function Directed(p: SqlParameter, output: bool): SqlParameter
  {
    if output then p.(direction := Output) else p
  }

  /** What adding each of `ps` in turn (setting each to `Output` first when `output`
      holds) appends to a parameter collection. */
  function Added(ps: seq<SqlParameter>, output: bool): (r: seq<ParameterObject>)
    ensures |r| == |ps|
  {
    seq(|ps|, k requires 0 <= k < |ps| => Sql(Directed(ps[k], output)))
  }

  /** The value the server writes into one parameter: an output parameter whose name the
      row supplies takes that value; any other object is left alone. */
  function FillOne(o: ParameterObject, row: map<string, DbValue>): ParameterObject
  {
    match o
    case Sql(p) => if p.direction == Output && p.name in row then Sql(p.(value := row[p.name])) else o
    case Foreign => o
  }

  /** A parameter collection after a query that returned `row` for its output parameters. */
  function Filled(ps: seq<ParameterObject>, row: map<string, DbValue>): (r: seq<ParameterObject>)
    ensures |r| == |ps|
  {
    seq(|ps|, k requires 0 <= k < |ps| => FillOne(ps[k], row))
  }

  /** A parameter collection after a query with the given outcome: a failed query writes
      nothing back. */
  function Executed(ps: seq<ParameterObject>, outcome: Try<map<string, DbValue>>): (r: seq<ParameterObject>)
    ensures |r| == |ps|
  {
    if outcome.Success? then Filled(ps, outcome.value) else ps
  }

  /** An `IDbCommand`: its parameter collection, its text, how many times it has been
      run, and whether it has been disposed. */
  class DbCommand {
    var parameters: seq<ParameterObject>
    var commandText: string
    var executions: nat
    var disposed: bool

    constructor ()
      ensures parameters == [] && commandText == "" && executions == 0 && !disposed
    {
      parameters := [];
      commandText := "";
      executions := 0;
      disposed := false;
    }

    /** `Parameters.Add(p)`. */
    method AddParameter(p: SqlParameter)
      modifies this
      ensures parameters == old(parameters) + [Sql(p)]
      ensures commandText == old(commandText) && executions == old(executions)
      ensures disposed == old(disposed)
    {
      parameters := parameters + [Sql(p)];
    }

    /** Running the command. How the server answers is an input: a failure (the call
      throws), or the values of the row's output columns by parameter name. */
    method ExecuteNonQuery(outcome: Try<map<string, DbValue>>) returns (r: Try<()>)
      modifies this
      ensures executions == old(executions) + 1
      ensures parameters == Executed(old(parameters), outcome)
      ensures outcome.Failure? ==> r == Failure(outcome.error)
      ensures outcome.Success? ==> r == Success(())
      ensures commandText == old(commandText) && disposed == old(disposed)
    {
      executions := executions + 1;
      if outcome.Failure? {
        return Failure(outcome.error);
      }
      parameters := Filled(parameters, outcome.value);
      r := Success(());
    }

    /** `Dispose()`. */
    method Dispose()
      modifies this
      ensures disposed
      ensures parameters == old(parameters) && commandText == old(commandText)
      ensures executions == old(executions)
    {
      disposed := true;
    }
  }

  /** Adds each of `ps` to the command in turn, first setting it to `Output` when
      `output` holds: the `Iter` over a parameter array in the setup functions. */
  method AddEach(command: DbCommand, ps: seq<SqlParameter>, output: bool)
    modifies command
    ensures command.parameters == old(command.parameters) + Added(ps, output)
    ensures command.commandText == old(command.commandText)
    ensures command.executions == old(command.executions) && command.disposed == old(command.disposed)
  {
    var i := 0;
    while i < |ps|
      invariant 0 <= i <= |ps|
      invariant command.parameters == old(command.parameters) + Added(ps[..i], output)
      invariant command.commandText == old(command.commandText)
      invariant command.executions == old(command.executions) && command.disposed == old(command.disposed)
    {
      var param := ps[i];
      if output {
        param := param.(direction := Output);
      }
      command.AddParameter(param);
      assert Added(ps[..i + 1], output) == Added(ps[..i], output) + [Sql(param)];
      i := i + 1;
    }
    assert ps[..i] == ps;
  }

  // ---------------------------------------------------------------------------
  // Receiving

  /** The five parameters of the receive command, in order; `-1` is `nvarchar(max)`. */
  const ReceiveDeclarations: seq<SqlParameter> := [
    Declared("@contract", NVarChar, 128),
    Declared("@messageType", NVarChar, 256),
    Declared("@message", NVarChar, -1),
    Declared("@conversationGroup", UniqueIdentifier, 0),
    Declared("@conversation", UniqueIdentifier, 0)]

  const ReceivePrefix: string :=
    "WAITFOR (RECEIVE TOP(1) @contract = service_contract_name, @messageType = message_type_name, " +
    "@message = message_body, @conversationGroup = conversation_group_id, " +
    "@conversation = conversation_handle FROM ["

  const ReceiveSuffix: string := "]), TIMEOUT 5000;"

  /** The receive command's text: take at most one message from the bracketed queue,
      waiting at most 5000 milliseconds. */
  function ReceiveText(queueName: string): (t: string)
    ensures |t| == |ReceivePrefix| + |queueName| + |ReceiveSuffix|
    ensures t[..|ReceivePrefix|] == ReceivePrefix && t[|t| - |ReceiveSuffix|..] == ReceiveSuffix
  {
    ReceivePrefix + queueName + ReceiveSuffix
  }

  /** The queue a receive text reads from. */
  function QueueOf(text: string): string
    requires |ReceivePrefix| + |ReceiveSuffix| <= |text|
  {
    text[|ReceivePrefix|..|text| - |ReceiveSuffix|]
  }

  /** The queue name is embedded whole: it can be read back from the text, so different
      queues give different commands. */
  lemma ReceiveTextNamesQueue(queueName: string, other: string)
    ensures |ReceivePrefix| + |ReceiveSuffix| <= |ReceiveText(queueName)|
    ensures QueueOf(ReceiveText(queueName)) == queueName
    ensures ReceiveText(queueName) == ReceiveText(other) ==> queueName == other
  {
    var text := ReceiveText(queueName);
    assert text[|ReceivePrefix|..|text| - |ReceiveSuffix|] == queueName;
    if ReceiveText(queueName) == ReceiveText(other) {
      assert |other| == |queueName|;
      assert ReceiveText(other)[|ReceivePrefix|..|text| - |ReceiveSuffix|] == other;
    }
  }

  /** `SetupReceive`: adds the five parameters as outputs, sets the receive text, and
      returns the command it was given. */
  method SetupReceive(queueName: string, command: DbCommand) returns (c: DbCommand)
    modifies command
    ensures c == command
    ensures command.parameters == old(command.parameters) + Added(ReceiveDeclarations, true)
    ensures command.commandText == ReceiveText(queueName)
    ensures command.executions == old(command.executions) && command.disposed == old(command.disposed)
  {
    AddEach(command, ReceiveDeclarations, true);
    command.commandText := ReceiveText(queueName);
    c := command;
  }

  /** The receive parameters are, in order, @contract, @messageType, @message,
      @conversationGroup and @conversation, every one an output without a value. */
  lemma ReceiveParametersAreOutputs()
    ensures |Added(ReceiveDeclarations, true)| == 5
    ensures forall k :: 0 <= k < 5 ==>
      (Added(ReceiveDeclarations, true)[k].Sql? &&
       Added(ReceiveDeclarations, true)[k].parameter.direction == Output &&
       Added(ReceiveDeclarations, true)[k].parameter.value == Unset)
    ensures Added(ReceiveDeclarations, true)[0].parameter.name == "@contract"
    ensures Added(ReceiveDeclarations, true)[1].parameter.name == "@messageType"
    ensures Added(ReceiveDeclarations, true)[2].parameter.name == "@message"
    ensures Added(ReceiveDeclarations, true)[3].parameter.name == "@conversationGroup"
    ensures Added(ReceiveDeclarations, true)[4].parameter.name == "@conversation"
  {
  }

  /** `parameters[k].AsSqlParameter().Value`: indexing past the end throws. */
  function ValueAt(ps: seq<ParameterObject>, k: nat): (r: Try<DbValue>)
    ensures k < |ps| ==> r == Success(AsSqlParameter(ps[k]).value)
    ensures k >= |ps| ==> r.Failure? && r.error.kind == IndexOutOfRange
  {
    if k < |ps| then Success(AsSqlParameter(ps[k]).value)
    else Failure(Exception(IndexOutOfRange, "Invalid index for this SqlParameterCollection.", []))
  }

  const HexDigits: string := "0123456789abcdef"

  /** The last `count` hexadecimal digits of `n`, most significant first. */
  function Hex(n: nat, count: nat): (s: string)
    ensures |s| == count
  {
    if count == 0 then "" else Hex(n / 16, count - 1) + [HexDigits[n % 16]]
  }

  /** `Guid.ToString()`: 32 hexadecimal digits in groups of 8, 4, 4, 4 and 12. */
  function GuidText(g: Guid): (s: string)
    ensures |s| == 36
  {
    var h := Hex(g as nat, 32);
    h[..8] + "-" + h[8..12] + "-" + h[12..16] + "-" + h[16..20] + "-" + h[20..]
  }

  /** `Value.ToString()`: throws on a null value; `DBNull` reads as the empty string. */
  function ValueText(v: DbValue): (r: Try<string>)
    ensures r.Failure? <==> v.Unset?
    ensures v.Text? ==> r == Success(v.text)
    ensures v.DBNull? ==> r == Success("")
  {
    match v
    case Unset => Failure(Exception(NullReference, "Object reference not set to an instance of an object.", []))
    case DBNull => Success("")
    case Text(s) => Success(s)
    case GuidValue(g) => Success(GuidText(g))
  }

  /** `(Guid)Value`: unboxing null throws a null reference; anything but a GUID is an
      invalid cast. */
  function GuidCast(v: DbValue): (r: Try<Guid>)
    ensures r.Success? <==> v.GuidValue?
    ensures v.GuidValue? ==> r.value == v.guid
    ensures v.Unset? ==> r.error.kind == NullReference
    ensures v.DBNull? || v.Text? ==> r.error.kind == InvalidCast
  {
    match v
    case GuidValue(g) => Success(g)
    case Unset => Failure(Exception(NullReference, "Object reference not set to an instance of an object.", []))
    case _ => Failure(Exception(InvalidCast, "Specified cast is not valid.", []))
  }

  /** `parameters[k].AsSqlParameter().Value.ToString()`. */
  function TextAt(ps: seq<ParameterObject>, k: nat): (r: Try<string>)
    ensures r.Success? <==> k < |ps| && !AsSqlParameter(ps[k]).value.Unset?
    ensures r.Success? ==> r == ValueText(AsSqlParameter(ps[k]).value)
  {
    var v :- ValueAt(ps, k);
    ValueText(v)
  }

  /** `(Guid)parameters[k].AsSqlParameter().Value`. */
  function GuidAt(ps: seq<ParameterObject>, k: nat): (r: Try<Guid>)
    ensures r.Success? <==> k < |ps| && AsSqlParameter(ps[k]).value.GuidValue?
    ensures r.Success? ==> r.value == AsSqlParameter(ps[k]).value.guid
  {
    var v :- ValueAt(ps, k);
    GuidCast(v)
  }

  /** The message built from parameters 0 to 4, read left to right; the first read that
      throws is the outcome. */
  function BuildMessage(ps: seq<ParameterObject>): (r: Try<BrokerMessage>)
    ensures r.Success? ==> 5 <= |ps|
  {
    var contract :- TextAt(ps, 0);
    var messageType :- TextAt(ps, 1);
    var body :- TextAt(ps, 2);
    var group :- GuidAt(ps, 3);
    var conversation :- GuidAt(ps, 4);
    Success(NewBrokerMessage(contract, Some(messageType), Some(body), group, conversation))
  }

  /** What is read back after the receive query: `Empty` when parameter 0 is `DBNull`,
      otherwise the message built from the five parameters. */
  function ReadReceived(ps: seq<ParameterObject>): (r: Try<BrokerMessage>)
    ensures ps == [] ==> r.Failure? && r.error.kind == IndexOutOfRange
    ensures r.Success? && r.value != Empty ==> 5 <= |ps|
  {
    var first :- ValueAt(ps, 0);
    if first.DBNull? then Success(Empty) else BuildMessage(ps)
  }

  /** `RunReceiveCommandFactory`'s function: runs the command once, then reads the
      message, `Empty` unless parameter 0 holds a value. A failing query throws out of it
      before anything is read. */
  method RunReceive(command: DbCommand, outcome: Try<map<string, DbValue>>) returns (r: Try<BrokerMessage>)
    modifies command
    ensures command.executions == old(command.executions) + 1
    ensures command.parameters == Executed(old(command.parameters), outcome)
    ensures command.commandText == old(command.commandText) && command.disposed == old(command.disposed)
    ensures outcome.Failure? ==> r == Failure(outcome.error)
    ensures outcome.Success? ==> r == ReadReceived(command.parameters)
  {
    var message := Empty;
    var result := command.ExecuteNonQuery(outcome);
    if result.Failure? {
      return Failure(result.error);
    }
    var parameters := command.parameters;
    var first :- ValueAt(parameters, 0);
    if !first.DBNull? {
      message :- BuildMessage(parameters);
    }
    r := Success(message);
  }

  /** The row a queue returns for message `m`, by output parameter name. */
  function RowOf(m: BrokerMessage): map<string, DbValue>
  {
    map["@contract" := Text(m.contract), "@messageType" := Text(m.messageType),
        "@message" := Text(m.message), "@conversationGroup" := GuidValue(m.conversationGroup),
        "@conversation" := GuidValue(m.conversation)]
  }

  /** The row of a `RECEIVE` that found nothing: every output is `DBNull`. */
  const NoRow: map<string, DbValue> :=
    map["@contract" := DBNull, "@messageType" := DBNull, "@message" := DBNull,
        "@conversationGroup" := DBNull, "@conversation" := DBNull]

  /** Receiving round-trips: whatever message the queue returns into the receive
      parameters is the message read back. */
  lemma ReceiveRoundTrip(m: BrokerMessage)
    ensures ReadReceived(Filled(Added(ReceiveDeclarations, true), RowOf(m))) == Success(m)
  {
    var ps := Filled(Added(ReceiveDeclarations, true), RowOf(m));
    assert AsSqlParameter(ps[0]).value == Text(m.contract);
    assert AsSqlParameter(ps[1]).value == Text(m.messageType);
    assert AsSqlParameter(ps[2]).value == Text(m.message);
    assert AsSqlParameter(ps[3]).value == GuidValue(m.conversationGroup);
    assert AsSqlParameter(ps[4]).value == GuidValue(m.conversation);
  }

  /** A receive that found nothing reads as `Empty`. */
  lemma NoRowReadsEmpty()
    ensures ReadReceived(Filled(Added(ReceiveDeclarations, true), NoRow)) == Success(Empty)
  {
    var ps := Filled(Added(ReceiveDeclarations, true), NoRow);
    assert ValueAt(ps, 0) == Success(DBNull);
  }

  /** Parameter 0 decides: `DBNull` there, or an object that is not a `SqlParameter`,
      reads as `Empty` whatever the other parameters hold; any other value makes the
      outcome the message built from parameters 0 to 4. */
  lemma FirstParameterDecides(ps: seq<ParameterObject>)
    requires |ps| > 0
    ensures ps[0].Foreign? ==> ReadReceived(ps) == Success(Empty)
    ensures AsSqlParameter(ps[0]).value.DBNull? ==> ReadReceived(ps) == Success(Empty)
    ensures !AsSqlParameter(ps[0]).value.DBNull? ==> ReadReceived(ps) == BuildMessage(ps)
  {
  }

  /** A message read back from a value at parameter 0 takes each field, in order, from
      parameters 0 to 4; the read fails exactly when one of those is missing or cannot be
      converted. */
  lemma BuiltFieldsComeFromParameters(ps: seq<ParameterObject>)
    ensures BuildMessage(ps).Success? <==>
      |ps| >= 5 && !AsSqlParameter(ps[0]).value.Unset? && !AsSqlParameter(ps[1]).value.Unset? &&
      !AsSqlParameter(ps[2]).value.Unset? &&
      AsSqlParameter(ps[3]).value.GuidValue? && AsSqlParameter(ps[4]).value.GuidValue?
    ensures BuildMessage(ps).Success? ==>
      var m := BuildMessage(ps).value;
      Success(m.contract) == ValueText(AsSqlParameter(ps[0]).value) &&
      Success(m.messageType) == ValueText(AsSqlParameter(ps[1]).value) &&
      Success(m.message) == ValueText(AsSqlParameter(ps[2]).value) &&
      GuidValue(m.conversationGroup) == AsSqlParameter(ps[3]).value &&
      GuidValue(m.conversation) == AsSqlParameter(ps[4]).value
  {
  }

  // ---------------------------------------------------------------------------
  // Ending a conversation

  const EndDialogText: string := "END CONVERSATION @conversation"

  /** The one parameter of the end-dialog command. */
  function EndDialogParameter(conversationId: Guid): (p: SqlParameter)
    ensures p.name == "@conversation" && p.value == GuidValue(conversationId)
  {
    BoundGuid("@conversation", conversationId)
  }

  /** `SetupEndDialog`: adds one @conversation parameter holding the id, sets the text,
      and returns the command it was given. */
  method SetupEndDialog(conversationId: Guid, command: DbCommand) returns (c: DbCommand)
    modifies command
    ensures c == command
    ensures command.parameters == old(command.parameters) + [Sql(EndDialogParameter(conversationId))]
    ensures command.commandText == EndDialogText
    ensures command.executions == old(command.executions) && command.disposed == old(command.disposed)
  {
    command.AddParameter(EndDialogParameter(conversationId));
    command.commandText := EndDialogText;
    c := command;
  }

  /** The end-dialog command ends the conversation it was set up for: on a command with
      no other @conversation parameter, the server binds the given id. */
  lemma EndDialogBindsConversation(ps: seq<ParameterObject>, conversationId: Guid)
    requires forall k :: 0 <= k < |ps| ==> !Named(ps[k], "@conversation")
    ensures Binding(ps + [Sql(EndDialogParameter(conversationId))], "@conversation") ==
      Some(GuidValue(conversationId))
  {
    BindingSkips(ps, [Sql(EndDialogParameter(conversationId))], "@conversation");
  }
}
