/** The older command wrapper (Command.cs). Each operation takes a command from a factory
    that may fail, adds its parameters, sets its text and runs it through a query that
    may throw; a factory failure is returned as it is, an exception from the query or
    from reading its results becomes the error result, and the command is disposed once
    used. */
module Commands {
  import opened Errors
  import opened Messages
  import opened Db

  /** The query's answer when its only possible fault is `fault` and it returns no row. */
  function Answer(fault: Option<Exception>): (r: Try<map<string, DbValue>>)
    ensures r.Failure? <==> fault.Some?
    ensures fault.Some? ==> r.error == fault.value
    ensures fault.None? ==> r.value == map[]
  {
    match fault
    case None => Success(map[])
    case Some(e) => Failure(e)
  }

  // ---------------------------------------------------------------------------
  // Receiving

  /** The four receive parameters, in order. */
  const ReceiveDeclarations4: seq<SqlParameter> := [
    Declared("@messageType", NVarChar, 256),
    Declared("@message", NVarChar, 4000),
    Declared("@conversationGroup", UniqueIdentifier, 0),
    Declared("@conversation", UniqueIdentifier, 0)]

  const ReceivePrefix4: string :=
    "WAITFOR (RECEIVE TOP(1) @messageType = message_type_name, @message = message_body, " +
    "@conversationGroup = conversation_group_id, @conversation = conversation_handle FROM ["

  /** The receive text, without the contract column. */
  function ReceiveText4(queueName: string): string
  {
    ReceivePrefix4 + queueName + ReceiveSuffix
  }

  /** The queue named by a receive text. */
  function QueueOf4(text: string): string
    requires |ReceivePrefix4| + |ReceiveSuffix| <= |text|
  {
    text[|ReceivePrefix4|..|text| - |ReceiveSuffix|]
  }

  /** The queue name can be read back from the receive text. */
  lemma ReceiveText4NamesQueue(queueName: string, other: string)
    ensures |ReceivePrefix4| + |ReceiveSuffix| <= |ReceiveText4(queueName)|
    ensures QueueOf4(ReceiveText4(queueName)) == queueName
    ensures ReceiveText4(queueName) == ReceiveText4(other) ==> queueName == other
  {
    var text := ReceiveText4(queueName);
    assert text[|ReceivePrefix4|..|text| - |ReceiveSuffix|] == queueName;
    if ReceiveText4(queueName) == ReceiveText4(other) {
      assert |other| == |queueName|;
      assert ReceiveText4(other)[|ReceivePrefix4|..|text| - |ReceiveSuffix|] == other;
    }
  }

  /** `(string)Value`: a null value stays null; anything but a string is an invalid
      cast. */
  function StringCast(v: DbValue): (r: Try<Option<string>>)
    ensures r.Success? <==> v.Unset? || v.Text?
    ensures v.Text? ==> r == Success(Some(v.text))
    ensures v.Unset? ==> r == Success(None)
    ensures r.Failure? ==> r.error.kind == InvalidCast
  {
    match v
    case Unset => Success(None)
    case Text(s) => Success(Some(s))
    case _ => Failure(Exception(InvalidCast, "Specified cast is not valid.", []))
  }

  /** The values of `count` parameters starting at `start`. */
  function ValuesFrom(ps: seq<ParameterObject>, start: nat, count: nat): (r: seq<DbValue>)
    requires start + count <= |ps|
    ensures |r| == count
  {
    seq(count, k requires 0 <= k < count => AsSqlParameter(ps[start + k]).value)
  }

  /** What the receive reads from its four parameters once the query has run: `Empty`
      when the first is `DBNull`, otherwise the four-field message, converted left to
      right. */
  function ReadReceived4(values: seq<DbValue>): (r: Try<BrokerMessage>)
    requires |values| == 4
    ensures values[0].DBNull? ==> r == Success(Empty)
    ensures r.Success? && !values[0].DBNull? ==>
      r.value.contract == "" && values[2].GuidValue? && values[3].GuidValue? &&
      r.value.conversationGroup == values[2].guid && r.value.conversation == values[3].guid
  {
    if values[0].DBNull? then Success(Empty)
    else
      var messageType :- StringCast(values[0]);
      var body :- StringCast(values[1]);
      var group :- GuidCast(values[2]);
      var conversation :- GuidCast(values[3]);
      Success(NewBrokerMessage4(messageType, body, group, conversation))
  }

  /** `ReceiveAsync`. */
  method ReceiveAsync(created: Try<DbCommand>, outcome: Try<map<string, DbValue>>, queueName: string)
    returns (r: Try<BrokerMessage>)
    modifies if created.Success? then {created.value} else {}
    ensures created.Failure? ==> r == Failure(created.error)
    ensures created.Success? ==>
      var cmd := created.value;
      var base := |old(cmd.parameters)|;
      cmd.parameters == Executed(old(cmd.parameters) + Added(ReceiveDeclarations4, true), outcome) &&
      cmd.commandText == ReceiveText4(queueName) &&
      cmd.executions == old(cmd.executions) + 1 && cmd.disposed &&
      r == (if outcome.Failure? then Failure(outcome.error)
            else ReadReceived4(ValuesFrom(cmd.parameters, base, 4)))
  {
    if created.Failure? {
      return Failure(created.error);
    }
    var cmd := created.value;
    var base := |cmd.parameters|;
    AddEach(cmd, ReceiveDeclarations4, true);
    cmd.commandText := ReceiveText4(queueName);
    var ran := cmd.ExecuteNonQuery(outcome);
    if ran.Failure? {
      r := Failure(ran.error);
    } else {
      r := ReadReceived4(ValuesFrom(cmd.parameters, base, 4));
    }
    cmd.Dispose();
  }

  /** Receiving round-trips the four fields: whatever the queue returns for a message is
      read back as that message without its contract. */
  lemma ReceiveRoundTrip4(m: BrokerMessage)
    ensures ReadReceived4(ValuesFrom(Filled(Added(ReceiveDeclarations4, true), RowOf(m)), 0, 4)) ==
      Success(m.(contract := ""))
  {
    var vs := ValuesFrom(Filled(Added(ReceiveDeclarations4, true), RowOf(m)), 0, 4);
    assert vs == [Text(m.messageType), Text(m.message), GuidValue(m.conversationGroup), GuidValue(m.conversation)];
  }

  /** A receive that found nothing reads as `Empty`. */
  lemma NoRowReadsEmpty4()
    ensures ReadReceived4(ValuesFrom(Filled(Added(ReceiveDeclarations4, true), NoRow), 0, 4)) == Success(Empty)
  {
    var vs := ValuesFrom(Filled(Added(ReceiveDeclarations4, true), NoRow), 0, 4);
    assert vs[0] == DBNull;
  }

  /** The outcome of reading, case by case: `DBNull` first gives `Empty`; otherwise the
      read succeeds exactly when the first two values are strings or null and the last
      two are GUIDs, and then a null string reads as the empty string. */
  lemma ReadReceived4Cases(values: seq<DbValue>)
    requires |values| == 4
    ensures values[0].DBNull? ==> ReadReceived4(values) == Success(Empty)
    ensures !values[0].DBNull? ==>
      (ReadReceived4(values).Success? <==>
        (values[0].Unset? || values[0].Text?) && (values[1].Unset? || values[1].Text?) &&
        values[2].GuidValue? && values[3].GuidValue?)
    ensures !values[0].DBNull? && ReadReceived4(values).Success? ==>
      var m := ReadReceived4(values).value;
      m.contract == "" &&
      m.messageType == (if values[0].Text? then values[0].text else "") &&
      m.message == (if values[1].Text? then values[1].text else "") &&
      m.conversationGroup == values[2].guid && m.conversation == values[3].guid
  {
  }

  // ---------------------------------------------------------------------------
  // Sending

  /** `string.Length`: the number of UTF-16 code units of `s`. A character outside the
      Basic Multilingual Plane takes a surrogate pair, two code units. */
  function Utf16Length(s: string): nat
  {
    if s == [] then 0
    else Utf16Length(s[..|s| - 1]) + (if s[|s| - 1] as int >= 0x1_0000 then 2 else 1)
  }

  /** The code-unit length lies between the number of characters and twice that, and is
      the number of characters exactly when every character is in the Basic
      Multilingual Plane. */
  lemma {:induction false} Utf16LengthBounds(s: string)
    ensures |s| <= Utf16Length(s) <= 2 * |s|
    ensures (forall k :: 0 <= k < |s| ==> (s[k] as int) < 0x1_0000) <==> Utf16Length(s) == |s|
  {
    if s != [] {
      var n := |s| - 1;
      Utf16LengthBounds(s[..n]);
      assert forall k :: 0 <= k < n ==> s[..n][k] == s[k];
    }
  }

  /** The send parameters as written: sized for the body, but neither given a value. */
  function SendDeclarations(m: BrokerMessage): seq<SqlParameter>
  {
    [Declared("@message", NVarChar, Utf16Length(m.message)), Declared("@conversation", UniqueIdentifier, 0)]
  }

  /** The send parameters as evidently intended: the body and the conversation bound. */
  function SendParameters(m: BrokerMessage): seq<SqlParameter>
  {
    [SqlParameter("@message", NVarChar, Utf16Length(m.message), Input, Text(m.message)),
     BoundGuid("@conversation", m.conversation)]
  }

  const SendPrefix: string := "SEND ON CONVERSATION @conversation MESSAGE TYPE ["

  const SendSuffix: string := "] (@message)"

  /** The send text, naming the message type in brackets. */
  function SendText(m: BrokerMessage): (t: string)
    ensures |t| == |SendPrefix| + |m.messageType| + |SendSuffix|
    ensures t[..|SendPrefix|] == SendPrefix && t[|t| - |SendSuffix|..] == SendSuffix
    ensures t[|SendPrefix|..|t| - |SendSuffix|] == m.messageType
  {
    SendPrefix + m.messageType + SendSuffix
  }

  /** `SendAsync` as written. */
  method SendAsync(created: Try<DbCommand>, fault: Option<Exception>, m: BrokerMessage) returns (r: Try<()>)
    modifies if created.Success? then {created.value} else {}
    ensures created.Failure? ==> r == Failure(created.error)
    ensures created.Success? ==>
      var cmd := created.value;
      cmd.parameters == old(cmd.parameters) + Added(SendDeclarations(m), false) &&
      cmd.commandText == SendText(m) &&
      cmd.executions == old(cmd.executions) + 1 && cmd.disposed &&
      r == Outcome(fault)
  {
    if created.Failure? {
      return Failure(created.error);
    }
    var cmd := created.value;
    AddEach(cmd, SendDeclarations(m), false);
    cmd.commandText := SendText(m);
    var ran := cmd.ExecuteNonQuery(Answer(fault));
    r := if ran.Failure? then Failure(ran.error) else Success(());
    cmd.Dispose();
  }

  /** `SendAsync` with its parameters bound. */
  method SendBoundAsync(created: Try<DbCommand>, fault: Option<Exception>, m: BrokerMessage) returns (r: Try<()>)
    modifies if created.Success? then {created.value} else {}
    ensures created.Failure? ==> r == Failure(created.error)
    ensures created.Success? ==>
      var cmd := created.value;
      cmd.parameters == old(cmd.parameters) + Added(SendParameters(m), false) &&
      cmd.commandText == SendText(m) &&
      cmd.executions == old(cmd.executions) + 1 && cmd.disposed &&
      r == Outcome(fault)
  {
    if created.Failure? {
      return Failure(created.error);
    }
    var cmd := created.value;
    AddEach(cmd, SendParameters(m), false);
    cmd.commandText := SendText(m);
    var ran := cmd.ExecuteNonQuery(Answer(fault));
    r := if ran.Failure? then Failure(ran.error) else Success(());
    cmd.Dispose();
  }

  /** Found defect: as written, the send binds no value to @message or @conversation, so
      two messages of the same type and body length in code units, whatever their bodies and
      conversations, give the same command. */
  lemma SendAsWrittenBindsNothing(m1: BrokerMessage, m2: BrokerMessage)
    requires m1.messageType == m2.messageType && Utf16Length(m1.message) == Utf16Length(m2.message)
    ensures Binding(Added(SendDeclarations(m1), false), "@message") == Some(Unset)
    ensures Binding(Added(SendDeclarations(m1), false), "@conversation") == Some(Unset)
    ensures Added(SendDeclarations(m1), false) == Added(SendDeclarations(m2), false)
    ensures SendText(m1) == SendText(m2)
  {
    var ps := Added(SendDeclarations(m1), false);
    assert Named(ps[0], "@message") && !Named(ps[0], "@conversation");
    assert ps[1..][0] == ps[1] && Named(ps[1], "@conversation");
  }

  /** The bound send carries the message: the server binds its body and conversation,
      the body parameter is sized to the body's UTF-16 length, and the command determines the type, the
      body and the conversation. */
  lemma SendBoundCarriesMessage(m: BrokerMessage, other: BrokerMessage)
    ensures Binding(Added(SendParameters(m), false), "@message") == Some(Text(m.message))
    ensures Binding(Added(SendParameters(m), false), "@conversation") == Some(GuidValue(m.conversation))
    ensures SendParameters(m)[0].size == Utf16Length(m.message)
    ensures |m.message| <= SendParameters(m)[0].size <= 2 * |m.message|
    ensures (Added(SendParameters(m), false) == Added(SendParameters(other), false) &&
             SendText(m) == SendText(other)) ==>
      m.messageType == other.messageType && m.message == other.message &&
      m.conversation == other.conversation
  {
    Utf16LengthBounds(m.message);
    var ps := Added(SendParameters(m), false);
    assert Named(ps[0], "@message") && !Named(ps[0], "@conversation");
    assert ps[1..][0] == ps[1] && Named(ps[1], "@conversation");
    if Added(SendParameters(m), false) == Added(SendParameters(other), false) &&
       SendText(m) == SendText(other) {
      assert ps[0] == Added(SendParameters(other), false)[0];
      assert ps[1] == Added(SendParameters(other), false)[1];
      var text := SendText(m);
      assert |other.messageType| == |m.messageType|;
      assert text[|SendPrefix|..|text| - |SendSuffix|] == m.messageType;
      assert SendText(other)[|SendPrefix|..|text| - |SendSuffix|] == other.messageType;
    }
  }

  // ---------------------------------------------------------------------------
  // Ending a conversation

  /** The end-dialog parameter as written: declared, but never given the conversation. */
  const EndDialogDeclarations: seq<SqlParameter> := [Declared("@conversation", UniqueIdentifier, 0)]

  /** `EndDialogAsync` as written. */
  method EndDialogAsync(created: Try<DbCommand>, fault: Option<Exception>, conversation: Guid) returns (r: Try<()>)
    modifies if created.Success? then {created.value} else {}
    ensures created.Failure? ==> r == Failure(created.error)
    ensures created.Success? ==>
      var cmd := created.value;
      cmd.parameters == old(cmd.parameters) + Added(EndDialogDeclarations, false) &&
      cmd.commandText == EndDialogText &&
      cmd.executions == old(cmd.executions) + 1 && cmd.disposed &&
      r == Outcome(fault)
  {
    if created.Failure? {
      return Failure(created.error);
    }
    var cmd := created.value;
    AddEach(cmd, EndDialogDeclarations, false);
    cmd.commandText := EndDialogText;
    var ran := cmd.ExecuteNonQuery(Answer(fault));
    r := if ran.Failure? then Failure(ran.error) else Success(());
    cmd.Dispose();
  }

  /** `EndDialogAsync` with the conversation bound, as `SetupEndDialog` does it. */
  method EndDialogBoundAsync(created: Try<DbCommand>, fault: Option<Exception>, conversation: Guid)
    returns (r: Try<()>)
    modifies if created.Success? then {created.value} else {}
    ensures created.Failure? ==> r == Failure(created.error)
    ensures created.Success? ==>
      var cmd := created.value;
      cmd.parameters == old(cmd.parameters) + [Sql(EndDialogParameter(conversation))] &&
      cmd.commandText == EndDialogText &&
      cmd.executions == old(cmd.executions) + 1 && cmd.disposed &&
      r == Outcome(fault)
  {
    if created.Failure? {
      return Failure(created.error);
    }
    var cmd := created.value;
    var setUp := SetupEndDialog(conversation, cmd);
    var ran := cmd.ExecuteNonQuery(Answer(fault));
    r := if ran.Failure? then Failure(ran.error) else Success(());
    cmd.Dispose();
  }

  /** Found defect: as written, the end-dialog command binds nothing to @conversation,
      whichever conversation it was asked to end; the bound version binds that one. */
  lemma EndDialogAsWrittenBindsNothing(ps: seq<ParameterObject>, conversation: Guid)
    requires forall k :: 0 <= k < |ps| ==> !Named(ps[k], "@conversation")
    ensures Binding(ps + Added(EndDialogDeclarations, false), "@conversation") == Some(Unset)
    ensures Binding(ps + [Sql(EndDialogParameter(conversation))], "@conversation") == Some(GuidValue(conversation))
  {
    var added := Added(EndDialogDeclarations, false);
    BindingSkips(ps, added, "@conversation");
    assert Named(added[0], "@conversation");
    EndDialogBindsConversation(ps, conversation);
  }
}
