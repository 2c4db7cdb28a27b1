/** A script of answers, spelled out, with which the run passes; and the same with an empty
    thread identity, with which it passes without any cleanup. */
module GoodScript {
  import Word
  import opened Values
  import opened Native
  import opened Cleanup
  import opened Receipts
  import opened Readings
  import opened AcceptanceSetup
  import opened AcceptancePolling
  import opened AcceptanceOperator
  import opened Acceptance
  import opened PassingRun
  import Text

  function Started(thread: Json): Json {
    Obj(map[Word.Thread := Obj(map[Word.Id := thread]), Word.ApprovalPolicy := Str(Word.Never),
            Word.Sandbox := Obj(map[Word.Type := Str(Word.DangerFullAccess)])])
  }

  const Properties: Json := Obj(map[Word.CallerThreadId := Null, Word.TokenLimit := Null, Word.TimeLimitSeconds := Null])

  const Tools: Json := Obj(map[Word.WakeGoalLimitsSet := Obj(map[Word.InputSchema := Obj(map[Word.Properties := Properties])]),
                               Word.WakeGoalLimitsShow := Null])

  function Server(version: Word.Token): Json {
    Obj(map[Word.Name := Str(Word.WakeAcceptance), Word.ServerInfo := Obj(map[Word.Version := Str(version)]), Word.Tools := Tools])
  }

  const Fresh: Json := Obj(map[Word.Fresh := Bool(true)])

  /** Armed, with the caps of the options, nothing used and the checkpoint acknowledged. */
  function Status(options: Options): Json {
    Obj(map[Word.State := Str(Word.Armed), Word.Controller := Fresh, Word.Accounting := Obj(map[Word.State := Str(Word.Qualified)]),
            Word.TokenAccounting := Str(Word.Fresh), Word.TokenLimit := Int(options.tokenLimit),
            Word.TimeLimitSeconds := Int(options.seconds), Word.AllocationId := Int(1), Word.Generation := Int(1),
            Word.Deadline := Int(1), Word.UsedTokens := Int(0),
            Word.Checkpoint := Obj(map[Word.State := Str(Word.Acknowledged)])])
  }

  function GoalReply(thread: Json, status: Word.Token): Json {
    Obj(map[Word.Goal := Obj(map[Word.ThreadId := thread, Word.Status := Str(status), Word.CreatedAt := Int(0)])])
  }

  const Answer: Json := Obj(map[Word.Type := Str(Word.AgentMessage), Word.Text := Str(Word.Other("REAL_DEMO_CHAT_OK"))])

  const Turn: Json := Obj(map[Word.Id := Str(Word.Other("o")), Word.Status := Str(Word.Completed), Word.Items := Arr([Answer])])

  function ScriptOf(thread: Json, options: Options): Script {
    Script(thread, Started(thread), Obj(map[Word.Data := Arr([Server(options.expectedVersion)])]), Status(options),
           GoalReply(thread, Word.Blocked), GoalReply(thread, Word.Paused),
           Obj(map[Word.Thread := Obj(map[Word.Turns := Arr([Turn])])]), Obj(map[Word.Turn := Turn]), Str(Word.Other("o")),
           Obj(map[Word.State := Str(Word.Qualified), Word.UsedTokens := Int(0)]),
           Obj(map[Word.Data := Arr([])]), Obj(map[Word.Data := Arr([])]))
  }

  lemma StartIsGood(thread: Json, options: Options)
    ensures StartGood(ScriptOf(thread, options))
  {
    assert Index(Started(thread), Word.Thread) == Ok(Obj(map[Word.Id := thread]));
  }

  lemma OneRow(row: Json)
    requires Index(row, Word.Name) == Ok(Str(Word.WakeAcceptance))
    ensures ServerRows([row]) == Ok([row])
  {
    var rest := [row][1..];
    assert rest == [];
    assert ServerRows(rest) == Ok([]);
    assert [row] + [] == [row];
  }

  lemma CatalogIsGood(thread: Json, options: Options)
    ensures McpInstalled(ScriptOf(thread, options).catalog, options.expectedVersion)
  {
    var row := Server(options.expectedVersion);
    OneRow(row);
    assert Get(Get(row, Word.ServerInfo), Word.Version) == Str(options.expectedVersion);
    assert Get(Get(Get(Tools, Word.WakeGoalLimitsSet), Word.InputSchema), Word.Properties) == Properties;
  }

  lemma StatusReads(options: Options, key: Word.Token)
    ensures var fields := Status(options).fields;
      Get(Status(options), key) == if key in fields then fields[key] else Null
  {
  }

  lemma StateReads(options: Options)
    ensures StateArmed(Status(options)) && ControllerFresh(Status(options))
  {
    StatusReads(options, Word.State);
    StatusReads(options, Word.Controller);
    assert Get(Status(options), Word.State) == Str(Word.Armed);
    assert Get(Status(options), Word.Controller) == Fresh;
    assert Get(Fresh, Word.Fresh) == Bool(true);
  }

  lemma NestedFields(options: Options)
    ensures AccountingQualified(Status(options)) && CheckpointAcknowledged(Status(options))
  {
    StatusReads(options, Word.Accounting);
    StatusReads(options, Word.Checkpoint);
    NestedState(Word.Qualified);
    NestedState(Word.Acknowledged);
    assert Get(Status(options), Word.Accounting) == Obj(map[Word.State := Str(Word.Qualified)]);
    assert Get(Status(options), Word.Checkpoint) == Obj(map[Word.State := Str(Word.Acknowledged)]);
  }

  lemma NestedState(state: Word.Token)
    ensures var value := Obj(map[Word.State := Str(state)]);
      Truthy(value) && Get(value, Word.State) == Str(state)
  {
    assert Word.State in map[Word.State := Str(state)];
  }

  lemma PlainFields(options: Options)
    ensures var status := Status(options);
      && Capped(status, options) && Used(status) == Int(0)
      && Get(status, Word.StopLatched) == Null && Get(status, Word.Reason) == Null
  {
    StatusReads(options, Word.TokenAccounting);
    StatusReads(options, Word.TokenLimit);
    StatusReads(options, Word.TimeLimitSeconds);
    StatusReads(options, Word.UsedTokens);
    StatusReads(options, Word.StopLatched);
    StatusReads(options, Word.Reason);
  }

  lemma AllowanceFields(options: Options)
    ensures HasAllowance(Status(options))
  {
    var keys := Status(options).fields.Keys;
    assert Word.AllocationId in keys && Word.Generation in keys && Word.Deadline in keys;
  }

  lemma StatusIsGood(thread: Json, options: Options)
    ensures StatusGood(ScriptOf(thread, options), options) && FinalGood(ScriptOf(thread, options), options)
    ensures ControllerFresh(ScriptOf(thread, options).status)
  {
    StateReads(options);
    NestedFields(options);
    PlainFields(options);
    AllowanceFields(options);
  }

  lemma GoalReads(thread: Json, status: Word.Token)
    ensures var goal := GoalIn(Ok(GoalReply(thread, status)));
      && goal.Ok? && Index(goal.value, Word.Status) == Ok(Str(status)) && Index(goal.value, Word.ThreadId) == Ok(thread)
      && Index(goal.value, Word.CreatedAt).Ok? && Truthy(goal.value)
  {
    var goal := Obj(map[Word.ThreadId := thread, Word.Status := Str(status), Word.CreatedAt := Int(0)]);
    assert GoalIn(Ok(GoalReply(thread, status))) == Ok(goal);
    assert Word.Status in goal.fields;
  }

  lemma BlockedIsGood(thread: Json, options: Options)
    ensures BlockedGood(ScriptOf(thread, options))
  {
    GoalReads(thread, Word.Blocked);
  }

  lemma GoalsAreGood(thread: Json, options: Options)
    ensures BlockedGood(ScriptOf(thread, options)) && CleanupGood(ScriptOf(thread, options))
  {
    BlockedIsGood(thread, options);
    GoalReads(thread, Word.Paused);
  }

  lemma TurnReads(thread: Json, options: Options)
    ensures var native := Ok(ScriptOf(thread, options).native);
      TurnsIn(native) == Ok([Turn]) && ThreadIn(native).Ok? && IndexList(ThreadIn(native).value, Word.Turns) == Ok([Turn])
    ensures AnyRunning([Turn]) == Ok(false) && FindTurn([Turn], Str(Word.Other("o"))) == Ok(Some(Turn))
    ensures Index(Turn, Word.Status) == Ok(Str(Word.Completed)) && Index(Turn, Word.Id) == Ok(Str(Word.Other("o")))
  {
    assert Turn.fields[Word.Status] == Str(Word.Completed) && Turn.fields[Word.Id] == Str(Word.Other("o"));
    assert AnyRunning([Turn][1..]) == Ok(false);
  }

  lemma ReplyIsGood()
    ensures RepliedOk(Turn)
  {
    assert IndexList(Turn, Word.Items) == Ok([Answer]);
    assert Text.Strip("REAL_DEMO_CHAT_OK") == "REAL_DEMO_CHAT_OK";
    assert SaysOk([Answer]);
  }

  lemma PauseIsGood(thread: Json, options: Options)
    ensures PauseGood(ScriptOf(thread, options))
  {
    GoalReads(thread, Word.Paused);
    TurnReads(thread, options);
    assert Has(ScriptOf(thread, options).native.fields[Word.Thread], Word.Turns, Arr([Turn]));
    AnyRunningIs([Turn]);
  }

  lemma AnswerIsGood(thread: Json, options: Options)
    ensures TurnCompleted(Ok(ScriptOf(thread, options).native), Str(Word.Other("o")))
  {
    TurnReads(thread, options);
    ReplyIsGood();
    CompletedTurnIs(Ok(ScriptOf(thread, options).native), Str(Word.Other("o")));
  }

  lemma TurnIsGood(thread: Json, options: Options)
    ensures PauseGood(ScriptOf(thread, options)) && TurnGood(ScriptOf(thread, options))
  {
    PauseIsGood(thread, options);
    AnswerIsGood(thread, options);
    GoalReads(thread, Word.Paused);
    assert OperatorTurn(Ok(ScriptOf(thread, options).turn)) == Ok(Str(Word.Other("o")));
  }

  lemma IsGood(thread: Json, options: Options)
    requires Approved(options)
    ensures Good(ScriptOf(thread, options), options)
  {
    StartIsGood(thread, options);
    CatalogIsGood(thread, options);
    StatusIsGood(thread, options);
    GoalsAreGood(thread, options);
    TurnIsGood(thread, options);
  }

  /** For all approved options there is a world in which the run passes, with a verified
      cleanup of its thread. */
  method Passes(options: Options) returns (result: RunResult)
    requires Approved(options)
    ensures result.pass && result.dispatched && result.cleanup.Some? && result.cleanup.value.Verified()
  {
    var thread := Str(Word.Other("t"));
    IsGood(thread, options);
    ghost var h;
    result, h := RunPasses(ScriptOf(thread, options), options);
  }

  /** And there is one in which the thread has an empty identity. The run then activates a
      goal, starts a turn and passes, and never makes a call to clean up. */
  method PassesWithoutCleanup(options: Options) returns (result: RunResult, ghost h: RunHistory)
    requires Approved(options)
    ensures result.pass && result.dispatched && result.thread == Some(Str(EMPTY)) && result.cleanup == None
    ensures h.Lawful(options) && h.work.Done() && h.cleanup == []
  {
    IsGood(Str(EMPTY), options);
    result, h := RunPasses(ScriptOf(Str(EMPTY), options), options);
  }
}
