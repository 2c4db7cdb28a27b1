/** What the readings of the acceptance run say, in the fields of the replies. The functions
    that compute them are in `Receipts`, and here it is proved that they mean this. */
module Readings {
  import Word
  import opened Values
  import opened Receipts
  import opened Text

  // ----------------------------------------------------------------- the goal, the turns

  /** The reply has this field. */
  predicate Shows(reply: Result<Json>, key: Word.Token) {
    reply.Ok? && HasKey(reply.value, key)
  }

  /** The reply has a thread with a list of turns. */
  predicate ShowsTurns(reply: Result<Json>) {
    && Shows(reply, Word.Thread) && HasKey(reply.value.fields[Word.Thread], Word.Turns)
    && reply.value.fields[Word.Thread].fields[Word.Turns].Arr?
  }

  function ShownTurns(reply: Result<Json>): seq<Json>
    requires ShowsTurns(reply)
  {
    reply.value.fields[Word.Thread].fields[Word.Turns].items
  }

  /** Every turn has a status, and none is in progress. */
  ghost predicate NoneRuns(turns: seq<Json>) {
    forall k | 0 <= k < |turns| :: HasKey(turns[k], Word.Status) && !Has(turns[k], Word.Status, Str(Word.InProgress))
  }

  /** Some turn is in progress, and every turn before it has a status. */
  ghost predicate OneRuns(turns: seq<Json>) {
    exists k | 0 <= k < |turns| ::
      Has(turns[k], Word.Status, Str(Word.InProgress)) && forall j | 0 <= j < k :: HasKey(turns[j], Word.Status)
  }

  lemma {:induction false} AnyRunningIs(turns: seq<Json>)
    ensures AnyRunning(turns) == Ok(false) <==> NoneRuns(turns)
    ensures AnyRunning(turns) == Ok(true) <==> OneRuns(turns)
  {
    if turns != [] {
      var rest := turns[1..];
      AnyRunningIs(rest);
      assert forall k | 0 <= k < |rest| :: rest[k] == turns[k + 1];
      if NoneRuns(turns) {
        assert HasKey(turns[0], Word.Status);
      }
      if HasKey(turns[0], Word.Status) && NoneRuns(rest) && !Has(turns[0], Word.Status, Str(Word.InProgress)) {
        assert forall k | 0 < k < |turns| :: turns[k] == rest[k - 1];
      }
      if HasKey(turns[0], Word.Status) && OneRuns(rest) {
        var k :| 0 <= k < |rest| && Has(rest[k], Word.Status, Str(Word.InProgress))
          && forall j | 0 <= j < k :: HasKey(rest[j], Word.Status);
        forall j | 0 <= j < k + 1 ensures HasKey(turns[j], Word.Status) {
          assert j > 0 ==> turns[j] == rest[j - 1];
        }
        assert Has(turns[k + 1], Word.Status, Str(Word.InProgress));
      }
      if OneRuns(turns) && !Has(turns[0], Word.Status, Str(Word.InProgress)) {
        var k :| 0 <= k < |turns| && Has(turns[k], Word.Status, Str(Word.InProgress))
          && forall j | 0 <= j < k :: HasKey(turns[j], Word.Status);
        assert Has(rest[k - 1], Word.Status, Str(Word.InProgress));
        assert HasKey(turns[0], Word.Status);
      }
    }
  }

  /** The goal is paused, and no turn of the thread is in progress. */
  ghost predicate ReadsPaused(goal: Json, native: Json) {
    && Has(goal, Word.Status, Str(Word.Paused))
    && exists turns :: Has(native, Word.Turns, Arr(turns)) && NoneRuns(turns)
  }

  /** The goal has another status, or it is paused and some turn is in progress. */
  ghost predicate ReadsWorking(goal: Json, native: Json) {
    || (HasKey(goal, Word.Status) && !Has(goal, Word.Status, Str(Word.Paused)))
    || (Has(goal, Word.Status, Str(Word.Paused)) && exists turns :: Has(native, Word.Turns, Arr(turns)) && OneRuns(turns))
  }

  // --------------------------------------------------------------------- the answer

  /** An agent message with the text that was asked for. */
  ghost predicate SaysIt(item: Json) {
    && Has(item, Word.Type, Str(Word.AgentMessage))
    && exists text :: Has(item, Word.Text, Str(Word.Other(text))) && Strip(text) == "REAL_DEMO_CHAT_OK"
  }

  /** The item can be tested: the text of an agent message is a string, if there is one. */
  ghost predicate Testable(item: Json) {
    && item.Obj?
    && (Has(item, Word.Type, Str(Word.AgentMessage)) && HasKey(item, Word.Text) ==> item.fields[Word.Text].Str?)
  }

  /** Some item says it, and every item before that can be tested. */
  ghost predicate SaidIn(items: seq<Json>) {
    exists k | 0 <= k < |items| :: SaysIt(items[k]) && forall j | 0 <= j < k :: Testable(items[j])
  }

  lemma NoAnswer()
    ensures Strip("") != "REAL_DEMO_CHAT_OK"
  {
    assert Strip("") == "";
    assert |"REAL_DEMO_CHAT_OK"| == 17;
  }

  lemma SaysItFirst(items: seq<Json>)
    requires items != [] && SaysIt(items[0])
    ensures SaysOk(items)
  {
    var text :| Has(items[0], Word.Text, Str(Word.Other(text))) && Strip(text) == "REAL_DEMO_CHAT_OK";
  }

  lemma SaysItNot(items: seq<Json>)
    requires items != [] && !SaysIt(items[0])
    ensures SaysOk(items) <==> Testable(items[0]) && SaysOk(items[1..])
  {
    NoAnswer();
    if items[0].Obj? && Has(items[0], Word.Type, Str(Word.AgentMessage)) && HasKey(items[0], Word.Text) {
      var text := items[0].fields[Word.Text];
      assert text.Str? && text.w.Other? ==> Has(items[0], Word.Text, Str(Word.Other(text.w.text)));
    }
  }

  lemma {:induction false} SaysOkIs(items: seq<Json>)
    ensures SaysOk(items) <==> SaidIn(items)
  {
    if items != [] {
      var rest := items[1..];
      if SaysIt(items[0]) {
        SaysItFirst(items);
      } else {
        SaysItNot(items);
        SaysOkIs(rest);
        assert forall k | 0 <= k < |rest| :: rest[k] == items[k + 1];
        if SaidIn(rest) && Testable(items[0]) {
          var k :| 0 <= k < |rest| && SaysIt(rest[k]) && forall j | 0 <= j < k :: Testable(rest[j]);
          assert forall j | 0 < j < k + 1 :: items[j] == rest[j - 1];
          assert SaysIt(items[k + 1]);
        }
        if SaidIn(items) {
          var k :| 0 <= k < |items| && SaysIt(items[k]) && forall j | 0 <= j < k :: Testable(items[j]);
          assert SaysIt(rest[k - 1]) && Testable(items[0]);
        }
      }
    }
  }

  /** The first turn called so is completed, and says what was asked for. */
  ghost predicate AnsweredBy(turns: seq<Json>, operator: Json) {
    exists k ::
      && FirstCalled(turns, k, operator) && Has(turns[k], Word.Status, Str(Word.Completed))
      && exists items :: Has(turns[k], Word.Items, Arr(items)) && SaidIn(items)
  }

  /** There is no turn called so yet, or the first of them has another status. */
  ghost predicate AwaitedFrom(turns: seq<Json>, operator: Json) {
    || NoneCalled(turns, |turns|, operator)
    || exists k :: FirstCalled(turns, k, operator) && HasKey(turns[k], Word.Status)
                   && !Has(turns[k], Word.Status, Str(Word.Completed))
  }

  lemma OneIsFirst(turns: seq<Json>, j: int, k: int, id: Json)
    requires FirstCalled(turns, j, id) && FirstCalled(turns, k, id)
    ensures j == k
  {
  }

  lemma NoneIsFirst(turns: seq<Json>, k: int, id: Json)
    requires FirstCalled(turns, k, id)
    ensures !NoneCalled(turns, |turns|, id)
  {
  }

  /** The replay and the status say different things on the tokens used, or the replay is not
      qualified. */
  predicate Disagrees(replay: Json, status: Json) {
    && replay.Obj?
    && (|| !Has(replay, Word.State, Str(Word.Qualified))
        || (HasKey(replay, Word.UsedTokens) && replay.fields[Word.UsedTokens] != Get(status, Word.UsedTokens)))
  }

  // ------------------------------------------------------------------ before dispatch

  /** The field of a field. */
  predicate HasIn(value: Json, outer: Word.Token, inner: Word.Token, field: Json) {
    HasKey(value, outer) && Has(value.fields[outer], inner, field)
  }

  /** The thread may do everything, and asks for no approval. */
  lemma PermissionsMatchIs(started: Json)
    ensures PermissionsMatch(started) <==>
              && Has(started, Word.ApprovalPolicy, Str(Word.Never))
              && HasIn(started, Word.Sandbox, Word.Type, Str(Word.DangerFullAccess))
  {
  }

  /** Row `k` is the only one of the name, and every row has one. */
  ghost predicate OnlyServer(rows: seq<Json>, k: int) {
    && 0 <= k < |rows| && Has(rows[k], Word.Name, Str(Word.WakeAcceptance))
    && forall j | 0 <= j < |rows| :: HasKey(rows[j], Word.Name) && (j != k ==> !Has(rows[j], Word.Name, Str(Word.WakeAcceptance)))
  }

  ghost predicate NoServer(rows: seq<Json>) {
    forall j | 0 <= j < |rows| :: HasKey(rows[j], Word.Name) && !Has(rows[j], Word.Name, Str(Word.WakeAcceptance))
  }

  lemma {:induction false} ServerRowsIs(rows: seq<Json>)
    ensures ServerRows(rows) == Ok([]) <==> NoServer(rows)
    ensures ServerRows(rows).Ok? && |ServerRows(rows).value| == 1 <==> exists k :: OnlyServer(rows, k)
    ensures forall k | OnlyServer(rows, k) :: ServerRows(rows) == Ok([rows[k]])
  {
    if rows != [] {
      var rest := rows[1..];
      ServerRowsIs(rest);
      assert forall j | 0 < j < |rows| :: rows[j] == rest[j - 1];
      if HasKey(rows[0], Word.Name) && ServerRows(rest).Ok? {
        assert ServerRows(rows) == Ok((if Has(rows[0], Word.Name, Str(Word.WakeAcceptance)) then [rows[0]] else []) + ServerRows(rest).value);
      }
      OneServerMore(rows);
      forall k | OnlyServer(rows, k) ensures ServerRows(rows) == Ok([rows[k]]) {
        if k > 0 {
          assert OnlyServer(rest, k - 1) && rest[k - 1] == rows[k];
          assert [] + [rows[k]] == [rows[k]];
        } else {
          assert OnlyServer(rows, 0) && NoServer(rest);
          assert [rows[0]] + [] == [rows[0]];
        }
      }
      if ServerRows(rows).Ok? && |ServerRows(rows).value| == 1 {
        if !Has(rows[0], Word.Name, Str(Word.WakeAcceptance)) {
          var k :| OnlyServer(rest, k);
          assert OnlyServer(rows, k + 1);
        } else {
          assert ServerRows(rest).value == [];
          assert OnlyServer(rows, 0);
        }
      }
    }
  }

  lemma OneServerMore(rows: seq<Json>)
    requires rows != []
    ensures NoServer(rows) <==> HasKey(rows[0], Word.Name) && !Has(rows[0], Word.Name, Str(Word.WakeAcceptance)) && NoServer(rows[1..])
    ensures OnlyServer(rows, 0) <==> Has(rows[0], Word.Name, Str(Word.WakeAcceptance)) && NoServer(rows[1..])
    ensures forall k | OnlyServer(rows, k) && k > 0 ::
              HasKey(rows[0], Word.Name) && !Has(rows[0], Word.Name, Str(Word.WakeAcceptance)) && OnlyServer(rows[1..], k - 1)
    ensures HasKey(rows[0], Word.Name) && !Has(rows[0], Word.Name, Str(Word.WakeAcceptance)) ==>
              forall k | OnlyServer(rows[1..], k) :: OnlyServer(rows, k + 1)
  {
    var rest := rows[1..];
    assert forall j | 0 < j < |rows| :: rows[j] == rest[j - 1];
    forall k | OnlyServer(rows, k) && k > 0
      ensures HasKey(rows[0], Word.Name) && !Has(rows[0], Word.Name, Str(Word.WakeAcceptance)) && OnlyServer(rest, k - 1)
    {
      assert forall j | 0 <= j < |rest| :: rest[j] == rows[j + 1];
    }
  }

  /** The tools of the goal limits are there, and the first one's schema has the three names. */
  ghost predicate HasTools(row: Json) {
    && HasKey(row, Word.Tools)
    && var tools := row.fields[Word.Tools];
    && HasKey(tools, Word.WakeGoalLimitsSet) && HasKey(tools, Word.WakeGoalLimitsShow)
    && HasKey(tools.fields[Word.WakeGoalLimitsSet], Word.InputSchema)
    && var schema := tools.fields[Word.WakeGoalLimitsSet].fields[Word.InputSchema];
    && HasKey(schema, Word.Properties)
    && NamesThree(schema.fields[Word.Properties])
  }

  /** An object with the three fields, or a list of plain values with the three among them. */
  ghost predicate NamesThree(properties: Json) {
    || (HasKey(properties, Word.CallerThreadId) && HasKey(properties, Word.TokenLimit) && HasKey(properties, Word.TimeLimitSeconds))
    || (&& properties.Arr? && (forall item | item in properties.items :: !item.Arr? && !item.Obj?)
        && Str(Word.CallerThreadId) in properties.items && Str(Word.TokenLimit) in properties.items
        && Str(Word.TimeLimitSeconds) in properties.items)
  }

  lemma OffersIs(properties: Json)
    ensures Offers(properties, {Word.CallerThreadId, Word.TokenLimit, Word.TimeLimitSeconds}) <==> NamesThree(properties)
  {
  }

  lemma ToolsInstalledIs(row: Json)
    ensures ToolsInstalled(Get(row, Word.Tools)) <==> HasTools(row)
  {
    OffersIs(Get(Get(Get(Get(row, Word.Tools), Word.WakeGoalLimitsSet), Word.InputSchema), Word.Properties));
  }

  /** The catalog has the server exactly once, in the expected version and with its tools. */
  lemma McpInstalledIs(catalog: Json, version: Word.Token)
    ensures McpInstalled(catalog, version) <==>
              && HasKey(catalog, Word.Data) && catalog.fields[Word.Data].Arr?
              && var rows := catalog.fields[Word.Data].items;
              exists k :: OnlyServer(rows, k) && HasIn(rows[k], Word.ServerInfo, Word.Version, Str(version)) && HasTools(rows[k])
  {
    if HasKey(catalog, Word.Data) && catalog.fields[Word.Data].Arr? {
      var rows := catalog.fields[Word.Data].items;
      ServerRowsIs(rows);
      forall k | OnlyServer(rows, k) ensures ToolsInstalled(Get(rows[k], Word.Tools)) <==> HasTools(rows[k]) {
        ToolsInstalledIs(rows[k]);
      }
    }
  }

  /** The rollout path is that of the thread, empty when it has none; anything but a string raises. */
  lemma RolloutPathIs(started: Json, path: Word.Token)
    ensures RolloutPath(started) == Ok(path) <==>
              && HasKey(started, Word.Thread) && started.fields[Word.Thread].Obj?
              && if HasKey(started.fields[Word.Thread], Word.Path) then Has(started.fields[Word.Thread], Word.Path, Str(path))
                 else path == Word.Other("")
  {
  }

  // ------------------------------------------------------------------ the allowance

  /** The same allocation, generation and deadline. */
  ghost predicate SameThree(status: Json, first: Json) {
    forall key | key in {Word.AllocationId, Word.Generation, Word.Deadline} :: Get(status, key) == Get(first, key)
  }

  /** The caps are those of the options, and the tokens are counted afresh. */
  ghost predicate HasCaps(status: Json, options: Options) {
    && Has(status, Word.TokenLimit, Int(options.tokenLimit)) && Has(status, Word.TimeLimitSeconds, Int(options.seconds))
    && Has(status, Word.TokenAccounting, Str(Word.Fresh))
  }

  /** The controller is fresh, and the accounting qualified. */
  ghost predicate HasProof(status: Json) {
    && HasIn(status, Word.Controller, Word.Fresh, Bool(true))
    && HasIn(status, Word.Accounting, Word.State, Str(Word.Qualified))
  }

  /** Armed, or asked for a checkpoint, and not latched for any other reason. */
  ghost predicate InService(status: Json) {
    && (Has(status, Word.State, Str(Word.Armed)) || Has(status, Word.State, Str(Word.CheckpointRequested)))
    && !Truthy(Get(status, Word.StopLatched))
    && (Get(status, Word.Reason) == Null || Has(status, Word.Reason, Str(Word.CheckpointReserve)))
  }

  /** Stopped because the allocation is used up, which is proved. */
  ghost predicate UsedUp(status: Json) {
    && Has(status, Word.State, Str(Word.Stopped)) && Has(status, Word.Reason, Str(Word.AllocationExhausted))
    && Has(status, Word.StopProof, Bool(true))
  }

  /** What a qualified status says, field by field. */
  lemma QualifiedIs(status: Json, options: Options, first: Json)
    ensures Qualified(status, options, first) <==>
              && (InService(status) || UsedUp(status)) && HasProof(status)
              && HasCaps(status, options) && SameThree(status, first)
  {
    assert SameThree(status, first) ==> forall key | key in {Word.AllocationId, Word.Generation, Word.Deadline} :: Get(status, key) == Get(first, key);
  }

  /** And what an enrollment says. */
  lemma EnrollsIs(status: Json, options: Options)
    ensures Enrolls(status, options) <==>
              && (Has(status, Word.State, Str(Word.Armed)) || Has(status, Word.State, Str(Word.CheckpointRequested)))
              && HasProof(status) && HasCaps(status, options)
              && HasKey(status, Word.AllocationId) && HasKey(status, Word.Generation) && HasKey(status, Word.Deadline)
  {
  }

  /** A checkpoint is acknowledged, is not, or cannot be read. */
  lemma CheckpointStateIs(status: Json)
    ensures CheckpointState(status) == Ok(true) <==> HasIn(status, Word.Checkpoint, Word.State, Str(Word.Acknowledged))
    ensures CheckpointState(status).Ok? <==> Get(status, Word.Checkpoint).Obj? || !Truthy(Get(status, Word.Checkpoint))
  {
  }

  // ------------------------------------------------------------------- single fields

  lemma IdentitiesAre(reply: Result<Json>, id: Json)
    ensures ThreadId(reply) == Ok(id) <==> reply.Ok? && HasIn(reply.value, Word.Thread, Word.Id, id)
    ensures OperatorTurn(reply) == Ok(id) <==> reply.Ok? && HasIn(reply.value, Word.Turn, Word.Id, id)
  {
  }

  lemma TurnsInIs(reply: Result<Json>, turns: seq<Json>)
    ensures TurnsIn(reply) == Ok(turns) <==> reply.Ok? && HasIn(reply.value, Word.Thread, Word.Turns, Arr(turns))
  {
  }

  /** The goal reads back as it was set: the same one, of this thread, and blocked. */
  lemma GoalBlockedIs(goal: Json, actual: Json, thread: Json)
    ensures GoalBlocked(goal, actual, thread) <==>
              goal == actual && Has(goal, Word.ThreadId, thread) && Has(goal, Word.Status, Str(Word.Blocked))
  {
  }

  lemma ApprovedIs(options: Options)
    ensures Approved(options) <==>
              && options.approved && options.tokenLimit > 0 && options.seconds > 0
              && options.sandbox == Word.FullAccess && options.approvalPolicy == Word.Never
  {
  }

  lemma StatusFieldsAre(status: Json)
    ensures ControllerFresh(status) <==> HasIn(status, Word.Controller, Word.Fresh, Bool(true))
    ensures NotYetEnrolled(status) <==> Has(status, Word.State, Str(Word.Held)) && Has(status, Word.Reason, Str(Word.NotEnrolled))
    ensures CheckpointAcknowledged(status) <==> HasIn(status, Word.Checkpoint, Word.State, Str(Word.Acknowledged))
  {
  }
}
