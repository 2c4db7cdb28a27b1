/** The readings that gate the acceptance run: permissions, installed MCP server,
    controller, goal, enrollment, allowance, checkpoint and operator reply. */
module Receipts {
  import Word
  import opened Values
  import opened Text

  datatype Options = Options(approved: bool, tokenLimit: int, seconds: int, sandbox: Word.Token,
                             approvalPolicy: Word.Token, expectedVersion: Word.Token, observer: bool)

  predicate Approved(options: Options) {
    && options.approved
    && options.tokenLimit > 0 && options.seconds > 0
    && options.sandbox == Word.FullAccess && options.approvalPolicy == Word.Never
  }

  // ------------------------------------------------------------ before dispatch

  function ThreadId(reply: Result<Json>): Result<Json> {
    var started :- reply;
    var thread :- Index(started, Word.Thread);
    Index(thread, Word.Id)
  }

  predicate PermissionsMatch(started: Json) {
    && Get(started, Word.ApprovalPolicy) == Str(Word.Never)
    && Get(Get(started, Word.Sandbox), Word.Type) == Str(Word.DangerFullAccess)
  }

  /** The rows called `wake_acceptance`; every row must have a name. */
  function ServerRows(rows: seq<Json>): Result<seq<Json>> {
    if rows == [] then Ok([])
    else
      var name :- Index(rows[0], Word.Name);
      var rest :- ServerRows(rows[1..]);
      Ok((if name == Str(Word.WakeAcceptance) then [rows[0]] else []) + rest)
  }

  /** Every one of `names` is there, in an object as a field or in a list as an item. */
  predicate Offers(properties: Json, names: set<Word.Token>) {
    match properties
    case Obj(fields) => names <= fields.Keys
    case Arr(items) =>
      && (forall item | item in items :: !item.Arr? && !item.Obj?)
      && (forall name | name in names :: Str(name) in items)
    case _ => false
  }

  predicate ToolsInstalled(tools: Json) {
    && tools.Obj?
    && {Word.WakeGoalLimitsSet, Word.WakeGoalLimitsShow} <= tools.fields.Keys
    && Offers(Get(Get(Get(tools, Word.WakeGoalLimitsSet), Word.InputSchema), Word.Properties),
              {Word.CallerThreadId, Word.TokenLimit, Word.TimeLimitSeconds})
  }

  predicate McpInstalled(catalog: Json, version: Word.Token) {
    var data := IndexList(catalog, Word.Data);
    && data.Ok?
    && var rows := ServerRows(data.value);
    && rows.Ok? && |rows.value| == 1
    && Get(Get(rows.value[0], Word.ServerInfo), Word.Version) == Str(version)
    && ToolsInstalled(Get(rows.value[0], Word.Tools))
  }

  /** The rollout path of the started thread, empty when it has none. */
  function RolloutPath(started: Json): Result<Word.Token> {
    var thread :- Index(started, Word.Thread);
    if !thread.Obj? then Err(Malformed)
    else if Word.Path !in thread.fields then Ok(EMPTY)
    else if thread.fields[Word.Path].Str? then Ok(thread.fields[Word.Path].w) else Err(Malformed)
  }

  predicate ControllerFresh(status: Json) {
    Get(Get(status, Word.Controller), Word.Fresh) == Bool(true)
  }

  predicate GoalBlocked(goal: Json, actual: Json, thread: Json) {
    && actual == goal
    && Index(actual, Word.ThreadId) == Ok(thread)
    && Index(actual, Word.Status) == Ok(Str(Word.Blocked))
  }

  // -------------------------------------------------------------- after dispatch

  predicate AccountingQualified(status: Json) {
    Get(Get(status, Word.Accounting), Word.State) == Str(Word.Qualified)
  }

  predicate Capped(status: Json, options: Options) {
    && Get(status, Word.TokenAccounting) == Str(Word.Fresh)
    && Get(status, Word.TokenLimit) == Int(options.tokenLimit)
    && Get(status, Word.TimeLimitSeconds) == Int(options.seconds)
  }

  predicate StateArmed(status: Json) {
    Get(status, Word.State) == Str(Word.Armed) || Get(status, Word.State) == Str(Word.CheckpointRequested)
  }

  predicate NotYetEnrolled(status: Json) {
    Get(status, Word.State) == Str(Word.Held) && Get(status, Word.Reason) == Str(Word.NotEnrolled)
  }

  predicate HasAllowance(status: Json) {
    status.Obj? && {Word.AllocationId, Word.Generation, Word.Deadline} <= status.fields.Keys
  }

  predicate Enrolls(status: Json, options: Options) {
    && StateArmed(status) && AccountingQualified(status) && ControllerFresh(status)
    && Capped(status, options)
    && HasAllowance(status)
  }

  predicate SameAllowance(status: Json, first: Json) {
    && Get(status, Word.AllocationId) == Get(first, Word.AllocationId)
    && Get(status, Word.Generation) == Get(first, Word.Generation)
    && Get(status, Word.Deadline) == Get(first, Word.Deadline)
  }

  /** `_qualified_receipt` raises exactly when this fails. */
  predicate Qualified(status: Json, options: Options, first: Json) {
    var exhausted := Get(status, Word.State) == Str(Word.Stopped) && Get(status, Word.Reason) == Str(Word.AllocationExhausted)
                     && Get(status, Word.StopProof) == Bool(true);
    var normal := StateArmed(status) && !Truthy(Get(status, Word.StopLatched))
                  && (Get(status, Word.Reason) == Null || Get(status, Word.Reason) == Str(Word.CheckpointReserve));
    && (normal || exhausted)
    && ControllerFresh(status) && AccountingQualified(status)
    && Capped(status, options)
    && SameAllowance(status, first)
  }

  predicate CheckpointAcknowledged(status: Json) {
    Truthy(Get(status, Word.Checkpoint)) && Get(Get(status, Word.Checkpoint), Word.State) == Str(Word.Acknowledged)
  }

  /** Whether the checkpoint is acknowledged. An empty one is not, and one that is neither
      empty nor an object raises. */
  function CheckpointState(status: Json): Result<bool> {
    var checkpoint := Get(status, Word.Checkpoint);
    if Truthy(checkpoint) && !checkpoint.Obj? then Err(Malformed) else Ok(CheckpointAcknowledged(status))
  }

  function ThreadIn(reply: Result<Json>): Result<Json> {
    var value :- reply;
    Index(value, Word.Thread)
  }

  function TurnsIn(reply: Result<Json>): Result<seq<Json>> {
    var thread :- ThreadIn(reply);
    IndexList(thread, Word.Turns)
  }

  function OperatorTurn(reply: Result<Json>): Result<Json> {
    var value :- reply;
    var turn :- Index(value, Word.Turn);
    Index(turn, Word.Id)
  }

  /** Some agent message says REAL_DEMO_CHAT_OK, and no item before it makes the test raise. */
  predicate SaysOk(items: seq<Json>) {
    items != [] && items[0].Obj? &&
    if Get(items[0], Word.Type) != Str(Word.AgentMessage) then SaysOk(items[1..])
    else
      var text := if Word.Text in items[0].fields then items[0].fields[Word.Text] else Str(EMPTY);
      text.Str? && ((text.w.Other? && Strip(text.w.text) == "REAL_DEMO_CHAT_OK") || SaysOk(items[1..]))
  }

  predicate RepliedOk(turn: Json) {
    var items := IndexList(turn, Word.Items);
    items.Ok? && SaysOk(items.value)
  }

  function Used(status: Json): Json {
    Get(status, Word.UsedTokens)
  }

  predicate Replays(replay: Json, status: Json) {
    Has(replay, Word.State, Str(Word.Qualified)) && Has(replay, Word.UsedTokens, Get(status, Word.UsedTokens))
  }
}
