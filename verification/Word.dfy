/** The strings in JSON values. */
module Word {

  /** A string. The ones that the scripts look for, as names of fields and as values, are
      numbered below, so that no text needs to be spelled out; every other string is `Other`. */
  datatype Token = Known(number: nat) | Other(text: string)

  const Id: Token := Known(0)
  const Name: Token := Known(1)
  const Type: Token := Known(2)
  const Text: Token := Known(3)
  const Path: Token := Known(4)
  const Version: Token := Known(5)
  const Data: Token := Known(6)
  const Items: Token := Known(7)
  const NextCursor: Token := Known(8)
  const Properties: Token := Known(9)
  const Thread: Token := Known(10)
  const ThreadId: Token := Known(11)
  const Turn: Token := Known(12)
  const Turns: Token := Known(13)
  const Goal: Token := Known(14)
  const Status: Token := Known(15)
  const State: Token := Known(16)
  const Reason: Token := Known(17)
  const Objective: Token := Known(18)
  const TokenBudget: Token := Known(19)
  const CreatedAt: Token := Known(20)
  const ProcessId: Token := Known(21)
  const ClientId: Token := Known(22)
  const Tools: Token := Known(23)
  const ServerInfo: Token := Known(24)
  const InputSchema: Token := Known(25)
  const ApprovalPolicy: Token := Known(26)
  const Sandbox: Token := Known(27)
  const Controller: Token := Known(28)
  const Accounting: Token := Known(29)
  const Checkpoint: Token := Known(30)
  const AllocationId: Token := Known(31)
  const Generation: Token := Known(32)
  const Deadline: Token := Known(33)
  const UsedTokens: Token := Known(34)
  const TokenAccounting: Token := Known(35)
  const TokenLimit: Token := Known(36)
  const TimeLimitSeconds: Token := Known(37)
  const CallerThreadId: Token := Known(38)
  const StopLatched: Token := Known(39)
  const StopProof: Token := Known(40)
  const Repository: Token := Known(41)
  const Entries: Token := Known(42)
  const Reviewed: Token := Known(43)
  const Owner: Token := Known(44)
  const ServiceReferences: Token := Known(45)
  const BuildReferences: Token := Known(46)
  const EvidenceReferences: Token := Known(47)
  const Active: Token := Known(48)
  const Paused: Token := Known(49)
  const Blocked: Token := Known(50)
  const InProgress: Token := Known(51)
  const Completed: Token := Known(52)
  const Interrupted: Token := Known(53)
  const Armed: Token := Known(54)
  const Held: Token := Known(55)
  const Stopped: Token := Known(56)
  const NotEnrolled: Token := Known(57)
  const CheckpointRequested: Token := Known(58)
  const CheckpointReserve: Token := Known(59)
  const AllocationExhausted: Token := Known(60)
  const Acknowledged: Token := Known(61)
  const Qualified: Token := Known(62)
  const Fresh: Token := Known(63)
  const Never: Token := Known(64)
  const FullAccess: Token := Known(65)
  const DangerFullAccess: Token := Known(66)
  const AgentMessage: Token := Known(67)
  const UserMessage: Token := Known(68)
  const WakeAcceptance: Token := Known(69)
  const WakeGoalLimitsSet: Token := Known(70)
  const WakeGoalLimitsShow: Token := Known(71)
}
