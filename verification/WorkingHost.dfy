/** A host on which nothing happens but what the script does, and a removal does what it is for.
    It shows that the conditions under which a retirement succeeds can be met, from every state
    in which the target can be planned and may go. */
module WorkingHost {
  import opened Values
  import opened Observation
  import opened Inspection
  import opened Retirement
  import opened RetirementProperties
  import Registrations
  import Text

  function Gone(trace: seq<Event>): bool {
    trace != [] && (trace[|trace| - 1].Removed? || Gone(trace[..|trace| - 1]))
  }

  /** The state after the removal. */
  function Without(s: Snapshot): Snapshot {
    s.(porcelain := Ok(""), present := (path: string) => false)
  }

  function WorldOf(s: Snapshot): World {
    (trace: seq<Event>) => if Gone(trace) then Without(s) else s
  }

  lemma GoneOn(trace: seq<Event>, event: Event)
    ensures Gone(trace + [event]) <==> event.Removed? || Gone(trace)
  {
    assert (trace + [event])[..|trace|] == trace;
  }

  lemma AlikeItself(s: Snapshot, aim: Aim)
    ensures Alike(s, s, aim)
  {
  }

  lemma IsUndisturbed(s: Snapshot, aim: Aim)
    ensures Undisturbed(WorldOf(s), aim)
  {
    var world := WorldOf(s);
    forall trace, e: Event {:trigger world(trace + [e])} | !e.Removed?
      ensures Alike(world(trace + [e]), world(trace), aim)
    {
      GoneOn(trace, e);
      AlikeItself(world(trace), aim);
    }
  }

  lemma NothingListed(target: string)
    ensures Registered("", target) == []
  {
    assert Text.Strip("") == "";
    assert Text.Split("", Registrations.BLANK_LINE) == [""];
    assert Registrations.ParseLines(Registrations.SplitLines("")) == [];
    assert Registrations.RowsOf([]) == [];
    assert Registrations.RowsOf([""]) == [];
  }

  /** Every removal exits with 0. */
  function Exits(): seq<Event> -> Result<int> {
    (trace: seq<Event>) => Ok(0)
  }

  lemma DoesRemove(s: Snapshot, aim: Aim)
    ensures Removes(WorldOf(s), Exits(), aim)
  {
    var world := WorldOf(s);
    NothingListed(aim.target);
    forall trace, head | world(trace).revisions(aim.custody) == Ok(head)
      ensures Retired(world(trace + [Removed(aim.target, Ok(0))]), aim, head)
    {
      GoneOn(trace, Removed(aim.target, Ok(0)));
    }
  }

  /** In this state the target can be planned and may go. */
  predicate MayGo(s: Snapshot, identify: string -> string, aim: Aim, planOutput: string, output: string) {
    Plannable(s, identify, aim, planOutput) && Ready(s, identify, aim, output)
  }

  /** The retirement succeeds on this host. */
  method Retires(s: Snapshot, identify: string -> string, digest: Payload -> string, aim: Aim, planOutput: string, output: string)
    returns (r: Result<int>)
    requires MayGo(s, identify, aim, planOutput, output)
    ensures r == Ok(0)
  {
    var done := (trace: seq<Event>) => Ok(());
    var h := new Host(WorldOf(s), done, done, done, Exits(), identify, digest);
    IsUndisturbed(s, aim);
    DoesRemove(s, aim);
    assert h.world([]) == s;
    r := RetireNow(h, aim, planOutput, output);
  }
}
