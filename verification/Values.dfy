/** JSON values as the scripts see them, and the failure type that stands for a
    raised exception. Every answer of a server, of a status reader or of a file
    read is an arbitrary `Json`, so nothing is assumed about its shape. */
module Values {
  import Word

  datatype Option<+T> = None | Some(value: T) {
    function GetOr(default: T): T {
      match this
      case Some(v) => v
      case None => default
    }
  }

  /** The exceptions that are told apart: a check of the script's own, a value without the
      shape that is read, and failures of the system. */
  datatype Error = Refused | Malformed | FileNotFound | SystemError | SubprocessError | OtherError

  /** `Err` is a raised exception; `:-` is its propagation. */
  datatype Result<+T> = Ok(value: T) | Err(error: Error) {
    predicate IsFailure() {
      Err?
    }

    function PropagateFailure<U>(): Result<U>
      requires Err?
    {
      Err(error)
    }

    function Extract(): T
      requires Ok?
    {
      value
    }

    function GetOr(default: T): T {
      if Ok? then value else default
    }
  }

  const EMPTY: Word.Token := Word.Other("")

  datatype Json =
    | Null
    | Bool(b: bool)
    | Int(n: int)
    | Real(x: real)
    | Str(w: Word.Token)
    | Arr(items: seq<Json>)
    | Obj(fields: map<Word.Token, Json>)

  /** The outcome of a check that raises or goes on. */
  datatype Check = Pass | Fail(error: Error) {
    predicate IsFailure() {
      Fail?
    }

    function PropagateFailure<U>(): Result<U>
      requires Fail?
    {
      Err(error)
    }
  }

  /** `condition` or an exception. */
  function Require(condition: bool): Check {
    if condition then Pass else Fail(Refused)
  }

  /** A field that must be there: a missing one and a value that is not an object both raise. */
  function Index(value: Json, key: Word.Token): Result<Json> {
    if value.Obj? && key in value.fields then Ok(value.fields[key]) else Err(Malformed)
  }

  /** A field that may be missing. Callers test `value.Obj?` where the script would raise. */
  function Get(value: Json, key: Word.Token): Json {
    if value.Obj? && key in value.fields then value.fields[key] else Null
  }

  /** A field whose items are then gone through. */
  function IndexList(value: Json, key: Word.Token): Result<seq<Json>> {
    var list :- Index(value, key);
    if list.Arr? then Ok(list.items) else Err(Malformed)
  }

  /** Python truth value. */
  predicate Truthy(value: Json): (r: bool)
    ensures !r <==> value == Null || value == Bool(false) || value == Int(0) || value == Real(0.0) || value == Str(EMPTY)
                    || value == Arr([]) || value == Obj(map[])
  {
    match value
    case Null => false
    case Bool(b) => b
    case Int(n) => n != 0
    case Real(x) => x != 0.0
    case Str(w) => w != EMPTY
    case Arr(items) => items != []
    case Obj(fields) => fields != map[]
  }

  predicate NonemptyStr(value: Json) {
    value.Str? && value.w != EMPTY
  }

  /** The value is an object with this field. */
  predicate Has(value: Json, key: Word.Token, field: Json) {
    value.Obj? && key in value.fields && value.fields[key] == field
  }

  /** The value is an object with this field, whatever it is. */
  predicate HasKey(value: Json, key: Word.Token) {
    value.Obj? && key in value.fields
  }

  /** The goal in a reply. */
  function GoalIn(reply: Result<Json>): Result<Json> {
    var value :- reply;
    Index(value, Word.Goal)
  }

  predicate Running(turn: Json) {
    Get(turn, Word.Status) == Str(Word.InProgress)
  }

  /** Whether a turn is running, which raises on the first turn without a status unless a
      running turn comes earlier. */
  function AnyRunning(turns: seq<Json>): (r: Result<bool>)
    ensures r == Ok(false) ==> forall t | t in turns :: Index(t, Word.Status).Ok? && !Running(t)
    ensures r == Ok(true) ==> exists t | t in turns :: Running(t)
  {
    if turns == [] then Ok(false)
    else
      var status :- Index(turns[0], Word.Status);
      if status == Str(Word.InProgress) then
        assert turns[0] in turns && Running(turns[0]);
        Ok(true)
      else AnyRunning(turns[1..])
  }

  /** The first turn called `id`, if any; a turn without an identity before it raises. */
  function FindTurn(turns: seq<Json>, id: Json): (r: Result<Option<Json>>)
    ensures r.Ok? && r.value.Some? ==> r.value.value in turns && Index(r.value.value, Word.Id) == Ok(id)
  {
    if turns == [] then Ok(None)
    else
      var found :- Index(turns[0], Word.Id);
      if found == id then Ok(Some(turns[0])) else FindTurn(turns[1..], id)
  }

  /** The first `n` turns have identities, and other ones. */
  ghost predicate NoneCalled(turns: seq<Json>, n: nat, id: Json)
    requires n <= |turns|
  {
    forall k | 0 <= k < n :: HasKey(turns[k], Word.Id) && turns[k].fields[Word.Id] != id
  }

  /** Turn `k` is the first called so. */
  ghost predicate FirstCalled(turns: seq<Json>, k: int, id: Json) {
    0 <= k < |turns| && Has(turns[k], Word.Id, id) && NoneCalled(turns, k, id)
  }

  /** The search ends at the first turn called `id`, or at a turn before it that has no
      identity; and without either it finds none. */
  lemma {:induction false} FindTurnIs(turns: seq<Json>, id: Json)
    ensures var r := FindTurn(turns, id);
      && (r == Ok(None) <==> NoneCalled(turns, |turns|, id))
      && (r.Ok? && r.value.Some? <==> exists k :: FirstCalled(turns, k, id))
      && (r.Ok? && r.value.Some? ==> exists k :: FirstCalled(turns, k, id) && turns[k] == r.value.value)
  {
    if turns != [] && HasKey(turns[0], Word.Id) {
      if turns[0].fields[Word.Id] == id {
        assert FirstCalled(turns, 0, id);
      } else {
        FindTurnIs(turns[1..], id);
        FoundFurther(turns, id);
      }
    }
  }

  lemma FoundFurther(turns: seq<Json>, id: Json)
    requires turns != [] && HasKey(turns[0], Word.Id) && turns[0].fields[Word.Id] != id
    ensures NoneCalled(turns, |turns|, id) <==> NoneCalled(turns[1..], |turns| - 1, id)
    ensures forall k :: FirstCalled(turns[1..], k, id) ==> FirstCalled(turns, k + 1, id)
    ensures forall k :: FirstCalled(turns, k, id) ==> FirstCalled(turns[1..], k - 1, id)
  {
    forall n | 0 <= n < |turns| ensures NoneCalled(turns, n + 1, id) <==> NoneCalled(turns[1..], n, id) {
      if NoneCalled(turns, n + 1, id) {
        assert forall k | 0 <= k < n :: turns[1..][k] == turns[k + 1];
      }
      if NoneCalled(turns[1..], n, id) {
        forall k | 0 <= k < n + 1 ensures HasKey(turns[k], Word.Id) && turns[k].fields[Word.Id] != id {
          assert k > 0 ==> turns[k] == turns[1..][k - 1];
        }
      }
    }
  }
}
