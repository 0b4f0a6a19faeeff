/**
 * The Redux portfolio slice (src/state/redux/portfolioSlice.js): a state of
 * five fields and five actions, each of which stores its payload, unchecked,
 * in one field. The reducer is a function from a state and an action to a
 * new state; the state given to it is a value and is never changed.
 */
module PortfolioSlice {
  import opened Wrappers
  import opened Js

  /** The slice's state: five fields holding whatever their setters were given. */
  datatype State = State(portfolio: Value, fileUploaded: Value, uploadError: Value, refreshRate: Value, analyzingCoin: Value)

  /** The slice's initial state. */
  const InitialState := State(Obj(map[]), Bool(false), Str(""), Num(5.0), Null)

  /** The five setters; any other action type is `Unknown`. */
  datatype Action =
    | SetPortfolio(payload: Value)
    | SetFileUploaded(payload: Value)
    | SetUploadError(payload: Value)
    | SetRefreshRate(payload: Value)
    | SetAnalyzingCoin(payload: Value)
    | Unknown(actionType: string)

  /** The reducer; an undefined state (`None`) stands for the initial state. */
  function Reduce(state: Option<State>, action: Action): State {
    var s := if state.Some? then state.value else InitialState;
    match action
    case SetPortfolio(v) => s.(portfolio := v)
    case SetFileUploaded(v) => s.(fileUploaded := v)
    case SetUploadError(v) => s.(uploadError := v)
    case SetRefreshRate(v) => s.(refreshRate := v)
    case SetAnalyzingCoin(v) => s.(analyzingCoin := v)
    case Unknown(_) => s
  }

  /** The five fields, by name. */
  datatype Field = PortfolioField | FileUploadedField | UploadErrorField | RefreshRateField | AnalyzingCoinField

  /** The value of field `f` in `s`. */
  function FieldOf(s: State, f: Field): Value {
    match f
    case PortfolioField => s.portfolio
    case FileUploadedField => s.fileUploaded
    case UploadErrorField => s.uploadError
    case RefreshRateField => s.refreshRate
    case AnalyzingCoinField => s.analyzingCoin
  }

  /** The field an action writes, if any. */
  function Target(a: Action): Option<Field> {
    match a
    case SetPortfolio(_) => Some(PortfolioField)
    case SetFileUploaded(_) => Some(FileUploadedField)
    case SetUploadError(_) => Some(UploadErrorField)
    case SetRefreshRate(_) => Some(RefreshRateField)
    case SetAnalyzingCoin(_) => Some(AnalyzingCoinField)
    case Unknown(_) => None
  }

  /** Two states with equal fields are equal. */
  lemma FieldsDetermineState(s: State, t: State)
    requires forall f :: FieldOf(s, f) == FieldOf(t, f)
    ensures s == t
  {
    assert FieldOf(s, PortfolioField) == FieldOf(t, PortfolioField);
    assert FieldOf(s, FileUploadedField) == FieldOf(t, FileUploadedField);
    assert FieldOf(s, UploadErrorField) == FieldOf(t, UploadErrorField);
    assert FieldOf(s, RefreshRateField) == FieldOf(t, RefreshRateField);
    assert FieldOf(s, AnalyzingCoinField) == FieldOf(t, AnalyzingCoinField);
  }

  /** An undefined state with an unknown action gives the initial state. */
  lemma StartsFromInitialState(actionType: string)
    ensures Reduce(None, Unknown(actionType)) == InitialState
    ensures FieldOf(InitialState, RefreshRateField) == Num(5.0) && FieldOf(InitialState, AnalyzingCoinField) == Null
  {
  }

  /** A setter stores its payload, whatever it is, in its own field, and every other field keeps its value; an unknown action changes nothing. */
  lemma SetterFrame(s: State, a: Action)
    ensures forall f :: FieldOf(Reduce(Some(s), a), f) == if Target(a) == Some(f) then a.payload else FieldOf(s, f)
    ensures a.Unknown? ==> Reduce(Some(s), a) == s
  {
  }

  /** Of two writes to the same field the later wins, so applying an action twice equals applying it once. */
  lemma LastWriteWins(s: State, a: Action, b: Action)
    requires Target(a).Some? && Target(a) == Target(b)
    ensures Reduce(Some(Reduce(Some(s), a)), b) == Reduce(Some(s), b)
    ensures Reduce(Some(Reduce(Some(s), a)), a) == Reduce(Some(s), a)
  {
    SetterFrame(s, a);
    SetterFrame(s, b);
    SetterFrame(Reduce(Some(s), a), b);
    SetterFrame(Reduce(Some(s), a), a);
    FieldsDetermineState(Reduce(Some(Reduce(Some(s), a)), b), Reduce(Some(s), b));
    FieldsDetermineState(Reduce(Some(Reduce(Some(s), a)), a), Reduce(Some(s), a));
  }

  /** Writes to different fields commute. */
  lemma DifferentFieldsCommute(s: State, a: Action, b: Action)
    requires Target(a) != Target(b)
    ensures Reduce(Some(Reduce(Some(s), a)), b) == Reduce(Some(Reduce(Some(s), b)), a)
  {
    var ab := Reduce(Some(Reduce(Some(s), a)), b);
    var ba := Reduce(Some(Reduce(Some(s), b)), a);
    SetterFrame(s, a);
    SetterFrame(s, b);
    SetterFrame(Reduce(Some(s), a), b);
    SetterFrame(Reduce(Some(s), b), a);
    FieldsDetermineState(ab, ba);
  }

  /** The state after a list of actions, applied first to last. */
  function ReduceAll(s: State, actions: seq<Action>): State
    decreases |actions|
  {
    if |actions| == 0 then s else ReduceAll(Reduce(Some(s), actions[0]), actions[1..])
  }

  /** The reset sequence of portfolioSlice.test.js: every field set back to its initial value, one action at a time. */
  const ResetActions := [SetPortfolio(Obj(map[])), SetFileUploaded(Bool(false)), SetUploadError(Str("")),
                         SetAnalyzingCoin(Null), SetRefreshRate(Num(5.0))]

  /** The reset sequence brings any state back to the initial state. */
  lemma ResetRestoresInitialState(s: State)
    ensures ReduceAll(s, ResetActions) == InitialState
  {
    var a := ResetActions;
    var s1 := Reduce(Some(s), a[0]);
    var s2 := Reduce(Some(s1), a[1]);
    var s3 := Reduce(Some(s2), a[2]);
    var s4 := Reduce(Some(s3), a[3]);
    var s5 := Reduce(Some(s4), a[4]);
    assert a[1..][1..][1..][1..][1..] == [];
    assert ReduceAll(s4, a[4..]) == s5;
    assert ReduceAll(s, a) == s5;
  }
}
