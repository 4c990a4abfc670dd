/**
 * The undo history (`useHistory`): a list of snapshots with a cursor on
 * the current one. Live edits overwrite the current snapshot; a commit
 * drops everything after the cursor and appends.
 */
module History {

  /** What `setState` and `commit` accept: a new state, or a function of the current one. */
  datatype Action<!S> = Value(state: S) | Update(f: S -> S)

  function Resolve<S>(action: Action<S>, current: S): (s: S)
    ensures action.Value? ==> s == action.state
    ensures action.Update? ==> s == action.f(current)
  {
    match action
    case Value(s) => s
    case Update(f) => f(current)
  }

  /** The ledger as a value: the snapshots and the cursor. */
  datatype Ledger<S> = Ledger(history: seq<S>, currentIndex: int) {
    predicate Valid() {
      0 <= currentIndex < |history|
    }

    /** The state the editor shows. */
    function State(): S
      requires Valid()
    {
      history[currentIndex]
    }

    predicate CanUndo() { currentIndex > 0 }

    predicate CanRedo() { currentIndex < |history| - 1 }
  }

  function Initial<S>(s: S): (l: Ledger<S>)
    ensures l.Valid() && l.State() == s && !l.CanUndo() && !l.CanRedo()
  {
    Ledger([s], 0)
  }

  /** `setState`: overwrite the current snapshot; no new entry. */
  function Overwritten<S>(l: Ledger<S>, action: Action<S>): (r: Ledger<S>)
    requires l.Valid()
    ensures r.Valid()
    ensures |r.history| == |l.history| && r.currentIndex == l.currentIndex
    ensures r.State() == Resolve(action, l.State())
    ensures forall i :: 0 <= i < |l.history| && i != l.currentIndex ==> r.history[i] == l.history[i]
  {
    Ledger(l.history[l.currentIndex := Resolve(action, l.State())], l.currentIndex)
  }

  /** `commit`: drop the redo entries, append the new state and move onto it. */
  function Committed<S>(l: Ledger<S>, action: Action<S>): (r: Ledger<S>)
    requires l.Valid()
    ensures r.Valid()
    ensures r.history == l.history[..l.currentIndex + 1] + [Resolve(action, l.State())]
    ensures r.currentIndex == l.currentIndex + 1 && r.State() == Resolve(action, l.State())
    ensures r.CanUndo() && !r.CanRedo()
  {
    Ledger(l.history[..l.currentIndex + 1] + [Resolve(action, l.State())], l.currentIndex + 1)
  }

  /** `undo`: step back, unless at the first snapshot. */
  function Undone<S>(l: Ledger<S>): (r: Ledger<S>)
    requires l.Valid()
    ensures r.Valid() && r.history == l.history
    ensures l.CanUndo() ==> r.currentIndex == l.currentIndex - 1
    ensures !l.CanUndo() ==> r == l
  {
    if l.currentIndex > 0 then l.(currentIndex := l.currentIndex - 1) else l
  }

  /** `redo`: step forward, unless at the last snapshot. */
  function Redone<S>(l: Ledger<S>): (r: Ledger<S>)
    requires l.Valid()
    ensures r.Valid() && r.history == l.history
    ensures l.CanRedo() ==> r.currentIndex == l.currentIndex + 1
    ensures !l.CanRedo() ==> r == l
  {
    if l.currentIndex < |l.history| - 1 then l.(currentIndex := l.currentIndex + 1) else l
  }

  /**
   * Undo then redo gives back the same ledger when there was something to
   * undo; at the first snapshot undo does nothing and redo moves forward.
   */
  lemma UndoThenRedo<S>(l: Ledger<S>)
    requires l.Valid()
    ensures l.CanUndo() ==> Redone(Undone(l)) == l
    ensures !l.CanUndo() && l.CanRedo() ==> Redone(Undone(l)).State() == l.history[1]
  {
  }

  /** Redo then undo gives back the same ledger when there was something to redo. */
  lemma RedoThenUndo<S>(l: Ledger<S>)
    requires l.Valid()
    ensures l.CanRedo() ==> Undone(Redone(l)) == l
  {
  }

  /**
   * Committing after an undo discards the undone snapshot: nothing is left
   * to redo, and undoing the commit returns to the state before it.
   */
  lemma CommitAfterUndo<S>(l: Ledger<S>, action: Action<S>)
    requires l.Valid() && l.CanUndo()
    ensures var u := Undone(l);
            var c := Committed(u, action);
            !c.CanRedo() && |c.history| == l.currentIndex + 1 &&
            c.history[..l.currentIndex] == l.history[..l.currentIndex] &&
            Undone(c).State() == u.State()
  {
  }

  /** Live edits never add undo steps: any number of them leaves the cursor and the length alone. */
  function SetStates<S>(l: Ledger<S>, actions: seq<Action<S>>): (r: Ledger<S>)
    requires l.Valid()
    ensures r.Valid()
    decreases |actions|
  {
    if actions == [] then l else SetStates(Overwritten(l, actions[0]), actions[1..])
  }

  lemma {:induction false} SetStatesKeepCursor<S>(l: Ledger<S>, actions: seq<Action<S>>)
    requires l.Valid()
    ensures |SetStates(l, actions).history| == |l.history|
    ensures SetStates(l, actions).currentIndex == l.currentIndex
    ensures forall i :: 0 <= i < |l.history| && i != l.currentIndex ==> SetStates(l, actions).history[i] == l.history[i]
    decreases |actions|
  {
    if actions != [] {
      SetStatesKeepCursor(Overwritten(l, actions[0]), actions[1..]);
    }
  }

  /**
   * The hook itself: the two pieces of React state, replaced by each
   * operation.
   */
  class HistoryState<S> {
    var history: seq<S>
    var currentIndex: int

    function AsLedger(): Ledger<S>
      reads this
    {
      Ledger(history, currentIndex)
    }

    ghost predicate Valid()
      reads this
    {
      AsLedger().Valid()
    }

    function State(): S
      reads this
      requires Valid()
    {
      history[currentIndex]
    }

    constructor(initialState: S)
      ensures Valid() && AsLedger() == Initial(initialState)
    {
      history := [initialState];
      currentIndex := 0;
    }

    method SetState(action: Action<S>)
      requires Valid()
      modifies this
      ensures Valid() && AsLedger() == Overwritten(old(AsLedger()), action)
    {
      var newState := Resolve(action, history[currentIndex]);
      history := history[currentIndex := newState];
    }

    method Commit(action: Action<S>)
      requires Valid()
      modifies this
      ensures Valid() && AsLedger() == Committed(old(AsLedger()), action)
    {
      var newState := Resolve(action, history[currentIndex]);
      var newHistory := history[..currentIndex + 1] + [newState];
      history := newHistory;
      currentIndex := |newHistory| - 1;
    }

    method Undo()
      requires Valid()
      modifies this
      ensures Valid() && AsLedger() == Undone(old(AsLedger()))
    {
      if currentIndex > 0 {
        currentIndex := currentIndex - 1;
      }
    }

    method Redo()
      requires Valid()
      modifies this
      ensures Valid() && AsLedger() == Redone(old(AsLedger()))
    {
      if currentIndex < |history| - 1 {
        currentIndex := currentIndex + 1;
      }
    }
  }
}
