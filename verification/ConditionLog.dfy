/**
  The bounded condition lists of api/v1/store_status.go and api/v1/execstatus.go. Both types carry
  the same AddCondition; it refines an unbounded history.
*/
module ConditionLog {
  import opened Wrappers
  import opened Sequences

  const MAX_STATUSES: nat := 6

  /** `transition` is LastTransitionTime, with None for the zero time. */
  datatype Condition = Condition(
    kind: string,
    transition: Option<int>,
    updated: int,
    message: string,
    reason: string,
    status: string)

  const NO_CONDITION := Condition("", None, 0, "", "", "")

  /** What one AddCondition does to any list. */
  function Added(conditions: seq<Condition>, c: Condition): seq<Condition> {
    if conditions == [] then [c]
    else if conditions[|conditions| - 1].kind == c.kind then conditions[..|conditions| - 1] + [c]
    else LastN(conditions + [c], MAX_STATUSES)
  }

  class ConditionsList {
    var conditions: seq<Condition>

    constructor (initial: seq<Condition>)
      ensures conditions == initial
    {
      conditions := initial;
    }

    method AddCondition(c: Condition)
      modifies this
      ensures conditions == Added(old(conditions), c)
    {
      if |conditions| == 0 {
        conditions := conditions + [c];
        return;
      }
      if conditions[|conditions| - 1].kind == c.kind {
        conditions := conditions[|conditions| - 1 := c];
        return;
      }
      if conditions[|conditions| - 1].kind != c.kind {
        conditions := conditions + [c];
      }
      if |conditions| > MAX_STATUSES {
        conditions := conditions[|conditions| - MAX_STATUSES..];
      }
    }

    method GetLastCondition() returns (c: Condition)
      ensures conditions == [] ==> c == NO_CONDITION
      ensures conditions != [] ==> c == conditions[|conditions| - 1]
    {
      if |conditions| == 0 {
        return NO_CONDITION;
      }
      return conditions[|conditions| - 1];
    }
  }

  /** The history with each run of equal types collapsed to its latest element. */
  function Collapse(history: seq<Condition>): (collapsed: seq<Condition>)
    ensures history != [] ==> collapsed != [] && collapsed[|collapsed| - 1] == history[|history| - 1]
  {
    if |history| <= 1 then history
    else if history[0].kind == history[1].kind then Collapse(history[1..])
    else [history[0]] + Collapse(history[1..])
  }

  /** The list after a history of AddCondition calls from empty. */
  function Recorded(history: seq<Condition>): seq<Condition> {
    if history == [] then []
    else Added(Recorded(history[..|history| - 1]), history[|history| - 1])
  }

  /** A list whose last entry is replaced by one of the same type, or that grows by one of another. */
  function Extended(list: seq<Condition>, c: Condition): seq<Condition> {
    if list != [] && list[|list| - 1].kind == c.kind then list[..|list| - 1] + [c] else list + [c]
  }

  lemma ExtendedTail(first: Condition, rest: seq<Condition>, c: Condition)
    requires rest != []
    ensures Extended([first] + rest, c) == [first] + Extended(rest, c)
  {
  }

  lemma {:induction false} CollapseAppend(history: seq<Condition>, c: Condition)
    ensures Collapse(history + [c]) == Extended(Collapse(history), c)
  {
    if |history| > 1 {
      var rest, all := history[1..], history + [c];
      assert all[0] == history[0] && all[1] == history[1] && all[1..] == rest + [c];
      CollapseAppend(rest, c);
      ExtendedTail(history[0], Collapse(rest), c);
    } else if |history| == 1 {
      assert history + [c] == [history[0], c];
      assert [history[0], c][1..] == [c];
    } else {
      assert history + [c] == [c];
    }
  }

  /** After any history the list holds the last six entries of the collapsed history. */
  lemma {:induction false} RecordedIsCollapsedTail(history: seq<Condition>)
    ensures Recorded(history) == LastN(Collapse(history), 6)
  {
    if history != [] {
      var before, c := history[..|history| - 1], history[|history| - 1];
      assert history == before + [c];
      RecordedIsCollapsedTail(before);
      CollapseAppend(before, c);
      if before != [] {
        LastNReplace(Collapse(before), c, MAX_STATUSES);
        LastNAppend(Collapse(before), c, MAX_STATUSES);
      }
    }
  }

  lemma {:induction false} CollapseAdjacentDiffer(history: seq<Condition>)
    ensures forall i :: 0 < i < |Collapse(history)| ==> Collapse(history)[i - 1].kind != Collapse(history)[i].kind
    ensures history != [] ==> Collapse(history) != [] && Collapse(history)[0].kind == history[0].kind
  {
    if |history| > 1 {
      CollapseAdjacentDiffer(history[1..]);
    }
  }

  /** The list never exceeds six entries, adjacent types differ, and the last entry is the newest. */
  lemma {:induction false} RecordedShape(history: seq<Condition>)
    ensures var list := Recorded(history);
      && |list| <= 6
      && (forall i :: 0 < i < |list| ==> list[i - 1].kind != list[i].kind)
      && (history != [] ==> list != [] && list[|list| - 1] == history[|history| - 1])
  {
    RecordedIsCollapsedTail(history);
    CollapseAdjacentDiffer(history);
  }
}
