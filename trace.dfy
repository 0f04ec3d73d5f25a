/** The plan trace: the grounded actions executed and the grounded states
    met, in order (the static executedActions and gamePredicates lists, shared
    by every agent of a class), and the lines of the post-game listing. */
module PlanTrace {
  import opened Text

  class Trace {
    var executedActions: seq<string>
    var gamePredicates: seq<string>

    /** Both lists start empty. */
    constructor ()
      ensures executedActions == [] && gamePredicates == []
    {
      executedActions := [];
      gamePredicates := [];
    }

    method AddState(predicates: string)
      modifies this
      ensures gamePredicates == old(gamePredicates) + [predicates]
      ensures executedActions == old(executedActions)
    {
      gamePredicates := gamePredicates + [predicates];
    }

    method AddAction(instantiatedAction: string)
      modifies this
      ensures executedActions == old(executedActions) + [instantiatedAction]
      ensures gamePredicates == old(gamePredicates)
    {
      executedActions := executedActions + [instantiatedAction];
    }

    /** gamePredicates.remove(size - 1). */
    method RemoveLastState()
      requires |gamePredicates| > 0
      modifies this
      ensures gamePredicates == old(gamePredicates[..|gamePredicates| - 1])
      ensures executedActions == old(executedActions)
    {
      gamePredicates := gamePredicates[..|gamePredicates| - 1];
    }
  }

  // ---------------------------------------------------------------------
  // The post-game listing

  /** The line of the i-th action: "[i, i+1]: action". */
  function TaskLine(i: int, action: string): string {
    "[" + IntToString(i) + ", " + IntToString(i + 1) + "]: " + action
  }

  /** The line of the i-th state: "[i]: state" and an empty line. */
  function StateLine(i: int, state: string): string {
    "[" + IntToString(i) + "]: " + state + "\n"
  }

  lemma NoBrackets(i: int)
    ensures ',' !in IntToString(i) && ']' !in IntToString(i)
  {
    IntToStringChars(i);
  }

  /** A number ended by c, which no number contains, is read back
      unambiguously. */
  lemma SplitNumber(i: int, j: int, c: char, r: string, r': string)
    requires c == ',' || c == ']'
    requires IntToString(i) + ([c] + r) == IntToString(j) + ([c] + r')
    ensures i == j && r == r'
  {
    NoBrackets(i);
    NoBrackets(j);
    SplitAtSeparator(IntToString(i), r, IntToString(j), r', c);
    IntToStringInjective(i, j);
  }

  /** The pieces of "[X, Y]: a" between its separators. */
  lemma TaskLineParts(X: string, Y: string, a: string)
    ensures ("[" + X + ", " + Y + "]: " + a)[1..] == X + ([','] + (" " + Y + "]: " + a))
    ensures (" " + Y + "]: " + a)[1..] == Y + ([']'] + (": " + a))
    ensures (": " + a)[2..] == a
  {
  }

  /** The pieces of "[X]: s\n" between its separators. */
  lemma StateLineParts(X: string, s: string)
    ensures ("[" + X + "]: " + s + "\n")[1..] == X + ([']'] + (": " + s + "\n"))
    ensures (": " + s + "\n")[2..|s| + 2] == s
  {
  }

  /** A task line names its turn and its action: two lines are equal only
      for the same turn and the same action. */
  lemma TaskLineInjective(i: int, a: string, j: int, b: string)
    requires TaskLine(i, a) == TaskLine(j, b)
    ensures i == j && a == b
  {
    TaskLineParts(IntToString(i), IntToString(i + 1), a);
    TaskLineParts(IntToString(j), IntToString(j + 1), b);
    SplitNumber(i, j, ',', " " + IntToString(i + 1) + "]: " + a, " " + IntToString(j + 1) + "]: " + b);
    SplitNumber(i + 1, j + 1, ']', ": " + a, ": " + b);
  }

  /** A state line names its turn and its state. */
  lemma StateLineInjective(i: int, s: string, j: int, t: string)
    requires StateLine(i, s) == StateLine(j, t)
    ensures i == j && s == t
  {
    StateLineParts(IntToString(i), s);
    StateLineParts(IntToString(j), t);
    SplitNumber(i, j, ']', ": " + s + "\n", ": " + t + "\n");
  }
}
