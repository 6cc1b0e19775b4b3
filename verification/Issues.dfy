/** Lists of issues that validators push onto, and the set of codes that occur in them. */
module Issues {
  import opened Basics

  /** An issue: the item and the inner entry it points at, if any, and its code. */
  datatype Issue<+C> = Issue(item: Option<nat>, entry: Option<nat>, code: C)

  /** The codes that occur among the issues. */
  function Codes<C(==)>(issues: seq<Issue<C>>): set<C> {
    if issues == [] then {} else Codes(issues[..|issues| - 1]) + {issues[|issues| - 1].code}
  }

  lemma {:induction false} CodesAppend<C>(a: seq<Issue<C>>, b: seq<Issue<C>>)
    ensures Codes(a + b) == Codes(a) + Codes(b)
  {
    if b == [] {
      assert a + b == a;
    } else {
      assert (a + b)[..|a + b| - 1] == a + b[..|b| - 1];
      CodesAppend(a, b[..|b| - 1]);
    }
  }

  function Join<C(==)>(a: seq<Issue<C>>, b: seq<Issue<C>>): (r: seq<Issue<C>>)
    ensures Codes(r) == Codes(a) + Codes(b)
  {
    CodesAppend(a, b);
    a + b
  }

  function If<C(==)>(condition: bool, code: C): set<C> {
    if condition then {code} else {}
  }

  function PushIf<C(==)>(condition: bool, issues: seq<Issue<C>>, issue: Issue<C>): (r: seq<Issue<C>>)
    ensures Codes(r) == Codes(issues) + If(condition, issue.code)
  {
    if condition then
      assert (issues + [issue])[..|issues|] == issues;
      issues + [issue]
    else
      assert Codes(issues) == Codes(issues) + {};
      issues
  }

  lemma NoCodes<C>()
    ensures Codes<C>([]) == {}
  {
  }
}
