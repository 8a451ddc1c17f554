/**
  The abstract form of the guard code the validator emits. Each emitted
  `if (condition) throw new IllegalArgumentException(message)` is one
  Check; the guards emitted into one method body form a Chain, in emission
  order. Running a chain stands in for running the generated guards.
 */
module Checks {
  import opened Wrappers
  import JavaString
  import LanguageTag

  /** The parameter a generated guard inspects: a string for the textual
      datatypes, an integer for the numeric ones. */
  datatype Value = Text(s: string) | Number(n: int)

  /** The condition of one guard; the check throws when it holds. */
  datatype Condition =
    | ContainsLineBreakOrTab   // indexOf("\r"), indexOf("\n") or indexOf("\t") is not -1
    | SpaceAtStartOrEnd        // startsWith(" ") or endsWith(" ")
    | ContainsDoubleSpace      // indexOf("  ") is not -1
    | NotLanguageTag           // !matches(LanguageTag.Pattern)
    | Greater(bound: int)      // v > bound
    | GreaterOrEqual(bound: int)
    | Less(bound: int)
    | LessOrEqual(bound: int)

  datatype Check = Check(condition: Condition, message: string)

  type Chain = seq<Check>

  /** Whether a guard throws for the value. A textual condition never holds
      of a number nor a numeric one of a string. The validator chooses its
      guards from the datatype alone and does not look at the parameter's
      Java type; pairing a datatype with a Java type that fits it is left to
      the caller, and Java emitted for a mismatched pairing would not compile. */
  predicate Fires(c: Condition, v: Value)
  {
    match c
    case ContainsLineBreakOrTab =>
      v.Text? && (JavaString.IndexOf(v.s, "\r") != -1 || JavaString.IndexOf(v.s, "\n") != -1
                  || JavaString.IndexOf(v.s, "\t") != -1)
    case SpaceAtStartOrEnd =>
      v.Text? && (JavaString.StartsWith(v.s, " ") || JavaString.EndsWith(v.s, " "))
    case ContainsDoubleSpace =>
      v.Text? && JavaString.IndexOf(v.s, "  ") != -1
    case NotLanguageTag =>
      v.Text? && !LanguageTag.IsLanguageTag(v.s)
    case Greater(k) => v.Number? && v.n > k
    case GreaterOrEqual(k) => v.Number? && v.n >= k
    case Less(k) => v.Number? && v.n < k
    case LessOrEqual(k) => v.Number? && v.n <= k
  }

  /** Runs the guards in order: the message of the first one that throws, or
      None when the value passes them all. */
  function Run(chain: Chain, v: Value): (r: Option<string>)
    ensures r.None? <==> forall i :: 0 <= i < |chain| ==> !Fires(chain[i].condition, v)
    ensures r.Some? ==> exists i :: 0 <= i < |chain| && Fires(chain[i].condition, v) && r.value == chain[i].message
                                    && forall j :: 0 <= j < i ==> !Fires(chain[j].condition, v)
  {
    if chain == [] then None
    else if Fires(chain[0].condition, v) then Some(chain[0].message)
    else
      var r := Run(chain[1..], v);
      assert forall i :: 1 <= i < |chain| ==> chain[i] == chain[1..][i - 1];
      r
  }

  /** The first outcome if it is a violation, else the second. */
  function OrElse(first: Option<string>, next: Option<string>): Option<string>
  {
    if first.Some? then first else next
  }

  /** Guards appended after a chain run only when the whole chain passes:
      a prerequisite's checks take precedence over the rule's own. */
  lemma {:induction false} RunAppend(a: Chain, b: Chain, v: Value)
    ensures Run(a + b, v) == OrElse(Run(a, v), Run(b, v))
    decreases |a|
  {
    if a == [] {
      assert a + b == b;
    } else {
      assert (a + b)[1..] == a[1..] + b;
      RunAppend(a[1..], b, v);
    }
  }

  /** A guard emitted twice in a row has the effect of emitting it once. */
  lemma RunRepeatedCheck(a: Chain, c: Check, d: Chain, v: Value)
    ensures Run(a + [c, c] + d, v) == Run(a + [c] + d, v)
  {
    RunAppend(a + [c, c], d, v);
    RunAppend(a, [c, c], v);
    RunAppend(a + [c], d, v);
    RunAppend(a, [c], v);
  }
}
