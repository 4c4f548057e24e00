/**
  The value each hook writes into its thread's variable: the test's node id
  followed by the phase in parentheses, `"<nodeid> (<phase>)"`.
 */
module Descriptor {
  import opened Wrappers

  /** The three phases a hook can announce. */
  datatype Phase = Setup | Call | Teardown

  /** What follows the node id: the phase, spelled in lower case, in parentheses. */
  function PhaseSuffix(phase: Phase): (suffix: string) {
    match phase
    case Setup => " (setup)"
    case Call => " (call)"
    case Teardown => " (teardown)"
  }

  /** `f"{nodeid} ({phase})"` */
  function Describe(nodeid: string, phase: Phase): (s: string)
    ensures |s| == |nodeid| + |PhaseSuffix(phase)|
  {
    nodeid + PhaseSuffix(phase)
  }

  predicate EndsWith(s: string, suffix: string) {
    |suffix| <= |s| && s[|s| - |suffix|..] == suffix
  }

  /**
    Reads a descriptor back: the phase is the one whose suffix ends the
    string, the node id is everything before it.
   */
  function Parse(s: string): (r: Option<(string, Phase)>) {
    if EndsWith(s, PhaseSuffix(Setup)) then Some((s[..|s| - |PhaseSuffix(Setup)|], Setup))
    else if EndsWith(s, PhaseSuffix(Call)) then Some((s[..|s| - |PhaseSuffix(Call)|], Call))
    else if EndsWith(s, PhaseSuffix(Teardown)) then Some((s[..|s| - |PhaseSuffix(Teardown)|], Teardown))
    else None
  }

  /** No string ends with the suffixes of two different phases. */
  lemma SuffixesExclusive(s: string, p: Phase, q: Phase)
    requires EndsWith(s, PhaseSuffix(p)) && EndsWith(s, PhaseSuffix(q))
    ensures p == q
  {
    var sp, sq := PhaseSuffix(p), PhaseSuffix(q);
    assert s[|s| - 2] == sp[|sp| - 2] by {
      assert s[|s| - |sp|..][|sp| - 2] == sp[|sp| - 2];
    }
    assert s[|s| - 2] == sq[|sq| - 2] by {
      assert s[|s| - |sq|..][|sq| - 2] == sq[|sq| - 2];
    }
  }

  /** A descriptor names its test and its phase: parsing gives both back. */
  lemma ParseDescribe(nodeid: string, phase: Phase)
    ensures Parse(Describe(nodeid, phase)) == Some((nodeid, phase))
  {
    var s := Describe(nodeid, phase);
    assert EndsWith(s, PhaseSuffix(phase)) by {
      assert s[|s| - |PhaseSuffix(phase)|..] == PhaseSuffix(phase);
    }
    assert s[..|s| - |PhaseSuffix(phase)|] == nodeid;
    forall q | EndsWith(s, PhaseSuffix(q)) ensures q == phase {
      SuffixesExclusive(s, q, phase);
    }
  }

  /** Every string that parses is the descriptor of what it parses to. */
  lemma DescribeParse(s: string)
    requires Parse(s).Some?
    ensures Describe(Parse(s).value.0, Parse(s).value.1) == s
  {
    var phase := Parse(s).value.1;
    var suffix := PhaseSuffix(phase);
    assert EndsWith(s, suffix) && Parse(s).value.0 == s[..|s| - |suffix|];
    EndsWithSplits(s, suffix);
  }

  /** A string ending with `suffix` is what precedes it plus `suffix`. */
  lemma EndsWithSplits(s: string, suffix: string)
    requires EndsWith(s, suffix)
    ensures s[..|s| - |suffix|] + suffix == s
  {
    assert s == s[..|s| - |suffix|] + s[|s| - |suffix|..];
  }

  /** Two descriptors are equal exactly when test and phase both are. */
  lemma DescribeInjective(a: string, p: Phase, b: string, q: Phase)
    ensures Describe(a, p) == Describe(b, q) <==> a == b && p == q
  {
    ParseDescribe(a, p);
    ParseDescribe(b, q);
  }
}
