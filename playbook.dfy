/** The playbook: an ordered list of threshold rules on one feature; the
    first rule that matches decides the entry. */
module Playbook {
  import opened Common

  /** One rule; `min_score` is carried but never consulted. */
  datatype Rule = Rule(minScore: real, direction: string, feature: string, threshold: real)

  datatype Decision = Enter(direction: string) | NoAction

  /** The two rules the playbook starts with. */
  const DefaultRules: seq<Rule> := [Rule(0.2, "buy", "imbalance", 0.1), Rule(0.2, "sell", "imbalance", -0.1)]

  /** A buy rule matches at or above its threshold, a sell rule at or below;
      a rule of any other direction never matches. */
  predicate Matches(r: Rule, f: map<string, real>)
  {
    (r.direction == "buy" && GetReal(f, r.feature) >= r.threshold) ||
    (r.direction == "sell" && GetReal(f, r.feature) <= r.threshold)
  }

  /** The decision a matching rule makes. */
  function Decide(r: Rule, f: map<string, real>): Decision
  {
    if r.direction == "buy" && GetReal(f, r.feature) >= r.threshold then Enter("buy") else Enter("sell")
  }

  /** The first matching rule's decision. */
  function FirstMatch(rules: seq<Rule>, f: map<string, real>): (d: Decision)
    ensures d.NoAction? <==> forall i :: 0 <= i < |rules| ==> !Matches(rules[i], f)
    ensures d.Enter? ==> exists i :: 0 <= i < |rules| && Matches(rules[i], f) && d == Decide(rules[i], f)
                                     && forall j :: 0 <= j < i ==> !Matches(rules[j], f)
  {
    if rules == [] then NoAction
    else if Matches(rules[0], f) then Decide(rules[0], f)
    else
      var d := FirstMatch(rules[1..], f);
      assert forall i :: 1 <= i < |rules| ==> rules[i] == rules[1..][i - 1];
      d
  }

  /** `evaluate`: the rules are tried in order and the first match returns. */
  method Evaluate(rules: seq<Rule>, f: map<string, real>) returns (d: Decision)
    ensures d == FirstMatch(rules, f)
  {
    var i := 0;
    while i < |rules|
      invariant 0 <= i <= |rules|
      invariant FirstMatch(rules, f) == FirstMatch(rules[i..], f)
    {
      var r := rules[i];
      if r.direction == "buy" && GetReal(f, r.feature) >= r.threshold {
        return Enter("buy");
      }
      if r.direction == "sell" && GetReal(f, r.feature) <= r.threshold {
        return Enter("sell");
      }
      assert rules[i..][1..] == rules[i + 1..];
      i := i + 1;
    }
    return NoAction;
  }

  /** With the default rules: an imbalance of at least 0.1 enters long, one
      of at most -0.1 enters short, anything in between does nothing; a
      missing imbalance counts as 0. */
  lemma {:induction false} DefaultDecisions(f: map<string, real>)
    ensures GetReal(f, "imbalance") >= 0.1 <==> FirstMatch(DefaultRules, f) == Enter("buy")
    ensures GetReal(f, "imbalance") <= -0.1 <==> FirstMatch(DefaultRules, f) == Enter("sell")
    ensures -0.1 < GetReal(f, "imbalance") < 0.1 <==> FirstMatch(DefaultRules, f) == NoAction
  {
    var imb := GetReal(f, "imbalance");
    assert Matches(DefaultRules[0], f) <==> imb >= 0.1;
    assert Matches(DefaultRules[1], f) <==> imb <= -0.1;
    if imb >= 0.1 {
      assert FirstMatch(DefaultRules, f) == Enter("buy");
    } else if imb <= -0.1 {
      assert FirstMatch(DefaultRules, f) == Decide(DefaultRules[1], f);
    } else {
      assert FirstMatch(DefaultRules[1..], f) == NoAction;
    }
  }
}
