/**
 An ordered decision list over model names: each rule is guarded by name
 patterns and carries an action; the first rule whose guard matches decides.
 This is the reference form against which the cascaded `if` chain of the
 completion-ratio code is checked.
 */
module RuleEngine {
  import opened Wrappers
  import opened Strings

  /** A single test on a model name. */
  datatype Pattern =
    | Prefix(text: string)      // strings.HasPrefix(name, text)
    | Substring(text: string)   // strings.Contains(name, text)
    | Exactly(text: string)     // a `case text:` of a switch on the name

  predicate PatternMatches(p: Pattern, name: string) {
    match p
    case Prefix(t) => HasPrefix(name, t)
    case Substring(t) => Contains(name, t)
    case Exactly(t) => name == t
  }

  /** A rule fires when any one of its patterns matches (the `||` of the Go code's conditions). */
  datatype Rule<A> = Rule(guard: seq<Pattern>, action: A)

  predicate Fires<A>(r: Rule<A>, name: string) {
    exists i | 0 <= i < |r.guard| :: PatternMatches(r.guard[i], name)
  }

  /** No rule before index `k` fires for `name`. */
  predicate NoneFiresBefore<A>(rules: seq<Rule<A>>, k: int, name: string)
    requires 0 <= k <= |rules|
  {
    forall j | 0 <= j < k :: !Fires(rules[j], name)
  }

  /**
   The action of the first rule at or after index `k` that fires, or `None`
   when none does.
   */
  function FirstMatchFrom<A>(rules: seq<Rule<A>>, k: nat, name: string): Option<A>
    requires k <= |rules|
    decreases |rules| - k
  {
    if k == |rules| then None
    else if Fires(rules[k], name) then Some(rules[k].action)
    else FirstMatchFrom(rules, k + 1, name)
  }

  /** The action of the first rule that fires, or `None` when none does. */
  function FirstMatch<A>(rules: seq<Rule<A>>, name: string): Option<A> {
    FirstMatchFrom(rules, 0, name)
  }

  /**
   The scan from `k` has no decision exactly when no rule from `k` on fires,
   and otherwise yields the action of a firing rule with no firing rule between
   `k` and it.
   */
  lemma {:induction false} FirstMatchFromSpec<A>(rules: seq<Rule<A>>, k: nat, name: string)
    requires k <= |rules|
    ensures FirstMatchFrom(rules, k, name).None? <==> forall j | k <= j < |rules| :: !Fires(rules[j], name)
    ensures FirstMatchFrom(rules, k, name).Some? ==> exists i | k <= i < |rules| ::
      && Fires(rules[i], name)
      && FirstMatchFrom(rules, k, name).value == rules[i].action
      && forall j | k <= j < i :: !Fires(rules[j], name)
    decreases |rules| - k
  {
    if k < |rules| && !Fires(rules[k], name) {
      FirstMatchFromSpec(rules, k + 1, name);
    }
  }

  /** First match wins: rule `i` decides exactly when it fires and no earlier rule does. */
  lemma FirstMatchWins<A>(rules: seq<Rule<A>>, i: nat, name: string)
    requires i < |rules|
    requires Fires(rules[i], name)
    requires NoneFiresBefore(rules, i, name)
    ensures FirstMatch(rules, name) == Some(rules[i].action)
  {
    FirstMatchFromSpec(rules, 0, name);
    var r := FirstMatch(rules, name);
    var i' :| 0 <= i' < |rules| && Fires(rules[i'], name) && r.value == rules[i'].action
              && forall j | 0 <= j < i' :: !Fires(rules[j], name);
    assert !(i' < i) && !(i < i');
  }

  /** When no rule fires, the list has no decision and the caller's default applies. */
  lemma NoMatchFallsThrough<A>(rules: seq<Rule<A>>, name: string)
    requires NoneFiresBefore(rules, |rules|, name)
    ensures FirstMatch(rules, name) == None
  {
    FirstMatchFromSpec(rules, 0, name);
  }
}
