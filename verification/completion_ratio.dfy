/**
 `GetCompletionRatio` of common/model-ratio.go: the multiplier for output
 tokens relative to input tokens, decided by an operator override table and
 then by an ordered list of vendor-family rules.
 */
module CompletionRatio {
  import opened Wrappers
  import opened Strings
  import opened RatioStore
  import opened RuleEngine

  /**
   The per-vendor helpers the rules delegate to. Their definitions are not
   part of this model, so they are parameters and nothing is assumed of them.
   */
  datatype Helpers = Helpers(
    openAI: string -> real,   // getOpenAICompletionRatioData
    cohere: string -> real,   // getCohereCompletionRatioData
    ernie: string -> real     // getERNIECompletionRatioData
  )

  /** The compiled-in completion table, installed only by `GetCompletionRatioMap`. */
  const DefaultCompletionRatio: map<string, real> := map[
    "gpt-4-gizmo-*" := 2.0,
    "gpt-4o-gizmo-*" := 3.0,
    "gpt-4-all" := 2.0
  ]

  /** Ratio of the last rule: a name no rule recognises. */
  const DefaultRatio: real := 1.0

  /**
   The override table holds `name` with a strictly positive ratio. A nil table,
   a missing key and a ratio of zero or below all leave the decision to the rules.
   */
  predicate QualifyingOverride(overrides: Store<real>, name: string) {
    name in Entries(overrides) && Entries(overrides)[name] > 0.0
  }

  /** The name belongs to the OpenAI family (`gpt…`, `chatgpt…`, `o1…`). */
  predicate OpenAIName(name: string) {
    HasPrefix(name, "gpt") || HasPrefix(name, "chatgpt") || HasPrefix(name, "o1")
  }

  /**
   The completion ratio of `name`, in the order the Go code tests it. The name
   is looked up in the override table as given: no gizmo normalisation.
   */
  function GetCompletionRatio(overrides: Store<real>, h: Helpers, name: string): (r: real)
    ensures QualifyingOverride(overrides, name) ==> r == Entries(overrides)[name]
    ensures !QualifyingOverride(overrides, name) && OpenAIName(name) ==> r == h.openAI(name)
  {
    if QualifyingOverride(overrides, name) then Entries(overrides)[name]
    else if OpenAIName(name) then h.openAI(name)
    else if Contains(name, "claude-3") then 5.0
    else if Contains(name, "claude-2") || Contains(name, "claude-instant-1") then 3.0
    else if HasPrefix(name, "mistral-") then 3.0
    else if HasPrefix(name, "gemini-") then 4.0
    else if HasPrefix(name, "command") then h.cohere(name)
    else if HasPrefix(name, "deepseek") then 2.0
    else if HasPrefix(name, "ERNIE-") then h.ernie(name)
    else if name == "llama2-70b-4096" then 0.8 / 0.64
    else if name == "llama3-8b-8192" then 2.0
    else if name == "llama3-70b-8192" then 0.79 / 0.59
    else DefaultRatio
  }

  // ---------------------------------------------------------------------------
  // The same decision written as data: an ordered rule list.
  // ---------------------------------------------------------------------------

  /** Where a helper-decided family is sent. */
  datatype Vendor = OpenAI | Cohere | Ernie

  /** What a rule yields: a constant, or the verdict of a vendor helper. */
  datatype Action = Fixed(ratio: real) | Delegate(vendor: Vendor)

  /** The built-in vendor-family rules, in the order the Go code tests them. */
  const BuiltinRules: seq<Rule<Action>> := [
    Rule([Prefix("gpt"), Prefix("chatgpt"), Prefix("o1")], Delegate(OpenAI)),
    Rule([Substring("claude-3")], Fixed(5.0)),
    Rule([Substring("claude-2"), Substring("claude-instant-1")], Fixed(3.0)),
    Rule([Prefix("mistral-")], Fixed(3.0)),
    Rule([Prefix("gemini-")], Fixed(4.0)),
    Rule([Prefix("command")], Delegate(Cohere)),
    Rule([Prefix("deepseek")], Fixed(2.0)),
    Rule([Prefix("ERNIE-")], Delegate(Ernie)),
    Rule([Exactly("llama2-70b-4096")], Fixed(0.8 / 0.64)),
    Rule([Exactly("llama3-8b-8192")], Fixed(2.0)),
    Rule([Exactly("llama3-70b-8192")], Fixed(0.79 / 0.59))
  ]

  function Perform(h: Helpers, a: Action, name: string): real {
    match a
    case Fixed(v) => v
    case Delegate(OpenAI) => h.openAI(name)
    case Delegate(Cohere) => h.cohere(name)
    case Delegate(Ernie) => h.ernie(name)
  }

  /** Reference resolution: qualifying override, else first firing rule, else 1. */
  function ResolveByRules(overrides: Store<real>, h: Helpers, name: string): real {
    if QualifyingOverride(overrides, name) then Entries(overrides)[name]
    else RuleRatioFrom(h, name, 0)
  }

  /** The ratio the rule list gives when the scan starts at rule `k`. */
  function RuleRatioFrom(h: Helpers, name: string, k: nat): real
    requires k <= |BuiltinRules|
  {
    match FirstMatchFrom(BuiltinRules, k, name)
    case Some(a) => Perform(h, a, name)
    case None => DefaultRatio
  }

  /** The scan, one rule at a time, through the OpenAI and Anthropic rules. */
  lemma ScanOpenAIAndClaude(h: Helpers, name: string)
    ensures RuleRatioFrom(h, name, 0) == if OpenAIName(name) then h.openAI(name) else RuleRatioFrom(h, name, 1)
    ensures RuleRatioFrom(h, name, 1) == if Contains(name, "claude-3") then 5.0 else RuleRatioFrom(h, name, 2)
    ensures RuleRatioFrom(h, name, 2) == if Contains(name, "claude-2") || Contains(name, "claude-instant-1") then 3.0 else RuleRatioFrom(h, name, 3)
  {
    var rs := BuiltinRules;
    assert PatternMatches(rs[0].guard[0], name) <==> HasPrefix(name, "gpt");
    assert PatternMatches(rs[0].guard[1], name) <==> HasPrefix(name, "chatgpt");
    assert PatternMatches(rs[0].guard[2], name) <==> HasPrefix(name, "o1");
    assert Fires(rs[1], name) <==> PatternMatches(rs[1].guard[0], name) by {
      assert |rs[1].guard| == 1;
    }
    assert PatternMatches(rs[2].guard[0], name) <==> Contains(name, "claude-2");
    assert PatternMatches(rs[2].guard[1], name) <==> Contains(name, "claude-instant-1");
  }

  /** The scan, one rule at a time, through the Mistral, Gemini, Cohere, Deepseek and ERNIE rules. */
  lemma ScanVendorPrefixes(h: Helpers, name: string)
    ensures RuleRatioFrom(h, name, 3) == if HasPrefix(name, "mistral-") then 3.0 else RuleRatioFrom(h, name, 4)
    ensures RuleRatioFrom(h, name, 4) == if HasPrefix(name, "gemini-") then 4.0 else RuleRatioFrom(h, name, 5)
    ensures RuleRatioFrom(h, name, 5) == if HasPrefix(name, "command") then h.cohere(name) else RuleRatioFrom(h, name, 6)
    ensures RuleRatioFrom(h, name, 6) == if HasPrefix(name, "deepseek") then 2.0 else RuleRatioFrom(h, name, 7)
    ensures RuleRatioFrom(h, name, 7) == if HasPrefix(name, "ERNIE-") then h.ernie(name) else RuleRatioFrom(h, name, 8)
  {
    var rs := BuiltinRules;
    assert Fires(rs[3], name) <==> PatternMatches(rs[3].guard[0], name) by {
      assert |rs[3].guard| == 1;
    }
    assert Fires(rs[4], name) <==> PatternMatches(rs[4].guard[0], name) by {
      assert |rs[4].guard| == 1;
    }
    assert Fires(rs[5], name) <==> PatternMatches(rs[5].guard[0], name) by {
      assert |rs[5].guard| == 1;
    }
    assert Fires(rs[6], name) <==> PatternMatches(rs[6].guard[0], name) by {
      assert |rs[6].guard| == 1;
    }
    assert Fires(rs[7], name) <==> PatternMatches(rs[7].guard[0], name) by {
      assert |rs[7].guard| == 1;
    }
  }

  /** The scan through the Llama names; past the last rule the default applies. */
  lemma ScanLlama(h: Helpers, name: string)
    ensures RuleRatioFrom(h, name, 8) == if name == "llama2-70b-4096" then 0.8 / 0.64 else RuleRatioFrom(h, name, 9)
    ensures RuleRatioFrom(h, name, 9) == if name == "llama3-8b-8192" then 2.0 else RuleRatioFrom(h, name, 10)
    ensures RuleRatioFrom(h, name, 10) == if name == "llama3-70b-8192" then 0.79 / 0.59 else RuleRatioFrom(h, name, 11)
    ensures RuleRatioFrom(h, name, 11) == DefaultRatio
  {
    var rs := BuiltinRules;
    assert Fires(rs[8], name) <==> PatternMatches(rs[8].guard[0], name) by {
      assert |rs[8].guard| == 1;
    }
    assert Fires(rs[9], name) <==> PatternMatches(rs[9].guard[0], name) by {
      assert |rs[9].guard| == 1;
    }
    assert Fires(rs[10], name) <==> PatternMatches(rs[10].guard[0], name) by {
      assert |rs[10].guard| == 1;
    }
  }

  /** The Go code's `if` cascade and the ordered rule list agree on every name and table. */
  lemma CascadeFollowsRules(overrides: Store<real>, h: Helpers, name: string)
    ensures GetCompletionRatio(overrides, h, name) == ResolveByRules(overrides, h, name)
  {
    ScanOpenAIAndClaude(h, name);
    ScanVendorPrefixes(h, name);
    ScanLlama(h, name);
  }

  // ---------------------------------------------------------------------------
  // The override table and its lazy default.
  // ---------------------------------------------------------------------------

  /**
   `GetCompletionRatioMap`: installs the compiled-in table when the variable is
   still nil. `GetCompletionRatio` itself never does this.
   */
  function GetCompletionRatioMap(overrides: Store<real>): (r: Loaded<real>)
    ensures r.store == Some(r.table)
    ensures overrides.None? ==> r.table == DefaultCompletionRatio
    ensures overrides.Some? ==> r.store == overrides
  {
    LoadOrDefault(overrides, DefaultCompletionRatio)
  }

  /** An override that does not qualify is as good as no override table at all. */
  lemma NonQualifyingOverrideFallsThrough(overrides: Store<real>, h: Helpers, name: string)
    requires !QualifyingOverride(overrides, name)
    ensures GetCompletionRatio(overrides, h, name) == GetCompletionRatio(None, h, name)
  {
  }

  /**
   A successful update decides the ratio of every name by the new payload alone:
   a positive entry wins, anything else falls to the built-in rules, whatever the
   table held before.
   */
  lemma UpdateThenCompletionRatio(prior: Store<real>, payload: map<string, real>, h: Helpers, name: string)
    ensures var after := Replace(prior, Decoded(Some(payload))).store;
      && (name in payload && payload[name] > 0.0 ==> GetCompletionRatio(after, h, name) == payload[name])
      && (name !in payload || payload[name] <= 0.0 ==> GetCompletionRatio(after, h, name) == GetCompletionRatio(None, h, name))
  {
  }

  /**
   The nil table is no override table: before `GetCompletionRatioMap` runs,
   `gpt-4-all` goes to the OpenAI helper; afterwards its default entry 2 wins.
   */
  lemma DefaultsOnlyAfterMapAccess(h: Helpers)
    ensures GetCompletionRatio(None, h, "gpt-4-all") == h.openAI("gpt-4-all")
    ensures GetCompletionRatio(GetCompletionRatioMap(None).store, h, "gpt-4-all") == 2.0
  {
  }

  /**
   No gizmo normalisation: with the default table installed, the wildcard key
   itself gets its entry, but a concrete gizmo name is not rewritten to it and
   goes to the OpenAI helper.
   */
  lemma GizmoNamesNotNormalised(h: Helpers)
    ensures GetCompletionRatio(Some(DefaultCompletionRatio), h, "gpt-4-gizmo-*") == 2.0
    ensures GetCompletionRatio(Some(DefaultCompletionRatio), h, "gpt-4-gizmo-abc123") == h.openAI("gpt-4-gizmo-abc123")
    ensures GetCompletionRatio(Some(DefaultCompletionRatio), h, "gpt-4o-gizmo-xyz") == h.openAI("gpt-4o-gizmo-xyz")
  {
  }

  // ---------------------------------------------------------------------------
  // Precedence among the built-in rules.
  // ---------------------------------------------------------------------------

  /** `claude-3` is checked before `claude-2`: a name containing both gets 5. */
  lemma ClaudeThreeBeforeClaudeTwo(overrides: Store<real>, h: Helpers, name: string)
    requires !QualifyingOverride(overrides, name) && !OpenAIName(name)
    requires Contains(name, "claude-3")
    ensures GetCompletionRatio(overrides, h, name) == 5.0
  {
  }

  /** The vendor-prefix families and their constants, each reached only when nothing earlier fired. */
  lemma VendorPrefixFamilies(overrides: Store<real>, h: Helpers, name: string)
    requires !QualifyingOverride(overrides, name) && !OpenAIName(name)
    requires !Contains(name, "claude-3") && !Contains(name, "claude-2") && !Contains(name, "claude-instant-1")
    ensures HasPrefix(name, "mistral-") ==> GetCompletionRatio(overrides, h, name) == 3.0
    ensures HasPrefix(name, "gemini-") ==> GetCompletionRatio(overrides, h, name) == 4.0
    ensures HasPrefix(name, "command") ==> GetCompletionRatio(overrides, h, name) == h.cohere(name)
    ensures HasPrefix(name, "deepseek") ==> GetCompletionRatio(overrides, h, name) == 2.0
    ensures HasPrefix(name, "ERNIE-") ==> GetCompletionRatio(overrides, h, name) == h.ernie(name)
  {
  }

  /**
   A name whose first character begins none of the family prefixes has none of
   them (the Anthropic markers are substrings and are not covered here).
   */
  lemma NoFamilyPrefix(name: string)
    requires |name| > 0 && name[0] !in "gcomdE"
    ensures !OpenAIName(name)
    ensures !HasPrefix(name, "mistral-") && !HasPrefix(name, "gemini-") && !HasPrefix(name, "command")
    ensures !HasPrefix(name, "deepseek") && !HasPrefix(name, "ERNIE-")
  {
  }

  /** A name lacking a character common to all three Anthropic markers contains none of them. */
  lemma NoClaudeWithout(name: string, c: char)
    requires c in "claude-" && c !in name
    ensures !Contains(name, "claude-3") && !Contains(name, "claude-2") && !Contains(name, "claude-instant-1")
  {
    MissingCharNeverContains(name, "claude-3", c);
    MissingCharNeverContains(name, "claude-2", c);
    MissingCharNeverContains(name, "claude-instant-1", c);
  }

  /** `llama2-70b-4096`: 0.8 / 0.64, that is 1.25. */
  lemma LlamaTwoSeventyB(overrides: Store<real>, h: Helpers)
    requires !QualifyingOverride(overrides, "llama2-70b-4096")
    ensures GetCompletionRatio(overrides, h, "llama2-70b-4096") == 1.25
  {
    NoFamilyPrefix("llama2-70b-4096");
    NoClaudeWithout("llama2-70b-4096", 'c');
  }

  /** `llama3-8b-8192`: 2. */
  lemma LlamaThreeEightB(overrides: Store<real>, h: Helpers)
    requires !QualifyingOverride(overrides, "llama3-8b-8192")
    ensures GetCompletionRatio(overrides, h, "llama3-8b-8192") == 2.0
  {
    NoFamilyPrefix("llama3-8b-8192");
    NoClaudeWithout("llama3-8b-8192", 'c');
  }

  /** `llama3-70b-8192`: 0.79 / 0.59, that is 79 / 59. */
  lemma LlamaThreeSeventyB(overrides: Store<real>, h: Helpers)
    requires !QualifyingOverride(overrides, "llama3-70b-8192")
    ensures GetCompletionRatio(overrides, h, "llama3-70b-8192") == 79.0 / 59.0
  {
    NoFamilyPrefix("llama3-70b-8192");
    NoClaudeWithout("llama3-70b-8192", 'c');
  }

  /** `foo-bar` matches no rule and gets the default 1. */
  lemma UnknownNameGetsDefault(overrides: Store<real>, h: Helpers)
    requires !QualifyingOverride(overrides, "foo-bar")
    ensures GetCompletionRatio(overrides, h, "foo-bar") == DefaultRatio
  {
    NoFamilyPrefix("foo-bar");
    NoClaudeWithout("foo-bar", 'c');
  }

  /** `claude-3-opus`: 5. */
  lemma ClaudeThreeOpus(overrides: Store<real>, h: Helpers)
    requires !QualifyingOverride(overrides, "claude-3-opus")
    ensures GetCompletionRatio(overrides, h, "claude-3-opus") == 5.0
  {
    MismatchNotPrefix("claude-3-opus", "gpt", 0);
    MismatchNotPrefix("claude-3-opus", "chatgpt", 1);
    MismatchNotPrefix("claude-3-opus", "o1", 0);
    assert HasPrefix("claude-3-opus", "claude-3");
  }

  /** `claude-2.1`: 3. */
  lemma ClaudeTwoPointOne(overrides: Store<real>, h: Helpers)
    requires !QualifyingOverride(overrides, "claude-2.1")
    ensures GetCompletionRatio(overrides, h, "claude-2.1") == 3.0
  {
    MismatchNotPrefix("claude-2.1", "gpt", 0);
    MismatchNotPrefix("claude-2.1", "chatgpt", 1);
    MismatchNotPrefix("claude-2.1", "o1", 0);
    MissingCharNeverContains("claude-2.1", "claude-3", '3');
    assert HasPrefix("claude-2.1", "claude-2");
  }

  /** `deepseek-chat`: 2. */
  lemma DeepseekChat(overrides: Store<real>, h: Helpers)
    requires !QualifyingOverride(overrides, "deepseek-chat")
    ensures GetCompletionRatio(overrides, h, "deepseek-chat") == 2.0
  {
    MismatchNotPrefix("deepseek-chat", "gpt", 0);
    MismatchNotPrefix("deepseek-chat", "chatgpt", 0);
    MismatchNotPrefix("deepseek-chat", "o1", 0);
    MismatchNotPrefix("deepseek-chat", "mistral-", 0);
    MismatchNotPrefix("deepseek-chat", "gemini-", 0);
    MismatchNotPrefix("deepseek-chat", "command", 0);
    NoClaudeWithout("deepseek-chat", 'u');
    assert HasPrefix("deepseek-chat", "deepseek");
  }

  /** Past the `claude-3` test, a name containing `claude-2` or `claude-instant-1` gets 3. */
  lemma ClaudeTwoGivesThree(overrides: Store<real>, h: Helpers, name: string)
    requires !QualifyingOverride(overrides, name) && !OpenAIName(name)
    requires !Contains(name, "claude-3")
    requires Contains(name, "claude-2") || Contains(name, "claude-instant-1")
    ensures GetCompletionRatio(overrides, h, name) == 3.0
  {
  }

  /** Every name that fires no built-in rule, and has no qualifying override, gets 1. */
  lemma NoRuleGivesOne(overrides: Store<real>, h: Helpers, name: string)
    requires !QualifyingOverride(overrides, name)
    requires NoneFiresBefore(BuiltinRules, |BuiltinRules|, name)
    ensures GetCompletionRatio(overrides, h, name) == DefaultRatio
  {
    CascadeFollowsRules(overrides, h, name);
    NoMatchFallsThrough(BuiltinRules, name);
  }
}
