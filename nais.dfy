/**
 * The allow-list of caller applications, read once at start-up from the
 * `accessPolicy.inbound.rules` of the embedded nais.yaml.
 */
module Nais {
  import opened Wrappers

  /** One inbound access rule; a rule without an `application` key decodes to "". */
  datatype Rule = Rule(application: string)

  datatype PanicReason = ParseFailure(detail: string) | NoInboundApplications

  /** What the package initialiser leaves behind: the allow-list, or a panic. */
  datatype InitOutcome = Loaded(inboundApps: seq<string>) | Panicked(reason: PanicReason)

  /** The `application` values of `rules`, in document order. */
  function Applications(rules: seq<Rule>): (apps: seq<string>)
    ensures |apps| == |rules|
    ensures forall i :: 0 <= i < |rules| ==> apps[i] == rules[i].application
  {
    seq(|rules|, i requires 0 <= i < |rules| => rules[i].application)
  }

  /** The non-empty `application` values of `rules`, in document order, duplicates kept. */
  function NonEmptyApplications(rules: seq<Rule>): seq<string>
  {
    if rules == [] then []
    else
      var last := rules[|rules| - 1].application;
      NonEmptyApplications(rules[..|rules| - 1]) + (if last != "" then [last] else [])
  }

  /** The filter keeps document order: it distributes over concatenation of rule lists. */
  lemma {:induction false} NonEmptyApplicationsAppend(a: seq<Rule>, b: seq<Rule>)
    ensures NonEmptyApplications(a + b) == NonEmptyApplications(a) + NonEmptyApplications(b)
    decreases |b|
  {
    if b == [] {
      assert a + b == a;
    } else {
      var b' := b[..|b| - 1];
      assert (a + b)[..|a + b| - 1] == a + b';
      NonEmptyApplicationsAppend(a, b');
    }
  }

  /** Every element of the filtered list is non-empty and is the application of some rule. */
  lemma {:induction false} NonEmptyApplicationsElements(rules: seq<Rule>)
    ensures forall app :: app in NonEmptyApplications(rules) ==> app != ""
    ensures forall app :: app in NonEmptyApplications(rules) <==> app != "" && app in Applications(rules)
  {
    if rules != [] {
      var init := rules[..|rules| - 1];
      NonEmptyApplicationsElements(init);
      ApplicationsLast(rules);
    }
  }

  /**
   * Duplicates are kept and only empty names are dropped: every non-empty
   * name occurs in the allow-list exactly as often as among the rules.
   */
  lemma {:induction false} NonEmptyApplicationsCounts(rules: seq<Rule>)
    ensures multiset(NonEmptyApplications(rules))[""] == 0
    ensures forall app :: app != "" ==>
      multiset(NonEmptyApplications(rules))[app] == multiset(Applications(rules))[app]
  {
    if rules != [] {
      var init := rules[..|rules| - 1];
      var last := rules[|rules| - 1].application;
      NonEmptyApplicationsCounts(init);
      ApplicationsLast(rules);
      var tail := if last != "" then [last] else [];
      assert multiset(NonEmptyApplications(rules)) == multiset(NonEmptyApplications(init)) + multiset(tail);
      forall app | app != ""
        ensures multiset(NonEmptyApplications(rules))[app] == multiset(Applications(rules))[app]
      {
        assert multiset(tail)[app] == multiset{last}[app];
      }
    }
  }

  /** The application names of a non-empty rule list: those of all but the last rule, then the last one's. */
  lemma ApplicationsLast(rules: seq<Rule>)
    requires rules != []
    ensures Applications(rules) == Applications(rules[..|rules| - 1]) + [rules[|rules| - 1].application]
    ensures multiset(Applications(rules)) ==
      multiset(Applications(rules[..|rules| - 1])) + multiset{rules[|rules| - 1].application}
  {
    assert Applications(rules) == Applications(rules[..|rules| - 1]) + [rules[|rules| - 1].application];
  }

  /**
   * The package initialiser: a YAML parse failure panics before any
   * application is collected; otherwise the loop appends every non-empty
   * application name, and an empty result panics.
   */
  method Init(parsed: Result<seq<Rule>, string>) returns (r: InitOutcome)
    ensures parsed.Failure? ==> r == Panicked(ParseFailure(parsed.error))
    ensures parsed.Success? && NonEmptyApplications(parsed.value) == [] ==> r == Panicked(NoInboundApplications)
    ensures parsed.Success? && NonEmptyApplications(parsed.value) != [] ==> r == Loaded(NonEmptyApplications(parsed.value))
    ensures r.Loaded? ==> r.inboundApps != [] && forall i :: 0 <= i < |r.inboundApps| ==> r.inboundApps[i] != ""
  {
    if parsed.Failure? {
      return Panicked(ParseFailure(parsed.error));
    }
    var rules := parsed.value;
    var inboundApps: seq<string> := [];
    for i := 0 to |rules|
      invariant inboundApps == NonEmptyApplications(rules[..i])
    {
      assert rules[..i + 1][..i] == rules[..i];
      if rules[i].application != "" {
        inboundApps := inboundApps + [rules[i].application];
      }
    }
    assert rules[..|rules|] == rules;
    if |inboundApps| == 0 {
      return Panicked(NoInboundApplications);
    }
    NonEmptyApplicationsElements(rules);
    assert forall i :: 0 <= i < |inboundApps| ==> inboundApps[i] in NonEmptyApplications(rules);
    return Loaded(inboundApps);
  }
}
