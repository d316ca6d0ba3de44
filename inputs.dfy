/** parse_inputs: apply the caller's adjustments to a fresh parameter object,
    run the allow-list checks and merge the parameter errors into the
    caller's errors-and-warnings store. */
module Inputs {
  import opened Wrappers
  import opened Params

  /** One section of the caller's store: its "errors" and "warnings" maps. */
  datatype Section = Section(errors: ErrorMap, warnings: ErrorMap)

  /** The section parse_inputs writes to. */
  const MatchupSection := "matchup"

  /** dict.update: every key of `incoming` takes its new value, every other
      key keeps its old one, and no key is dropped. */
  function Merge(current: ErrorMap, incoming: ErrorMap): (r: ErrorMap)
    ensures r.Keys == current.Keys + incoming.Keys
    ensures forall k :: k in incoming ==> r[k] == incoming[k]
    ensures forall k :: k in current && k !in incoming ==> r[k] == current[k]
    ensures incoming == map[] ==> r == current
  {
    current + incoming
  }

  /** The store after merging `incoming` into the errors of section `name`:
      the section's warnings and every other section are left as they were. */
  function MergedInto(sections: map<string, Section>, name: string, incoming: ErrorMap): (r: map<string, Section>)
    requires name in sections
    ensures r.Keys == sections.Keys
    ensures r[name].warnings == sections[name].warnings
    ensures r[name].errors.Keys == sections[name].errors.Keys + incoming.Keys
    ensures forall s :: s in sections && s != name ==> r[s] == sections[s]
  {
    sections[name := sections[name].(errors := Merge(sections[name].errors, incoming))]
  }

  /** Merging the same errors twice is merging them once. */
  lemma MergeIdempotent(current: ErrorMap, incoming: ErrorMap)
    ensures Merge(Merge(current, incoming), incoming) == Merge(current, incoming)
  {
    var once := Merge(current, incoming);
    var twice := Merge(once, incoming);
    assert twice.Keys == once.Keys;
    forall k | k in once ensures twice[k] == once[k] {
      if k !in incoming {
        assert k in current;
      }
    }
  }

  /** The caller's errors_warnings dictionary, updated in place. */
  class ErrorsWarnings {
    var sections: map<string, Section>

    constructor (sections: map<string, Section>)
      ensures this.sections == sections
    {
      this.sections := sections;
    }

    /** errors_warnings[name]["errors"].update(incoming) */
    method UpdateErrors(name: string, incoming: ErrorMap)
      requires name in sections
      modifies this
      ensures sections == MergedInto(old(sections), name, incoming)
    {
      var section := sections[name];
      sections := sections[name := section.(errors := Merge(section.errors, incoming))];
    }
  }

  /** parse_inputs as written: `adjusted` and `adjustErrors` are what the
      parameter library's adjust produced from the caller's inputs. The checks
      run in fail-fast mode, so a rejected name raises out of parse_inputs and
      the store is left untouched; otherwise the adjust errors are merged. */
  method ParseInputs(adjusted: Specification, adjustErrors: ErrorMap, choices: set<string>, ew: ErrorsWarnings)
    returns (raised: Option<ValidationError>)
    requires MatchupSection in ew.sections
    modifies ew
    ensures PostValidation(adjusted.pitcher, adjusted.batters, choices, true, adjustErrors)
         == if raised.Some? then Raised(raised.value) else Completed(adjustErrors)
    ensures raised.Some? ==> ew.sections == old(ew.sections)
    ensures raised.None? ==> ew.sections == MergedInto(old(ew.sections), MatchupSection, adjustErrors)
  {
    var params := new BaseballParams(adjusted, adjustErrors);
    raised := params.PostValidate(choices, true);
    if raised.None? {
      ew.UpdateErrors(MatchupSection, params.errors);
    }
  }

  /** The errors collect mode hands to the merge: the store post-validation
      completes with when it does not raise. */
  function CollectedErrors(adjusted: Specification, adjustErrors: ErrorMap, choices: set<string>): ErrorMap
  {
    PostValidation(adjusted.pitcher, adjusted.batters, choices, false, adjustErrors).errors
  }

  /** parse_inputs as evidently intended: the checks run in collect mode and
      every allow-list error is merged into the caller's store. */
  method ParseInputsCollecting(adjusted: Specification, adjustErrors: ErrorMap, choices: set<string>, ew: ErrorsWarnings)
    requires MatchupSection in ew.sections
    modifies ew
    ensures ew.sections == MergedInto(old(ew.sections), MatchupSection, CollectedErrors(adjusted, adjustErrors, choices))
  {
    var params := new BaseballParams(adjusted, adjustErrors);
    var raised := params.PostValidate(choices, false);
    ew.UpdateErrors(MatchupSection, params.errors);
  }

  /** As written, any rejected name raises, and parse_inputs then merges
      nothing: the caller's store never sees the allow-list message. */
  lemma RaiseModeLosesErrors(adjusted: Specification, adjustErrors: ErrorMap, choices: set<string>)
    ensures PostValidation(adjusted.pitcher, adjusted.batters, choices, true, adjustErrors).Raised?
        <==> adjusted.pitcher !in choices || exists b :: b in adjusted.batters && b !in choices
  {
    if adjusted.pitcher in choices {
      FailFastBatters(adjusted.pitcher, adjusted.batters, choices, adjustErrors);
    }
  }

  /** The input that shows it: allowed pitcher "A", one batter "B" outside the
      allow-list. As written the batter error escapes as an exception; in
      collect mode it lands under "batter" in the caller's store. */
  lemma RejectedBatterExample()
    ensures PostValidation("A", ["B"], {"A"}, true, map[])
         == Raised(ValidationError("batter", ["ERROR: Batter \"B\" not allowed."]))
    ensures Merge(map[], CollectedErrors(Specification("A", ["B"], 0, 1), map[], {"A"}))
         == map["batter" := ["ERROR: Batter \"B\" not allowed."]]
  {
    assert "B" !in {"A"} by { assert "B"[0] != "A"[0]; }
    assert BatterMessage("B") == "ERROR: Batter \"B\" not allowed.";
    assert BatterErrors(["B"], {"A"}) == [BatterMessage("B")] by {
      assert ["B"][..0] == [];
    }
  }

  /** Corrected: after the merge the caller's store holds the pitcher's
      message exactly when the pitcher is rejected, every batter message in
      input order exactly when some batter is rejected, and every other error
      it held before unless the adjust errors replaced it. */
  lemma CollectingReportsEveryRejection(adjusted: Specification, adjustErrors: ErrorMap, choices: set<string>,
                                        current: ErrorMap)
    ensures var merged := Merge(current, CollectedErrors(adjusted, adjustErrors, choices));
      && (adjusted.pitcher !in choices ==> merged["pitcher"] == [PitcherMessage(adjusted.pitcher)])
      && ((exists b :: b in adjusted.batters && b !in choices) ==>
            merged["batter"] == BatterErrors(adjusted.batters, choices))
      && (forall k :: k in current && k !in adjustErrors && k != "pitcher" && k != "batter" ==> merged[k] == current[k])
      && (forall k :: k in adjustErrors && k != "pitcher" && k != "batter" ==> merged[k] == adjustErrors[k])
  {
    CollectMode(adjusted.pitcher, adjusted.batters, choices, adjustErrors);
  }
}
