/** The matchup parameters after resolution, and the domain post-validation that
    checks the pitcher and every batter against the allow-list of player names
    (BaseballParams.post_validate, post_validate_pitcher, post_validate_batter). */
module Params {
  import opened Wrappers

  /** Messages per parameter name, as a parameter object's error store holds them. */
  type ErrorMap = map<string, seq<string>>

  /** A validation error as raised: one parameter name and its messages. */
  datatype ValidationError = ValidationError(key: string, messages: seq<string>)

  /** How post-validation ends: an error raised in fail-fast mode, or the error
      store as it stands afterwards. */
  datatype Outcome = Raised(error: ValidationError) | Completed(errors: ErrorMap)

  /** The resolved values that post-validation and the analysis read. Dates are
      day numbers in their natural order. */
  datatype Specification = Specification(pitcher: string, batters: seq<string>, startDate: int, endDate: int)

  const MessagePrefix: string := "ERROR: "
  const MessageSuffix: string := "\" not allowed."

  /** The rejection message for a player in a role: ERROR: <role> "<name>" not allowed. */
  function Message(role: string, name: string): string
  {
    MessagePrefix + role + " \"" + name + MessageSuffix
  }

  function PitcherMessage(name: string): string { Message("Pitcher", name) }

  function BatterMessage(name: string): string { Message("Batter", name) }

  /** The player name a rejection message for `role` is about. */
  function NameOf(role: string, msg: string): string
  {
    var start := |MessagePrefix| + |role| + 2;
    if start + |MessageSuffix| <= |msg| then msg[start .. |msg| - |MessageSuffix|] else ""
  }

  /** A message names the rejected player: NameOf inverts Message. */
  lemma NameOfMessage(role: string, name: string)
    ensures NameOf(role, Message(role, name)) == name
  {
    var m := Message(role, name);
    var start := |MessagePrefix| + |role| + 2;
    assert m == (MessagePrefix + role + " \"") + name + MessageSuffix;
    assert |MessagePrefix + role + " \""| == start;
    assert m[start .. |m| - |MessageSuffix|] == name;
  }

  /** Distinct players get distinct messages. */
  lemma MessageInjective(role: string, a: string, b: string)
    ensures Message(role, a) == Message(role, b) <==> a == b
  {
    if Message(role, a) == Message(role, b) {
      NameOfMessage(role, a);
      NameOfMessage(role, b);
    }
  }

  /** The pitcher check: no error for an allowed pitcher, otherwise one message
      under the key "pitcher". */
  function CheckPitcher(pitcher: string, choices: set<string>): Option<ValidationError>
  {
    if pitcher in choices then None else Some(ValidationError("pitcher", [PitcherMessage(pitcher)]))
  }

  /** One message per batter outside the allow-list, in input order. */
  function BatterErrors(batters: seq<string>, choices: set<string>): (r: seq<string>)
    ensures |r| <= |batters|
    ensures r == [] <==> forall b :: b in batters ==> b in choices
  {
    if batters == [] then []
    else
      var last := batters[|batters| - 1];
      assert batters == batters[..|batters| - 1] + [last];
      BatterErrors(batters[..|batters| - 1], choices) + (if last in choices then [] else [BatterMessage(last)])
  }

  /** The batter check: one error under the key "batter" holding every message,
      and only when some batter is rejected. */
  function CheckBatters(batters: seq<string>, choices: set<string>): Option<ValidationError>
  {
    var errs := BatterErrors(batters, choices);
    if errs == [] then None else Some(ValidationError("batter", errs))
  }

  /** format_errors: the error's messages are stored under its key. */
  function Recorded(errors: ErrorMap, ve: ValidationError): ErrorMap
  {
    errors[ve.key := ve.messages]
  }

  /** Collect mode: a check's error, if any, is folded into the store. */
  function Fold(errors: ErrorMap, ve: Option<ValidationError>): ErrorMap
  {
    match ve
    case None => errors
    case Some(v) => Recorded(errors, v)
  }

  /** post_validate: the pitcher check, then the batter check. Fail-fast mode
      raises the first error; collect mode folds both into the store. */
  function PostValidation(pitcher: string, batters: seq<string>, choices: set<string>,
                          raiseErrors: bool, errors: ErrorMap): Outcome
  {
    var pe := CheckPitcher(pitcher, choices);
    if raiseErrors then
      if pe.Some? then Raised(pe.value)
      else
        var be := CheckBatters(batters, choices);
        if be.Some? then Raised(be.value) else Completed(errors)
    else
      Completed(Fold(Fold(errors, pe), CheckBatters(batters, choices)))
  }

  // ----- properties of the batter messages -----

  /** The messages of a concatenation are the messages of its parts, in order. */
  lemma {:induction false} BatterErrorsAppend(a: seq<string>, b: seq<string>, choices: set<string>)
    ensures BatterErrors(a + b, choices) == BatterErrors(a, choices) + BatterErrors(b, choices)
    decreases |b|
  {
    if b == [] {
      assert a + b == a;
    } else {
      var b' := b[..|b| - 1];
      var last := b[|b| - 1];
      assert (a + b)[..|a + b| - 1] == a + b';
      assert (a + b)[|a + b| - 1] == last;
      BatterErrorsAppend(a, b', choices);
    }
  }

  /** Each name outside the allow-list yields as many messages as it has
      entries (repeats included); an allowed name yields none. */
  lemma {:induction false} BatterErrorsCount(batters: seq<string>, choices: set<string>, name: string)
    ensures multiset(BatterErrors(batters, choices))[BatterMessage(name)]
         == if name in choices then 0 else multiset(batters)[name]
  {
    if batters != [] {
      var init := batters[..|batters| - 1];
      var last := batters[|batters| - 1];
      assert batters == init + [last];
      BatterErrorsCount(init, choices, name);
      MessageInjective("Batter", last, name);
    }
  }

  /** Every message is about an entry of the batter list that is not allowed. */
  lemma {:induction false} BatterErrorsNameRejected(batters: seq<string>, choices: set<string>)
    ensures forall m :: m in BatterErrors(batters, choices) ==>
      m == BatterMessage(NameOf("Batter", m)) && NameOf("Batter", m) in batters && NameOf("Batter", m) !in choices
  {
    if batters != [] {
      var init := batters[..|batters| - 1];
      var last := batters[|batters| - 1];
      assert batters == init + [last];
      BatterErrorsNameRejected(init, choices);
      NameOfMessage("Batter", last);
    }
  }

  // ----- properties of the two modes -----

  /** Only allowed names: neither mode raises or records anything. */
  lemma AllowedNamesPass(pitcher: string, batters: seq<string>, choices: set<string>, raiseErrors: bool, errors: ErrorMap)
    requires pitcher in choices
    requires forall b :: b in batters ==> b in choices
    ensures PostValidation(pitcher, batters, choices, raiseErrors, errors) == Completed(errors)
  {
  }

  /** Fail-fast mode with a rejected pitcher raises the pitcher's single message
      and never looks at the batters. */
  lemma FailFastPitcher(pitcher: string, batters: seq<string>, other: seq<string>, choices: set<string>, errors: ErrorMap)
    requires pitcher !in choices
    ensures PostValidation(pitcher, batters, choices, true, errors)
         == Raised(ValidationError("pitcher", [PitcherMessage(pitcher)]))
    ensures PostValidation(pitcher, batters, choices, true, errors)
         == PostValidation(pitcher, other, choices, true, errors)
  {
  }

  /** Fail-fast mode with an allowed pitcher raises exactly when some batter is
      rejected, with all batter messages under one key. */
  lemma FailFastBatters(pitcher: string, batters: seq<string>, choices: set<string>, errors: ErrorMap)
    requires pitcher in choices
    ensures PostValidation(pitcher, batters, choices, true, errors).Raised?
        <==> exists b :: b in batters && b !in choices
    ensures PostValidation(pitcher, batters, choices, true, errors).Raised? ==>
      PostValidation(pitcher, batters, choices, true, errors).error
        == ValidationError("batter", BatterErrors(batters, choices))
  {
  }

  /** Collect mode never raises; it records the pitcher's message under
      "pitcher" and the batter messages under "batter" exactly when the checks
      fail, and leaves every other entry of the store as it was. */
  lemma CollectMode(pitcher: string, batters: seq<string>, choices: set<string>, errors: ErrorMap)
    ensures PostValidation(pitcher, batters, choices, false, errors).Completed?
    ensures var e := PostValidation(pitcher, batters, choices, false, errors).errors;
      && e.Keys == errors.Keys
           + (if pitcher in choices then {} else {"pitcher"})
           + (if BatterErrors(batters, choices) == [] then {} else {"batter"})
      && (pitcher !in choices ==> e["pitcher"] == [PitcherMessage(pitcher)])
      && (BatterErrors(batters, choices) != [] ==> e["batter"] == BatterErrors(batters, choices))
      && (forall k :: k in errors && k != "pitcher" && k != "batter" ==> e[k] == errors[k])
      && (pitcher in choices && "pitcher" in errors ==> e["pitcher"] == errors["pitcher"])
      && (BatterErrors(batters, choices) == [] && "batter" in errors ==> e["batter"] == errors["batter"])
  {
  }

  /** The loop of post_validate_batter: messages are appended in input order. */
  method CollectBatterErrors(batters: seq<string>, choices: set<string>) returns (errors: seq<string>)
    ensures errors == BatterErrors(batters, choices)
  {
    errors := [];
    for i := 0 to |batters|
      invariant errors == BatterErrors(batters[..i], choices)
    {
      if batters[i] !in choices {
        errors := errors + [BatterMessage(batters[i])];
      }
      assert batters[..i + 1][..i] == batters[..i];
    }
    assert batters[..|batters|] == batters;
  }

  /** A parameter object after resolution: the resolved pitcher and batters
      and the error store that collect mode writes into. */
  class BaseballParams {
    var pitcher: string
    var batters: seq<string>
    var errors: ErrorMap

    constructor (spec: Specification, errors: ErrorMap)
      ensures pitcher == spec.pitcher && batters == spec.batters && this.errors == errors
    {
      pitcher := spec.pitcher;
      batters := spec.batters;
      this.errors := errors;
    }

    /** format_errors: store the error's messages under its key. */
    method FormatErrors(ve: ValidationError)
      modifies this`errors
      ensures errors == Recorded(old(errors), ve)
    {
      errors := errors[ve.key := ve.messages];
    }

    method PostValidatePitcher(choices: set<string>, raiseErrors: bool) returns (raised: Option<ValidationError>)
      modifies this`errors
      ensures raised == (if raiseErrors then CheckPitcher(pitcher, choices) else None)
      ensures errors == (if raiseErrors then old(errors) else Fold(old(errors), CheckPitcher(pitcher, choices)))
    {
      raised := None;
      if pitcher !in choices {
        var ve := ValidationError("pitcher", [PitcherMessage(pitcher)]);
        if raiseErrors {
          raised := Some(ve);
        } else {
          FormatErrors(ve);
        }
      }
    }

    method PostValidateBatter(choices: set<string>, raiseErrors: bool) returns (raised: Option<ValidationError>)
      modifies this`errors
      ensures raised == (if raiseErrors then CheckBatters(batters, choices) else None)
      ensures errors == (if raiseErrors then old(errors) else Fold(old(errors), CheckBatters(batters, choices)))
    {
      raised := None;
      var messages := CollectBatterErrors(batters, choices);
      if messages != [] {
        var ve := ValidationError("batter", messages);
        if raiseErrors {
          raised := Some(ve);
        } else {
          FormatErrors(ve);
        }
      }
    }

    /** post_validate: a raised error ends validation at once. */
    method PostValidate(choices: set<string>, raiseErrors: bool) returns (raised: Option<ValidationError>)
      modifies this`errors
      ensures raised.Some? ==> errors == old(errors)
      ensures PostValidation(pitcher, batters, choices, raiseErrors, old(errors))
           == if raised.Some? then Raised(raised.value) else Completed(errors)
    {
      raised := PostValidatePitcher(choices, raiseErrors);
      if raised.None? {
        raised := PostValidateBatter(choices, raiseErrors);
      }
    }
  }
}
