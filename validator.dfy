/** The rule engine of the HTTP validation package: pipe-separated rule
    strings checked field by field, stopping at a field's first failing rule,
    with the messages collected in an error bag. */
module Validation {
  import opened Strings
  import opened Wrappers

  type Data = map<string, string>

  /** Go's `data[key]` on a `map[string]string`: a missing key reads as "". */
  function Get(data: Data, key: string): string
  {
    if key in data then data[key] else ""
  }

  // ---------------------------------------------------------------------------
  // Rules whose check is a library call
  // ---------------------------------------------------------------------------

  /** The verdicts of the rules that rest on Go library code: float parsing
      (`numeric`, and the comparisons of `gt`, `gte`, `lt`, `lte`, where a
      string that does not parse reads as 0), RFC 5322 address parsing
      (`email`) and the regular-expression engine (`regex`, false also when
      the pattern does not compile). */
  datatype Foreign = Foreign(
    isNumber: string -> bool,
    isEmail: string -> bool,
    regexMatches: (string, string) -> bool,
    floatLe: (string, string) -> bool,
    floatLt: (string, string) -> bool)

  // ---------------------------------------------------------------------------
  // One rule
  // ---------------------------------------------------------------------------

  /** The outcome of one rule: it passes, it fails with a message, or it
      stops the field silently (`sometimes` on an empty value). */
  datatype Verdict = Pass | Fail(message: string) | Stop

  predicate IsAsciiLetter(c: char) { 'a' <= c <= 'z' || 'A' <= c <= 'Z' }
  predicate IsAsciiAlnum(c: char) { IsAsciiLetter(c) || IsDigit(c) }
  predicate IsAsciiDash(c: char) { IsAsciiAlnum(c) || c == '_' || c == '-' }

  /** ASCII lower-casing. For the six words of the `boolean` rule this gives
      the same verdict as Go's Unicode `strings.ToLower`: the only non-ASCII
      characters Go lowers to ASCII letters lower to 'i' and 'k', which occur
      in none of them. */
  function AsciiLower(s: string): (r: string)
    ensures |r| == |s|
  {
    if s == [] then []
    else [if 'A' <= s[0] <= 'Z' then (s[0] as int + 32) as char else s[0]] + AsciiLower(s[1..])
  }

  /** Each upper-case ASCII letter becomes its lower-case letter; every
      other character stays. */
  lemma {:induction false} AsciiLowerAt(s: string)
    ensures forall i :: 0 <= i < |s| ==>
      AsciiLower(s)[i] == if 'A' <= s[i] <= 'Z' then (s[i] as int + 32) as char else s[i]
    decreases |s|
  {
    if s != [] {
      AsciiLowerAt(s[1..]);
      assert forall i :: 1 <= i < |s| ==> AsciiLower(s)[i] == AsciiLower(s[1..])[i - 1];
    }
  }

  /** The regular expression `^https?://`. */
  predicate HasUrlScheme(s: string)
  {
    "http://" <= s || "https://" <= s
  }

  /** Some comma-separated entry of `param`, trimmed, equals `value`. */
  predicate Listed(value: string, param: string)
  {
    var entries := Split(param, ',');
    exists i :: 0 <= i < |entries| && TrimSpace(entries[i]) == value
  }

  /** The count bound of `min`, `max` and `size`: `Atoi(param)`. It is 0
      when a character that is not a digit comes before the value leaves 64
      bits, and the 64-bit bound on the side of the sign when the digits
      overflow first (whatever follows them). */
  function Bound(param: string): int
  {
    Atoi(param).value
  }

  /** What `applyRule` decides for rule `name` with parameter `param` on the
      value of `field`. An unknown name passes. */
  function RuleVerdict(foreign: Foreign, data: Data, field: string, value: string,
                       name: string, param: string): Verdict
  {
    if name == "required" then
      if TrimSpace(value) == "" then Fail("The " + field + " field is required.") else Pass
    else if name == "numeric" then
      if !foreign.isNumber(value) then Fail("The " + field + " must be a number.") else Pass
    else if name == "integer" then
      if !Atoi(value).ok then Fail("The " + field + " must be an integer.") else Pass
    else if name == "boolean" then
      if AsciiLower(value) !in {"true", "false", "1", "0", "yes", "no"}
      then Fail("The " + field + " field must be true or false.") else Pass
    else if name == "email" then
      if !foreign.isEmail(value) then Fail("The " + field + " must be a valid email address.") else Pass
    else if name == "url" then
      if !HasUrlScheme(value) then Fail("The " + field + " must be a valid URL.") else Pass
    else if name == "min" then
      if |value| < Bound(param)
      then Fail("The " + field + " must be at least " + FormatInt(Bound(param)) + " characters.") else Pass
    else if name == "max" then
      if |value| > Bound(param)
      then Fail("The " + field + " may not be greater than " + FormatInt(Bound(param)) + " characters.") else Pass
    else if name == "size" then
      if |value| != Bound(param)
      then Fail("The " + field + " must be " + FormatInt(Bound(param)) + " characters.") else Pass
    else if name == "between" then
      var parts := Cut(param, ',');
      if !parts.found then Pass
      else
        var lo := Bound(TrimSpace(parts.before));
        var hi := Bound(TrimSpace(parts.after));
        if |value| < lo || |value| > hi
        then Fail("The " + field + " must be between " + FormatInt(lo) + " and " + FormatInt(hi) + " characters.")
        else Pass
    else if name == "in" then
      if !Listed(value, param) then Fail("The selected " + field + " is invalid.") else Pass
    else if name == "not_in" then
      if Listed(value, param) then Fail("The selected " + field + " is invalid.") else Pass
    else if name == "confirmed" then
      if Get(data, field + "_confirmation") != value
      then Fail("The " + field + " confirmation does not match.") else Pass
    else if name == "same" then
      if Get(data, param) != value then Fail("The " + field + " and " + param + " must match.") else Pass
    else if name == "different" then
      if Get(data, param) == value then Fail("The " + field + " and " + param + " must be different.") else Pass
    else if name == "alpha" then
      if !(value != [] && forall i :: 0 <= i < |value| ==> IsAsciiLetter(value[i]))
      then Fail("The " + field + " may only contain letters.") else Pass
    else if name == "alpha_num" then
      if !(value != [] && forall i :: 0 <= i < |value| ==> IsAsciiAlnum(value[i]))
      then Fail("The " + field + " may only contain letters and numbers.") else Pass
    else if name == "alpha_dash" then
      if !(value != [] && forall i :: 0 <= i < |value| ==> IsAsciiDash(value[i]))
      then Fail("The " + field + " may only contain letters, numbers, dashes and underscores.") else Pass
    else if name == "regex" then
      if !foreign.regexMatches(param, value) then Fail("The " + field + " format is invalid.") else Pass
    else if name == "sometimes" then
      if value == "" then Stop else Pass
    else if name == "gt" then
      if foreign.floatLe(value, param) then Fail("The " + field + " must be greater than " + param + ".") else Pass
    else if name == "gte" then
      if foreign.floatLt(value, param)
      then Fail("The " + field + " must be greater than or equal to " + param + ".") else Pass
    else if name == "lt" then
      if foreign.floatLe(param, value) then Fail("The " + field + " must be less than " + param + ".") else Pass
    else if name == "lte" then
      if foreign.floatLt(param, value)
      then Fail("The " + field + " must be less than or equal to " + param + ".") else Pass
    else
      // "string", "nullable" and every unknown name
      Pass
  }

  // ---------------------------------------------------------------------------
  // One field
  // ---------------------------------------------------------------------------

  /** The message a field's rules produce: the message of the first failing
      rule, or none when every rule passes or `sometimes` stops the field.
      Each piece is trimmed and empty pieces are skipped. */
  function RunRules(foreign: Foreign, data: Data, field: string, value: string,
                    pieces: seq<string>): Option<string>
    decreases |pieces|, 0
  {
    if pieces == [] then None
    else
      var rule := TrimSpace(pieces[0]);
      if rule == "" then RunRules(foreign, data, field, value, pieces[1..])
      else RunRule(foreign, data, field, value, rule, pieces[1..])
  }

  /** One non-empty rule, then the `rest` of the pieces if it passes. The
      name ends at the first ':' and the parameter is what follows. */
  function RunRule(foreign: Foreign, data: Data, field: string, value: string,
                   rule: string, rest: seq<string>): Option<string>
    decreases |rest|, 1
  {
    var c := Cut(rule, ':');
    Continue(RuleVerdict(foreign, data, field, value, c.before, c.after),
             RunRules(foreign, data, field, value, rest))
  }

  /** A field's outcome after a rule with verdict `v`, given the outcome
      `rest` of the rules after it: those count only when `v` passes. */
  function Continue(v: Verdict, rest: Option<string>): Option<string>
  {
    match v
    case Pass => rest
    case Fail(m) => Some(m)
    case Stop => None
  }

  function FieldOutcome(foreign: Foreign, data: Data, field: string, ruleString: string): Option<string>
  {
    RunRules(foreign, data, field, Get(data, field), Split(ruleString, '|'))
  }

  // ---------------------------------------------------------------------------
  // The error bag and one validation pass over it
  // ---------------------------------------------------------------------------

  type Bag = map<string, seq<string>>

  function Messages(bag: Bag, field: string): seq<string>
  {
    if field in bag then bag[field] else []
  }

  /** The first message of `field`, or "" when it has none. */
  function FirstMessage(bag: Bag, field: string): string
  {
    if field in bag && |bag[field]| > 0 then bag[field][0] else ""
  }

  /** `bag` with the message of `outcome`, if any, appended to `field`. */
  function WithOutcome(bag: Bag, field: string, outcome: Option<string>): Bag
  {
    if outcome.Some? then bag[field := Messages(bag, field) + [outcome.value]] else bag
  }

  /** The outcome of every field's rules. */
  function Outcomes(foreign: Foreign, data: Data, rules: map<string, string>): (m: map<string, Option<string>>)
    ensures m.Keys == rules.Keys
  {
    map f | f in rules :: FieldOutcome(foreign, data, f, rules[f])
  }

  /** What validating `fields` adds to the messages of `f`: the one message
      of its rules when `f` is among them and the rules fail, else nothing. */
  function Added(outcomes: map<string, Option<string>>, fields: set<string>, f: string): seq<string>
  {
    if f in fields && f in outcomes && outcomes[f].Some? then [outcomes[f].value] else []
  }

  /** The fields of `fields` whose rules fail. */
  function FailingKeys(outcomes: map<string, Option<string>>, fields: set<string>): set<string>
  {
    set f | f in fields && f in outcomes && outcomes[f].Some?
  }

  /** The bag once the fields of `fields` have been validated, starting from
      `bag`: each failing field gets its one message appended and nothing
      else changes. */
  function AfterFields(outcomes: map<string, Option<string>>, bag: Bag, fields: set<string>): Bag
  {
    map f | f in bag.Keys + FailingKeys(outcomes, fields) :: Messages(bag, f) + Added(outcomes, fields, f)
  }

  class Errors {
    var bag: Bag

    constructor ()
      ensures bag == map[]
    {
      bag := map[];
    }

    /** Appends `msg` to the messages of `field`. */
    method Add(field: string, msg: string)
      modifies this
      ensures bag == old(bag)[field := Messages(old(bag), field) + [msg]]
    {
      bag := bag[field := Messages(bag, field) + [msg]];
    }

    /** There is at least one field with messages. */
    function Has(): bool
      reads this
    {
      |bag| > 0
    }

    /** The first message of `field`, or "" when it has none. */
    function First(field: string): string
      reads this
    {
      FirstMessage(bag, field)
    }
  }

  class Validator {
    const data: Data
    const rules: map<string, string>
    const errors: Errors
    const foreign: Foreign

    /** `Make(data, rules)`: a validator with an empty error bag. The
        library-backed verdicts come in as `foreign`. */
    constructor Make(data: Data, rules: map<string, string>, foreign: Foreign)
      ensures this.data == data && this.rules == rules && this.foreign == foreign
      ensures fresh(errors) && errors.bag == map[]
    {
      this.data := data;
      this.rules := rules;
      this.foreign := foreign;
      errors := new Errors();
    }

    /** Runs a validation pass and reports whether the bag holds errors.
        Every call runs the pass again, so a failing field collects its
        message once more each time. */
    method Fails() returns (failed: bool)
      modifies errors
      ensures errors.bag == AfterFields(Outcomes(foreign, data, rules), old(errors.bag), rules.Keys)
      ensures failed == errors.Has()
    {
      Validate();
      failed := errors.Has();
    }

    method Passes() returns (passed: bool)
      modifies errors
      ensures errors.bag == AfterFields(Outcomes(foreign, data, rules), old(errors.bag), rules.Keys)
      ensures passed == !errors.Has()
    {
      var failed := Fails();
      passed := !failed;
    }

    /** One pass over the fields, in no particular order (Go map order):
        the order the fields are taken in is a nondeterministic choice. */
    method Validate()
      modifies errors
      ensures errors.bag == AfterFields(Outcomes(foreign, data, rules), old(errors.bag), rules.Keys)
    {
      var todo := rules.Keys;
      ghost var order: seq<string> := [];
      ghost var results: seq<Option<string>> := [];
      ghost var bag0 := errors.bag;
      while todo != {}
        invariant todo <= rules.Keys
        invariant forall f :: f in order <==> f in rules && f !in todo
        invariant Distinct(order) && |results| == |order|
        invariant Linked(foreign, data, rules, order, results)
        invariant errors.bag == AfterEach(bag0, order, results)
        decreases |todo|
      {
        var field :| field in todo;
        ghost var outcome := ValidateNext(field, bag0, order, results);
        PickStep(order, todo, rules.Keys, field);
        todo := todo - {field};
        order := order + [field];
        results := results + [outcome];
      }
      LinkedAfterEach(foreign, data, rules, bag0, order, results);
    }

    /** The loop body of `Validate`: validating `field` after the fields of
        `order`, whose outcomes were `results`. */
    method ValidateNext(field: string, ghost bag0: Bag, ghost order: seq<string>,
                        ghost results: seq<Option<string>>)
      returns (ghost outcome: Option<string>)
      requires field in rules && |results| == |order|
      requires Linked(foreign, data, rules, order, results)
      requires errors.bag == AfterEach(bag0, order, results)
      modifies errors
      ensures Linked(foreign, data, rules, order + [field], results + [outcome])
      ensures errors.bag == AfterEach(bag0, order + [field], results + [outcome])
    {
      ValidateField(field, rules[field]);
      outcome := FieldOutcome(foreign, data, field, rules[field]);
      assert (order + [field])[..|order|] == order;
      assert (results + [outcome])[..|results|] == results;
    }

    /** The rules of one field, stopping at the first that does not pass. */
    method ValidateField(field: string, ruleString: string)
      modifies errors
      ensures errors.bag == WithOutcome(old(errors.bag), field, FieldOutcome(foreign, data, field, ruleString))
    {
      var value := Get(data, field);
      var pieces := Split(ruleString, '|');
      var i := 0;
      while i < |pieces|
        invariant 0 <= i <= |pieces|
        invariant RunRules(foreign, data, field, value, pieces[i..]) == FieldOutcome(foreign, data, field, ruleString)
        invariant errors.bag == old(errors.bag)
      {
        var rule := TrimSpace(pieces[i]);
        if rule == "" {
          i := i + 1;
          continue;
        }
        assert RunRules(foreign, data, field, value, pieces[i..])
            == RunRule(foreign, data, field, value, rule, pieces[i + 1..]);
        var c := Cut(rule, ':');
        var ok := ApplyRule(field, value, c.before, c.after);
        if !ok {
          return;
        }
        i := i + 1;
      }
    }

    /** `applyRule`: whether the rule passes; a failure adds its message. */
    method ApplyRule(field: string, value: string, name: string, param: string) returns (ok: bool)
      modifies errors
      ensures var v := RuleVerdict(foreign, data, field, value, name, param);
        ok == v.Pass? &&
        errors.bag == if v.Fail? then old(errors.bag)[field := Messages(old(errors.bag), field) + [v.message]]
                      else old(errors.bag)
    {
      var verdict: Verdict;
      if name == "in" {
        var found := FindListed(Split(param, ','), value);
        assert found == Listed(value, param);
        InRules(foreign, data, field, value, param);
        verdict := if found then Pass else Fail("The selected " + field + " is invalid.");
      } else if name == "not_in" {
        var found := FindListed(Split(param, ','), value);
        assert found == Listed(value, param);
        InRules(foreign, data, field, value, param);
        verdict := if found then Fail("The selected " + field + " is invalid.") else Pass;
      } else {
        verdict := RuleVerdict(foreign, data, field, value, name, param);
      }
      assert verdict == RuleVerdict(foreign, data, field, value, name, param);
      if verdict.Fail? {
        errors.Add(field, verdict.message);
      }
      ok := verdict.Pass?;
    }
  }

  /** The loop of the `in` and `not_in` rules: is some trimmed entry equal to
      `value`? */
  method FindListed(entries: seq<string>, value: string) returns (found: bool)
    ensures found <==> exists i :: 0 <= i < |entries| && TrimSpace(entries[i]) == value
  {
    found := false;
    var i := 0;
    while i < |entries|
      invariant 0 <= i <= |entries|
      invariant !exists j :: 0 <= j < i && TrimSpace(entries[j]) == value
    {
      if TrimSpace(entries[i]) == value {
        found := true;
        return;
      }
      i := i + 1;
    }
  }


  /** Validating one more field appends that field's message, if it has
      one, and touches no other key. */
  lemma AfterFieldsStep(outcomes: map<string, Option<string>>, bag: Bag, done: set<string>, field: string)
    requires field !in done && field in outcomes
    ensures AfterFields(outcomes, bag, done + {field})
         == WithOutcome(AfterFields(outcomes, bag, done), field, outcomes[field])
  {
    if outcomes[field].Some? {
      FailingStep(outcomes, bag, done, field);
    } else {
      PassingStep(outcomes, bag, done, field);
    }
  }

  /** A field whose rules fail gets its message appended. */
  lemma FailingStep(outcomes: map<string, Option<string>>, bag: Bag, done: set<string>, field: string)
    requires field !in done && field in outcomes && outcomes[field].Some?
    ensures var mid := AfterFields(outcomes, bag, done);
      AfterFields(outcomes, bag, done + {field})
      == mid[field := Messages(mid, field) + [outcomes[field].value]]
  {
    var mid := AfterFields(outcomes, bag, done);
    var after := AfterFields(outcomes, bag, done + {field});
    var expected := mid[field := Messages(mid, field) + [outcomes[field].value]];
    assert FailingKeys(outcomes, done + {field}) == FailingKeys(outcomes, done) + {field};
    assert after.Keys == expected.Keys;
    forall f | f in after.Keys ensures after[f] == expected[f] {
      AddedStep(outcomes, done, field, f);
    }
  }

  /** A field whose rules pass leaves the bag as it was. */
  lemma PassingStep(outcomes: map<string, Option<string>>, bag: Bag, done: set<string>, field: string)
    requires field !in done && field in outcomes && outcomes[field].None?
    ensures AfterFields(outcomes, bag, done + {field}) == AfterFields(outcomes, bag, done)
  {
    var mid := AfterFields(outcomes, bag, done);
    var after := AfterFields(outcomes, bag, done + {field});
    assert FailingKeys(outcomes, done + {field}) == FailingKeys(outcomes, done);
    forall f | f in after.Keys ensures after[f] == mid[f] {
      AddedStep(outcomes, done, field, f);
    }
  }

  /** What validating one more field adds to the messages of `f`. */
  lemma AddedStep(outcomes: map<string, Option<string>>, done: set<string>, field: string, f: string)
    requires field !in done && field in outcomes
    ensures Added(outcomes, done + {field}, f)
         == if f == field then Added(outcomes, {field}, f) else Added(outcomes, done, f)
    ensures f == field ==> Added(outcomes, done, f) == []
  {
  }

  /** Validating no field leaves the bag as it was. */
  lemma AfterNoFields(outcomes: map<string, Option<string>>, bag: Bag)
    ensures AfterFields(outcomes, bag, {}) == bag
  {
    var after := AfterFields(outcomes, bag, {});
    assert FailingKeys(outcomes, {}) == {};
    forall f | f in bag ensures after[f] == bag[f] {
      assert bag[f] + [] == bag[f];
    }
  }

  /** No field occurs twice in `order`. */
  predicate Distinct(order: seq<string>)
  {
    forall i, j :: 0 <= i < j < |order| ==> order[i] != order[j]
  }

  /** Moving `field` from the fields still to do to the end of `order`
      keeps `order` a duplicate-free list of the fields done. */
  lemma PickStep(order: seq<string>, todo: set<string>, keys: set<string>, field: string)
    requires todo <= keys && field in todo && Distinct(order)
    requires forall f :: f in order <==> f in keys && f !in todo
    ensures todo - {field} <= keys && Distinct(order + [field])
    ensures forall f :: f in order + [field] <==> f in keys && f !in todo - {field}
  {
  }

  /** The bag once the fields of `order` have been validated one after the
      other, starting from `bag`, when they came out as `results`. */
  function AfterEach(bag: Bag, order: seq<string>, results: seq<Option<string>>): Bag
    requires |results| == |order|
  {
    if order == [] then bag
    else
      var n := |order| - 1;
      WithOutcome(AfterEach(bag, order[..n], results[..n]), order[n], results[n])
  }

  /** `results` are the outcomes of the rules of the fields of `order`. */
  predicate Linked(foreign: Foreign, data: Data, rules: map<string, string>,
                   order: seq<string>, results: seq<Option<string>>)
    requires |results| == |order|
  {
    forall i :: 0 <= i < |order| ==>
      order[i] in rules && results[i] == FieldOutcome(foreign, data, order[i], rules[order[i]])
  }

  lemma OutcomeAt(foreign: Foreign, data: Data, rules: map<string, string>, field: string)
    requires field in rules
    ensures field in Outcomes(foreign, data, rules)
    ensures Outcomes(foreign, data, rules)[field] == FieldOutcome(foreign, data, field, rules[field])
  {
  }

  /** Validating distinct fields one after the other, in any order, ends in
      the bag `AfterFields` describes. */
  lemma {:induction false} AfterEachIsAfterFields(outcomes: map<string, Option<string>>, bag: Bag,
                                                  order: seq<string>, results: seq<Option<string>>,
                                                  fields: set<string>)
    requires Distinct(order) && |results| == |order|
    requires forall i :: 0 <= i < |order| ==> order[i] in outcomes && results[i] == outcomes[order[i]]
    requires forall f :: f in order <==> f in fields
    ensures AfterEach(bag, order, results) == AfterFields(outcomes, bag, fields)
  {
    if order == [] {
      assert fields == {};
      AfterNoFields(outcomes, bag);
    } else {
      var n := |order| - 1;
      var last := order[n];
      var front := order[..n];
      assert order == front + [last];
      var rest := fields - {last};
      forall f ensures f in front <==> f in rest {
        if f in front {
          var i :| 0 <= i < |front| && front[i] == f;
          assert order[i] == f && order[n] == last;
        }
      }
      AfterEachIsAfterFields(outcomes, bag, front, results[..n], rest);
      assert fields == rest + {last};
      AfterFieldsStep(outcomes, bag, rest, last);
    }
  }

  /** A whole pass: every field of `rules` validated once, in any order. */
  lemma LinkedAfterEach(foreign: Foreign, data: Data, rules: map<string, string>, bag: Bag,
                        order: seq<string>, results: seq<Option<string>>)
    requires Distinct(order) && |results| == |order|
    requires Linked(foreign, data, rules, order, results)
    requires forall f :: f in order <==> f in rules
    ensures AfterEach(bag, order, results) == AfterFields(Outcomes(foreign, data, rules), bag, rules.Keys)
  {
    forall i | 0 <= i < |order|
      ensures order[i] in Outcomes(foreign, data, rules)
      ensures results[i] == Outcomes(foreign, data, rules)[order[i]]
    {
      OutcomeAt(foreign, data, rules, order[i]);
    }
    AfterEachIsAfterFields(Outcomes(foreign, data, rules), bag, order, results, rules.Keys);
  }

  // ---------------------------------------------------------------------------
  // Properties of single rules
  // ---------------------------------------------------------------------------

  /** `required` fails exactly on a value made only of white space (the
      empty value included), with the message naming the field. */
  lemma RequiredRule(foreign: Foreign, data: Data, field: string, value: string, param: string)
    ensures RuleVerdict(foreign, data, field, value, "required", param)
         == if AllSpace(value) then Fail("The " + field + " field is required.") else Pass
  {
    TrimSpaceSpec(value);
  }

  /** With a well-formed bound `n`, `min`, `max` and `size` compare the
      number of characters with `n` and name `n` in their messages. */
  lemma LengthRules(foreign: Foreign, data: Data, field: string, value: string, n: int)
    requires MinInt64 <= n <= MaxInt64
    ensures RuleVerdict(foreign, data, field, value, "min", FormatInt(n))
         == if |value| < n then Fail("The " + field + " must be at least " + FormatInt(n) + " characters.") else Pass
    ensures RuleVerdict(foreign, data, field, value, "max", FormatInt(n))
         == if |value| > n then Fail("The " + field + " may not be greater than " + FormatInt(n) + " characters.") else Pass
    ensures RuleVerdict(foreign, data, field, value, "size", FormatInt(n))
         == if |value| != n then Fail("The " + field + " must be " + FormatInt(n) + " characters.") else Pass
  {
    AtoiFormatInt(n);
  }

  /** A parameter with a syntax error (empty, a lone sign, or a character
      that is not a digit before any overflow) reads as 0: `min` then always
      passes, and `max` and `size` pass only the empty value. */
  lemma MalformedBound(foreign: Foreign, data: Data, field: string, value: string, param: string)
    requires SyntaxError(param)
    ensures Bound(param) == 0
    ensures RuleVerdict(foreign, data, field, value, "min", param).Pass?
    ensures RuleVerdict(foreign, data, field, value, "max", param).Pass? <==> value == ""
    ensures RuleVerdict(foreign, data, field, value, "size", param).Pass? <==> value == ""
  {
    AtoiCases(param);
  }

  /** A parameter whose digits leave the 64-bit range reads as the bound on
      the side of its sign: a positive one makes `max` pass and `min` fail on
      any value shorter than MaxInt64 characters, a negative one makes `min` always
      pass and `max` always fail. */
  lemma OverflowBound(foreign: Foreign, data: Data, field: string, value: string, param: string)
    requires !SyntaxError(param) && !Atoi(param).ok
    ensures Bound(param) == if Negative(param) then MinInt64 else MaxInt64
    ensures !Negative(param) ==>
      && (RuleVerdict(foreign, data, field, value, "min", param).Pass? <==> |value| >= MaxInt64)
      && (RuleVerdict(foreign, data, field, value, "max", param).Pass? <==> |value| <= MaxInt64)
    ensures Negative(param) ==>
      && RuleVerdict(foreign, data, field, value, "min", param).Pass?
      && RuleVerdict(foreign, data, field, value, "max", param).Fail?
      && RuleVerdict(foreign, data, field, value, "size", param).Fail?
  {
    AtoiCases(param);
    LengthVerdicts(foreign, data, field, value, param);
  }

  /** Whether `min`, `max` and `size` pass, in terms of the bound. */
  lemma LengthVerdicts(foreign: Foreign, data: Data, field: string, value: string, param: string)
    ensures RuleVerdict(foreign, data, field, value, "min", param).Pass? <==> |value| >= Bound(param)
    ensures RuleVerdict(foreign, data, field, value, "max", param).Pass? <==> |value| <= Bound(param)
    ensures RuleVerdict(foreign, data, field, value, "size", param).Pass? <==> |value| == Bound(param)
    ensures !RuleVerdict(foreign, data, field, value, "min", param).Stop?
    ensures !RuleVerdict(foreign, data, field, value, "max", param).Stop?
    ensures !RuleVerdict(foreign, data, field, value, "size", param).Stop?
  {
  }

  /** Digits beyond 64 bits followed by junk (as in
      `min:99999999999999999999x`) read as MaxInt64 rather than 0, so `min`
      fails a short value such as "abc". */
  lemma JunkAfterOverflow(foreign: Foreign, data: Data, field: string, n: nat, junk: string)
    requires n > MaxUint64
    ensures Bound(FormatNat(n) + junk) == MaxInt64
    ensures RuleVerdict(foreign, data, field, "abc", "min", FormatNat(n) + junk).Fail?
  {
    AtoiOverflowBeforeJunk(n, junk);
  }

  /** `between:lo,hi` fails exactly outside the closed range. */
  lemma BetweenRule(foreign: Foreign, data: Data, field: string, value: string, lo: int, hi: int)
    requires MinInt64 <= lo <= MaxInt64 && MinInt64 <= hi <= MaxInt64
    ensures RuleVerdict(foreign, data, field, value, "between", FormatInt(lo) + "," + FormatInt(hi))
         == if |value| < lo || |value| > hi
            then Fail("The " + field + " must be between " + FormatInt(lo) + " and " + FormatInt(hi) + " characters.")
            else Pass
  {
    FormatIntPlain(lo);
    FormatIntPlain(hi);
    CutAt(FormatInt(lo), FormatInt(hi), ',');
    AtoiFormatInt(lo);
    AtoiFormatInt(hi);
  }

  /** `between` whose parameter has no comma passes whatever the value. */
  lemma BetweenWithoutComma(foreign: Foreign, data: Data, field: string, value: string, param: string)
    requires ',' !in param
    ensures RuleVerdict(foreign, data, field, value, "between", param) == Pass
  {
  }

  /** A comma-joined list lists exactly its entries, each trimmed. */
  lemma ListedJoin(value: string, entries: seq<string>)
    requires |entries| >= 1 && forall i :: 0 <= i < |entries| ==> ',' !in entries[i]
    ensures Listed(value, Join(entries, ','))
        <==> exists i :: 0 <= i < |entries| && TrimSpace(entries[i]) == value
  {
    SplitJoin(entries, ',');
  }

  /** `in` passes exactly when the value is listed in the parameter (see
      `ListedJoin` for what a comma-joined list lists); `not_in` fails in
      exactly those cases, and neither stops the field. */
  lemma InRules(foreign: Foreign, data: Data, field: string, value: string, param: string)
    ensures RuleVerdict(foreign, data, field, value, "in", param)
         == if Listed(value, param) then Pass else Fail("The selected " + field + " is invalid.")
    ensures RuleVerdict(foreign, data, field, value, "not_in", param)
         == if Listed(value, param) then Fail("The selected " + field + " is invalid.") else Pass
  {
  }

  /** `confirmed` compares with the `_confirmation` field, which reads as ""
      when it is missing. */
  lemma ConfirmedRule(foreign: Foreign, data: Data, field: string, value: string, param: string)
    ensures RuleVerdict(foreign, data, field, value, "confirmed", param).Fail?
        <==> Get(data, field + "_confirmation") != value
    ensures field + "_confirmation" !in data ==>
      (RuleVerdict(foreign, data, field, value, "confirmed", param).Pass? <==> value == "")
  {
  }

  /** For the same other field, exactly one of `same` and `different`
      fails. */
  lemma SameDifferent(foreign: Foreign, data: Data, field: string, value: string, other: string)
    ensures RuleVerdict(foreign, data, field, value, "same", other).Fail?
        <==> RuleVerdict(foreign, data, field, value, "different", other).Pass?
    ensures RuleVerdict(foreign, data, field, value, "same", other).Pass?
        <==> Get(data, other) == value
  {
  }

  /** `sometimes` stops silently on the empty value and passes otherwise;
      `string`, `nullable` and names the engine does not know always pass. */
  lemma PassiveRules(foreign: Foreign, data: Data, field: string, value: string, name: string, param: string)
    ensures RuleVerdict(foreign, data, field, value, "sometimes", param) == if value == "" then Stop else Pass
    ensures RuleVerdict(foreign, data, field, value, "nullable", param) == Pass
    ensures RuleVerdict(foreign, data, field, value, "string", param) == Pass
    ensures name !in KnownRules ==> RuleVerdict(foreign, data, field, value, name, param) == Pass
  {
  }

  /** The rule names the engine acts on. */
  const KnownRules: set<string> := {"required", "numeric", "integer", "boolean", "email", "url",
    "min", "max", "size", "between", "in", "not_in", "confirmed", "same", "different",
    "alpha", "alpha_num", "alpha_dash", "regex", "sometimes", "gt", "gte", "lt", "lte"}

  /** The character-class rules accept exactly the non-empty values whose
      every character is in the class. */
  lemma ClassRules(foreign: Foreign, data: Data, field: string, value: string, param: string)
    ensures RuleVerdict(foreign, data, field, value, "alpha", param).Pass?
        <==> value != [] && forall i :: 0 <= i < |value| ==> IsAsciiLetter(value[i])
    ensures RuleVerdict(foreign, data, field, value, "alpha_num", param).Pass?
        <==> value != [] && forall i :: 0 <= i < |value| ==> IsAsciiAlnum(value[i])
    ensures RuleVerdict(foreign, data, field, value, "alpha_dash", param).Pass?
        <==> value != [] && forall i :: 0 <= i < |value| ==> IsAsciiDash(value[i])
  {
  }

  /** `url` accepts exactly the values that start with `http://` or
      `https://`. */
  lemma UrlRule(foreign: Foreign, data: Data, field: string, value: string, param: string)
    ensures RuleVerdict(foreign, data, field, value, "url", param).Pass?
        <==> ("http://" <= value || "https://" <= value)
  {
  }

  /** The regular expression `^[class]+$` read the way a matcher reads it:
      one character of the class, then either the end or another match. */
  predicate MatchesPlus(s: string, inClass: char -> bool)
    decreases |s|
  {
    s != [] && inClass(s[0]) && (|s| == 1 || MatchesPlus(s[1..], inClass))
  }

  /** The regular expression `^https?://` read character by character. */
  predicate MatchesUrlScheme(s: string)
  {
    |s| >= 7 && s[0] == 'h' && s[1] == 't' && s[2] == 't' && s[3] == 'p'
    && (s[4..7] == "://" || (|s| >= 8 && s[4] == 's' && s[5..8] == "://"))
  }

  /** The matcher accepts exactly the non-empty strings of class characters. */
  lemma {:induction false} MatchesPlusAll(s: string, inClass: char -> bool)
    ensures MatchesPlus(s, inClass) <==> s != [] && forall i :: 0 <= i < |s| ==> inClass(s[i])
    decreases |s|
  {
    if |s| > 1 {
      MatchesPlusAll(s[1..], inClass);
      assert forall i :: 1 <= i < |s| ==> s[i] == s[1..][i - 1];
    }
  }

  /** The prefix test of `url` agrees with the matcher of `^https?://`. */
  lemma UrlSchemeMatches(s: string)
    ensures MatchesUrlScheme(s) <==> HasUrlScheme(s)
  {
    if |s| >= 7 {
      assert ("http://" <= s) <==> s[..7] == "http://";
    }
    if |s| >= 8 {
      assert ("https://" <= s) <==> s[..8] == "https://";
    }
  }

  /** `integer` passes exactly when `strconv.Atoi` reports no error (see
      `AtoiOk`): every rendered 64-bit integer passes, and the empty value, a
      decimal fraction and a word fail. */
  lemma IntegerRule(foreign: Foreign, data: Data, field: string, value: string, n: int, param: string)
    requires MinInt64 <= n <= MaxInt64
    ensures RuleVerdict(foreign, data, field, value, "integer", param)
         == if Atoi(value).ok then Pass else Fail("The " + field + " must be an integer.")
    ensures RuleVerdict(foreign, data, field, FormatInt(n), "integer", param) == Pass
    ensures RuleVerdict(foreign, data, field, "", "integer", param).Fail?
    ensures RuleVerdict(foreign, data, field, "3.14", "integer", param).Fail?
    ensures RuleVerdict(foreign, data, field, "abc", "integer", param).Fail?
  {
    AtoiFormatInt(n);
    assert ScanDigits("3.14", 0) == NotANumber;
  }

  /** `boolean` is the case-insensitive test for the six words: it passes
      exactly when the ASCII lower-casing of the value is one of them, so two
      values that differ only in the case of letters get the same verdict. */
  lemma BooleanRule(foreign: Foreign, data: Data, field: string, value: string, other: string, param: string)
    ensures RuleVerdict(foreign, data, field, value, "boolean", param)
         == if AsciiLower(value) in {"true", "false", "1", "0", "yes", "no"} then Pass
            else Fail("The " + field + " field must be true or false.")
    ensures AsciiLower(value) == AsciiLower(other) ==>
      RuleVerdict(foreign, data, field, value, "boolean", param) == RuleVerdict(foreign, data, field, other, "boolean", param)
  {
  }

  /** Capitalised words pass `boolean`, and other words fail it. */
  lemma BooleanExamples(foreign: Foreign, data: Data, field: string, param: string)
    ensures RuleVerdict(foreign, data, field, "True", "boolean", param) == Pass
    ensures RuleVerdict(foreign, data, field, "False", "boolean", param) == Pass
    ensures RuleVerdict(foreign, data, field, "maybe", "boolean", param).Fail?
  {
    BooleanRule(foreign, data, field, "True", "true", param);
    BooleanRule(foreign, data, field, "False", "false", param);
    BooleanRule(foreign, data, field, "maybe", "", param);
    assert AsciiLower("True") == "true";
    assert AsciiLower("False") == "false";
    assert AsciiLower("maybe")[0] == 'm';
  }

  // ---------------------------------------------------------------------------
  // Properties of one field's rule string
  // ---------------------------------------------------------------------------

  /** The first piece of a list of pieces, then the others. */
  lemma RunRulesCons(foreign: Foreign, data: Data, field: string, value: string,
                     rule: string, tail: seq<string>)
    ensures RunRules(foreign, data, field, value, [rule] + tail)
         == if TrimSpace(rule) == "" then RunRules(foreign, data, field, value, tail)
            else var c := Cut(TrimSpace(rule), ':');
              Continue(RuleVerdict(foreign, data, field, value, c.before, c.after),
                       RunRules(foreign, data, field, value, tail))
  {
    assert ([rule] + tail)[0] == rule && ([rule] + tail)[1..] == tail;
  }

  /** Bail: the first piece of a rule string decides the field unless it is
      blank or passes, and only then do the later pieces count. */
  lemma FirstRuleDecides(foreign: Foreign, data: Data, field: string, rule: string, rest: string)
    requires '|' !in rule
    ensures FieldOutcome(foreign, data, field, rule + "|" + rest)
         == if TrimSpace(rule) == "" then FieldOutcome(foreign, data, field, rest)
            else
              var c := Cut(TrimSpace(rule), ':');
              Continue(RuleVerdict(foreign, data, field, Get(data, field), c.before, c.after),
                       FieldOutcome(foreign, data, field, rest))
  {
    SplitPrefix(rule, rest, '|');
    assert rule + "|" + rest == rule + ['|'] + rest;
    RunRulesCons(foreign, data, field, Get(data, field), rule, Split(rest, '|'));
  }

  /** A rule string with a single piece `name:param` runs rule `name` with
      everything after the first ':' as its parameter, colons included. */
  lemma ParamAfterFirstColon(foreign: Foreign, data: Data, field: string, name: string, param: string)
    requires name != [] && !IsSpace(name[0]) && ':' !in name
    requires '|' !in name && '|' !in param
    requires param != [] && !IsSpace(param[|param| - 1])
    ensures FieldOutcome(foreign, data, field, name + ":" + param)
         == Continue(RuleVerdict(foreign, data, field, Get(data, field), name, param), None)
  {
    var rule := name + ":" + param;
    assert rule == name + [':'] + param;
    assert rule[0] == name[0] && rule[|rule| - 1] == param[|param| - 1];
    TrimUntouched(rule);
    assert '|' !in rule;
    SplitNoSeparator(rule, '|');
    CutAt(name, param, ':');
    assert [rule] + [] == [rule];
    RunRulesCons(foreign, data, field, Get(data, field), rule, []);
  }

  /** `sometimes` first: an empty value skips every later rule silently, and
      a non-empty one is checked by the later rules alone. */
  lemma SometimesFirst(foreign: Foreign, data: Data, field: string, rest: string)
    ensures FieldOutcome(foreign, data, field, "sometimes|" + rest)
         == if Get(data, field) == "" then None else FieldOutcome(foreign, data, field, rest)
  {
    assert "sometimes|" + rest == "sometimes" + "|" + rest;
    PlainFirstRule(foreign, data, field, "sometimes", rest);
    PassiveRules(foreign, data, field, Get(data, field), "sometimes", "");
  }

  /** A first piece that is a bare rule name, without parameter, runs that
      rule with the empty parameter before the remaining pieces. */
  lemma PlainFirstRule(foreign: Foreign, data: Data, field: string, name: string, rest: string)
    requires name != [] && !IsSpace(name[0]) && !IsSpace(name[|name| - 1])
    requires ':' !in name && '|' !in name
    ensures FieldOutcome(foreign, data, field, name + "|" + rest)
         == Continue(RuleVerdict(foreign, data, field, Get(data, field), name, ""),
                     FieldOutcome(foreign, data, field, rest))
  {
    TrimUntouched(name);
    FirstRuleDecides(foreign, data, field, name, rest);
    assert !Cut(name, ':').found;
  }

  /** `nullable` does not stop anything: a missing field with rules
      `nullable|min:n` (n > 0) still fails the `min` rule. */
  lemma NullableDoesNotStop(foreign: Foreign, data: Data, field: string, n: int)
    requires field !in data && 0 < n <= MaxInt64
    ensures FieldOutcome(foreign, data, field, "nullable|min:" + FormatInt(n))
         == Some("The " + field + " must be at least " + FormatInt(n) + " characters.")
  {
    var s := FormatInt(n);
    assert "nullable|min:" + s == "nullable" + "|" + ("min:" + s);
    PlainFirstRule(foreign, data, field, "nullable", "min:" + s);
    PassiveRules(foreign, data, field, "", "nullable", "");
    MinAlone(foreign, data, field, n);
  }

  /** A missing field fails `min:n` for positive n. */
  lemma MinAlone(foreign: Foreign, data: Data, field: string, n: int)
    requires field !in data && 0 < n <= MaxInt64
    ensures FieldOutcome(foreign, data, field, "min:" + FormatInt(n))
         == Some("The " + field + " must be at least " + FormatInt(n) + " characters.")
  {
    var s := FormatInt(n);
    FormatIntPlain(n);
    FormatIntEnds(n);
    assert "min:" + s == "min" + ":" + s;
    ParamAfterFirstColon(foreign, data, field, "min", s);
    LengthRules(foreign, data, field, "", n);
  }

  // ---------------------------------------------------------------------------
  // Properties of a validation pass over the bag
  // ---------------------------------------------------------------------------

  /** One pass adds at most one message per field, only for fields that were
      validated, and only at the end of their earlier messages. */
  lemma AtMostOnePerField(outcomes: map<string, Option<string>>, bag: Bag, fields: set<string>, f: string)
    ensures Messages(AfterFields(outcomes, bag, fields), f) == Messages(bag, f) + Added(outcomes, fields, f)
    ensures |Added(outcomes, fields, f)| <= 1
    ensures f !in fields ==> Messages(AfterFields(outcomes, bag, fields), f) == Messages(bag, f)
    ensures AfterFields(outcomes, bag, fields).Keys <= bag.Keys + fields
  {
    var after := AfterFields(outcomes, bag, fields);
    if f !in after {
      assert f !in bag && Added(outcomes, fields, f) == [];
    }
  }

  /** A second pass appends every message of the first once more, and keeps
      the set of fields with messages, so `Has` gives the same answer. */
  lemma SecondPass(outcomes: map<string, Option<string>>, bag: Bag, fields: set<string>, f: string)
    ensures var once := AfterFields(outcomes, bag, fields);
      Messages(AfterFields(outcomes, once, fields), f)
      == Messages(bag, f) + Added(outcomes, fields, f) + Added(outcomes, fields, f)
    ensures var once := AfterFields(outcomes, bag, fields);
      AfterFields(outcomes, once, fields).Keys == once.Keys
  {
    var once := AfterFields(outcomes, bag, fields);
    AtMostOnePerField(outcomes, bag, fields, f);
    AtMostOnePerField(outcomes, once, fields, f);
    assert FailingKeys(outcomes, fields) <= once.Keys;
  }

  /** After a pass the bag has messages exactly when it had some before or
      some validated field fails: `Fails` on a fresh validator is true
      exactly when some field's rules fail. */
  lemma HasAfterPass(outcomes: map<string, Option<string>>, bag: Bag, fields: set<string>)
    ensures |AfterFields(outcomes, bag, fields)| > 0
        <==> |bag| > 0 || exists f :: f in fields && f in outcomes && outcomes[f].Some?
  {
    var after := AfterFields(outcomes, bag, fields);
    if |bag| > 0 {
      var k :| k in bag;
      assert k in after;
    } else if f :| f in fields && f in outcomes && outcomes[f].Some? {
      assert f in after;
    } else {
      assert FailingKeys(outcomes, fields) == {};
      assert after.Keys == {};
    }
  }

  /** Appending never changes a field's first message, and the first
      message appended to a field without messages becomes its first. */
  lemma FirstKept(bag: Bag, field: string, m: string, g: string)
    ensures var added := bag[field := Messages(bag, field) + [m]];
      FirstMessage(added, g) == if g == field && Messages(bag, field) == [] then m else FirstMessage(bag, g)
  {
  }
}
