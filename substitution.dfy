/** Secure-string header substitution in the shapes-app service: every rule
    (header name to required value prefix) whose header carries a value made
    of the prefix and a non-empty rest has that rest looked up as a secure
    string key, and the value replaced by the prefix and the secure string.
    The first failing lookup ends the pass with an error. */
module Substitution {
  import opened Common
  import opened ShapesErrors

  /** The rule map `substitutionHeaders`: header name to required prefix. */
  type Rules = map<string, string>

  /** A header is eligible when its value starts with the prefix and is
      strictly longer than it. */
  predicate Fires(prefix: string, value: string) {
    prefix <= value && |value| > |prefix|
  }

  /** The secure-string key of an eligible value: what follows the prefix. */
  function LookupKey(prefix: string, value: string): (key: string)
    requires Fires(prefix, value)
    ensures |key| > 0 && value == prefix + key
  {
    value[|prefix|..]
  }

  /** What one rule does to the working copy. */
  datatype RuleOutcome = Keep | Replace(value: string) | Abort(error: ApproovError)

  /** One iteration of the substitution loop for a rule with `prefix`, where
      `value` is the header's value in the request snapshot. `illegal` holds
      when the token fetch reported an unknown URL. */
  function RuleStep(prefix: string, value: Option<string>, fetch: SecureStringFetch, illegal: bool): (r: RuleOutcome)
    ensures value.None? || !Fires(prefix, value.value) ==> r == Keep
    ensures value.Some? && Fires(prefix, value.value) ==>
      var res := fetch(LookupKey(prefix, value.value), None);
      && (r == Keep <==> res.status == UnknownKey)
      && (r.Replace? <==> res.status == Success && !illegal && res.secureString.Some?)
      && (r.Replace? ==> r.value == prefix + res.secureString.value)
      && (res.status == Success && illegal ==> r == Abort(ConfigurationError))
      && (res.status == Success && !illegal && res.secureString.None? ==> r == Abort(PermanentError))
      && (res.status == Rejected ==> r == Abort(RejectionError(res.arc, res.rejectionReasons)))
      && (IsNetworkStatus(res.status) ==> r == Abort(NetworkingError))
      && (!(res.status in {Success, Rejected, UnknownKey} || IsNetworkStatus(res.status)) ==>
            r == Abort(PermanentError))
  {
    if value.None? || !Fires(prefix, value.value) then Keep
    else
      var res := fetch(LookupKey(prefix, value.value), None);
      if res.status == Success then
        if illegal then Abort(ConfigurationError)
        else if res.secureString.Some? then Replace(prefix + res.secureString.value)
        else Abort(PermanentError)
      else if res.status == Rejected then Abort(RejectionError(res.arc, res.rejectionReasons))
      else if IsNetworkStatus(res.status) then Abort(NetworkingError)
      else if res.status != UnknownKey then Abort(PermanentError)
      else Keep
  }

  /** The snapshot value of a header, if the request carries it. */
  function HeaderValue(headers: map<string, string>, name: string): Option<string> {
    if name in headers then Some(headers[name]) else None
  }

  /** The step of the rule for `header`. */
  function StepFor(rules: Rules, header: string, snapshot: map<string, string>,
                   fetch: SecureStringFetch, illegal: bool): RuleOutcome
    requires header in rules
  {
    RuleStep(rules[header], HeaderValue(snapshot, header), fetch, illegal)
  }

  datatype PassOutcome = Completed(headers: map<string, string>) | Aborted(error: ApproovError)

  /** The loop over the rules in dictionary order `order`: eligibility is
      read from `snapshot`, replacements go into `working`. */
  function SubstitutionPass(order: seq<string>, rules: Rules, snapshot: map<string, string>,
                            working: map<string, string>, fetch: SecureStringFetch, illegal: bool): PassOutcome
    requires forall h :: h in order ==> h in rules
    decreases |order|
  {
    if order == [] then Completed(working)
    else
      match StepFor(rules, order[0], snapshot, fetch, illegal)
      case Keep => SubstitutionPass(order[1..], rules, snapshot, working, fetch, illegal)
      case Replace(v) => SubstitutionPass(order[1..], rules, snapshot, working[order[0] := v], fetch, illegal)
      case Abort(e) => Aborted(e)
  }

  /** `order` lists every rule exactly once. */
  predicate IsEnumerationOf(order: seq<string>, rules: Rules) {
    && (forall h :: h in order ==> h in rules)
    && (forall h :: h in rules ==> h in order)
    && (forall i, j :: 0 <= i < j < |order| ==> order[i] != order[j])
  }

  /** The pass aborts exactly when some rule aborts, and then with the error
      of the first such rule in iteration order. */
  lemma {:induction false} PassAbortsAtFirstFailingRule(order: seq<string>, rules: Rules, snapshot: map<string, string>,
                                                        working: map<string, string>, fetch: SecureStringFetch,
                                                        illegal: bool, e: ApproovError)
    requires forall h :: h in order ==> h in rules
    ensures SubstitutionPass(order, rules, snapshot, working, fetch, illegal) == Aborted(e) <==>
      exists i :: 0 <= i < |order| && StepFor(rules, order[i], snapshot, fetch, illegal) == Abort(e)
        && forall j :: 0 <= j < i ==> !StepFor(rules, order[j], snapshot, fetch, illegal).Abort?
    decreases |order|
  {
    if order != [] {
      var rest := order[1..];
      var step := StepFor(rules, order[0], snapshot, fetch, illegal);
      var next := if step.Replace? then working[order[0] := step.value] else working;
      PassAbortsAtFirstFailingRule(rest, rules, snapshot, next, fetch, illegal, e);
      if !step.Abort? {
        if SubstitutionPass(order, rules, snapshot, working, fetch, illegal) == Aborted(e) {
          var i :| 0 <= i < |rest| && StepFor(rules, rest[i], snapshot, fetch, illegal) == Abort(e)
            && forall j :: 0 <= j < i ==> !StepFor(rules, rest[j], snapshot, fetch, illegal).Abort?;
          assert order[i + 1] == rest[i];
          forall j | 0 <= j < i + 1 ensures !StepFor(rules, order[j], snapshot, fetch, illegal).Abort? {
            if j > 0 { assert order[j] == rest[j - 1]; }
          }
        }
        if exists i :: 0 <= i < |order| && StepFor(rules, order[i], snapshot, fetch, illegal) == Abort(e)
             && forall j :: 0 <= j < i ==> !StepFor(rules, order[j], snapshot, fetch, illegal).Abort?
        {
          var i :| 0 <= i < |order| && StepFor(rules, order[i], snapshot, fetch, illegal) == Abort(e)
            && forall j :: 0 <= j < i ==> !StepFor(rules, order[j], snapshot, fetch, illegal).Abort?;
          assert i > 0;
          assert rest[i - 1] == order[i];
          forall j | 0 <= j < i - 1 ensures !StepFor(rules, rest[j], snapshot, fetch, illegal).Abort? {
            assert rest[j] == order[j + 1];
          }
        }
      }
    }
  }

  /** A completed pass is independent of the iteration order: each header
      with a replacing rule holds that rule's replacement, every other header
      keeps its working value, and no header is added otherwise. */
  lemma {:induction false} CompletedPassHeaders(order: seq<string>, rules: Rules, snapshot: map<string, string>,
                                                working: map<string, string>, fetch: SecureStringFetch, illegal: bool)
    requires forall h :: h in order ==> h in rules
    requires forall i, j :: 0 <= i < j < |order| ==> order[i] != order[j]
    requires SubstitutionPass(order, rules, snapshot, working, fetch, illegal).Completed?
    ensures var w := SubstitutionPass(order, rules, snapshot, working, fetch, illegal).headers;
      && (forall k :: k in w <==> k in working || (k in order && StepFor(rules, k, snapshot, fetch, illegal).Replace?))
      && (forall k :: k in order && StepFor(rules, k, snapshot, fetch, illegal).Replace? ==>
            w[k] == StepFor(rules, k, snapshot, fetch, illegal).value)
      && (forall k :: k in working && !(k in order && StepFor(rules, k, snapshot, fetch, illegal).Replace?) ==>
            w[k] == working[k])
    decreases |order|
  {
    if order != [] {
      var h, rest := order[0], order[1..];
      assert forall k :: k in order <==> k == h || k in rest;
      assert h !in rest by {
        forall i | 0 <= i < |rest| ensures rest[i] != h { assert rest[i] == order[i + 1]; }
      }
      forall i, j | 0 <= i < j < |rest| ensures rest[i] != rest[j] { assert rest[i] == order[i + 1] && rest[j] == order[j + 1]; }
      var step := StepFor(rules, h, snapshot, fetch, illegal);
      var next := if step.Replace? then working[h := step.value] else working;
      CompletedPassHeaders(rest, rules, snapshot, next, fetch, illegal);
    }
  }

  /** For a request whose domain the SDK does not know, no pass writes a
      secure string: it aborts or leaves the working copy as it was. */
  lemma {:induction false} IllegalPassReleasesNothing(order: seq<string>, rules: Rules, snapshot: map<string, string>,
                                                      working: map<string, string>, fetch: SecureStringFetch)
    requires forall h :: h in order ==> h in rules
    ensures SubstitutionPass(order, rules, snapshot, working, fetch, true) == Completed(working)
         || SubstitutionPass(order, rules, snapshot, working, fetch, true).Aborted?
    decreases |order|
  {
    if order != [] {
      IllegalPassReleasesNothing(order[1..], rules, snapshot, working, fetch);
    }
  }

  /** The in-loop lookup and the public `fetchSecureString` agree on the
      network and rejection errors of an eligible header's key; a disabled
      feature is a permanent error in the loop and a configuration error for
      `fetchSecureString`, and only a successful status with a secure string
      replaces the header. */
  lemma RuleStepAgreesWithFetchSecureString(prefix: string, value: string, fetch: SecureStringFetch, illegal: bool)
    requires Fires(prefix, value)
    ensures var key := LookupKey(prefix, value);
      var lookup := FetchSecureString(key, None, fetch);
      var step := RuleStep(prefix, Some(value), fetch, illegal);
      && (lookup == Err(NetworkingError) <==> step == Abort(NetworkingError))
      && (lookup.Err? && lookup.error.RejectionError? ==> step == Abort(lookup.error))
      && (lookup == Err(ConfigurationError) ==> step == Abort(PermanentError))
      && (step.Replace? ==> lookup.Ok? && lookup.value.Some? && step.value == prefix + lookup.value.value)
  {
  }
}
