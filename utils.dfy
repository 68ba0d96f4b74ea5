/** Helpers of the OpenStack plugin: the name sanitiser, backend-id validation,
    the exponential-backoff retry wrapper and nested dictionary lookup. */
module Utils {
  import opened Common

  // ---------------------------------------------------------------------------
  // Name sanitiser
  // ---------------------------------------------------------------------------

  predicate IsAsciiLetter(c: char) { 'a' <= c <= 'z' || 'A' <= c <= 'Z' }
  predicate IsAsciiDigit(c: char) { '0' <= c <= '9' }
  predicate IsAlnum(c: char) { IsAsciiLetter(c) || IsAsciiDigit(c) }

  /** The characters an OpenStack name may contain: `[A-Za-z0-9_.-]`. */
  predicate IsAllowed(c: char) { IsAlnum(c) || c == '_' || c == '-' || c == '.' }

  /** `str.isdigit()` on a string made of allowed characters: non-empty and digits only. */
  predicate IsAllDigits(s: string) {
    |s| > 0 && forall i :: 0 <= i < |s| ==> IsAsciiDigit(s[i])
  }

  /** The shape every sanitised name has. */
  predicate IsOpenStackName(s: string) {
    && |s| > 0
    && (forall i :: 0 <= i < |s| ==> IsAllowed(s[i]))
    && IsAlnum(s[0])
    && !IsAllDigits(s)
  }

  const DefaultName: string := "sanitizer_default_name"
  const DigitPrefix: string := "project_"

  /** `name.replace(" ", "_")` */
  function ReplaceSpaces(s: string): (r: string)
    ensures |r| == |s|
    ensures forall i :: 0 <= i < |s| ==> r[i] == (if s[i] == ' ' then '_' else s[i])
  {
    if s == [] then [] else [if s[0] == ' ' then '_' else s[0]] + ReplaceSpaces(s[1..])
  }

  /** `re.sub(r'[^a-zA-Z0-9_\-\.]', '', s)`: keeps the allowed characters, in order. */
  function KeepAllowed(s: string): (r: string)
    ensures forall i :: 0 <= i < |r| ==> IsAllowed(r[i])
    ensures |r| <= |s|
  {
    if s == [] then []
    else if IsAllowed(s[0]) then [s[0]] + KeepAllowed(s[1..])
    else KeepAllowed(s[1..])
  }

  /** `re.sub(r'^[^a-zA-Z0-9]+', '', s)`: drops the leading run of non-alphanumeric characters. */
  function StripLeading(s: string): (r: string)
    ensures |r| <= |s| && r == s[|s| - |r|..]
    ensures r != [] ==> IsAlnum(r[0])
    ensures forall i :: 0 <= i < |s| - |r| ==> !IsAlnum(s[i])
  {
    if s == [] || IsAlnum(s[0]) then s else StripLeading(s[1..])
  }

  /** `sanitize_for_openstack` */
  function Sanitize(name: string): string {
    var t := StripLeading(KeepAllowed(ReplaceSpaces(name)));
    var u := if IsAllDigits(t) then DigitPrefix + t else t;
    if u == [] then DefaultName else u
  }

  lemma {:induction false} KeepAllowedFixes(s: string)
    requires forall i :: 0 <= i < |s| ==> IsAllowed(s[i])
    ensures KeepAllowed(s) == s
  {
    if s != [] {
      KeepAllowedFixes(s[1..]);
    }
  }

  lemma {:induction false} KeepAllowedKeepsAlnum(s: string, i: nat)
    requires i < |s| && IsAlnum(s[i])
    ensures exists j :: 0 <= j < |KeepAllowed(s)| && IsAlnum(KeepAllowed(s)[j])
  {
    if i == 0 {
      assert KeepAllowed(s)[0] == s[0];
    } else {
      KeepAllowedKeepsAlnum(s[1..], i - 1);
      var j :| 0 <= j < |KeepAllowed(s[1..])| && IsAlnum(KeepAllowed(s[1..])[j]);
      if IsAllowed(s[0]) {
        assert KeepAllowed(s)[j + 1] == KeepAllowed(s[1..])[j];
      } else {
        assert KeepAllowed(s) == KeepAllowed(s[1..]);
        assert IsAlnum(KeepAllowed(s)[j]);
      }
    }
  }

  lemma {:induction false} KeepAllowedNoAlnum(s: string)
    requires forall i :: 0 <= i < |s| ==> !IsAlnum(s[i])
    ensures forall i :: 0 <= i < |KeepAllowed(s)| ==> !IsAlnum(KeepAllowed(s)[i])
  {
    if s != [] {
      KeepAllowedNoAlnum(s[1..]);
    }
  }

  lemma SuffixAllowed(k: string, t: string)
    requires forall i :: 0 <= i < |k| ==> IsAllowed(k[i])
    requires |t| <= |k| && t == k[|k| - |t|..]
    ensures forall i :: 0 <= i < |t| ==> IsAllowed(t[i])
  {
    forall i | 0 <= i < |t| ensures IsAllowed(t[i]) {
      assert t[i] == k[|k| - |t| + i];
    }
  }

  lemma PrefixedDigitsShape(t: string)
    requires IsAllDigits(t)
    ensures IsOpenStackName(DigitPrefix + t)
  {
    var u := DigitPrefix + t;
    assert u[0] == 'p';
    forall i | 0 <= i < |u| ensures IsAllowed(u[i]) {
      if i >= |DigitPrefix| { assert u[i] == t[i - |DigitPrefix|]; }
    }
  }

  lemma DefaultNameShape()
    ensures IsOpenStackName(DefaultName)
  {
    assert DefaultName[0] == 's' && !IsAsciiDigit(DefaultName[0]);
    forall i | 0 <= i < |DefaultName| ensures IsAllowed(DefaultName[i]) {
      assert IsAsciiLetter(DefaultName[i]) || DefaultName[i] == '_';
    }
  }

  /** The sanitiser's output is never empty, uses only `[A-Za-z0-9_.-]`, starts with an
      alphanumeric character and is never all digits. */
  lemma SanitizeShape(name: string)
    ensures IsOpenStackName(Sanitize(name))
  {
    var k := KeepAllowed(ReplaceSpaces(name));
    var t := StripLeading(k);
    assert Sanitize(name) == if IsAllDigits(t) then DigitPrefix + t else if t == [] then DefaultName else t;
    if IsAllDigits(t) {
      PrefixedDigitsShape(t);
    } else if t == [] {
      DefaultNameShape();
    } else {
      SuffixAllowed(k, t);
    }
  }

  /** A name that already has the OpenStack shape passes through unchanged. */
  lemma SanitizeFixesValid(s: string)
    requires IsOpenStackName(s)
    ensures Sanitize(s) == s
  {
    assert ReplaceSpaces(s) == s;
    KeepAllowedFixes(s);
  }

  /** `sanitize(sanitize(s)) == sanitize(s)` for every string. */
  lemma SanitizeIdempotent(name: string)
    ensures Sanitize(Sanitize(name)) == Sanitize(name)
  {
    SanitizeShape(name);
    SanitizeFixesValid(Sanitize(name));
  }

  /** A name with no alphanumeric character becomes the fixed default name. */
  lemma SanitizeNoAlnumFallback(name: string)
    requires forall i :: 0 <= i < |name| ==> !IsAlnum(name[i])
    ensures Sanitize(name) == DefaultName
  {
    var r := ReplaceSpaces(name);
    var k := KeepAllowed(r);
    var t := StripLeading(k);
    assert forall i :: 0 <= i < |r| ==> !IsAlnum(r[i]);
    KeepAllowedNoAlnum(r);
  }

  /** A purely numeric name gets the `project_` prefix. */
  lemma SanitizeDigitsFallback(name: string)
    requires IsAllDigits(name)
    ensures Sanitize(name) == DigitPrefix + name
  {
    assert ReplaceSpaces(name) == name;
    KeepAllowedFixes(name);
  }

  predicate IsHexDigit(c: char) { IsAsciiDigit(c) || 'a' <= c <= 'f' || 'A' <= c <= 'F' }

  /** The canonical textual form of a UUID (section 3 of RFC 4122): 32 hex digits in groups
      8-4-4-4-12 separated by hyphens, as produced by `str(uuid)`. */
  predicate IsCanonicalUuid(s: string) {
    && |s| == 36
    && (forall i :: 0 <= i < 36 ==> (if i in {8, 13, 18, 23} then s[i] == '-' else IsHexDigit(s[i])))
  }

  /** A UUID string is returned unchanged, so a resource's backend id equals its project name. */
  lemma SanitizeKeepsUuid(s: string)
    requires IsCanonicalUuid(s)
    ensures Sanitize(s) == s
  {
    assert s[8] == '-' && !IsAsciiDigit(s[8]);
    assert IsAlnum(s[0]);
    assert forall i :: 0 <= i < |s| ==> IsAllowed(s[i]);
    SanitizeFixesValid(s);
  }

  // ---------------------------------------------------------------------------
  // Backend id validation
  // ---------------------------------------------------------------------------

  const MaxBackendIdLength := 255

  /** `validate_backend_id`: empty and over-long ids raise ValueError, anything else is accepted. */
  function ValidateBackendId(backendId: string, resourceType: string): (r: Result<bool>)
    ensures r.Ok? <==> 0 < |backendId| <= MaxBackendIdLength
    ensures r.Ok? ==> r.value
    ensures r.Err? ==> r.error.ValueError?
    ensures backendId == [] ==> r.Err? && r.error.msg == "Backend ID validation ressource: " + resourceType + " backend_id cannot be empty"
    ensures |backendId| > MaxBackendIdLength ==> r.Err? && r.error.msg == resourceType + " backend_id is too long (max 255 characters)"
  {
    if backendId == [] then
      Err(ValueError("Backend ID validation ressource: " + resourceType + " backend_id cannot be empty"))
    else if |backendId| > MaxBackendIdLength then
      Err(ValueError(resourceType + " backend_id is too long (max 255 characters)"))
    else
      Ok(true)
  }

  // ---------------------------------------------------------------------------
  // Retry with exponential backoff
  // ---------------------------------------------------------------------------

  /** What one call of the wrapped function did. */
  datatype Attempt<+T, +E> = Returned(value: T) | Raised(exc: E)

  /** What the wrapper did: returned a value, re-raised an exception unchanged, or raised
      `RuntimeError("Unexpected retry logic error")` because no attempt was made. */
  datatype Outcome<+T, +E> = Done(value: T) | Failed(exc: E) | Unexpected

  /** The decorator's parameters; delays are whole seconds. */
  datatype RetryPolicy = RetryPolicy(maxAttempts: int, baseDelay: nat, maxDelay: nat, exponentialBase: nat)

  /** A run of the wrapper: the final state, the outcome, the number of calls made and the
      delays slept between them. */
  datatype Run<S, +T, +E> = Run(state: S, outcome: Outcome<T, E>, calls: nat, delays: seq<nat>)

  const UnexpectedRetryMessage := "Unexpected retry logic error"

  /** The decorator's defaults, used by the gateway: 3 attempts, 1 s base, 60 s cap, base 2. */
  const DefaultPolicy := RetryPolicy(3, 1, 60, 2)

  function Pow(b: nat, e: nat): nat {
    if e == 0 then 1 else b * Pow(b, e - 1)
  }

  function Min(a: nat, b: nat): nat { if a <= b then a else b }

  /** The delay slept after failed attempt `attempt` when another attempt follows. */
  function Backoff(p: RetryPolicy, attempt: nat): (d: nat)
    requires attempt >= 1
    ensures d <= p.maxDelay
    ensures d <= p.baseDelay * Pow(p.exponentialBase, attempt - 1)
    ensures d == p.maxDelay || d == p.baseDelay * Pow(p.exponentialBase, attempt - 1)
  {
    Min(p.baseDelay * Pow(p.exponentialBase, attempt - 1), p.maxDelay)
  }

  /** The state after `k` calls of `step`. */
  function Iterate<S, T, E>(step: S -> (S, Attempt<T, E>), s: S, k: nat): S
    decreases k
  {
    if k == 0 then s else Iterate(step, step(s).0, k - 1)
  }

  /** What the `k`-th call (1-based) of `step` does, starting from `s`. */
  function AttemptAt<S, T, E>(step: S -> (S, Attempt<T, E>), s: S, k: nat): Attempt<T, E>
    requires k >= 1
  {
    step(Iterate(step, s, k - 1)).1
  }

  /** The wrapper from attempt number `attempt` on. */
  function RetryFrom<S, T, E>(p: RetryPolicy, caught: E -> bool, step: S -> (S, Attempt<T, E>), s: S, attempt: nat): Run<S, T, E>
    requires attempt >= 1
    decreases if p.maxAttempts >= attempt then p.maxAttempts - attempt + 1 else 0
  {
    if attempt > p.maxAttempts then Run(s, Unexpected, 0, [])
    else
      var (s1, a) := step(s);
      match a
      case Returned(v) => Run(s1, Done(v), 1, [])
      case Raised(e) =>
        if !caught(e) || attempt == p.maxAttempts then Run(s1, Failed(e), 1, [])
        else
          var rest := RetryFrom(p, caught, step, s1, attempt + 1);
          Run(rest.state, rest.outcome, rest.calls + 1, [Backoff(p, attempt)] + rest.delays)
  }

  /** `retry_on_exception(...)(func)` applied to a function whose calls are `step`. */
  function RetryF<S, T, E>(p: RetryPolicy, caught: E -> bool, step: S -> (S, Attempt<T, E>), s: S): Run<S, T, E> {
    RetryFrom(p, caught, step, s, 1)
  }

  lemma {:induction false} RetryFromMeaning<S, T, E>(p: RetryPolicy, caught: E -> bool, step: S -> (S, Attempt<T, E>), s: S, attempt: nat)
    requires 1 <= attempt <= p.maxAttempts
    ensures var r := RetryFrom(p, caught, step, s, attempt);
      && 1 <= r.calls <= p.maxAttempts - attempt + 1
      && r.state == Iterate(step, s, r.calls)
      && !r.outcome.Unexpected?
      && (forall j :: 1 <= j < r.calls ==> AttemptAt(step, s, j).Raised? && caught(AttemptAt(step, s, j).exc))
      && (r.outcome.Done? ==> AttemptAt(step, s, r.calls) == Returned(r.outcome.value))
      && (r.outcome.Failed? ==> AttemptAt(step, s, r.calls) == Raised(r.outcome.exc)
                                && (!caught(r.outcome.exc) || attempt + r.calls - 1 == p.maxAttempts))
      && |r.delays| == r.calls - 1
      && (forall k :: 0 <= k < |r.delays| ==> r.delays[k] == Backoff(p, attempt + k))
    decreases p.maxAttempts - attempt
  {
    var (s1, a) := step(s);
    assert AttemptAt(step, s, 1) == a;
    if a.Raised? && caught(a.exc) && attempt < p.maxAttempts {
      RetryFromMeaning(p, caught, step, s1, attempt + 1);
      var rest := RetryFrom(p, caught, step, s1, attempt + 1);
      forall j | 1 <= j <= rest.calls
        ensures AttemptAt(step, s, j + 1) == AttemptAt(step, s1, j)
      {
        assert Iterate(step, s, j) == Iterate(step, s1, j - 1);
      }
      assert Iterate(step, s, rest.calls + 1) == Iterate(step, s1, rest.calls);
      var r := RetryFrom(p, caught, step, s, attempt);
      assert r.delays == [Backoff(p, attempt)] + rest.delays;
      forall j | 1 <= j < r.calls
        ensures AttemptAt(step, s, j).Raised? && caught(AttemptAt(step, s, j).exc)
      {
        if j > 1 { assert AttemptAt(step, s, j) == AttemptAt(step, s1, j - 1); }
      }
    }
  }

  /** The retry wrapper's contract: at most `maxAttempts` calls; the result of the first call
      that does not raise is returned; every earlier call raised a caught exception; an
      exception outside `caught` propagates at once, and after `maxAttempts` caught failures
      the last one is re-raised unchanged; with no attempts allowed the function is never
      called and RuntimeError results; the delay after failed attempt k is
      `min(base * exponentialBase^(k-1), maxDelay)`. */
  lemma RetryMeaning<S, T, E>(p: RetryPolicy, caught: E -> bool, step: S -> (S, Attempt<T, E>), s: S)
    ensures var r := RetryF(p, caught, step, s);
      && (r.outcome.Unexpected? <==> p.maxAttempts < 1)
      && (p.maxAttempts < 1 ==> r.calls == 0 && r.state == s && r.delays == [])
      && (p.maxAttempts >= 1 ==>
          && 1 <= r.calls <= p.maxAttempts
          && r.state == Iterate(step, s, r.calls)
          && (forall j :: 1 <= j < r.calls ==> AttemptAt(step, s, j).Raised? && caught(AttemptAt(step, s, j).exc))
          && (r.outcome.Done? ==> AttemptAt(step, s, r.calls) == Returned(r.outcome.value))
          && (r.outcome.Failed? ==> AttemptAt(step, s, r.calls) == Raised(r.outcome.exc)
                                    && (!caught(r.outcome.exc) || r.calls == p.maxAttempts))
          && |r.delays| == r.calls - 1
          && (forall k :: 0 <= k < |r.delays| ==> r.delays[k] == Backoff(p, k + 1) <= p.maxDelay))
  {
    if p.maxAttempts >= 1 {
      RetryFromMeaning(p, caught, step, s, 1);
    }
  }

  /** A function whose first call does not raise is called exactly once. */
  lemma RetryFirstSuccess<S, T, E>(p: RetryPolicy, caught: E -> bool, step: S -> (S, Attempt<T, E>), s: S)
    requires p.maxAttempts >= 1 && step(s).1.Returned?
    ensures RetryF(p, caught, step, s) == Run(step(s).0, Done(step(s).1.value), 1, [])
  {
  }

  /** The wrapper loop: `for attempt in range(1, max_attempts + 1)` with the state threaded
      through the calls and each delay recorded instead of slept. */
  method Retry<S, T, E>(p: RetryPolicy, caught: E -> bool, step: S -> (S, Attempt<T, E>), s0: S) returns (run: Run<S, T, E>)
    ensures run == RetryF(p, caught, step, s0)
  {
    var s := s0;
    var delays: seq<nat> := [];
    var lastException: Option<E> := None;
    var attempt := 1;
    while attempt <= p.maxAttempts
      invariant attempt >= 1
      invariant attempt > 1 ==> attempt <= p.maxAttempts && lastException.Some?
      invariant attempt == 1 ==> lastException.None? && delays == [] && s == s0
      invariant var rest := RetryFrom(p, caught, step, s, attempt);
        RetryF(p, caught, step, s0) == Run(rest.state, rest.outcome, rest.calls + attempt - 1, delays + rest.delays)
      decreases p.maxAttempts - attempt
    {
      var (s1, a) := step(s);
      match a {
        case Returned(v) =>
          return Run(s1, Done(v), attempt, delays);
        case Raised(e) =>
          if !caught(e) {
            return Run(s1, Failed(e), attempt, delays);
          }
          lastException := Some(e);
          if attempt == p.maxAttempts {
            return Run(s1, Failed(e), attempt, delays);
          }
          var delay := Backoff(p, attempt);
          var rest := RetryFrom(p, caught, step, s1, attempt + 1);
          assert delays + ([delay] + rest.delays) == (delays + [delay]) + rest.delays;
          delays := delays + [delay];
          s := s1;
          attempt := attempt + 1;
      }
    }
    if lastException.Some? {
      assert false;
    }
    return Run(s, Unexpected, 0, []);
  }

  // ---------------------------------------------------------------------------
  // Nested dictionary lookup
  // ---------------------------------------------------------------------------

  /** The value reached by following `keys` from `data`, if every step finds a dictionary
      holding the key. */
  function Path(data: Value, keys: seq<string>): Option<Value>
    decreases |keys|
  {
    if keys == [] then Some(data)
    else if data.Dict? && keys[0] in data.entries then Path(data.entries[keys[0]], keys[1..])
    else None
  }

  /** Following `a + b` is following `a`, then `b` from where `a` led. */
  lemma {:induction false} PathConcat(data: Value, a: seq<string>, b: seq<string>)
    ensures Path(data, a + b) == match Path(data, a) case None => None case Some(v) => Path(v, b)
    decreases |a|
  {
    if a == [] {
      assert a + b == b;
    } else {
      assert (a + b)[0] == a[0] && (a + b)[1..] == a[1..] + b;
      if data.Dict? && a[0] in data.entries {
        PathConcat(data.entries[a[0]], a[1..], b);
      }
    }
  }

  /** Lookup stops with `None` as soon as a key is missing or an intermediate value is not a
      dictionary, whatever the remaining keys are. */
  lemma PathStopsAtMissingKey(data: Value, keys: seq<string>, i: nat)
    requires i < |keys|
    requires Path(data, keys[..i]).Some?
    requires var v := Path(data, keys[..i]).value; !v.Dict? || keys[i] !in v.entries
    ensures Path(data, keys) == None
  {
    assert keys == keys[..i] + keys[i..];
    PathConcat(data, keys[..i], keys[i..]);
  }

  /** `get_safe_dict_value(data, *keys, default=default)` */
  method GetSafeDictValue(data: Value, keys: seq<string>, default: Value) returns (r: Value)
    ensures keys == [] ==> r == data
    ensures r == match Path(data, keys) case Some(v) => v case None => default
  {
    var current := data;
    for i := 0 to |keys|
      invariant Path(data, keys) == Path(current, keys[i..])
    {
      var key := keys[i];
      assert keys[i..][0] == key && keys[i..][1..] == keys[i + 1..];
      if current.Dict? && key in current.entries {
        current := current.entries[key];
      } else {
        return default;
      }
    }
    return current;
  }
}
