/** `extract_fields_with_llm`: blank text gives the empty result at once; otherwise the
    prompt is built around the `max_chars` prefix of the text and the model is asked up
    to three times. A blocked prompt or a blank reply moves on to the next attempt at
    once, a reply that parses and normalises is returned, and an attempt that raises
    waits 1.5 × (attempt + 1) seconds before the next one. The model, the JSON parser,
    the profile loader and the prompt template are the environment's; the calls and
    the waits (in tenths of a second) are recorded in a trace. */
module Orchestrator {
  import opened Text
  import opened JsonValue
  import opened Fields
  import opened ExtractorHelpers
  import opened Normalize

  /** What one `model.generate_content(full_prompt)` call comes to. */
  datatype Reply =
    | Blocked               // `prompt_feedback.block_reason` is set
    | Answer(text: string)  // the first part's text; `""` when there is no candidate text
    | Failure               // the call raised

  /** Everything the function takes from outside: `json.loads`, the result of
      `load_profile()` (`None` when it raises), `SYSTEM_INSTRUCTIONS`, the template's
      `substitute` (`None` when it raises) and the model's reply on each attempt. */
  datatype Env = Env(
    parse: string -> Option<Json>,
    profile: Option<string>,
    system: string,
    substitute: string -> Option<string>,
    reply: nat -> Reply)

  /** What the function observably does besides returning: model calls and sleeps. */
  datatype Event = Call(prompt: string) | Sleep(tenths: nat)

  /** How one attempt ends. */
  datatype Outcome = Skipped | Returned(value: Record) | Raised

  const Attempts: nat := 3

  /** `empty_result`: every target key `None`, except `Welding_Notes` and `Notes`, which
      are empty lists. */
  const EmptyResult: Record := Record(
    JNull, JNull, JNull, JNull, JNull, JNull, JArr([]), JNull,
    JNull, JNull, JNull, JNull, JNull, JArr([]), JNull, JNull)

  /** Each field of `empty_result`. */
  lemma EmptyResultFields(f: Field)
    ensures At(EmptyResult, f) == if f == WeldingNotes || f == Notes then JArr([]) else JNull
  {
  }

  /** `document_text[:max_chars] if len(document_text) > max_chars else document_text`,
      with Python's slice of a negative bound counting from the end. */
  function Truncate(text: string, maxChars: int): (r: string)
    ensures 0 <= maxChars ==> |r| == if |text| <= maxChars then |text| else maxChars
    ensures r <= text
    ensures maxChars < 0 ==> |r| == if |text| + maxChars < 0 then 0 else |text| + maxChars
  {
    if |text| <= maxChars then text
    else if 0 <= maxChars then text[..maxChars]
    else if |text| + maxChars < 0 then []
    else text[..|text| + maxChars]
  }

  /** `profile_block`: the profile JSON under its heading, or nothing. */
  function ProfileBlock(profile: Option<string>): (r: string)
    ensures profile.None? || profile.value == "" ==> r == ""
    ensures profile.Some? && profile.value != "" ==> r == "CLIENT_PROFILE_JSON:\n" + profile.value + "\n\n"
  {
    match profile
    case Some(p) => if p != "" then "CLIENT_PROFILE_JSON:\n" + p + "\n\n" else ""
    case None => ""
  }

  /** `full_prompt`, or `None` when building it raises. */
  function Prompt(env: Env, truncated: string): (r: Option<string>)
    ensures env.substitute(truncated).None? <==> r.None?
    ensures r.Some? ==> r.value == env.system + "\n\n" + ProfileBlock(env.profile) + env.substitute(truncated).value
  {
    match env.substitute(truncated)
    case Some(body) => Some(env.system + "\n\n" + ProfileBlock(env.profile) + body)
    case None => None
  }

  /** How an attempt with reply `reply` ends: blocked or blank replies are skipped, and a
      reply is returned once `_coerce_json` and `_normalize` both succeed. */
  function AttemptOutcome(env: Env, reply: Reply, truncated: string): (r: Outcome)
    ensures reply.Blocked? ==> r.Skipped?
    ensures reply.Failure? ==> r.Raised?
    ensures reply.Answer? && Strip(reply.text) == [] ==> r.Skipped?
    ensures reply.Answer? && Strip(reply.text) != [] && !r.Returned? ==> r.Raised?
    ensures r.Returned? <==>
      && reply.Answer? && Strip(reply.text) != []
      && CoerceJson(env.parse, reply.text).Ok?
      && NormalizeSpec(CoerceJson(env.parse, reply.text).value, truncated).Ok?
    ensures r.Returned? ==>
      r.value == NormalizeSpec(CoerceJson(env.parse, reply.text).value, truncated).value
  {
    match reply
    case Blocked => Skipped
    case Failure => Raised
    case Answer(t) =>
      if Strip(t) == [] then Skipped
      else match CoerceJson(env.parse, t)
        case Raise(_) => Raised
        case Ok(data) =>
          match NormalizeSpec(data, truncated)
          case Ok(v) => Returned(v)
          case Raise(_) => Raised
  }

  /** The outcome of attempt `i`. */
  function OutcomeAt(env: Env, truncated: string, i: nat): Outcome {
    AttemptOutcome(env, env.reply(i), truncated)
  }

  /** The wait after a raising attempt `i`, in tenths of a second: `1.5 * (attempt + 1)`. */
  function Wait(i: nat): (t: nat)
    ensures t == 15 * (i + 1)
  {
    15 * (i + 1)
  }

  /** The events of attempt `i` on its own. */
  function AttemptEvents(prompt: string, o: Outcome, i: nat): (r: seq<Event>)
    ensures |r| > 0 && r[0] == Call(prompt)
    ensures o.Raised? ==> r == [Call(prompt), Sleep(Wait(i))]
    ensures !o.Raised? ==> r == [Call(prompt)]
  {
    if o.Raised? then [Call(prompt), Sleep(Wait(i))] else [Call(prompt)]
  }

  /** Attempts `i` to 2, attempt `j` ending as `outcome(j)`: the result of the first
      one that returns, and the events. */
  function Retry(prompt: string, outcome: nat -> Outcome, i: nat): (r: (Option<Record>, seq<Event>))
    requires i <= Attempts
    ensures r.0.Some? ==> exists j :: i <= j < Attempts && outcome(j) == Returned(r.0.value)
    ensures r.0.None? <==> forall j :: i <= j < Attempts ==> !outcome(j).Returned?
    ensures r.1 == [] <==> i == Attempts
    decreases Attempts - i
  {
    if i == Attempts then (None, [])
    else
      var o := outcome(i);
      if o.Returned? then (Some(o.value), AttemptEvents(prompt, o, i))
      else
        var rest := Retry(prompt, outcome, i + 1);
        (rest.0, AttemptEvents(prompt, o, i) + rest.1)
  }

  /** The outcomes of the attempts on the prompt for `truncated`. */
  function Outcomes(env: Env, truncated: string): (r: nat -> Outcome)
    ensures forall j: nat :: r(j) == OutcomeAt(env, truncated, j)
  {
    (j: nat) => OutcomeAt(env, truncated, j)
  }

  /** `outcome` gives the outcome of every attempt on the prompt for `truncated`. */
  ghost predicate Agrees(env: Env, truncated: string, outcome: nat -> Outcome) {
    forall j: nat {:trigger OutcomeAt(env, truncated, j)} :: outcome(j) == OutcomeAt(env, truncated, j)
  }

  /** The outcomes drawn from the environment agree with it. */
  lemma OutcomesAgree(env: Env, truncated: string)
    ensures Agrees(env, truncated, Outcomes(env, truncated))
  {
  }

  /** `extract_fields_with_llm(document_text, max_chars)`: the returned dict and the
      events. */
  function ExtractSpec(env: Env, text: string, maxChars: int): (r: (Record, seq<Event>))
    ensures Strip(text) == [] ==> r.0 == EmptyResult && r.1 == []
  {
    if Strip(text) == [] then (EmptyResult, [])
    else
      var truncated := Truncate(text, maxChars);
      match Prompt(env, truncated)
      case None => (EmptyResult, [])
      case Some(p) =>
        var (v, events) := Retry(p, Outcomes(env, truncated), 0);
        (if v.Some? then v.value else EmptyResult, events)
  }

  /** One pass of the source's retry loop: the model call, then `continue` on a blocked
      or blank reply, `return` once `_coerce_json` and `_normalize` accept the reply, and
      the sleep after anything that raises. */
  method RunAttempt(env: Env, fullPrompt: string, truncated: string, attempt: nat, ghost outcome: nat -> Outcome)
    returns (o: Outcome, events: seq<Event>)
    requires Agrees(env, truncated, outcome)
    ensures o == outcome(attempt)
    ensures events == AttemptEvents(fullPrompt, o, attempt)
  {
    assert outcome(attempt) == OutcomeAt(env, truncated, attempt);
    events := [Call(fullPrompt)];
    var reply := env.reply(attempt);
    if reply.Blocked? {
      return Skipped, events;
    }
    if reply.Answer? {
      if Strip(reply.text) == [] {
        return Skipped, events;
      }
      var data := CoerceJson(env.parse, reply.text);
      if data.Ok? {
        var normalized := Normalize.Normalize(data.value, truncated);
        if normalized.Ok? {
          return Returned(normalized.value), events;
        }
      }
    }
    events := events + [Sleep(Wait(attempt))];
    return Raised, events;
  }

  /** An attempt that does not return adds its events and leaves the rest to the next
      attempts. */
  lemma RetryStep(prompt: string, outcome: nat -> Outcome, i: nat)
    requires i < Attempts && !outcome(i).Returned?
    ensures Retry(prompt, outcome, i).0 == Retry(prompt, outcome, i + 1).0
    ensures Retry(prompt, outcome, i).1 == AttemptEvents(prompt, outcome(i), i) + Retry(prompt, outcome, i + 1).1
  {
  }

  /** An attempt that returns ends the retries with its result. */
  lemma RetryReturns(prompt: string, outcome: nat -> Outcome, i: nat)
    requires i < Attempts && outcome(i).Returned?
    ensures Retry(prompt, outcome, i) == (Some(outcome(i).value), AttemptEvents(prompt, outcome(i), i))
  {
  }

  /** Concatenation of traces is associative. */
  lemma AppendAssoc(a: seq<Event>, b: seq<Event>, c: seq<Event>)
    ensures a + b + c == a + (b + c)
  {
  }

  /** The loop's invariant after an attempt that does not return. */
  lemma RetryLoopNext(prompt: string, outcome: nat -> Outcome, i: nat, trace: seq<Event>, events: seq<Event>)
    requires i < Attempts && !outcome(i).Returned?
    requires events == AttemptEvents(prompt, outcome(i), i)
    requires Retry(prompt, outcome, 0).1 == trace + Retry(prompt, outcome, i).1
    requires Retry(prompt, outcome, 0).0 == Retry(prompt, outcome, i).0
    ensures Retry(prompt, outcome, 0).1 == (trace + events) + Retry(prompt, outcome, i + 1).1
    ensures Retry(prompt, outcome, 0).0 == Retry(prompt, outcome, i + 1).0
  {
    RetryStep(prompt, outcome, i);
    AppendAssoc(trace, events, Retry(prompt, outcome, i + 1).1);
  }

  /** The loop's result after an attempt that returns. */
  lemma RetryLoopDone(prompt: string, outcome: nat -> Outcome, i: nat, trace: seq<Event>, events: seq<Event>)
    requires i < Attempts && outcome(i).Returned?
    requires events == AttemptEvents(prompt, outcome(i), i)
    requires Retry(prompt, outcome, 0).1 == trace + Retry(prompt, outcome, i).1
    requires Retry(prompt, outcome, 0).0 == Retry(prompt, outcome, i).0
    ensures Retry(prompt, outcome, 0) == (Some(outcome(i).value), trace + events)
  {
    RetryReturns(prompt, outcome, i);
  }

  /** The source's `for attempt in range(3)` loop: each attempt adds its events, and the
      first one that returns ends the loop. */
  method RetryLoop(env: Env, fullPrompt: string, truncated: string, ghost outcome: nat -> Outcome)
    returns (result: Option<Record>, trace: seq<Event>)
    requires Agrees(env, truncated, outcome)
    ensures result == Retry(fullPrompt, outcome, 0).0
    ensures trace == Retry(fullPrompt, outcome, 0).1
  {
    trace := [];
    for attempt: nat := 0 to Attempts
      invariant Retry(fullPrompt, outcome, 0).1 == trace + Retry(fullPrompt, outcome, attempt).1
      invariant Retry(fullPrompt, outcome, 0).0 == Retry(fullPrompt, outcome, attempt).0
    {
      var o, events := RunAttempt(env, fullPrompt, truncated, attempt, outcome);
      if o.Returned? {
        RetryLoopDone(fullPrompt, outcome, attempt, trace, events);
        return Some(o.value), trace + events;
      }
      RetryLoopNext(fullPrompt, outcome, attempt, trace, events);
      trace := trace + events;
    }
    return None, trace;
  }

  /** `extract_fields_with_llm(document_text, max_chars)`: blank text returns at once,
      as does a prompt that cannot be built; otherwise the retry loop decides. */
  method ExtractFieldsWithLlm(env: Env, text: string, maxChars: int) returns (result: Record, trace: seq<Event>)
    ensures result == ExtractSpec(env, text, maxChars).0
    ensures trace == ExtractSpec(env, text, maxChars).1
  {
    if Strip(text) == [] {
      return EmptyResult, [];
    }
    var truncated := Truncate(text, maxChars);
    var prompt := Prompt(env, truncated);
    if prompt.None? {
      return EmptyResult, [];
    }
    var returned;
    OutcomesAgree(env, truncated);
    returned, trace := RetryLoop(env, prompt.value, truncated, Outcomes(env, truncated));
    result := if returned.Some? then returned.value else EmptyResult;
  }

  // ---------------------------------------------------------------------------
  // Properties
  // ---------------------------------------------------------------------------

  /** The number of model calls in a trace. */
  function CallCount(events: seq<Event>): (n: nat)
    ensures n <= |events|
  {
    if events == [] then 0
    else (if events[0].Call? then 1 else 0) + CallCount(events[1..])
  }

  /** Calls in two traces add up. */
  lemma {:induction false} CallCountAppend(a: seq<Event>, b: seq<Event>)
    ensures CallCount(a + b) == CallCount(a) + CallCount(b)
  {
    if a == [] {
      assert a + b == b;
    } else {
      assert a + b != [] && (a + b)[0] == a[0];
      assert (a + b)[1..] == a[1..] + b;
      CallCountAppend(a[1..], b);
    }
  }

  /** Attempts from `i` on call the model at most `3 - i` times, each time with the same
      prompt. */
  lemma {:induction false} RetryCalls(prompt: string, outcome: nat -> Outcome, i: nat)
    requires i <= Attempts
    ensures CallCount(Retry(prompt, outcome, i).1) <= Attempts - i
    ensures forall e :: e in Retry(prompt, outcome, i).1 && e.Call? ==> e.prompt == prompt
    decreases Attempts - i
  {
    if i < Attempts {
      var o := outcome(i);
      var ev := AttemptEvents(prompt, o, i);
      assert CallCount(ev) == 1 by {
        if o.Raised? { assert ev[1..] == [Sleep(Wait(i))]; }
      }
      if !o.Returned? {
        RetryCalls(prompt, outcome, i + 1);
        CallCountAppend(ev, Retry(prompt, outcome, i + 1).1);
      }
    }
  }

  /** The model is called at most three times, and always with the prompt built from the
      `max_chars` prefix of the text. */
  lemma AtMostThreeCalls(env: Env, text: string, maxChars: int)
    ensures var r := ExtractSpec(env, text, maxChars);
      && CallCount(r.1) <= 3
      && forall e :: e in r.1 && e.Call? ==>
           Prompt(env, Truncate(text, maxChars)).Some? && e.prompt == Prompt(env, Truncate(text, maxChars)).value
  {
    if Strip(text) != [] {
      var truncated := Truncate(text, maxChars);
      if Prompt(env, truncated).Some? {
        RetryCalls(Prompt(env, truncated).value, Outcomes(env, truncated), 0);
      }
    }
  }

  /** When attempts `i` to 2 all fail to return, nothing is returned and each one calls the
      model once; exactly the raising ones sleep, each as long as its number says. */
  lemma {:induction false} RetryExhausted(prompt: string, outcome: nat -> Outcome, i: nat)
    requires i <= Attempts
    requires forall j :: i <= j < Attempts ==> !outcome(j).Returned?
    ensures Retry(prompt, outcome, i).0 == None
    ensures CallCount(Retry(prompt, outcome, i).1) == Attempts - i
    decreases Attempts - i
  {
    if i < Attempts {
      var o := outcome(i);
      var ev := AttemptEvents(prompt, o, i);
      assert CallCount(ev) == 1 by {
        if o.Raised? { assert ev[1..] == [Sleep(Wait(i))]; }
      }
      RetryExhausted(prompt, outcome, i + 1);
      CallCountAppend(ev, Retry(prompt, outcome, i + 1).1);
    }
  }

  /** When no attempt returns, the result is `empty_result` after exactly three calls. */
  lemma Exhausted(env: Env, text: string, maxChars: int)
    requires Strip(text) != []
    requires Prompt(env, Truncate(text, maxChars)).Some?
    requires forall j :: 0 <= j < Attempts ==> !OutcomeAt(env, Truncate(text, maxChars), j).Returned?
    ensures ExtractSpec(env, text, maxChars).0 == EmptyResult
    ensures CallCount(ExtractSpec(env, text, maxChars).1) == 3
  {
    var truncated := Truncate(text, maxChars);
    RetryExhausted(Prompt(env, truncated).value, Outcomes(env, truncated), 0);
  }

  /** The first attempt that returns decides the result: it is returned after `i + 1`
      calls. */
  lemma {:induction false} RetryFirst(prompt: string, outcome: nat -> Outcome, start: nat, i: nat)
    requires start <= i < Attempts
    requires forall j :: start <= j < i ==> !outcome(j).Returned?
    requires outcome(i).Returned?
    ensures Retry(prompt, outcome, start).0 == Some(outcome(i).value)
    ensures CallCount(Retry(prompt, outcome, start).1) == i - start + 1
    decreases i - start
  {
    var o := outcome(start);
    var ev := AttemptEvents(prompt, o, start);
    assert CallCount(ev) == 1 by {
      if o.Raised? { assert ev[1..] == [Sleep(Wait(start))]; }
    }
    if start < i {
      RetryFirst(prompt, outcome, start + 1, i);
      CallCountAppend(ev, Retry(prompt, outcome, start + 1).1);
    }
  }

  /** The first reply that parses and normalises is what the function returns. */
  lemma FirstSuccess(env: Env, text: string, maxChars: int, i: nat)
    requires Strip(text) != []
    requires Prompt(env, Truncate(text, maxChars)).Some?
    requires i < Attempts
    requires forall j :: 0 <= j < i ==> !OutcomeAt(env, Truncate(text, maxChars), j).Returned?
    requires OutcomeAt(env, Truncate(text, maxChars), i).Returned?
    ensures ExtractSpec(env, text, maxChars).0 == OutcomeAt(env, Truncate(text, maxChars), i).value
    ensures CallCount(ExtractSpec(env, text, maxChars).1) == i + 1
  {
    var truncated := Truncate(text, maxChars);
    RetryFirst(Prompt(env, truncated).value, Outcomes(env, truncated), 0, i);
  }

  /** Three raising attempts: three calls, each followed by its wait. */
  lemma RetryAllRaise(prompt: string, outcome: nat -> Outcome)
    requires outcome(0).Raised? && outcome(1).Raised? && outcome(2).Raised?
    ensures Retry(prompt, outcome, 0).0 == None
    ensures Retry(prompt, outcome, 0).1 == [Call(prompt), Sleep(15), Call(prompt), Sleep(30), Call(prompt), Sleep(45)]
  {
    assert Retry(prompt, outcome, 3).1 == [];
    assert Retry(prompt, outcome, 2).1 == [Call(prompt), Sleep(45)];
    assert Retry(prompt, outcome, 1).1 == [Call(prompt), Sleep(30), Call(prompt), Sleep(45)];
  }

  /** Three skipped attempts: three calls and no wait. */
  lemma RetryAllSkipped(prompt: string, outcome: nat -> Outcome)
    requires outcome(0).Skipped? && outcome(1).Skipped? && outcome(2).Skipped?
    ensures Retry(prompt, outcome, 0).0 == None
    ensures Retry(prompt, outcome, 0).1 == [Call(prompt), Call(prompt), Call(prompt)]
  {
    assert Retry(prompt, outcome, 3).1 == [];
    assert Retry(prompt, outcome, 2).1 == [Call(prompt)];
    assert Retry(prompt, outcome, 1).1 == [Call(prompt), Call(prompt)];
  }

  /** Three raising attempts: three calls, with waits of 1.5, 3 and 4.5 seconds. */
  lemma AllRaise(env: Env, text: string, maxChars: int)
    requires Strip(text) != []
    requires Prompt(env, Truncate(text, maxChars)).Some?
    requires forall j :: 0 <= j < Attempts ==> OutcomeAt(env, Truncate(text, maxChars), j).Raised?
    ensures var p := Prompt(env, Truncate(text, maxChars)).value;
      ExtractSpec(env, text, maxChars).1 == [Call(p), Sleep(15), Call(p), Sleep(30), Call(p), Sleep(45)]
    ensures ExtractSpec(env, text, maxChars).0 == EmptyResult
  {
    var truncated := Truncate(text, maxChars);
    var outcome := Outcomes(env, truncated);
    assert outcome(0).Raised? && outcome(1).Raised? && outcome(2).Raised?;
    RetryAllRaise(Prompt(env, truncated).value, outcome);
  }

  /** Three blocked or blank replies: three calls and no wait. */
  lemma AllSkipped(env: Env, text: string, maxChars: int)
    requires Strip(text) != []
    requires Prompt(env, Truncate(text, maxChars)).Some?
    requires forall j :: 0 <= j < Attempts ==> OutcomeAt(env, Truncate(text, maxChars), j).Skipped?
    ensures var p := Prompt(env, Truncate(text, maxChars)).value;
      ExtractSpec(env, text, maxChars).1 == [Call(p), Call(p), Call(p)]
    ensures ExtractSpec(env, text, maxChars).0 == EmptyResult
  {
    var truncated := Truncate(text, maxChars);
    var outcome := Outcomes(env, truncated);
    assert outcome(0).Skipped? && outcome(1).Skipped? && outcome(2).Skipped?;
    RetryAllSkipped(Prompt(env, truncated).value, outcome);
  }

  /** A reply that parses and normalises on the first attempt is returned after one call
      and no wait. */
  lemma FirstReplyReturned(env: Env, text: string, maxChars: int)
    requires Strip(text) != []
    requires Prompt(env, Truncate(text, maxChars)).Some?
    requires OutcomeAt(env, Truncate(text, maxChars), 0).Returned?
    ensures ExtractSpec(env, text, maxChars).1 == [Call(Prompt(env, Truncate(text, maxChars)).value)]
    ensures ExtractSpec(env, text, maxChars).0 == OutcomeAt(env, Truncate(text, maxChars), 0).value
  {
  }
}
