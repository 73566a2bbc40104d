/** The song-workflow engine: the status state machine that drives one `WorkflowState`
    record from `processing` through the four chat steps to `awaiting_review`, then, once a
    person approves, through the generation service to `completed`; any failing step ends in
    `failed`.

    The Go engine runs the stages in goroutines that share one record with the store. Here
    each stage is one method call on the record's current value, and every call ends with the
    record saved, so the value a method returns is also the stored one. The chat model, the
    JSON decoder and the generation service are oracles; the clock is a `now` parameter. */
module Workflow {
  import opened Base
  import opened Text
  import opened Storage
  import opened Extract
  import opened Suno

  /** The system prompts of the four chat steps. */
  datatype Prompts = Prompts(
    lyricsGeneration: string,
    sunoProperties: string,
    bracketInstructions: string,
    personaInspo: string)

  /** One request to the chat model: the system prompt and the user prompt. */
  datatype ChatCall = ChatCall(system: string, user: string)

  /** The engine's view of the outside world during the pre-review stage: the chat model
      (its reply or its error text) and strict JSON decoding of the two record types. */
  datatype Oracles = Oracles(
    chat: (string, string) -> Result<string>,
    parseProperties: string -> Option<SunoProperties>,
    parsePersona: string -> Option<PersonaInspo>)

  /** The step names `handleError` records. */
  const STEP_LYRICS := "lyrics generation"
  const STEP_PROPERTIES := "suno properties"
  const STEP_BRACKETS := "bracket instructions"
  const STEP_PERSONA := "persona/inspo"
  const STEP_SUBMISSION := "suno submission"
  const STEP_COMPLETION := "suno completion"

  /** The number of polls the engine allows the generation service. */
  const MAX_POLL_RETRIES := 60

  /** The error `submitToSuno` records when the service accepted the request but returned no clip. */
  const NO_RESULTS := "no results returned from Suno"

  /** The longest task text that goes into a generation title unshortened. */
  const TITLE_MAX_LEN := 50

  // ---- Pure helpers ----

  /** `truncateString`: byte-based shortening with an ellipsis. */
  function TruncateString(s: string, maxLen: nat): (r: string)
    ensures |s| <= maxLen ==> r == s
    ensures |s| > maxLen ==> |r| == maxLen + 3 && r[..maxLen] == s[..maxLen] && r[maxLen..] == "..."
  {
    if |s| <= maxLen then s else s[..maxLen] + "..."
  }

  /** Shortening a shortened text changes nothing more. */
  lemma TruncateIdempotent(s: string, maxLen: nat)
    ensures TruncateString(TruncateString(s, maxLen), maxLen) == TruncateString(s, maxLen)
  {
    if |s| > maxLen {
      var r := TruncateString(s, maxLen);
      assert r[..maxLen] + "..." == r;
    }
  }

  /** The user prompts of steps 2, 3 and 4. */
  function PropertiesPrompt(task: string, lyrics: string): string {
    "Subject Description:\n" + task + "\n\nLyrics:\n" + lyrics
  }

  function BracketPrompt(lyrics: string, props: SunoProperties): string {
    "Original Lyrics:\n" + lyrics + "\n\nSong Style: " + props.style + "\nVocal Type: " + props.vocalType
  }

  function PersonaPrompt(task: string, props: SunoProperties): string {
    "Subject: " + task + "\nStyle: " + props.style + "\nVocal Type: " + props.vocalType
  }

  /** How a chat reply becomes a record: a chat error is passed on as it is; otherwise the
      whole reply is decoded, and failing that the span the source's brace scan finds; when both
      fail the extractor's error is wrapped with `what`. When no `}` comes before the first `{`
      of the reply, that span is the first balanced object: it is decoded whenever it can be. */
  function Parsed<T>(reply: Result<string>, parse: string -> Option<T>, what: string): (r: Result<T>)
    ensures reply.Err? ==> r == Err(reply.error)
    ensures reply.Ok? && parse(reply.value).Some? ==> r == Ok(parse(reply.value).value)
    ensures reply.Ok? && r.Err? ==> r.error == "failed to parse " + what + ": " + NO_JSON
    ensures reply.Ok? && r.Ok? && parse(reply.value).None? ==>
      exists sp :: FromFirstOpen(reply.value, sp) && parse(reply.value[sp.start..sp.end]) == Some(r.value)
    ensures reply.Ok? && r.Ok? && parse(reply.value).None? && NoStrayClose(reply.value) ==>
      exists sp :: IsFirstObject(reply.value, sp) && parse(reply.value[sp.start..sp.end]) == Some(r.value)
    ensures reply.Ok? && NoStrayClose(reply.value) ==>
      forall sp :: IsFirstObject(reply.value, sp) && parse(reply.value[sp.start..sp.end]).Some? ==> r.Ok?
    ensures reply.Ok? && parse(reply.value).None? && NoStrayClose(reply.value) ==>
      forall sp :: IsFirstObject(reply.value, sp) && parse(reply.value[sp.start..sp.end]).Some? ==>
        r == Ok(parse(reply.value[sp.start..sp.end]).value)
  {
    if reply.Err? then Err(reply.error)
    else match parse(reply.value)
      case Some(v) => Ok(v)
      case None =>
        match SourceExtracted(reply.value, parse)
        case Ok(v) => Ok(v)
        case Err(e) => Err("failed to parse " + what + ": " + e)
  }

  /** A reply that wraps one balanced object in prose without braces, and does not decode as a
      whole, yields the decoding of that object whenever it decodes. */
  lemma ParsedAfterPreamble<T>(pre: string, obj: string, post: string, parse: string -> Option<T>, what: string)
    requires forall j :: 0 <= j < |pre| ==> pre[j] != '{' && pre[j] != '}'
    requires IsObject(obj) && parse(obj).Some?
    requires parse(pre + obj + post).None?
    ensures Parsed(Ok(pre + obj + post), parse, what) == Ok(parse(obj).value)
  {
    var s := pre + obj + post;
    var sp := Span(|pre|, |pre| + |obj|);
    assert s[sp.start..sp.end] == obj;
    assert s[|pre|] == '{';
    assert NoOpenBefore(s, |pre|) by {
      forall j | 0 <= j < |pre| ensures s[j] != '{' {
        assert s[j] == pre[j];
      }
    }
    forall k | sp.start < k < sp.end ensures Balance(s[sp.start..k]) > 0 {
      assert s[sp.start..k] == obj[..k - |pre|];
    }
    assert IsFirstObject(s, sp);
    assert NoStrayClose(s);
    var r := Parsed(Ok(s), parse, what);
    assert r.Ok?;
    var sp' :| IsFirstObject(s, sp') && parse(s[sp'.start..sp'.end]) == Some(r.value);
    FirstObjectUnique(s, sp, sp');
  }

  /** The decoding half of `determineSunoProperties` and `generatePersonaInspo`. */
  method ParseReply<T>(reply: Result<string>, parse: string -> Option<T>, what: string) returns (r: Result<T>)
    ensures r == Parsed(reply, parse, what)
  {
    if reply.Err? {
      return Err(reply.error);
    }
    var strict := parse(reply.value);
    if strict.Some? {
      return Ok(strict.value);
    }
    var extracted := SourceExtractObject(reply.value, parse);
    if extracted.Err? {
      return Err("failed to parse " + what + ": " + extracted.error);
    }
    return extracted;
  }

  /** `determineSunoProperties`. */
  method DetermineSunoProperties(p: Prompts, o: Oracles, task: string, lyrics: string) returns (r: Result<SunoProperties>)
    ensures r == Parsed(o.chat(p.sunoProperties, PropertiesPrompt(task, lyrics)), o.parseProperties, "suno properties")
  {
    var userPrompt := PropertiesPrompt(task, lyrics);
    var response := o.chat(p.sunoProperties, userPrompt);
    r := ParseReply(response, o.parseProperties, "suno properties");
  }

  /** `generatePersonaInspo`. */
  method GeneratePersonaInspo(p: Prompts, o: Oracles, task: string, props: SunoProperties) returns (r: Result<PersonaInspo>)
    ensures r == Parsed(o.chat(p.personaInspo, PersonaPrompt(task, props)), o.parsePersona, "persona/inspo")
  {
    var userPrompt := PersonaPrompt(task, props);
    var response := o.chat(p.personaInspo, userPrompt);
    r := ParseReply(response, o.parsePersona, "persona/inspo");
  }

  // ---- The pre-review stage, as a specification ----

  /** What `handleError` does to the record before saving it. */
  function Failed(s: WorkflowState, step: string, err: string): (t: WorkflowState)
    ensures t.status == STATUS_FAILED && HasPrefix(t.errorMsg, step + " failed: ")
    ensures t == s.(status := STATUS_FAILED, errorMsg := step + " failed: " + err)
  {
    s.(status := STATUS_FAILED, errorMsg := step + " failed: " + err)
  }

  /** What step 5 does to the record before saving it. */
  function ReadyForReview(s: WorkflowState): WorkflowState {
    s.(status := STATUS_AWAITING_REVIEW, editedLyrics := s.lyricsWithBrackets, editedProperties := s.sunoProperties)
  }

  /** The number of chat steps before review: three, and the persona step for premium records. */
  function StepCount(isPremium: bool): nat {
    if isPremium then 4 else 3
  }

  /** Step `k`'s name and system prompt, in the order the steps run. */
  function StepName(k: nat): string {
    if k == 0 then STEP_LYRICS else if k == 1 then STEP_PROPERTIES else if k == 2 then STEP_BRACKETS else STEP_PERSONA
  }

  function StepSystem(p: Prompts, k: nat): string {
    if k == 0 then p.lyricsGeneration else if k == 1 then p.sunoProperties
    else if k == 2 then p.bracketInstructions else p.personaInspo
  }

  /** The error step `k` ends in when its chat request is `c`, or `None` when it succeeds: the
      chat error for the lyrics and bracket steps, the decoding error (which passes a chat error
      on) for the properties and persona steps. */
  function StepError(o: Oracles, c: ChatCall, k: nat): Option<string> {
    if k == 0 || k == 2 then
      var reply := o.chat(c.system, c.user);
      if reply.Err? then Some(reply.error) else None
    else if k == 1 then
      var props := Parsed(o.chat(c.system, c.user), o.parseProperties, "suno properties");
      if props.Err? then Some(props.error) else None
    else
      var persona := Parsed(o.chat(c.system, c.user), o.parsePersona, "persona/inspo");
      if persona.Err? then Some(persona.error) else None
  }

  /** The field step `k` writes holds its zero value: a failed step still stores what the
      failed call returned, which is `""` or nil. */
  predicate StepOutputCleared(t: WorkflowState, k: nat) {
    if k == 0 then t.lyrics == ""
    else if k == 1 then t.sunoProperties.None?
    else if k == 2 then t.lyricsWithBrackets == ""
    else t.personaInspo.None?
  }

  /** The fields that steps `k` onwards write are as in `s`. */
  predicate UntouchedFrom(s: WorkflowState, t: WorkflowState, k: nat) {
    && (k <= 0 ==> t.lyrics == s.lyrics)
    && (k <= 1 ==> t.sunoProperties == s.sunoProperties)
    && (k <= 2 ==> t.lyricsWithBrackets == s.lyricsWithBrackets)
    && (k <= 3 ==> t.personaInspo == s.personaInspo)
  }

  /** `t` differs from `s` at most in the fields the pre-review stage writes. */
  predicate OnlyStageFields(s: WorkflowState, t: WorkflowState) {
    t.(status := s.status, lyrics := s.lyrics, lyricsWithBrackets := s.lyricsWithBrackets,
       sunoProperties := s.sunoProperties, personaInspo := s.personaInspo,
       editedLyrics := s.editedLyrics, editedProperties := s.editedProperties,
       errorMsg := s.errorMsg) == s
  }

  /** The record at the end of the pre-review stage and the chat requests made, in order. */
  datatype StageRun = StageRun(state: WorkflowState, calls: seq<ChatCall>)

  /** `runWorkflowSteps` without the saves: lyrics, properties, brackets, then persona/inspo
      for premium records; the first failing step ends the stage. */
  function PreReview(s: WorkflowState, p: Prompts, o: Oracles): StageRun
  {
    var c0 := ChatCall(p.lyricsGeneration, s.taskDescription);
    var lyrics := o.chat(c0.system, c0.user);
    var s0 := s.(lyrics := if lyrics.Ok? then lyrics.value else "");
    if lyrics.Err? then StageRun(Failed(s0, STEP_LYRICS, lyrics.error), [c0])
    else PropertiesStage(s0, p, o, [c0])
  }

  /** Steps 2 onwards, from the record after step 1 and the requests made so far. */
  function PropertiesStage(s0: WorkflowState, p: Prompts, o: Oracles, calls: seq<ChatCall>): StageRun {
    var c1 := ChatCall(p.sunoProperties, PropertiesPrompt(s0.taskDescription, s0.lyrics));
    var props := Parsed(o.chat(c1.system, c1.user), o.parseProperties, "suno properties");
    var s1 := s0.(sunoProperties := if props.Ok? then Some(props.value) else None);
    if props.Err? then StageRun(Failed(s1, STEP_PROPERTIES, props.error), calls + [c1])
    else BracketStage(s1, props.value, p, o, calls + [c1])
  }

  /** Steps 3 onwards; `props` are the settings step 2 produced. */
  function BracketStage(s1: WorkflowState, props: SunoProperties, p: Prompts, o: Oracles, calls: seq<ChatCall>): StageRun {
    var c2 := ChatCall(p.bracketInstructions, BracketPrompt(s1.lyrics, props));
    var brackets := o.chat(c2.system, c2.user);
    var s2 := s1.(lyricsWithBrackets := if brackets.Ok? then brackets.value else "");
    if brackets.Err? then StageRun(Failed(s2, STEP_BRACKETS, brackets.error), calls + [c2])
    else PersonaStage(s2, props, p, o, calls + [c2])
  }

  /** Step 4, for premium records only, then the hand-over for review. */
  function PersonaStage(s2: WorkflowState, props: SunoProperties, p: Prompts, o: Oracles, calls: seq<ChatCall>): StageRun {
    if !s2.isPremium then StageRun(ReadyForReview(s2), calls)
    else
      var c3 := ChatCall(p.personaInspo, PersonaPrompt(s2.taskDescription, props));
      var persona := Parsed(o.chat(c3.system, c3.user), o.parsePersona, "persona/inspo");
      var s3 := s2.(personaInspo := if persona.Ok? then Some(persona.value) else None);
      if persona.Err? then StageRun(Failed(s3, STEP_PERSONA, persona.error), calls + [c3])
      else StageRun(ReadyForReview(s3), calls + [c3])
  }

  /** The stage ends in `failed` or `awaiting_review`. */
  lemma PreReviewOutcome(s: WorkflowState, p: Prompts, o: Oracles)
    ensures var r := PreReview(s, p, o);
      r.state.status == STATUS_FAILED || r.state.status == STATUS_AWAITING_REVIEW
  {
  }

  /** The steps run in order, at least the first and at most the record's number of steps. */
  lemma PreReviewSteps(s: WorkflowState, p: Prompts, o: Oracles)
    ensures var r := PreReview(s, p, o);
      && 1 <= |r.calls| <= StepCount(s.isPremium)
      && (forall i :: 0 <= i < |r.calls| ==> r.calls[i].system == StepSystem(p, i))
  {
  }

  /** A step runs only after every earlier one succeeded. */
  lemma PreReviewEarlierSucceeded(s: WorkflowState, p: Prompts, o: Oracles)
    ensures var r := PreReview(s, p, o);
      forall i :: 0 <= i < |r.calls| - 1 ==>
        o.chat(r.calls[i].system, r.calls[i].user).Ok? && StepError(o, r.calls[i], i).None?
  {
  }

  /** The first step runs on the task text and the second on the generated lyrics. */
  lemma PreReviewInputs(s: WorkflowState, p: Prompts, o: Oracles)
    ensures var r := PreReview(s, p, o);
      && r.calls != []
      && r.calls[0].user == s.taskDescription
      && (|r.calls| > 1 ==> r.calls[1].user == PropertiesPrompt(s.taskDescription, r.state.lyrics))
  {
  }

  /** The stage changes only its own fields. */
  lemma PreReviewFields(s: WorkflowState, p: Prompts, o: Oracles)
    ensures OnlyStageFields(s, PreReview(s, p, o).state)
  {
  }

  /** Reaching review means every step ran and succeeded (the persona step exactly when the
      record is premium), and the reviewer starts from the generated lyrics and settings. */
  lemma PreReviewSuccess(s: WorkflowState, p: Prompts, o: Oracles)
    requires PreReview(s, p, o).state.status == STATUS_AWAITING_REVIEW
    ensures var r := PreReview(s, p, o);
      && |r.calls| == StepCount(s.isPremium)
      && (forall i :: 0 <= i < |r.calls| ==> o.chat(r.calls[i].system, r.calls[i].user).Ok?)
      && (forall i :: 0 <= i < |r.calls| ==> StepError(o, r.calls[i], i).None?)
    ensures var r := PreReview(s, p, o);
      && o.chat(r.calls[0].system, r.calls[0].user).Ok?
      && r.state.lyrics == o.chat(r.calls[0].system, r.calls[0].user).value
      && o.chat(r.calls[2].system, r.calls[2].user).Ok?
      && r.state.lyricsWithBrackets == o.chat(r.calls[2].system, r.calls[2].user).value
    ensures var t := PreReview(s, p, o).state;
      && t.sunoProperties.Some?
      && t.editedLyrics == t.lyricsWithBrackets
      && t.editedProperties == t.sunoProperties
      && (s.isPremium ==> t.personaInspo.Some?)
      && (!s.isPremium ==> t.personaInspo == s.personaInspo)
      && t.errorMsg == s.errorMsg
  {
  }

  /** A failure is recorded against the last step that ran: the error is that step's name
      followed by the step's own error, its own field holds the failed call's zero value, and
      no later step's field, nor the reviewer's fields, changed. */
  lemma PreReviewFailure(s: WorkflowState, p: Prompts, o: Oracles)
    requires PreReview(s, p, o).state.status == STATUS_FAILED
    ensures var r := PreReview(s, p, o);
      && 1 <= |r.calls|
      && HasPrefix(r.state.errorMsg, StepName(|r.calls| - 1) + " failed: ")
      && StepError(o, r.calls[|r.calls| - 1], |r.calls| - 1).Some?
      && r.state.errorMsg == StepName(|r.calls| - 1) + " failed: " + StepError(o, r.calls[|r.calls| - 1], |r.calls| - 1).value
      && StepOutputCleared(r.state, |r.calls| - 1)
      && UntouchedFrom(s, r.state, |r.calls|)
      && r.state.editedLyrics == s.editedLyrics
      && r.state.editedProperties == s.editedProperties
  {
  }

  /** A record fresh from `StartWorkflow` that is not premium reaches review with no
      persona/inspo at all. */
  lemma BasicReviewHasNoPersona(s: WorkflowState, p: Prompts, o: Oracles)
    requires !s.isPremium && s.personaInspo.None?
    requires PreReview(s, p, o).state.status == STATUS_AWAITING_REVIEW
    ensures PreReview(s, p, o).state.personaInspo.None?
  {
  }

  // ---- The engine's stages, on the store ----

  /** `StartWorkflow`: a new record in `processing`, holding only its input, is saved before
      the pre-review stage runs (which is then the caller's next step). */
  method StartWorkflow(store: Store, id: string, now: Time, task: string, isPremium: bool,
                       audioFilePath: string, audioFileName: string)
    returns (state: WorkflowState)
    requires store.Valid()
    modifies store
    ensures store.Valid()
    ensures state.id == id && state.createdAt == now && state.updatedAt == now
    ensures state.status == STATUS_PROCESSING
    ensures state.taskDescription == task && state.isPremium == isPremium
    ensures state.audioFilePath == audioFilePath && state.audioFileName == audioFileName
    ensures state.lyrics == "" && state.lyricsWithBrackets == "" && state.editedLyrics == ""
    ensures state.sunoProperties.None? && state.personaInspo.None? && state.editedProperties.None?
    ensures state.sunoJobId == "" && state.sunoResult == "" && state.errorMsg == ""
    ensures store.workflows == old(store.workflows)[id := state]
  {
    var created := WorkflowState(id, now, now, STATUS_PROCESSING, task, isPremium, audioFilePath, audioFileName,
                               "", "", None, None, "", None, "", "", "");
    state := store.Save(created, now);
  }

  /** `handleError`: records the failing step and its error, then saves. */
  method HandleError(store: Store, state: WorkflowState, step: string, err: string, now: Time)
    returns (saved: WorkflowState)
    requires store.Valid()
    modifies store
    ensures store.Valid()
    ensures saved == Failed(state, step, err).(updatedAt := now)
    ensures saved.status == STATUS_FAILED && HasPrefix(saved.errorMsg, step + " failed: ")
    ensures store.workflows == old(store.workflows)[state.id := saved]
  {
    var s := state.(status := STATUS_FAILED);
    s := s.(errorMsg := step + " failed: " + err);
    saved := store.Save(s, now);
  }

  /** `runWorkflowSteps`: the four chat steps, each one's result written into the record and
      saved; the first failure is handled and ends the stage. `calls` are the chat requests
      made. */
  method RunWorkflowSteps(store: Store, state: WorkflowState, p: Prompts, o: Oracles, now: Time)
    returns (final: WorkflowState, ghost calls: seq<ChatCall>)
    requires store.Valid()
    modifies store
    ensures store.Valid()
    ensures final == PreReview(state, p, o).state.(updatedAt := now)
    ensures calls == PreReview(state, p, o).calls
    ensures store.workflows == old(store.workflows)[state.id := final]
  {
    var s := state;
    ghost var before := store.workflows;
    var stamped: WorkflowState;  // the record as each intermediate save stamped it
    // Step 1: lyrics
    var lyrics := o.chat(p.lyricsGeneration, s.taskDescription);
    calls := [ChatCall(p.lyricsGeneration, s.taskDescription)];
    s := s.(lyrics := if lyrics.Ok? then lyrics.value else "");
    if lyrics.Err? {
      assert PreReview(state, p, o) == StageRun(Failed(s, STEP_LYRICS, lyrics.error), calls);
      final := HandleError(store, s, STEP_LYRICS, lyrics.error, now);
      return;
    }
    stamped := store.Save(s, now);
    assert PreReview(state, p, o) == PropertiesStage(s, p, o, calls);

    // Step 2: generation properties
    var props := DetermineSunoProperties(p, o, s.taskDescription, s.lyrics);
    calls := calls + [ChatCall(p.sunoProperties, PropertiesPrompt(s.taskDescription, s.lyrics))];
    s := s.(sunoProperties := if props.Ok? then Some(props.value) else None);
    if props.Err? {
      assert PreReview(state, p, o) == StageRun(Failed(s, STEP_PROPERTIES, props.error), calls);
      final := HandleError(store, s, STEP_PROPERTIES, props.error, now);
      UpdateTwice(before, state.id, stamped, final);
      return;
    }
    ghost var previous := stamped;
    stamped := store.Save(s, now);
    UpdateTwice(before, state.id, previous, stamped);
    assert PreReview(state, p, o) == BracketStage(s, props.value, p, o, calls);

    // Step 3: bracket instructions
    var bracketPrompt := BracketPrompt(s.lyrics, props.value);
    var brackets := o.chat(p.bracketInstructions, bracketPrompt);
    calls := calls + [ChatCall(p.bracketInstructions, bracketPrompt)];
    s := s.(lyricsWithBrackets := if brackets.Ok? then brackets.value else "");
    if brackets.Err? {
      assert PreReview(state, p, o) == StageRun(Failed(s, STEP_BRACKETS, brackets.error), calls);
      final := HandleError(store, s, STEP_BRACKETS, brackets.error, now);
      UpdateTwice(before, state.id, stamped, final);
      return;
    }
    previous := stamped;
    stamped := store.Save(s, now);
    UpdateTwice(before, state.id, previous, stamped);
    assert PreReview(state, p, o) == PersonaStage(s, props.value, p, o, calls);

    // Step 4: persona and inspiration, premium only
    if s.isPremium {
      var persona := GeneratePersonaInspo(p, o, s.taskDescription, props.value);
      calls := calls + [ChatCall(p.personaInspo, PersonaPrompt(s.taskDescription, props.value))];
      s := s.(personaInspo := if persona.Ok? then Some(persona.value) else None);
      if persona.Err? {
        assert PreReview(state, p, o) == StageRun(Failed(s, STEP_PERSONA, persona.error), calls);
        final := HandleError(store, s, STEP_PERSONA, persona.error, now);
        UpdateTwice(before, state.id, stamped, final);
        return;
      }
      previous := stamped;
      stamped := store.Save(s, now);
      UpdateTwice(before, state.id, previous, stamped);
    }

    // Step 5: hand over for review
    s := s.(status := STATUS_AWAITING_REVIEW);
    s := s.(editedLyrics := s.lyricsWithBrackets);
    s := s.(editedProperties := s.sunoProperties);
    final := store.Save(s, now);
    UpdateTwice(before, state.id, stamped, final);
  }

  /** `ApproveWorkflow`: moves to `approved` whatever the current status; the submission
      that follows is the caller's next step. */
  method ApproveWorkflow(store: Store, state: WorkflowState, now: Time) returns (saved: WorkflowState)
    requires store.Valid()
    modifies store
    ensures store.Valid()
    ensures saved == state.(status := STATUS_APPROVED, updatedAt := now)
    ensures store.workflows == old(store.workflows)[state.id := saved]
  {
    saved := store.Save(state.(status := STATUS_APPROVED), now);
  }

  /** `RejectWorkflow`: moves to `rejected` whatever the current status. */
  method RejectWorkflow(store: Store, state: WorkflowState, now: Time) returns (saved: WorkflowState)
    requires store.Valid()
    modifies store
    ensures store.Valid()
    ensures saved == state.(status := STATUS_REJECTED, updatedAt := now)
    ensures store.workflows == old(store.workflows)[state.id := saved]
  {
    saved := store.Save(state.(status := STATUS_REJECTED), now);
  }

  // ---- Submission to the generation service ----

  /** The settings a submission uses: the reviewer's, falling back to the generated ones. */
  function ChosenProperties(s: WorkflowState): SunoProperties
    requires s.editedProperties.Some? || s.sunoProperties.Some?
  {
    if s.editedProperties.Some? then s.editedProperties.value else s.sunoProperties.value
  }

  /** The tag string: the style, then the vocal type after a comma when there is one. */
  function Tags(props: SunoProperties): (tags: string)
    ensures HasPrefix(tags, props.style)
    ensures tags == props.style <==> props.vocalType == ""
    ensures props.vocalType != "" ==> tags[|props.style|..] == ", " + props.vocalType
  {
    if props.vocalType != "" then props.style + ", " + props.vocalType else props.style
  }

  /** The request `submitToSuno` sends. The record must hold settings: the source
      dereferences them unchecked. */
  function BuildRequest(s: WorkflowState): (req: CustomGenerateRequest)
    requires s.editedProperties.Some? || s.sunoProperties.Some?
    ensures s.editedLyrics != "" ==> req.prompt == s.editedLyrics
    ensures s.editedLyrics == "" ==> req.prompt == s.lyricsWithBrackets
    ensures req.tags == Tags(ChosenProperties(s))
    ensures |req.title| <= TITLE_MAX_LEN + 3
    ensures |s.taskDescription| <= TITLE_MAX_LEN ==> req.title == s.taskDescription
    ensures |s.taskDescription| > TITLE_MAX_LEN ==> req.title == s.taskDescription[..TITLE_MAX_LEN] + "..."
    ensures !req.makeInstrumental && !req.waitAudio
    ensures req.negativeTags == "" && req.model == ""
  {
    CustomGenerateRequest(
      if s.editedLyrics != "" then s.editedLyrics else s.lyricsWithBrackets,
      Tags(ChosenProperties(s)),
      "",
      TruncateString(s.taskDescription, TITLE_MAX_LEN),
      false,
      "",
      false)
  }

  /** Nothing premium and nothing uploaded reaches the generation service: the request does
      not depend on persona/inspo or on the audio file. */
  lemma RequestIgnoresPersonaAndAudio(s: WorkflowState, pi: Option<PersonaInspo>, path: string, name: string)
    requires s.editedProperties.Some? || s.sunoProperties.Some?
    ensures BuildRequest(s.(personaInspo := pi, audioFilePath := path, audioFileName := name)) == BuildRequest(s)
  {
  }

  /** The record after the submission reply: the first clip's id and `generating`, or
      `failed` when the call failed or returned nothing. */
  function AfterSubmit(s: WorkflowState, reply: Result<seq<AudioInfo>>): (t: WorkflowState)
    ensures t.status == STATUS_GENERATING <==> reply.Ok? && |reply.value| > 0
    ensures t.status != STATUS_GENERATING ==> t.status == STATUS_FAILED
    ensures reply.Ok? && |reply.value| > 0 ==> t == s.(status := STATUS_GENERATING, sunoJobId := reply.value[0].id)
    ensures reply.Err? ==> t == s.(status := STATUS_FAILED, errorMsg := STEP_SUBMISSION + " failed: " + reply.error)
    ensures reply.Ok? && reply.value == [] ==> t == s.(status := STATUS_FAILED, errorMsg := STEP_SUBMISSION + " failed: " + NO_RESULTS)
  {
    match reply
    case Err(e) => Failed(s, STEP_SUBMISSION, e)
    case Ok(results) =>
      if |results| > 0 then s.(sunoJobId := results[0].id, status := STATUS_GENERATING)
      else Failed(s, STEP_SUBMISSION, NO_RESULTS)
  }

  /** `submitToSuno`: builds the request step by step, calls the service once (`generate`
      stands for `CustomGenerate`) and records the outcome. */
  method SubmitToSuno(store: Store, state: WorkflowState, generate: CustomGenerateRequest -> Result<seq<AudioInfo>>, now: Time)
    returns (next: WorkflowState, req: CustomGenerateRequest)
    requires store.Valid()
    requires state.editedProperties.Some? || state.sunoProperties.Some?
    modifies store
    ensures store.Valid()
    ensures req == BuildRequest(state)
    ensures next == AfterSubmit(state, generate(req)).(updatedAt := now)
    ensures store.workflows == old(store.workflows)[state.id := next]
  {
    var props := state.editedProperties;
    if props.None? {
      props := state.sunoProperties;
    }
    var lyrics := state.editedLyrics;
    if lyrics == "" {
      lyrics := state.lyricsWithBrackets;
    }
    var title := TruncateString(state.taskDescription, TITLE_MAX_LEN);
    var tags := props.value.style;
    if props.value.vocalType != "" {
      tags := tags + ", " + props.value.vocalType;
    }
    req := CustomGenerateRequest(lyrics, tags, "", title, false, "", false);
    assert req == BuildRequest(state);

    var results := generate(req);
    if results.Err? {
      assert AfterSubmit(state, results) == Failed(state, STEP_SUBMISSION, results.error);
      next := HandleError(store, state, STEP_SUBMISSION, results.error, now);
      return;
    }
    if |results.value| > 0 {
      var s := state.(sunoJobId := results.value[0].id);
      s := s.(status := STATUS_GENERATING);
      assert s == AfterSubmit(state, results);
      next := store.Save(s, now);
    } else {
      assert AfterSubmit(state, results) == Failed(state, STEP_SUBMISSION, NO_RESULTS);
      next := HandleError(store, state, STEP_SUBMISSION, NO_RESULTS, now);
    }
  }

  // ---- Waiting for the generated audio ----

  /** The record after waiting: the clip's status and `completed`, or `failed` with the
      wait's error. */
  function AfterPoll(s: WorkflowState, w: WaitResult): (t: WorkflowState)
    ensures t.status == STATUS_COMPLETED <==> w.Ready?
    ensures w.Ready? ==> t == s.(status := STATUS_COMPLETED, sunoResult := w.audio.status)
    ensures w.Failed? ==> t == s.(status := STATUS_FAILED, errorMsg := "suno completion failed: " + WaitErrorText(w.error))
  {
    match w
    case Ready(audio) => s.(sunoResult := audio.status, status := STATUS_COMPLETED)
    case Failed(e) => Failed(s, STEP_COMPLETION, WaitErrorText(e))
  }

  /** `pollSunoCompletion`: waits for the clip `audioId` (at most `MAX_POLL_RETRIES` polls;
      `poll(i)` is what poll `i` observes) and records the outcome. */
  method PollSunoCompletion(store: Store, state: WorkflowState, audioId: string, poll: nat -> PollOutcome, now: Time)
    returns (next: WorkflowState, ghost gets: nat)
    requires store.Valid()
    modifies store
    ensures store.Valid()
    ensures gets <= MAX_POLL_RETRIES
    ensures next == AfterPoll(state, WaitFrom(audioId, poll, 0, MAX_POLL_RETRIES).0).(updatedAt := now)
    ensures store.workflows == old(store.workflows)[state.id := next]
  {
    var audio, n := WaitForCompletion(audioId, MAX_POLL_RETRIES, poll);
    gets := n;
    if audio.Failed? {
      next := HandleError(store, state, STEP_COMPLETION, WaitErrorText(audio.error), now);
      return;
    }
    var s := state.(sunoResult := audio.audio.status);
    s := s.(status := STATUS_COMPLETED);
    next := store.Save(s, now);
  }

  /** A completed record holds one of the two statuses that end the wait, reported by the
      first poll that returned a ready clip. */
  lemma CompletedResultIsReady(s: WorkflowState, audioId: string, poll: nat -> PollOutcome)
    requires AfterPoll(s, WaitFrom(audioId, poll, 0, MAX_POLL_RETRIES).0).status == STATUS_COMPLETED
    ensures var t := AfterPoll(s, WaitFrom(audioId, poll, 0, MAX_POLL_RETRIES).0);
      t.sunoResult == "streaming" || t.sunoResult == "complete"
  {
    WaitReadyIsFirst(audioId, poll, 0, MAX_POLL_RETRIES);
  }
}
