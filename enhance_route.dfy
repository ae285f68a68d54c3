/** The `POST /api/enhance-prompt` handler: its chain of early returns and
    its own variant of the enhancement, where every clause is guarded by
    JavaScript truthiness and the role is written in as sent. */
module EnhanceRoute {
  import opened Js
  import opened SavedPrompts
  import PE = PromptEnhancer

  /** The optional `settings` object of the request body; each field may be
      missing. */
  datatype RequestSettings = RequestSettings(
    role: Option<string>, tone: Option<int>, detailLevel: Option<int>, complexity: Option<int>)

  /** The request body; `prompt` may be missing. */
  datatype RequestBody = RequestBody(prompt: Option<string>, settings: Option<RequestSettings>)

  /** What the `users` row query gave back; either column may be `null`. */
  datatype UserData = UserDataError | UserRow(promptsUsed: Option<int>, promptsLimit: Option<int>)

  /** The JSON response: an error with its status, or the enhanced prompt. */
  datatype Response = ErrorResponse(status: int, message: string) | EnhancedResponse(enhancedPrompt: string)

  const Unauthorized := ErrorResponse(401, "Unauthorized")
  const PromptRequired := ErrorResponse(400, "Prompt is required")
  const UserDataFailed := ErrorResponse(500, "Failed to get user data")
  const LimitReached := ErrorResponse(403, "Prompt limit reached")
  const InternalError := ErrorResponse(500, "Internal server error")

  /** `settings?.field`: missing when the settings object is. */
  function RoleField(s: Option<RequestSettings>): Option<string> {
    if s.Some? then s.value.role else None
  }

  function ToneField(s: Option<RequestSettings>): Option<int> {
    if s.Some? then s.value.tone else None
  }

  function DetailField(s: Option<RequestSettings>): Option<int> {
    if s.Some? then s.value.detailLevel else None
  }

  function ComplexityField(s: Option<RequestSettings>): Option<int> {
    if s.Some? then s.value.complexity else None
  }

  /** The role step: a truthy role other than `"default"` is written in
      front as sent, not as a label. */
  function WithRole(acc: string, role: Option<string>): string {
    if TruthyString(role) && role.value != PE.DefaultRole then "As a " + role.value + ", " + acc else acc
  }

  /** The tone step: nothing for a missing or zero tone. */
  function WithTone(acc: string, tone: Option<int>): string {
    if TruthyNumber(tone) then acc + PE.ToneSeparator + PE.ToneSentence(PE.BucketOf(tone.value)) else acc
  }

  /** The detail step: nothing for a missing or zero detail level. */
  function WithDetail(acc: string, detailLevel: Option<int>): string {
    if TruthyNumber(detailLevel) then acc + PE.ClauseSeparator + PE.DetailSentence(PE.BucketOf(detailLevel.value))
    else acc
  }

  /** The complexity step: nothing for a missing or zero complexity. */
  function WithComplexity(acc: string, complexity: Option<int>): string {
    if TruthyNumber(complexity) then acc + PE.ClauseSeparator + PE.ComplexitySentence(PE.BucketOf(complexity.value))
    else acc
  }

  /** The enhanced prompt the route produces: the four steps in turn. */
  function RouteEnhance(prompt: string, s: Option<RequestSettings>): string {
    WithComplexity(WithDetail(WithTone(WithRole(prompt, RoleField(s)), ToneField(s)), DetailField(s)),
                   ComplexityField(s))
  }

  /** Without a persona role, and with every slider sent as a non-zero
      number, the route writes exactly what the panel's engine writes for the
      same numbers. */
  lemma RouteMatchesEngine(prompt: string, role: Option<string>, tone: int, detailLevel: int, complexity: int)
    requires !TruthyString(role) || role.value == PE.DefaultRole
    requires tone != 0 && detailLevel != 0 && complexity != 0
    ensures RouteEnhance(prompt, Some(RequestSettings(role, Some(tone), Some(detailLevel), Some(complexity))))
         == PE.Enhance(prompt, PE.Settings(PE.DefaultRole, tone, detailLevel, complexity))
  {
    assert PE.RolePrefix(PE.DefaultRole) + prompt == prompt;
  }

  /** Every persona key differs from its label in its first character. */
  lemma KeyDiffersFromLabel(key: string)
    requires key in PE.RoleOptions && key != PE.DefaultRole
    ensures key != [] && PE.RoleOptions[key] != [] && key[0] != PE.RoleOptions[key][0]
  {
    assert key in {"expert", "teacher", "researcher", "programmer", "writer", "coach"};
  }

  /** The three slider steps only ever append. */
  lemma {:induction false} SliderStepsAppend(acc: string, s: Option<RequestSettings>)
    ensures acc <= WithComplexity(WithDetail(WithTone(acc, ToneField(s)), DetailField(s)), ComplexityField(s))
  {
    var t := WithTone(acc, ToneField(s));
    var d := WithDetail(t, DetailField(s));
    var c := WithComplexity(d, ComplexityField(s));
    assert acc <= t && t <= d && d <= c;
  }

  /** A persona role reaches the route as its key, so for the same role the
      route's text never equals the panel's, whatever the sliders: the sixth
      character is the key's first letter in one and the label's in the
      other. */
  lemma RoutePersonaUsesKey(prompt: string, s: RequestSettings, e: PE.Settings)
    requires s.role.Some? && s.role.value == e.role
    requires e.role in PE.RoleOptions && e.role != PE.DefaultRole
    ensures RouteEnhance(prompt, Some(s)) != PE.Enhance(prompt, e)
  {
    var key := e.role;
    KeyDiffersFromLabel(key);
    var lead := WithRole(prompt, Some(key));
    assert lead == "As a " + key + ", " + prompt;
    assert lead[5] == key[0];
    SliderStepsAppend(lead, Some(s));
    PE.EnhanceWithRole(prompt, e);
    var name := PE.RoleOptions[key];
    assert PE.Enhance(prompt, e)[5] == ("As a " + name + ", " + prompt + PE.Clauses(e))[5] == name[0];
  }

  /** The settings under which no step fires: no persona role and no truthy
      slider. */
  predicate Untouched(s: Option<RequestSettings>) {
    !(TruthyString(RoleField(s)) && RoleField(s).value != PE.DefaultRole)
    && !TruthyNumber(ToneField(s)) && !TruthyNumber(DetailField(s)) && !TruthyNumber(ComplexityField(s))
  }

  /** The route hands the prompt back unchanged exactly when no step fires:
      a missing settings object, a missing or `"default"` role and missing or
      zero sliders. */
  lemma {:induction false} RouteUnchangedIff(prompt: string, s: Option<RequestSettings>)
    ensures RouteEnhance(prompt, s) == prompt <==> Untouched(s)
  {
    var r := WithRole(prompt, RoleField(s));
    var t := WithTone(r, ToneField(s));
    var d := WithDetail(t, DetailField(s));
    var c := WithComplexity(d, ComplexityField(s));
    assert |prompt| <= |r| <= |t| <= |d| <= |c|;
    if TruthyString(RoleField(s)) && RoleField(s).value != PE.DefaultRole {
      assert |r| > |prompt|;
    }
    if TruthyNumber(ToneField(s)) {
      assert |t| > |r|;
    }
    if TruthyNumber(DetailField(s)) {
      assert |d| > |t|;
    }
    if TruthyNumber(ComplexityField(s)) {
      assert |c| > |d|;
    }
  }

  lemma AppendCancels(a1: string, a2: string, x: string)
    requires a1 + x == a2 + x
    ensures a1 == a2
  {
    assert a1 == (a1 + x)[..|a1|];
  }

  lemma PrependCancels(x: string, a1: string, a2: string)
    requires x + a1 == x + a2
    ensures a1 == a2
  {
    assert a1 == (x + a1)[|x|..];
  }

  /** The enhanced prompt determines the prompt it was made from. */
  lemma {:induction false} RouteInjective(p1: string, p2: string, s: Option<RequestSettings>)
    requires RouteEnhance(p1, s) == RouteEnhance(p2, s)
    ensures p1 == p2
  {
    var r1, r2 := WithRole(p1, RoleField(s)), WithRole(p2, RoleField(s));
    var t1, t2 := WithTone(r1, ToneField(s)), WithTone(r2, ToneField(s));
    var d1, d2 := WithDetail(t1, DetailField(s)), WithDetail(t2, DetailField(s));
    if TruthyNumber(ComplexityField(s)) {
      var x := PE.ComplexitySentence(PE.BucketOf(ComplexityField(s).value));
      AppendCancels(d1 + PE.ClauseSeparator, d2 + PE.ClauseSeparator, x);
      AppendCancels(d1, d2, PE.ClauseSeparator);
    }
    if TruthyNumber(DetailField(s)) {
      var x := PE.DetailSentence(PE.BucketOf(DetailField(s).value));
      AppendCancels(t1 + PE.ClauseSeparator, t2 + PE.ClauseSeparator, x);
      AppendCancels(t1, t2, PE.ClauseSeparator);
    }
    if TruthyNumber(ToneField(s)) {
      var x := PE.ToneSentence(PE.BucketOf(ToneField(s).value));
      AppendCancels(r1 + PE.ToneSeparator, r2 + PE.ToneSeparator, x);
      AppendCancels(r1, r2, PE.ToneSeparator);
    }
    if TruthyString(RoleField(s)) && RoleField(s).value != PE.DefaultRole {
      PrependCancels("As a " + RoleField(s).value + ", ", p1, p2);
    }
  }

  /** The early returns of lines 11-43, in their order: the response the
      handler stops with, or `None` when the request gets through to the
      enhancement. */
  function Rejection(signedIn: bool, body: Option<RequestBody>, userData: UserData): (r: Option<Response>)
    ensures !signedIn ==> r == Some(Unauthorized)
    ensures signedIn && body.None? ==> r == Some(InternalError)
    ensures signedIn && body.Some? && !TruthyString(body.value.prompt) ==> r == Some(PromptRequired)
    ensures signedIn && body.Some? && TruthyString(body.value.prompt) && userData.UserDataError? ==>
              r == Some(UserDataFailed)
    ensures signedIn && body.Some? && TruthyString(body.value.prompt) && userData.UserRow?
            && NullAsZero(userData.promptsUsed) >= NullAsZero(userData.promptsLimit) ==>
              r == Some(LimitReached)
    ensures r.None? <==> Admitted(signedIn, body, userData)
    ensures r.Some? ==> r.value.ErrorResponse?
  {
    if !signedIn then Some(Unauthorized)
    else if body.None? then Some(InternalError)
    else if !TruthyString(body.value.prompt) then Some(PromptRequired)
    else if userData.UserDataError? then Some(UserDataFailed)
    else if NullAsZero(userData.promptsUsed) >= NullAsZero(userData.promptsLimit) then Some(LimitReached)
    else None
  }

  /** A signed-in user with a readable body, a non-empty prompt, a usage
      row and prompts left. */
  predicate Admitted(signedIn: bool, body: Option<RequestBody>, userData: UserData) {
    signedIn && body.Some? && TruthyString(body.value.prompt)
    && userData.UserRow? && NullAsZero(userData.promptsUsed) < NullAsZero(userData.promptsLimit)
  }

  const UpdateFailed := ErrorResponse(500, "Failed to update prompt count")

  /** The enhancement of lines 47-81: `let enhancedPrompt` rewritten by each
      guarded clause in turn. */
  method EnhanceRequest(prompt: string, settings: Option<RequestSettings>) returns (enhancedPrompt: string)
    ensures enhancedPrompt == RouteEnhance(prompt, settings)
  {
    enhancedPrompt := prompt;
    var role := RoleField(settings);
    if TruthyString(role) && role.value != PE.DefaultRole {
      enhancedPrompt := "As a " + role.value + ", " + enhancedPrompt;
    }
    var withRole := enhancedPrompt;
    var tone := ToneField(settings);
    if TruthyNumber(tone) {
      if tone.value < 33 {
        enhancedPrompt := enhancedPrompt + PE.ToneSeparator + PE.ConciseTone;
      } else if tone.value > 66 {
        enhancedPrompt := enhancedPrompt + PE.ToneSeparator + PE.FriendlyTone;
      } else {
        enhancedPrompt := enhancedPrompt + PE.ToneSeparator + PE.BalancedTone;
      }
    }
    var withTone := enhancedPrompt;
    var detailLevel := DetailField(settings);
    if TruthyNumber(detailLevel) {
      if detailLevel.value < 33 {
        enhancedPrompt := enhancedPrompt + PE.ClauseSeparator + PE.BriefDetail;
      } else if detailLevel.value > 66 {
        enhancedPrompt := enhancedPrompt + PE.ClauseSeparator + PE.DetailedDetail;
      } else {
        enhancedPrompt := enhancedPrompt + PE.ClauseSeparator + PE.ModerateDetail;
      }
    }
    var withDetail := enhancedPrompt;
    var complexity := ComplexityField(settings);
    if TruthyNumber(complexity) {
      if complexity.value < 33 {
        enhancedPrompt := enhancedPrompt + PE.ClauseSeparator + PE.SimpleLanguage;
      } else if complexity.value > 66 {
        enhancedPrompt := enhancedPrompt + PE.ClauseSeparator + PE.TechnicalLanguage;
      } else {
        enhancedPrompt := enhancedPrompt + PE.ClauseSeparator + PE.MixedLanguage;
      }
    }
    assert withRole == WithRole(prompt, role);
    assert withTone == WithTone(withRole, tone);
    assert withDetail == WithDetail(withTone, detailLevel);
  }

  /** The handler as written. `signedIn` is what the auth lookup found,
      `body` the parsed request (`None` when the body cannot be read as
      JSON), `userData` the usage row query's outcome. The usage update of
      lines 84-91 reads `dailyPromptsUsed`, a name declared nowhere, so every
      request that passes the guards throws there and leaves through the
      outer catch: the enhanced prompt is never sent back and no history row
      is written. */
  method PostAsWritten(signedIn: bool, body: Option<RequestBody>, userData: UserData)
    returns (response: Response, saved: Option<HistoryEntry>)
    ensures response.ErrorResponse? && saved == None
    ensures Rejection(signedIn, body, userData).Some? ==> response == Rejection(signedIn, body, userData).value
    ensures Admitted(signedIn, body, userData) ==> response == InternalError
  {
    var rejection := Rejection(signedIn, body, userData);
    if rejection.Some? {
      return rejection.value, None;
    }
    var enhancedPrompt := EnhanceRequest(body.value.prompt.value, body.value.settings);
    // Evaluating `dailyPromptsUsed + 1` throws a ReferenceError.
    return InternalError, None;
  }

  /** The handler with the usage update it evidently means: the stored total
      goes up by one (`usageWritten`, with a `null` total read as 0), a
      failed update answers 500, and only then is the history row attempted
      (`attempted`) and the prompt sent back. The row is kept (`stored`)
      unless the insert fails, and the response is the same either way. */
  method Post(signedIn: bool, body: Option<RequestBody>, userData: UserData, updateFails: bool, insertFails: bool)
    returns (response: Response, usageWritten: Option<int>, attempted: Option<HistoryEntry>,
             stored: Option<HistoryEntry>)
    ensures Rejection(signedIn, body, userData).Some? ==>
              response == Rejection(signedIn, body, userData).value && usageWritten == None && attempted == None
    ensures Admitted(signedIn, body, userData) ==> usageWritten == Some(NullAsZero(userData.promptsUsed) + 1)
    ensures Admitted(signedIn, body, userData) && updateFails ==> response == UpdateFailed && attempted == None
    ensures Admitted(signedIn, body, userData) && !updateFails ==>
              var p := body.value.prompt.value;
              response == EnhancedResponse(RouteEnhance(p, body.value.settings))
              && attempted == Some(HistoryEntry(p, Some(RouteEnhance(p, body.value.settings)), Title(p)))
    ensures response.EnhancedResponse? <==> Admitted(signedIn, body, userData) && !updateFails
    ensures stored == if insertFails then None else attempted
  {
    stored := None;
    var rejection := Rejection(signedIn, body, userData);
    if rejection.Some? {
      return rejection.value, None, None, None;
    }
    var prompt := body.value.prompt.value;
    var enhancedPrompt := EnhanceRequest(prompt, body.value.settings);
    usageWritten := Some(NullAsZero(userData.promptsUsed) + 1);
    if updateFails {
      return UpdateFailed, usageWritten, None, None;
    }
    attempted := Some(HistoryEntry(prompt, Some(enhancedPrompt), Title(prompt)));
    if !insertFails {
      stored := attempted;
    }
    response := EnhancedResponse(enhancedPrompt);
  }

  /** A row whose `prompts_limit` is `null` is always refused with 403 for
      a non-negative or `null` total, since `used >= null` compares with 0;
      the chat box shows a limit of 5 for the same row. */
  lemma NullLimitRefused(body: RequestBody, used: Option<int>)
    requires TruthyString(body.prompt)
    requires used.Some? ==> used.value >= 0
    ensures Rejection(true, Some(body), UserRow(used, None)) == Some(LimitReached)
  {
  }

  /** One admitted request, a signed-in user with prompts left asking for
      `"hi"` without settings, answered by both handlers: as written it gets
      the 500, the corrected handler sends `"hi"` back. */
  method WrittenVersusIntended() returns (asWritten: Response, intended: Response)
    ensures asWritten == InternalError
    ensures intended == EnhancedResponse("hi")
  {
    var body := Some(RequestBody(Some("hi"), None));
    var row := UserRow(Some(0), Some(5));
    assert Admitted(true, body, row);
    var saved, usage, stored;
    asWritten, saved := PostAsWritten(true, body, row);
    intended, usage, saved, stored := Post(true, body, row, false, false);
  }
}
