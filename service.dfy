/** The message generator: prompt composition, the deterministic fallback
    message, and the stream it yields over an abstract upstream model. */
module Service {

  import opened Wrappers
  import opened Text
  import opened Interface
  import JsNumber

  /** How many job skills the prompt lists. */
  const PromptSkillCount: nat := 5
  /** How many job skills the fallback message lists. */
  const FallbackSkillCount: nat := 3

  /** JavaScript truthiness of an optional string: absent and "" are falsy. */
  predicate Present(field: Option<string>)
  {
    field.Some? && field.value != ""
  }

  // ---- prompt ----

  /** The required-skills text of the prompt. */
  function SkillsList(skills: seq<string>): string
  {
    if |skills| > 0 then Join(", ", Take(skills, PromptSkillCount)) else "not specified"
  }

  /** One optional line of the user block (its literal lead, then the
      value), empty when the field is falsy. */
  function OptionalLine(lead: string, field: Option<string>): string
  {
    if Present(field) then lead + field.value else ""
  }

  const PromptIntro: string :=
    "You are a professional career coach helping write personalized LinkedIn outreach messages.\n\n" +
    "Write a professional, concise, and personalized outreach message for a LinkedIn connection request or direct message to a recruiter/hiring manager.\n\n" +
    "User Information:\n- Name: "

  const PromptInstructions: string :=
    "\n\nInstructions:\n" +
    "1. Keep the message under 200 words\n" +
    "2. Be professional but friendly\n" +
    "3. Highlight relevant experience and skills that match the job requirements\n" +
    "4. If the user has a key achievement, subtly incorporate it if relevant\n" +
    "5. Show genuine interest in the role and company\n" +
    "6. Include a clear call to action\n" +
    "7. Do not use overly formal language\n" +
    "8. Make it personal, not templated\n" +
    "9. If portfolio URL is provided, consider mentioning it naturally\n" +
    "10. Sign off with just the user's name (already provided)\n\n" +
    "Generate the outreach message now:"

  /** The literal text of the prompt template, segment by segment. The
      properties below are proved for every wording of these segments, so
      that they depend only on the template's shape. */
  datatype PromptTemplate = PromptTemplate(
    intro: string, currentRole: string, years: string, topSkills: string,
    achievement: string, location: string, portfolio: string,
    jobRole: string, company: string, requiredSkills: string, instructions: string)

  const PromptText := PromptTemplate(
    PromptIntro, "\n- Current Role: ", "\n- Years of Experience: ", " years\n- Top Skills: ",
    "\n- Key Achievement: ", "\n- Location: ", "\n- Portfolio: ",
    "\n\nJob Information:\n- Role: ", "\n- Company: ", "\n- Required Skills: ", PromptInstructions)

  /** Indices of the substituted segments of the prompt template. */
  const NameAt: nat := 1
  const CurrentRoleAt: nat := 3
  const YearsAt: nat := 5
  const TopSkillsAt: nat := 7
  const AchievementAt: nat := 8
  const LocationAt: nat := 9
  const PortfolioAt: nat := 10
  const RoleAt: nat := 12
  const CompanyAt: nat := 14
  const SkillsListAt: nat := 16

  /** The prompt template as its literal and substituted segments, in order. */
  function PromptParts(t: PromptTemplate, user: UserData, profile: ProfileData): (parts: seq<string>)
    ensures |parts| == 18
  {
    [ t.intro, user.name,
      t.currentRole, user.currentRole,
      t.years, JsNumber.IntToString(user.years),
      t.topSkills, user.topSkills,
      OptionalLine(t.achievement, user.keyAchievement),
      OptionalLine(t.location, user.location),
      OptionalLine(t.portfolio, user.portfolioUrl),
      t.jobRole, profile.role,
      t.company, profile.company,
      t.requiredSkills, SkillsList(profile.skills),
      t.instructions ]
  }

  function RenderPrompt(t: PromptTemplate, user: UserData, profile: ProfileData): string
  {
    Concat(PromptParts(t, user, profile))
  }

  /** The prompt sent to the model. */
  function Prompt(user: UserData, profile: ProfileData): string
  {
    RenderPrompt(PromptText, user, profile)
  }

  // ---- fallback ----

  /** The fallback skills sentence. */
  function FallbackSkills(skills: seq<string>): string
  {
    if |skills| > 0 then "I noticed the role requires " + Join(", ", Take(skills, FallbackSkillCount)) + "."
    else ""
  }

  /** The literal text of the fallback template, segment by segment. */
  datatype FallbackTemplate = FallbackTemplate(
    greeting: string, experience: string, yearsSuffix: string, position: string,
    interest: string, closing: string)

  const FallbackText := FallbackTemplate(
    "Hi,\n\nMy name is ",
    ", and I'm a professional with ",
    " years of experience. I came across the ",
    " position at ",
    " and I'm very interested in this opportunity.\n\n",
    " I believe my background and skills align well with what you're looking for.\n\n" +
    "I'd love to discuss how I can contribute to your team. Would you be available for a brief conversation?\n\n" +
    "Best regards,\n")

  /** Indices of the substituted segments of the fallback template. */
  const FallbackNameAt: nat := 1
  const FallbackYearsAt: nat := 3
  const FallbackRoleAt: nat := 5
  const FallbackCompanyAt: nat := 7
  const FallbackSkillsAt: nat := 9

  /** The fallback template as its literal and substituted segments. */
  function FallbackParts(t: FallbackTemplate, user: UserData, profile: ProfileData): (parts: seq<string>)
    ensures |parts| == 12
  {
    [ t.greeting, user.name,
      t.experience, JsNumber.IntToString(user.years),
      t.yearsSuffix, profile.role,
      t.position, profile.company,
      t.interest, FallbackSkills(profile.skills),
      t.closing, user.name ]
  }

  function RenderFallback(t: FallbackTemplate, user: UserData, profile: ProfileData): string
  {
    Concat(FallbackParts(t, user, profile))
  }

  /** The message yielded when the upstream fails. */
  function FallbackMessage(user: UserData, profile: ProfileData): string
  {
    RenderFallback(FallbackText, user, profile)
  }

  // ---- the stream ----

  /** What the upstream model delivers: the `text` of each streamed chunk in
      arrival order (absent when a chunk carries none) and whether the call
      failed after them. A failure with no pieces is a failure before the
      first chunk, including while constructing the client or starting the
      request. */
  datatype Upstream = Upstream(pieces: seq<Option<string>>, failed: bool)

  /** The texts relayed for some pieces: the truthy ones, in arrival order. */
  function Emitted(pieces: seq<Option<string>>): (out: seq<string>)
    ensures |out| <= |pieces|
    ensures forall i | 0 <= i < |out| :: out[i] != ""
  {
    if pieces == [] then []
    else (if Present(pieces[0]) then [pieces[0].value] else []) + Emitted(pieces[1..])
  }

  /** Everything the generator yields over `upstream` when its catch block
      yields `fallback`. */
  function Relay(upstream: Upstream, fallback: string): seq<string>
  {
    Emitted(upstream.pieces) + (if upstream.failed then [fallback] else [])
  }

  /** Everything the generator yields, in order. */
  function StreamOutput(user: UserData, profile: ProfileData, upstream: Upstream): seq<string>
  {
    Relay(upstream, FallbackMessage(user, profile))
  }

  /** The generator: relays each truthy piece as it arrives and, if the
      upstream fails, yields the fallback message once. */
  method GenerateMessageStream(user: UserData, profile: ProfileData, upstream: Upstream)
    returns (out: seq<string>)
    ensures out == StreamOutput(user, profile, upstream)
  {
    out := [];
    var i := 0;
    while i < |upstream.pieces|
      invariant 0 <= i <= |upstream.pieces|
      invariant out == Emitted(upstream.pieces[..i])
    {
      var text := upstream.pieces[i];
      EmittedAppend(upstream.pieces[..i], [text]);
      EmittedSingle(text);
      assert upstream.pieces[..i + 1] == upstream.pieces[..i] + [text];
      if Present(text) {
        out := out + [text.value];
      }
      i := i + 1;
    }
    assert upstream.pieces[..i] == upstream.pieces;
    if upstream.failed {
      out := out + [FallbackMessage(user, profile)];
    }
  }

  // ---- properties of the stream ----

  /** `Emitted` is a filter: it distributes over concatenation. */
  lemma {:induction false} EmittedAppend(a: seq<Option<string>>, b: seq<Option<string>>)
    ensures Emitted(a + b) == Emitted(a) + Emitted(b)
  {
    if a == [] {
      assert a + b == b;
    } else {
      assert (a + b)[1..] == a[1..] + b;
      EmittedAppend(a[1..], b);
    }
  }

  /** A single piece is relayed exactly when its text is truthy, unchanged. */
  lemma EmittedSingle(piece: Option<string>)
    ensures Emitted([piece]) == if Present(piece) then [piece.value] else []
  {
    assert [piece][1..] == [];
  }

  /** Successful upstream: the output is exactly the truthy pieces in
      arrival order, with nothing appended. */
  lemma SuccessOutput(pieces: seq<Option<string>>, fallback: string)
    ensures Relay(Upstream(pieces, false), fallback) == Emitted(pieces)
  {
  }

  /** Failed upstream: the truthy pieces received before the failure,
      followed by exactly one fallback message. */
  lemma FailureOutput(pieces: seq<Option<string>>, fallback: string)
    ensures var out := Relay(Upstream(pieces, true), fallback);
      |out| == |Emitted(pieces)| + 1 &&
      out[..|out| - 1] == Emitted(pieces) &&
      out[|out| - 1] == fallback
  {
    var out := Relay(Upstream(pieces, true), fallback);
    assert out[..|out| - 1] == Emitted(pieces);
  }

  /** Failure before the first piece: the output is the fallback alone. */
  lemma EarlyFailureOutput(fallback: string)
    ensures Relay(Upstream([], true), fallback) == [fallback]
  {
  }

  /** Nothing is retracted: what a run that fails after its first `k` pieces
      has relayed before the fallback is exactly what every run sharing those
      `k` pieces yields first, whether it later fails or not. */
  lemma {:induction false} NoRetraction(pieces: seq<Option<string>>, k: nat, failed: bool, fallback: string)
    requires k <= |pieces|
    ensures Emitted(pieces[..k]) <= Relay(Upstream(pieces[..k], true), fallback)
    ensures Emitted(pieces[..k]) <= Relay(Upstream(pieces, failed), fallback)
  {
    var sent := Emitted(pieces[..k]);
    var tail := if failed then [fallback] else [];
    assert pieces == pieces[..k] + pieces[k..];
    EmittedAppend(pieces[..k], pieces[k..]);
    assert Relay(Upstream(pieces, failed), fallback) == sent + (Emitted(pieces[k..]) + tail);
    assert sent <= sent + [fallback];
    assert sent <= sent + (Emitted(pieces[k..]) + tail);
  }

  // ---- properties of the prompt ----

  /** The prompt contains every substituted user and job field verbatim. */
  lemma PromptContainsFields(t: PromptTemplate, user: UserData, profile: ProfileData)
    ensures var p := RenderPrompt(t, user, profile);
      IsInfix(user.name, p) && IsInfix(user.currentRole, p) &&
      IsInfix(JsNumber.IntToString(user.years), p) && IsInfix(user.topSkills, p) &&
      IsInfix(profile.role, p) && IsInfix(profile.company, p) &&
      IsInfix(SkillsList(profile.skills), p)
  {
    var parts := PromptParts(t, user, profile);
    PartOccurs(parts, NameAt);
    PartOccurs(parts, CurrentRoleAt);
    PartOccurs(parts, YearsAt);
    PartOccurs(parts, TopSkillsAt);
    PartOccurs(parts, RoleAt);
    PartOccurs(parts, CompanyAt);
    PartOccurs(parts, SkillsListAt);
  }

  /** A present Key Achievement appears as its labelled line, at its
      segment's offset. */
  lemma PromptAchievementLine(t: PromptTemplate, user: UserData, profile: ProfileData)
    requires Present(user.keyAchievement)
    ensures OccursAt(t.achievement + user.keyAchievement.value, RenderPrompt(t, user, profile),
                     PartOffset(PromptParts(t, user, profile), AchievementAt))
  {
    var parts := PromptParts(t, user, profile);
    assert parts[AchievementAt] == t.achievement + user.keyAchievement.value;
    PartOccurs(parts, AchievementAt);
  }

  /** The same for a present Location. */
  lemma PromptLocationLine(t: PromptTemplate, user: UserData, profile: ProfileData)
    requires Present(user.location)
    ensures OccursAt(t.location + user.location.value, RenderPrompt(t, user, profile),
                     PartOffset(PromptParts(t, user, profile), LocationAt))
  {
    var parts := PromptParts(t, user, profile);
    assert parts[LocationAt] == t.location + user.location.value;
    PartOccurs(parts, LocationAt);
  }

  /** The same for a present Portfolio. */
  lemma PromptPortfolioLine(t: PromptTemplate, user: UserData, profile: ProfileData)
    requires Present(user.portfolioUrl)
    ensures OccursAt(t.portfolio + user.portfolioUrl.value, RenderPrompt(t, user, profile),
                     PartOffset(PromptParts(t, user, profile), PortfolioAt))
  {
    var parts := PromptParts(t, user, profile);
    assert parts[PortfolioAt] == t.portfolio + user.portfolioUrl.value;
    PartOccurs(parts, PortfolioAt);
  }

  /** The optional lines come in the order Key Achievement, Location,
      Portfolio, after the top skills and before the job block. */
  lemma PromptOptionalLinesInOrder(t: PromptTemplate, user: UserData, profile: ProfileData)
    ensures var parts := PromptParts(t, user, profile);
      PartOffset(parts, TopSkillsAt) + |user.topSkills| <= PartOffset(parts, AchievementAt) &&
      PartOffset(parts, AchievementAt) + |parts[AchievementAt]| <= PartOffset(parts, LocationAt) &&
      PartOffset(parts, LocationAt) + |parts[LocationAt]| <= PartOffset(parts, PortfolioAt) &&
      PartOffset(parts, PortfolioAt) + |parts[PortfolioAt]| <= PartOffset(parts, RoleAt)
  {
    var parts := PromptParts(t, user, profile);
    PartsInOrder(parts, TopSkillsAt, AchievementAt);
    PartsInOrder(parts, AchievementAt, LocationAt);
    PartsInOrder(parts, LocationAt, PortfolioAt);
    PartsInOrder(parts, PortfolioAt, RoleAt);
  }

  /** Two users that differ in one optional field give prompts whose segments
      differ only at that field's line. */
  lemma ReplacePromptPart(t: PromptTemplate, user: UserData, other: UserData, profile: ProfileData, at: nat)
    requires at in {AchievementAt, LocationAt, PortfolioAt}
    requires other.name == user.name && other.years == user.years
    requires other.currentRole == user.currentRole && other.topSkills == user.topSkills
    requires at != AchievementAt ==> other.keyAchievement == user.keyAchievement
    requires at != LocationAt ==> other.location == user.location
    requires at != PortfolioAt ==> other.portfolioUrl == user.portfolioUrl
    ensures PromptParts(t, other, profile) ==
      PromptParts(t, user, profile)[at := PromptParts(t, other, profile)[at]]
  {
    var parts, filled := PromptParts(t, user, profile), PromptParts(t, other, profile);
    assert forall j | 0 <= j < |parts| && j != at :: filled[j] == parts[j];
  }

  /** An optional line appears only when its field is truthy: giving an absent
      Key Achievement the non-empty value `v` inserts exactly its line into the
      prompt and changes nothing else, and an empty value is the same as an
      absent one. */
  lemma PromptAchievementOnlyWhenPresent(t: PromptTemplate, user: UserData, profile: ProfileData, v: string)
    requires user.keyAchievement.None? && v != ""
    ensures var p := RenderPrompt(t, user, profile);
      var k := PartOffset(PromptParts(t, user, profile), AchievementAt);
      RenderPrompt(t, user.(keyAchievement := Some(v)), profile) == p[..k] + (t.achievement + v) + p[k..]
    ensures RenderPrompt(t, user.(keyAchievement := Some("")), profile) == RenderPrompt(t, user, profile)
  {
    var parts := PromptParts(t, user, profile);
    var line := t.achievement + v;
    assert PromptParts(t, user.(keyAchievement := Some(v)), profile) == parts[AchievementAt := line] by {
      ReplacePromptPart(t, user, user.(keyAchievement := Some(v)), profile, AchievementAt);
    }
    FillEmptyPart(parts, AchievementAt, line);
  }

  /** The same for the Location line. */
  lemma PromptLocationOnlyWhenPresent(t: PromptTemplate, user: UserData, profile: ProfileData, v: string)
    requires user.location.None? && v != ""
    ensures var p := RenderPrompt(t, user, profile);
      var k := PartOffset(PromptParts(t, user, profile), LocationAt);
      RenderPrompt(t, user.(location := Some(v)), profile) == p[..k] + (t.location + v) + p[k..]
    ensures RenderPrompt(t, user.(location := Some("")), profile) == RenderPrompt(t, user, profile)
  {
    var parts := PromptParts(t, user, profile);
    var line := t.location + v;
    assert PromptParts(t, user.(location := Some(v)), profile) == parts[LocationAt := line] by {
      ReplacePromptPart(t, user, user.(location := Some(v)), profile, LocationAt);
    }
    FillEmptyPart(parts, LocationAt, line);
  }

  /** The same for the Portfolio line. */
  lemma PromptPortfolioOnlyWhenPresent(t: PromptTemplate, user: UserData, profile: ProfileData, v: string)
    requires user.portfolioUrl.None? && v != ""
    ensures var p := RenderPrompt(t, user, profile);
      var k := PartOffset(PromptParts(t, user, profile), PortfolioAt);
      RenderPrompt(t, user.(portfolioUrl := Some(v)), profile) == p[..k] + (t.portfolio + v) + p[k..]
    ensures RenderPrompt(t, user.(portfolioUrl := Some("")), profile) == RenderPrompt(t, user, profile)
  {
    var parts := PromptParts(t, user, profile);
    var line := t.portfolio + v;
    assert PromptParts(t, user.(portfolioUrl := Some(v)), profile) == parts[PortfolioAt := line] by {
      ReplacePromptPart(t, user, user.(portfolioUrl := Some(v)), profile, PortfolioAt);
    }
    FillEmptyPart(parts, PortfolioAt, line);
  }

  /** The required-skills text: "not specified" for no skills; otherwise the
      first min(5, n) skills, each verbatim, in order, separated by ", ".
      Skills past the fifth do not affect it. */
  lemma SkillsListShape(skills: seq<string>, i: nat)
    ensures |skills| == 0 ==> SkillsList(skills) == "not specified"
    ensures var top := Take(skills, PromptSkillCount);
      i < |top| ==> OccursAt(skills[i], SkillsList(skills), JoinOffset(", ", top, i))
    ensures var top := Take(skills, PromptSkillCount);
      i + 1 < |top| ==>
        OccursAt(", ", SkillsList(skills), JoinOffset(", ", top, i) + |skills[i]|) &&
        JoinOffset(", ", top, i) + |skills[i]| + 2 == JoinOffset(", ", top, i + 1)
    ensures var top := Take(skills, PromptSkillCount);
      |top| > 0 ==> |SkillsList(skills)| == JoinOffset(", ", top, |top| - 1) + |top[|top| - 1]|
    ensures SkillsList(skills) == SkillsList(Take(skills, PromptSkillCount))
  {
    var top := Take(skills, PromptSkillCount);
    if i < |top| {
      JoinElementOccurs(", ", top, i);
    }
    if i + 1 < |top| {
      JoinNextOffset(", ", top, i);
      JoinSeparatorOccurs(", ", top, i);
    }
    if |top| > 0 {
      JoinLength(", ", top);
    }
  }

  // ---- properties of the fallback ----

  /** The fallback ends with the user's name and contains the name, years,
      job role, company and skills sentence verbatim; it starts with "Hi,"
      whenever its greeting does. */
  lemma FallbackShape(t: FallbackTemplate, user: UserData, profile: ProfileData)
    ensures var m := RenderFallback(t, user, profile);
      t.greeting <= m && EndsWith(m, user.name) &&
      IsInfix(user.name, m) && IsInfix(JsNumber.IntToString(user.years), m) &&
      IsInfix(profile.role, m) && IsInfix(profile.company, m) &&
      IsInfix(FallbackSkills(profile.skills), m)
  {
    var parts := FallbackParts(t, user, profile);
    FirstPartStarts(parts);
    LastPartEnds(parts);
    PartOccurs(parts, FallbackNameAt);
    PartOccurs(parts, FallbackYearsAt);
    PartOccurs(parts, FallbackRoleAt);
    PartOccurs(parts, FallbackCompanyAt);
    PartOccurs(parts, FallbackSkillsAt);
  }

  /** The fallback message itself starts with "Hi," and ends with the user's name. */
  lemma FallbackGreeting(user: UserData, profile: ProfileData)
    ensures "Hi," <= FallbackMessage(user, profile)
    ensures EndsWith(FallbackMessage(user, profile), user.name)
  {
    FallbackShape(FallbackText, user, profile);
    assert "Hi," <= FallbackText.greeting;
  }

  /** The fallback skills sentence is empty exactly when there are no skills;
      otherwise it names the first min(3, n) skills, each verbatim, in order,
      separated by ", ", and skills past the third do not affect it. */
  lemma FallbackSkillsShape(skills: seq<string>, i: nat)
    ensures FallbackSkills(skills) == "" <==> |skills| == 0
    ensures |skills| > 0 ==>
        "I noticed the role requires " <= FallbackSkills(skills) &&
        EndsWith(FallbackSkills(skills), ".")
    ensures var top := Take(skills, FallbackSkillCount);
      i < |top| ==>
        OccursAt(skills[i], FallbackSkills(skills), |"I noticed the role requires "| + JoinOffset(", ", top, i))
    ensures var top := Take(skills, FallbackSkillCount);
      i + 1 < |top| ==>
        OccursAt(", ", FallbackSkills(skills),
                 |"I noticed the role requires "| + JoinOffset(", ", top, i) + |skills[i]|) &&
        JoinOffset(", ", top, i) + |skills[i]| + 2 == JoinOffset(", ", top, i + 1)
    ensures var top := Take(skills, FallbackSkillCount);
      |top| > 0 ==>
        |FallbackSkills(skills)| ==
        |"I noticed the role requires "| + JoinOffset(", ", top, |top| - 1) + |top[|top| - 1]| + 1
    ensures FallbackSkills(skills) == FallbackSkills(Take(skills, FallbackSkillCount))
  {
    var top := Take(skills, FallbackSkillCount);
    var lead := "I noticed the role requires ";
    var j := Join(", ", top);
    if |skills| > 0 {
      assert FallbackSkills(skills) == lead + j + ".";
    }
    if i < |top| {
      JoinElementOccurs(", ", top, i);
      OccursInContext(skills[i], j, JoinOffset(", ", top, i), lead, ".");
    }
    if i + 1 < |top| {
      JoinNextOffset(", ", top, i);
      JoinSeparatorOccurs(", ", top, i);
      OccursInContext(", ", j, JoinOffset(", ", top, i) + |skills[i]|, lead, ".");
    }
    if |top| > 0 {
      JoinLength(", ", top);
    }
  }
}
