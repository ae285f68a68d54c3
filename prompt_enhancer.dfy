/** The prompt-enhancer panel: the role table, the three-way slider buckets,
    the sentences each bucket contributes, the engine that rewrites the
    original prompt from them, the slider captions, and the panel's own
    state with its recompute-on-change rule. */
module PromptEnhancer {

  /** The persona select: role key to the label written into the prompt. */
  const RoleOptions: map<string, string> := map[
    "default" := "Default",
    "expert" := "Subject Matter Expert",
    "teacher" := "Teacher",
    "researcher" := "Academic Researcher",
    "programmer" := "Software Developer",
    "writer" := "Professional Writer",
    "coach" := "Coach/Mentor"
  ]

  /** The role key that adds no persona clause. */
  const DefaultRole: string := "default"

  /** The three ranges every slider is cut into. */
  datatype Bucket = Low | Middle | High

  /** `v < 33`, `v > 66`, otherwise the middle: both boundaries are strict,
      so 33 and 66 are in the middle range. */
  function BucketOf(v: int): (b: Bucket)
    ensures b == Low <==> v < 33
    ensures b == Middle <==> 33 <= v <= 66
    ensures b == High <==> v > 66
  {
    if v < 33 then Low else if v > 66 then High else Middle
  }

  const ConciseTone: string := "Please respond in a concise and direct manner."
  const BalancedTone: string := "Please respond in a balanced and professional tone."
  const FriendlyTone: string := "Please respond in a friendly and conversational tone."

  const BriefDetail: string := "Keep your response brief and to the point."
  const ModerateDetail: string := "Provide a moderately detailed response."
  const DetailedDetail: string := "Please provide a detailed and comprehensive response."

  const SimpleLanguage: string := "Use simple language and avoid technical jargon."
  const MixedLanguage: string := "Use a mix of simple explanations and technical terms where appropriate."
  const TechnicalLanguage: string := "Feel free to use technical language and advanced concepts."

  /** What separates the original text from the tone sentence. */
  const ToneSeparator: string := "\n\n"

  /** What separates the detail and complexity sentences from what precedes them. */
  const ClauseSeparator: string := " "

  function ToneSentence(b: Bucket): string {
    match b
    case Low => ConciseTone
    case Middle => BalancedTone
    case High => FriendlyTone
  }

  function DetailSentence(b: Bucket): string {
    match b
    case Low => BriefDetail
    case Middle => ModerateDetail
    case High => DetailedDetail
  }

  function ComplexitySentence(b: Bucket): string {
    match b
    case Low => SimpleLanguage
    case Middle => MixedLanguage
    case High => TechnicalLanguage
  }

  /** The four settings the panel's controls produce. */
  datatype Settings = Settings(role: string, tone: int, detailLevel: int, complexity: int)

  /** The panel's initial settings. */
  const Defaults: Settings := Settings(DefaultRole, 50, 50, 50)

  /** `"As a {label}, "` for a persona role, nothing for the default one. */
  function RolePrefix(role: string): string
    requires role in RoleOptions
  {
    if role == DefaultRole then "" else "As a " + RoleOptions[role] + ", "
  }

  /** The enhanced prompt the engine produces for `original` under `s`. */
  function Enhance(original: string, s: Settings): string
    requires s.role in RoleOptions
  {
    RolePrefix(s.role) + original
    + ToneSeparator + ToneSentence(BucketOf(s.tone))
    + ClauseSeparator + DetailSentence(BucketOf(s.detailLevel))
    + ClauseSeparator + ComplexitySentence(BucketOf(s.complexity))
  }

  /** Everything the sliders append after the original text. */
  function Clauses(s: Settings): string {
    ToneSeparator + ToneSentence(BucketOf(s.tone))
    + ClauseSeparator + DetailSentence(BucketOf(s.detailLevel))
    + ClauseSeparator + ComplexitySentence(BucketOf(s.complexity))
  }

  /** Takes the original text back out of an enhanced prompt made under `s`. */
  function ExtractOriginal(r: string, s: Settings): string
    requires s.role in RoleOptions
    requires |RolePrefix(s.role)| + |Clauses(s)| <= |r|
  {
    r[|RolePrefix(s.role)|..|r| - |Clauses(s)|]
  }

  /** `r` is `prefix`, `original`, the blank line, `t`, a space, `d`, a
      space and `c`, laid end to end: each piece is found at the running sum
      of the lengths before it. */
  predicate Assembled(r: string, prefix: string, original: string, t: string, d: string, c: string) {
    var o := |prefix|;
    var ti := o + |original| + |ToneSeparator|;
    var di := ti + |t| + |ClauseSeparator|;
    var ci := di + |d| + |ClauseSeparator|;
    |r| == ci + |c|
    && r[..o] == prefix
    && r[o..o + |original|] == original
    && r[o + |original|..ti] == ToneSeparator && r[ti..ti + |t|] == t
    && r[ti + |t|..di] == ClauseSeparator && r[di..di + |d|] == d
    && r[di + |d|..ci] == ClauseSeparator && r[ci..] == c
  }

  /** The pieces of a concatenation in the engine's order can be cut apart
      again at the running sums of their lengths. */
  lemma {:induction false} ConcatenationIsAssembled(prefix: string, original: string, t: string, d: string, c: string)
    ensures Assembled(prefix + original + ToneSeparator + t + ClauseSeparator + d + ClauseSeparator + c,
                      prefix, original, t, d, c)
  {
    var r := prefix + original + ToneSeparator + t + ClauseSeparator + d + ClauseSeparator + c;
    var i1 := |prefix|;
    var i2 := i1 + |original|;
    var i3 := i2 + |ToneSeparator|;
    var i4 := i3 + |t|;
    var i5 := i4 + |ClauseSeparator|;
    var i6 := i5 + |d|;
    var i7 := i6 + |ClauseSeparator|;
    assert r[..i7] == prefix + original + ToneSeparator + t + ClauseSeparator + d + ClauseSeparator;
    assert r[..i6] == prefix + original + ToneSeparator + t + ClauseSeparator + d;
    assert r[..i5] == prefix + original + ToneSeparator + t + ClauseSeparator;
    assert r[..i4] == prefix + original + ToneSeparator + t;
    assert r[..i3] == prefix + original + ToneSeparator;
    assert r[..i2] == prefix + original;
  }

  /** Regrouping the same concatenation: the prefix and the original, then
      everything the sliders contribute. */
  lemma {:induction false} ConcatenationRegroups(prefix: string, original: string, t: string, d: string, c: string)
    ensures prefix + original + ToneSeparator + t + ClauseSeparator + d + ClauseSeparator + c
         == prefix + original + (ToneSeparator + t + ClauseSeparator + d + ClauseSeparator + c)
  {
    var x := prefix + original;
    calc {
      x + ToneSeparator + t + ClauseSeparator + d + ClauseSeparator + c;
      == { Associative(x, ToneSeparator, t); }
      x + (ToneSeparator + t) + ClauseSeparator + d + ClauseSeparator + c;
      == { Associative(x, ToneSeparator + t, ClauseSeparator); }
      x + (ToneSeparator + t + ClauseSeparator) + d + ClauseSeparator + c;
      == { Associative(x, ToneSeparator + t + ClauseSeparator, d); }
      x + (ToneSeparator + t + ClauseSeparator + d) + ClauseSeparator + c;
      == { Associative(x, ToneSeparator + t + ClauseSeparator + d, ClauseSeparator); }
      x + (ToneSeparator + t + ClauseSeparator + d + ClauseSeparator) + c;
      == { Associative(x, ToneSeparator + t + ClauseSeparator + d + ClauseSeparator, c); }
      x + (ToneSeparator + t + ClauseSeparator + d + ClauseSeparator + c);
    }
  }

  lemma Associative(a: string, b: string, c: string)
    ensures a + b + c == a + (b + c)
  {
  }

  /** Where every piece sits in the output: the role prefix, the original
      text, the blank line, the tone sentence, a space, the detail sentence,
      a space and the complexity sentence, back to back and in that order,
      for any original text, the empty one included. */
  lemma EnhanceLayout(original: string, s: Settings)
    requires s.role in RoleOptions
    ensures Assembled(Enhance(original, s), RolePrefix(s.role), original, ToneSentence(BucketOf(s.tone)),
                      DetailSentence(BucketOf(s.detailLevel)), ComplexitySentence(BucketOf(s.complexity)))
  {
    ConcatenationIsAssembled(RolePrefix(s.role), original, ToneSentence(BucketOf(s.tone)),
                             DetailSentence(BucketOf(s.detailLevel)), ComplexitySentence(BucketOf(s.complexity)));
  }

  /** The output is the role prefix, the original text and the clauses. */
  lemma EnhanceIsPrefixOriginalClauses(original: string, s: Settings)
    requires s.role in RoleOptions
    ensures Enhance(original, s) == RolePrefix(s.role) + original + Clauses(s)
  {
    ConcatenationRegroups(RolePrefix(s.role), original, ToneSentence(BucketOf(s.tone)),
                          DetailSentence(BucketOf(s.detailLevel)), ComplexitySentence(BucketOf(s.complexity)));
  }

  /** With the default role the output opens with the original text,
      verbatim, and no persona is added. */
  lemma EnhanceDefaultRole(original: string, s: Settings)
    requires s.role == DefaultRole
    ensures Enhance(original, s)[..|original|] == original
    ensures Enhance(original, s) == original + Clauses(s)
  {
    EnhanceIsPrefixOriginalClauses(original, s);
  }

  /** With any other role the output is `"As a " + label + ", "`, then the
      original text, then the clauses. */
  lemma EnhanceWithRole(original: string, s: Settings)
    requires s.role in RoleOptions && s.role != DefaultRole
    ensures Enhance(original, s) == "As a " + RoleOptions[s.role] + ", " + original + Clauses(s)
  {
    EnhanceIsPrefixOriginalClauses(original, s);
  }

  /** The original text survives as one unchanged contiguous piece, and can
      be taken back out of the output. */
  lemma ExtractOriginalOfEnhance(original: string, s: Settings)
    requires s.role in RoleOptions
    ensures |RolePrefix(s.role)| + |Clauses(s)| <= |Enhance(original, s)|
    ensures ExtractOriginal(Enhance(original, s), s) == original
  {
    EnhanceIsPrefixOriginalClauses(original, s);
    var r := Enhance(original, s);
    var p := |RolePrefix(s.role)|;
    assert r[p..|r| - |Clauses(s)|] == original;
  }

  /** Under fixed settings, different original texts give different outputs. */
  lemma EnhanceInjective(a: string, b: string, s: Settings)
    requires s.role in RoleOptions
    requires Enhance(a, s) == Enhance(b, s)
    ensures a == b
  {
    ExtractOriginalOfEnhance(a, s);
    ExtractOriginalOfEnhance(b, s);
  }

  /** The tone sentences have different lengths, and none continues the
      text of a shorter one with a space. */
  lemma ToneSentencesDiffer(b1: Bucket, b2: Bucket)
    ensures |ToneSentence(b1)| == |ToneSentence(b2)| ==> b1 == b2
    ensures |ToneSentence(b1)| < |ToneSentence(b2)| ==> ToneSentence(b2)[|ToneSentence(b1)|] != ' '
  {
  }

  /** The detail sentences have different lengths, and none continues the
      text of a shorter one with a space. */
  lemma DetailSentencesDiffer(b1: Bucket, b2: Bucket)
    ensures |DetailSentence(b1)| == |DetailSentence(b2)| ==> b1 == b2
    ensures |DetailSentence(b1)| < |DetailSentence(b2)| ==> DetailSentence(b2)[|DetailSentence(b1)|] != ' '
  {
  }

  /** The complexity sentences have different lengths. */
  lemma ComplexitySentencesDiffer(b1: Bucket, b2: Bucket)
    ensures ComplexitySentence(b1) == ComplexitySentence(b2) ==> b1 == b2
  {
  }

  /** A tone sentence followed by a space at position `i` of `r` is the only
      one that can be read there. */
  lemma ToneReadBack(r: string, i: nat, b1: Bucket, b2: Bucket)
    requires i + |ToneSentence(b1)| < |r| && r[i..i + |ToneSentence(b1)|] == ToneSentence(b1)
    requires i + |ToneSentence(b2)| < |r| && r[i..i + |ToneSentence(b2)|] == ToneSentence(b2)
    requires r[i + |ToneSentence(b1)|..i + |ToneSentence(b1)| + 1] == ClauseSeparator
    requires r[i + |ToneSentence(b2)|..i + |ToneSentence(b2)| + 1] == ClauseSeparator
    ensures b1 == b2
  {
    assert r[i + |ToneSentence(b1)|..i + |ToneSentence(b1)| + 1][0] == r[i + |ToneSentence(b1)|];
    assert r[i + |ToneSentence(b2)|..i + |ToneSentence(b2)| + 1][0] == r[i + |ToneSentence(b2)|];
    ToneSentencesDiffer(b1, b2);
    ToneSentencesDiffer(b2, b1);
  }

  /** A detail sentence followed by a space at position `i` of `r` is the
      only one that can be read there. */
  lemma DetailReadBack(r: string, i: nat, b1: Bucket, b2: Bucket)
    requires i + |DetailSentence(b1)| < |r| && r[i..i + |DetailSentence(b1)|] == DetailSentence(b1)
    requires i + |DetailSentence(b2)| < |r| && r[i..i + |DetailSentence(b2)|] == DetailSentence(b2)
    requires r[i + |DetailSentence(b1)|..i + |DetailSentence(b1)| + 1] == ClauseSeparator
    requires r[i + |DetailSentence(b2)|..i + |DetailSentence(b2)| + 1] == ClauseSeparator
    ensures b1 == b2
  {
    assert r[i + |DetailSentence(b1)|..i + |DetailSentence(b1)| + 1][0] == r[i + |DetailSentence(b1)|];
    assert r[i + |DetailSentence(b2)|..i + |DetailSentence(b2)| + 1][0] == r[i + |DetailSentence(b2)|];
    DetailSentencesDiffer(b1, b2);
    DetailSentencesDiffer(b2, b1);
  }

  /** What an assembled string shows at the tone, detail and complexity
      positions, with the separators that follow the first two. */
  lemma AssembledPieces(r: string, prefix: string, original: string, t: string, d: string, c: string)
    requires Assembled(r, prefix, original, t, d, c)
    ensures var ti := |prefix| + |original| + |ToneSeparator|;
      var di := ti + |t| + |ClauseSeparator|;
      var ci := di + |d| + |ClauseSeparator|;
      ti + |t| < |r| && r[ti..ti + |t|] == t && r[ti + |t|..ti + |t| + 1] == ClauseSeparator
      && di + |d| < |r| && r[di..di + |d|] == d && r[di + |d|..di + |d| + 1] == ClauseSeparator
      && r[ci..] == c
  {
  }

  /** Two readings of one string with the same prefix and original agree
      on the tone sentence. */
  lemma ToneOfAssembled(r: string, prefix: string, original: string, t1: Bucket, t2: Bucket,
                        d1: string, c1: string, d2: string, c2: string)
    requires Assembled(r, prefix, original, ToneSentence(t1), d1, c1)
    requires Assembled(r, prefix, original, ToneSentence(t2), d2, c2)
    ensures t1 == t2
  {
    AssembledPieces(r, prefix, original, ToneSentence(t1), d1, c1);
    AssembledPieces(r, prefix, original, ToneSentence(t2), d2, c2);
    ToneReadBack(r, |prefix| + |original| + |ToneSeparator|, t1, t2);
  }

  /** Two readings of one string with the same prefix, original and tone
      sentence agree on the detail sentence. */
  lemma DetailOfAssembled(r: string, prefix: string, original: string, t: string, d1: Bucket, d2: Bucket,
                          c1: string, c2: string)
    requires Assembled(r, prefix, original, t, DetailSentence(d1), c1)
    requires Assembled(r, prefix, original, t, DetailSentence(d2), c2)
    ensures d1 == d2
  {
    AssembledPieces(r, prefix, original, t, DetailSentence(d1), c1);
    AssembledPieces(r, prefix, original, t, DetailSentence(d2), c2);
    DetailReadBack(r, |prefix| + |original| + |ToneSeparator| + |t| + |ClauseSeparator|, d1, d2);
  }

  /** Two readings of one string with the same pieces up to the complexity
      sentence agree on it. */
  lemma ComplexityOfAssembled(r: string, prefix: string, original: string, t: string, d: string,
                              c1: Bucket, c2: Bucket)
    requires Assembled(r, prefix, original, t, d, ComplexitySentence(c1))
    requires Assembled(r, prefix, original, t, d, ComplexitySentence(c2))
    ensures c1 == c2
  {
    AssembledPieces(r, prefix, original, t, d, ComplexitySentence(c1));
    AssembledPieces(r, prefix, original, t, d, ComplexitySentence(c2));
    ComplexitySentencesDiffer(c1, c2);
  }

  /** Reading the output back: under one role and one original text, the
      output determines which bucket each slider was in. */
  lemma EnhanceDeterminesBuckets(original: string, s1: Settings, s2: Settings)
    requires s1.role in RoleOptions && s2.role == s1.role
    requires Enhance(original, s1) == Enhance(original, s2)
    ensures BucketOf(s1.tone) == BucketOf(s2.tone)
    ensures BucketOf(s1.detailLevel) == BucketOf(s2.detailLevel)
    ensures BucketOf(s1.complexity) == BucketOf(s2.complexity)
  {
    var r, p := Enhance(original, s1), RolePrefix(s1.role);
    var t1, t2 := BucketOf(s1.tone), BucketOf(s2.tone);
    var d1, d2 := BucketOf(s1.detailLevel), BucketOf(s2.detailLevel);
    var c1, c2 := BucketOf(s1.complexity), BucketOf(s2.complexity);
    EnhanceLayout(original, s1);
    EnhanceLayout(original, s2);
    ToneOfAssembled(r, p, original, t1, t2, DetailSentence(d1), ComplexitySentence(c1),
                    DetailSentence(d2), ComplexitySentence(c2));
    DetailOfAssembled(r, p, original, ToneSentence(t1), d1, d2, ComplexitySentence(c1), ComplexitySentence(c2));
    ComplexityOfAssembled(r, p, original, ToneSentence(t1), DetailSentence(d1), c1, c2);
  }

  /** `Enhance` is a pure function of its two inputs: settings that agree on
      the role and on every slider's bucket give the same output. */
  lemma EnhanceDependsOnlyOnBuckets(original: string, s1: Settings, s2: Settings)
    requires s1.role in RoleOptions && s2.role == s1.role
    requires BucketOf(s1.tone) == BucketOf(s2.tone)
    requires BucketOf(s1.detailLevel) == BucketOf(s2.detailLevel)
    requires BucketOf(s1.complexity) == BucketOf(s2.complexity)
    ensures Enhance(original, s1) == Enhance(original, s2)
  {
  }

  /** The initial settings give the balanced tone, the moderate detail and
      the mixed language sentences. */
  lemma DefaultsClauses(original: string)
    ensures Enhance(original, Defaults)
         == original + ToneSeparator + BalancedTone + ClauseSeparator + ModerateDetail
            + ClauseSeparator + MixedLanguage
  {
    assert RolePrefix(Defaults.role) + original == original;
    assert BucketOf(50) == Middle;
  }

  /** The caption above the tone slider. */
  function ToneCaption(tone: int): string {
    if tone < 33 then "Direct" else if tone > 66 then "Conversational" else "Balanced"
  }

  /** The caption above the detail slider. */
  function DetailCaption(detailLevel: int): string {
    if detailLevel < 33 then "Brief" else if detailLevel > 66 then "Detailed" else "Moderate"
  }

  /** The caption above the complexity slider. */
  function ComplexityCaption(complexity: int): string {
    if complexity < 33 then "Simple" else if complexity > 66 then "Advanced" else "Moderate"
  }

  /** Each caption names the sentence its slider contributes: "Direct"
      exactly when the concise sentence is emitted, and so on. */
  lemma CaptionsAgreeWithClauses(v: int)
    ensures ToneCaption(v) == "Direct" <==> ToneSentence(BucketOf(v)) == ConciseTone
    ensures ToneCaption(v) == "Balanced" <==> ToneSentence(BucketOf(v)) == BalancedTone
    ensures ToneCaption(v) == "Conversational" <==> ToneSentence(BucketOf(v)) == FriendlyTone
    ensures DetailCaption(v) == "Brief" <==> DetailSentence(BucketOf(v)) == BriefDetail
    ensures DetailCaption(v) == "Moderate" <==> DetailSentence(BucketOf(v)) == ModerateDetail
    ensures DetailCaption(v) == "Detailed" <==> DetailSentence(BucketOf(v)) == DetailedDetail
    ensures ComplexityCaption(v) == "Simple" <==> ComplexitySentence(BucketOf(v)) == SimpleLanguage
    ensures ComplexityCaption(v) == "Moderate" <==> ComplexitySentence(BucketOf(v)) == MixedLanguage
    ensures ComplexityCaption(v) == "Advanced" <==> ComplexitySentence(BucketOf(v)) == TechnicalLanguage
  {
  }

  /** A slider position the component's sliders can produce. */
  predicate InSliderRange(v: int) {
    0 <= v <= 100
  }

  /** The panel: the prompt it was opened on, the four controls and the
      enhanced prompt it keeps recomputed from them. */
  class Enhancer {
    var originalPrompt: string
    var role: string
    var tone: int
    var detailLevel: int
    var complexity: int
    var enhancedPrompt: string

    /** The controls' current values. */
    function Current(): Settings
      reads this
    {
      Settings(role, tone, detailLevel, complexity)
    }

    /** The controls hold values they can produce, and the shown prompt is
        the engine's output for the current prompt and controls. */
    ghost predicate Valid()
      reads this
    {
      role in RoleOptions
      && InSliderRange(tone) && InSliderRange(detailLevel) && InSliderRange(complexity)
      && enhancedPrompt == Enhance(originalPrompt, Current())
    }

    /** Mounting the panel: the default controls, then the first recompute. */
    constructor (originalPrompt: string)
      ensures Valid()
      ensures this.originalPrompt == originalPrompt && Current() == Defaults
      ensures enhancedPrompt
           == originalPrompt + ToneSeparator + BalancedTone + ClauseSeparator + ModerateDetail
              + ClauseSeparator + MixedLanguage
    {
      this.originalPrompt := originalPrompt;
      role := DefaultRole;
      tone := 50;
      detailLevel := 50;
      complexity := 50;
      enhancedPrompt := "";
      new;
      Recompute();
      DefaultsClauses(originalPrompt);
    }

    /** Rebuilds the enhanced prompt step by step, as the effect does on
        every change: persona, then tone, detail and complexity sentences. */
    method Recompute()
      requires role in RoleOptions
      modifies this
      ensures originalPrompt == old(originalPrompt) && Current() == old(Current())
      ensures enhancedPrompt == Enhance(originalPrompt, Current())
    {
      var prompt := originalPrompt;
      if role != DefaultRole {
        prompt := "As a " + RoleOptions[role] + ", " + prompt;
      }
      assert prompt == RolePrefix(role) + originalPrompt;
      if tone < 33 {
        prompt := prompt + ToneSeparator + ConciseTone;
      } else if tone > 66 {
        prompt := prompt + ToneSeparator + FriendlyTone;
      } else {
        prompt := prompt + ToneSeparator + BalancedTone;
      }
      assert prompt == RolePrefix(role) + originalPrompt + ToneSeparator + ToneSentence(BucketOf(tone));
      if detailLevel < 33 {
        prompt := prompt + ClauseSeparator + BriefDetail;
      } else if detailLevel > 66 {
        prompt := prompt + ClauseSeparator + DetailedDetail;
      } else {
        prompt := prompt + ClauseSeparator + ModerateDetail;
      }
      assert prompt == RolePrefix(role) + originalPrompt + ToneSeparator + ToneSentence(BucketOf(tone))
                       + ClauseSeparator + DetailSentence(BucketOf(detailLevel));
      if complexity < 33 {
        prompt := prompt + ClauseSeparator + SimpleLanguage;
      } else if complexity > 66 {
        prompt := prompt + ClauseSeparator + TechnicalLanguage;
      } else {
        prompt := prompt + ClauseSeparator + MixedLanguage;
      }
      enhancedPrompt := prompt;
    }

    /** The host passes a new original prompt. */
    method SetOriginalPrompt(p: string)
      requires Valid()
      modifies this
      ensures Valid()
      ensures originalPrompt == p && Current() == old(Current())
    {
      originalPrompt := p;
      Recompute();
    }

    /** A role is picked from the select, which offers only the table's keys. */
    method SetRole(key: string)
      requires Valid()
      requires key in RoleOptions
      modifies this
      ensures Valid()
      ensures role == key && originalPrompt == old(originalPrompt)
      ensures tone == old(tone) && detailLevel == old(detailLevel) && complexity == old(complexity)
    {
      role := key;
      Recompute();
    }

    method SetTone(v: int)
      requires Valid() && InSliderRange(v)
      modifies this
      ensures Valid()
      ensures Current() == old(Current()).(tone := v) && originalPrompt == old(originalPrompt)
    {
      tone := v;
      Recompute();
    }

    method SetDetailLevel(v: int)
      requires Valid() && InSliderRange(v)
      modifies this
      ensures Valid()
      ensures Current() == old(Current()).(detailLevel := v) && originalPrompt == old(originalPrompt)
    {
      detailLevel := v;
      Recompute();
    }

    method SetComplexity(v: int)
      requires Valid() && InSliderRange(v)
      modifies this
      ensures Valid()
      ensures Current() == old(Current()).(complexity := v) && originalPrompt == old(originalPrompt)
    {
      complexity := v;
      Recompute();
    }

    /** The Apply button hands the shown prompt over unchanged. */
    method Apply() returns (p: string)
      requires Valid()
      ensures p == enhancedPrompt
      ensures p == Enhance(originalPrompt, Current())
    {
      p := enhancedPrompt;
    }
  }
}
