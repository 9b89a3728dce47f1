/** The composite instruction the generate route sends to the image model
    (src/app/api/generate/route.ts, lines 29-57): a fixed base template, an
    optional " However, ..." sentence listing what to keep from the subject
    photo in the fixed order clothing, accessories, expression, an optional
    pose clause, optional custom requirements, and a fixed closing clause.

    The main result is that the prompt determines the parameters: `ParsePrompt`
    reads every flag and the custom text back out of `ComposePrompt(p)`, so
    each clause appears exactly when its parameter asks for it, in its place. */
module PromptBuilder {
  import opened Wrappers
  import opened JsString
  import opened Types

  const BaseTemplate := "Replace the person in the REFERENCE IMAGE (first image) with the person in the SUBJECT IMAGE (second image). Relight the SUBJECT to blend in with the ambience, and replace its attire, accessories and pose as per its gender and age group. Preserve the subject's skin tone, facial features and structure, hairstyle, body physique etc."

  const FromSubject := " from the SUBJECT IMAGE"
  const KeepClothing := "preserve the clothing style" + FromSubject
  const KeepAccessories := "preserve accessories" + FromSubject
  const KeepExpression := "preserve the facial expression" + FromSubject

  /** Opens the preservation sentence. */
  const However := " However, "
  const PoseHead := " Replicate the pose,"
  const PoseRest := " posture, and orientation of the person in the REFERENCE IMAGE exactly, while applying it to the SUBJECT."
  const PoseText := PoseHead + PoseRest
  /** Opens the custom-instructions sentence. */
  const CustomLead := " Additional requirements: "
  const Closing := " Ensure seamless integration with proper lighting, shadows, and perspective matching the REFERENCE IMAGE environment."

  /** The `preservationInstructions` list: one phrase per set flag, in the
      order clothing, accessories, expression. */
  function Preservations(p: GenerationParams): (r: seq<string>)
    ensures |r| <= 3
    ensures r == [] <==> !p.preserveClothing && !p.preserveAccessories && !p.preserveExpression
  {
    (if p.preserveClothing then [KeepClothing] else [])
    + (if p.preserveAccessories then [KeepAccessories] else [])
    + (if p.preserveExpression then [KeepExpression] else [])
  }

  function PreservationSentence(p: GenerationParams): string
  {
    var kept := Preservations(p);
    if |kept| > 0 then However + Join(kept, ", ") + "." else ""
  }

  function PoseClause(p: GenerationParams): string
  {
    if p.copyPose then PoseText else ""
  }

  /** `customInstructions` is tested for truthiness: the empty string adds
      nothing. */
  function CustomClause(p: GenerationParams): string
  {
    if p.customInstructions != "" then CustomLead + p.customInstructions + "." else ""
  }

  /** The prompt the route builds for `p`. */
  function ComposePrompt(p: GenerationParams): string
  {
    BaseTemplate + PreservationSentence(p) + PoseClause(p) + CustomClause(p) + Closing
  }

  /** The `preservationInstructions` array, filled by `push`. */
  method CollectPreservations(p: GenerationParams) returns (instructions: seq<string>)
    ensures instructions == Preservations(p)
  {
    instructions := [];
    if p.preserveClothing {
      instructions := instructions + [KeepClothing];
    }
    if p.preserveAccessories {
      instructions := instructions + [KeepAccessories];
    }
    if p.preserveExpression {
      instructions := instructions + [KeepExpression];
    }
  }

  /** The route's own construction: `let prompt` grown clause by clause
      with `+=`. */
  method BuildPrompt(p: GenerationParams) returns (prompt: string)
    ensures prompt == ComposePrompt(p)
  {
    prompt := BaseTemplate;
    var instructions := CollectPreservations(p);
    if |instructions| > 0 {
      prompt := prompt + (However + Join(instructions, ", ") + ".");
    }
    assert prompt == BaseTemplate + PreservationSentence(p);
    if p.copyPose {
      prompt := prompt + PoseText;
    }
    assert prompt == BaseTemplate + PreservationSentence(p) + PoseClause(p);
    if p.customInstructions != "" {
      prompt := prompt + (CustomLead + p.customInstructions + ".");
    }
    assert prompt == BaseTemplate + PreservationSentence(p) + PoseClause(p) + CustomClause(p);
    prompt := prompt + Closing;
  }

  // ---------------------------------------------------------------------
  // Reading the parameters back out of a prompt

  /** Reads one optional phrase `p`; `sep` says whether a phrase was already
      read, in which case the phrase is preceded by ", ". Returns whether it
      was present, what is left, and the new `sep`. */
  function ReadPhrase(t: string, p: string, sep: bool): (bool, string, bool)
  {
    var q := if sep then ", " + p else p;
    if StartsWith(t, q) then (true, t[|q|..], true) else (false, t, sep)
  }

  /** Reads the body of a preservation sentence (after " However, ") up to
      and including its final ".". */
  function ReadPreservations(t: string): Option<(bool, bool, bool, string)>
  {
    var (c, t1, s1) := ReadPhrase(t, KeepClothing, false);
    var (a, t2, s2) := ReadPhrase(t1, KeepAccessories, s1);
    var (e, t3, s3) := ReadPhrase(t2, KeepExpression, s2);
    if s3 && StartsWith(t3, ".") then Some((c, a, e, t3[1..])) else None
  }

  function ReadCustom(t: string): Option<string>
  {
    if t == "" then Some("")
    else if StartsWith(t, CustomLead) && |t| > |CustomLead| + 1 && t[|t| - 1] == '.' then
      Some(t[|CustomLead|..|t| - 1])
    else None
  }

  function ReadPoseAndCustom(t: string): Option<(bool, string)>
  {
    var pose := StartsWith(t, PoseText);
    var custom := ReadCustom(if pose then t[|PoseText|..] else t);
    if custom.None? then None else Some((pose, custom.value))
  }

  function ReadMiddle(m: string): Option<GenerationParams>
  {
    var kept := if StartsWith(m, However) then ReadPreservations(m[|However|..]) else Some((false, false, false, m));
    if kept.None? then None
    else
      var (c, a, e, rest) := kept.value;
      var tail := ReadPoseAndCustom(rest);
      if tail.None? then None else Some(GenerationParams(c, a, e, tail.value.0, tail.value.1))
  }

  /** Recovers the parameters from a prompt, or `None` when the text is not
      of the shape `ComposePrompt` produces. */
  function ParsePrompt(s: string): Option<GenerationParams>
  {
    if |s| >= |BaseTemplate| + |Closing| && StartsWith(s, BaseTemplate) && EndsWith(s, Closing) then
      ReadMiddle(s[|BaseTemplate|..|s| - |Closing|])
    else None
  }

  // ---------------------------------------------------------------------
  // Properties

  lemma DiffersAt(s: string, prefix: string, k: nat)
    requires k < |prefix| && k < |s| && s[k] != prefix[k]
    ensures !StartsWith(s, prefix)
  {
  }

  lemma CustomRoundTrip(p: GenerationParams)
    ensures ReadCustom(CustomClause(p)) == Some(p.customInstructions)
  {
    if p.customInstructions != "" {
      var t := CustomClause(p);
      ConcatStartsWith(CustomLead, p.customInstructions + ".");
      assert t == CustomLead + (p.customInstructions + ".");
      assert t[|CustomLead|..|t| - 1] == p.customInstructions;
    }
  }

  lemma PoseAndCustomRoundTrip(p: GenerationParams)
    ensures ReadPoseAndCustom(PoseClause(p) + CustomClause(p)) == Some((p.copyPose, p.customInstructions))
  {
    var t := PoseClause(p) + CustomClause(p);
    CustomRoundTrip(p);
    if p.copyPose {
      ConcatStartsWith(PoseText, CustomClause(p));
    } else if p.customInstructions != "" {
      assert t == CustomClause(p) == CustomLead + (p.customInstructions + ".");
      assert t[1] == CustomLead[1];
      DiffersAt(t, PoseText, 1);
    } else {
      assert t == "";
    }
  }

  lemma PhraseRead(p: string, rest: string, sep: bool)
    ensures ReadPhrase((if sep then ", " + p else p) + rest, p, sep) == (true, rest, true)
  {
    ConcatStartsWith(if sep then ", " + p else p, rest);
  }

  lemma PhraseAbsent(t: string, p: string, sep: bool, k: nat)
    requires k < |t| && k < |(if sep then ", " + p else p)|
    requires t[k] != (if sep then ", " + p else p)[k]
    ensures ReadPhrase(t, p, sep) == (false, t, sep)
  {
    DiffersAt(t, if sep then ", " + p else p, k);
  }

  lemma ReadClothing(r: string)
    ensures ReadPreservations(KeepClothing + ("." + r)) == Some((true, false, false, r))
  {
    PhraseRead(KeepClothing, "." + r, false);
    PhraseAbsent("." + r, KeepAccessories, true, 0);
    PhraseAbsent("." + r, KeepExpression, true, 0);
  }

  lemma ReadAccessories(r: string)
    ensures ReadPreservations(KeepAccessories + ("." + r)) == Some((false, true, false, r))
  {
    PhraseAbsent(KeepAccessories + ("." + r), KeepClothing, false, 9);
    PhraseRead(KeepAccessories, "." + r, false);
    PhraseAbsent("." + r, KeepExpression, true, 0);
  }

  lemma ReadExpression(r: string)
    ensures ReadPreservations(KeepExpression + ("." + r)) == Some((false, false, true, r))
  {
    PhraseAbsent(KeepExpression + ("." + r), KeepClothing, false, 13);
    PhraseAbsent(KeepExpression + ("." + r), KeepAccessories, false, 9);
    PhraseRead(KeepExpression, "." + r, false);
  }

  lemma ReadClothingAccessories(r: string)
    ensures ReadPreservations(KeepClothing + (", " + KeepAccessories + ("." + r))) == Some((true, true, false, r))
  {
    PhraseRead(KeepClothing, ", " + KeepAccessories + ("." + r), false);
    PhraseRead(KeepAccessories, "." + r, true);
    PhraseAbsent("." + r, KeepExpression, true, 0);
  }

  lemma ReadClothingExpression(r: string)
    ensures ReadPreservations(KeepClothing + (", " + KeepExpression + ("." + r))) == Some((true, false, true, r))
  {
    PhraseRead(KeepClothing, ", " + KeepExpression + ("." + r), false);
    PhraseAbsent(", " + KeepExpression + ("." + r), KeepAccessories, true, 11);
    PhraseRead(KeepExpression, "." + r, true);
  }

  lemma ReadAccessoriesExpression(r: string)
    ensures ReadPreservations(KeepAccessories + (", " + KeepExpression + ("." + r))) == Some((false, true, true, r))
  {
    PhraseAbsent(KeepAccessories + (", " + KeepExpression + ("." + r)), KeepClothing, false, 9);
    PhraseRead(KeepAccessories, ", " + KeepExpression + ("." + r), false);
    PhraseRead(KeepExpression, "." + r, true);
  }

  lemma ReadAllThree(r: string)
    ensures ReadPreservations(KeepClothing + (", " + KeepAccessories + (", " + KeepExpression + ("." + r))))
         == Some((true, true, true, r))
  {
    PhraseRead(KeepClothing, ", " + KeepAccessories + (", " + KeepExpression + ("." + r)), false);
    PhraseRead(KeepAccessories, ", " + KeepExpression + ("." + r), true);
    PhraseRead(KeepExpression, "." + r, true);
  }

  lemma JoinPair(x: string, y: string, r: string)
    ensures Join([x, y], ", ") + "." + r == x + (", " + y + ("." + r))
  {
    assert [x, y][1..] == [y];
    assert Join([x, y], ", ") == x + ", " + y;
  }

  lemma JoinTriple(x: string, y: string, z: string, r: string)
    ensures Join([x, y, z], ", ") + "." + r == x + (", " + y + (", " + z + ("." + r)))
  {
    assert [x, y, z][1..] == [y, z];
    JoinPair(y, z, r);
    assert Join([y, z], ", ") == y + ", " + z;
    assert Join([x, y, z], ", ") == x + ", " + (y + ", " + z);
  }

  /** Whatever follows it, a preservation sentence's body gives back the
      three flags. */
  lemma PreservationsRoundTrip(p: GenerationParams, r: string)
    requires Preservations(p) != []
    ensures ReadPreservations(Join(Preservations(p), ", ") + "." + r)
         == Some((p.preserveClothing, p.preserveAccessories, p.preserveExpression, r))
  {
    var c, a, e := p.preserveClothing, p.preserveAccessories, p.preserveExpression;
    if c && a && e {
      assert Preservations(p) == [KeepClothing, KeepAccessories, KeepExpression];
      JoinTriple(KeepClothing, KeepAccessories, KeepExpression, r);
      ReadAllThree(r);
    } else if c && a {
      assert Preservations(p) == [KeepClothing, KeepAccessories];
      JoinPair(KeepClothing, KeepAccessories, r);
      ReadClothingAccessories(r);
    } else if c && e {
      assert Preservations(p) == [KeepClothing, KeepExpression];
      JoinPair(KeepClothing, KeepExpression, r);
      ReadClothingExpression(r);
    } else if a && e {
      assert Preservations(p) == [KeepAccessories, KeepExpression];
      JoinPair(KeepAccessories, KeepExpression, r);
      ReadAccessoriesExpression(r);
    } else if c {
      assert Preservations(p) == [KeepClothing];
      assert Join([KeepClothing], ", ") + "." + r == KeepClothing + ("." + r);
      ReadClothing(r);
    } else if a {
      assert Preservations(p) == [KeepAccessories];
      assert Join([KeepAccessories], ", ") + "." + r == KeepAccessories + ("." + r);
      ReadAccessories(r);
    } else {
      assert Preservations(p) == [KeepExpression];
      assert Join([KeepExpression], ", ") + "." + r == KeepExpression + ("." + r);
      ReadExpression(r);
    }
  }

  /** Neither the pose clause nor the custom clause opens like a
      preservation sentence. */
  lemma NoSentencePrefix(p: GenerationParams)
    ensures !StartsWith(PoseClause(p) + CustomClause(p), However)
  {
    var t := PoseClause(p) + CustomClause(p);
    if p.copyPose {
      assert t == PoseHead + (PoseRest + CustomClause(p));
      HeadDiffers(PoseHead, PoseRest + CustomClause(p), However, 1);
    } else if p.customInstructions != "" {
      assert t == CustomLead + (p.customInstructions + ".");
      HeadDiffers(CustomLead, p.customInstructions + ".", However, 1);
    }
  }

  lemma HeadDiffers(head: string, rest: string, prefix: string, k: nat)
    requires k < |head| && k < |prefix| && head[k] != prefix[k]
    ensures !StartsWith(head + rest, prefix)
  {
    DiffersAt(head + rest, prefix, k);
  }

  /** A middle part that does not open with " However, " is read as having
      no preservation flags. */
  lemma MiddleWithoutSentence(m: string)
    requires !StartsWith(m, However) && ReadPoseAndCustom(m).Some?
    ensures ReadMiddle(m)
         == Some(GenerationParams(false, false, false, ReadPoseAndCustom(m).value.0, ReadPoseAndCustom(m).value.1))
  {
  }

  lemma NoPreservationsRoundTrip(p: GenerationParams)
    requires Preservations(p) == []
    ensures ReadMiddle(PoseClause(p) + CustomClause(p)) == Some(p)
  {
    PoseAndCustomRoundTrip(p);
    NoSentencePrefix(p);
    MiddleWithoutSentence(PoseClause(p) + CustomClause(p));
  }

  /** A preservation sentence followed by `t` is " However, " followed by
      the sentence's body and `t`. */
  lemma SentenceThen(p: GenerationParams, t: string)
    requires Preservations(p) != []
    ensures PreservationSentence(p) + t == However + (Join(Preservations(p), ", ") + "." + t)
  {
    var j := Join(Preservations(p), ", ");
    assert PreservationSentence(p) == However + j + ".";
    assert However + j + "." + t == However + (j + "." + t);
  }

  /** A middle part opening with " However, " whose body reads as
      preservations is read as those flags and the pose and custom fields
      of what follows. */
  lemma MiddleWithSentence(body: string, flags: (bool, bool, bool, string))
    requires ReadPreservations(body) == Some(flags) && ReadPoseAndCustom(flags.3).Some?
    ensures ReadMiddle(However + body)
         == Some(GenerationParams(flags.0, flags.1, flags.2, ReadPoseAndCustom(flags.3).value.0, ReadPoseAndCustom(flags.3).value.1))
  {
    ConcatStartsWith(However, body);
  }

  lemma SomePreservationsRoundTrip(p: GenerationParams)
    requires Preservations(p) != []
    ensures ReadMiddle(PreservationSentence(p) + (PoseClause(p) + CustomClause(p))) == Some(p)
  {
    var t := PoseClause(p) + CustomClause(p);
    var body := Join(Preservations(p), ", ") + "." + t;
    SentenceThen(p, t);
    PreservationsRoundTrip(p, t);
    PoseAndCustomRoundTrip(p);
    MiddleWithSentence(body, (p.preserveClothing, p.preserveAccessories, p.preserveExpression, t));
  }

  lemma MiddleRoundTrip(p: GenerationParams)
    ensures ReadMiddle(PreservationSentence(p) + (PoseClause(p) + CustomClause(p))) == Some(p)
  {
    if Preservations(p) != [] {
      SomePreservationsRoundTrip(p);
    } else {
      var t := PoseClause(p) + CustomClause(p);
      assert PreservationSentence(p) + t == t;
      NoPreservationsRoundTrip(p);
    }
  }

  lemma Regroup(a: string, b: string, c: string, d: string, e: string)
    ensures a + b + c + d + e == a + (b + (c + d)) + e
  {
  }

  /** Every prompt opens with the base template and ends with the closing
      clause, whatever the parameters. */
  lemma PromptFrame(p: GenerationParams)
    ensures StartsWith(ComposePrompt(p), BaseTemplate)
    ensures EndsWith(ComposePrompt(p), Closing)
  {
    Regroup(BaseTemplate, PreservationSentence(p), PoseClause(p), CustomClause(p), Closing);
    Framed(BaseTemplate, PreservationSentence(p) + (PoseClause(p) + CustomClause(p)), Closing);
  }

  /** The prompt determines the parameters: every flag and the custom text
      can be read back from it. */
  lemma PromptRoundTrip(p: GenerationParams)
    ensures ParsePrompt(ComposePrompt(p)) == Some(p)
  {
    var m := PreservationSentence(p) + (PoseClause(p) + CustomClause(p));
    Regroup(BaseTemplate, PreservationSentence(p), PoseClause(p), CustomClause(p), Closing);
    Framed(BaseTemplate, m, Closing);
    MiddleRoundTrip(p);
  }

  /** Different parameters never produce the same prompt. */
  lemma PromptInjective(p: GenerationParams, q: GenerationParams)
    requires ComposePrompt(p) == ComposePrompt(q)
    ensures p == q
  {
    PromptRoundTrip(p);
    PromptRoundTrip(q);
  }

  /** With no params field (parsed as `{}`) the prompt is the base template
      followed directly by the closing clause. */
  lemma EmptyParamsPrompt()
    ensures ComposePrompt(EmptyParams) == BaseTemplate + Closing
  {
    var p := EmptyParams;
    assert PreservationSentence(p) == "" && PoseClause(p) == "" && CustomClause(p) == "";
    DropEmpty(BaseTemplate, Closing);
  }

  lemma DropEmpty(a: string, c: string)
    ensures a + "" + "" + "" + c == a + c
  {
  }

  /** All three preservation flags give one sentence listing the three
      phrases in the fixed order. */
  lemma AllPreservationsSentence(p: GenerationParams)
    requires p.preserveClothing && p.preserveAccessories && p.preserveExpression
    ensures PreservationSentence(p) == However + KeepClothing + ", " + KeepAccessories + ", " + KeepExpression + "."
  {
    assert Preservations(p) == [KeepClothing, KeepAccessories, KeepExpression];
    SentenceOfThree(However, KeepClothing, KeepAccessories, KeepExpression);
  }

  lemma SentenceOfThree(h: string, x: string, y: string, z: string)
    ensures h + Join([x, y, z], ", ") + "." == h + x + ", " + y + ", " + z + "."
  {
    assert [x, y, z][1..] == [y, z];
    assert [y, z][1..] == [z];
    assert Join([y, z], ", ") == y + ", " + z;
    assert Join([x, y, z], ", ") == x + ", " + (y + ", " + z);
  }
}
