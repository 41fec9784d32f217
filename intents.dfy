/**
 * The two chat-completion steps of the per-post pipeline, with their
 * fallbacks: `classifyIntent` (index.ts:50-76) and `generateResponse`
 * (index.ts:78-107). Neither ever fails: every error becomes a default value.
 */
module Intents {
  import opened Text
  import opened Outcomes

  /** `INTENT_CATEGORIES`, the closed set of intent labels. */
  const IntentCategories: seq<string> := ["food", "sightseeing", "lodging", "events", "transport", "other"]

  /** The label used for unclear intents and for every failure. */
  const Other: string := "other"

  /** `content.trim().toLowerCase()`. */
  function Normalize(content: string): string {
    AsciiLower(Trim(content))
  }

  /** `classifyIntent`: the normalised first completion if it names a
      category, "other" when it is missing, empty or names none, and "other"
      when the completion call throws. */
  function ClassifyIntent(completion: Completion): (intent: string)
    ensures intent in IntentCategories
    ensures intent != Other ==>
      completion.Answered? && completion.content.Some? && intent == Normalize(completion.content.value)
    ensures completion.Answered? && completion.content.Some? && Normalize(completion.content.value) in IntentCategories ==>
      intent == Normalize(completion.content.value)
  {
    match completion
    case CompletionThrew(_) => Other
    case Answered(content) =>
      var candidate := if content.Some? && Normalize(content.value) != "" then Normalize(content.value) else Other;
      if candidate in IntentCategories then candidate else Other
  }

  /** Every category is a non-empty word of lower-case ASCII letters. */
  lemma CategoriesAreWords()
    ensures forall cat :: cat in IntentCategories ==>
      cat != [] && forall k :: 0 <= k < |cat| ==> 'a' <= cat[k] <= 'z'
  {
    assert IntentCategories[5] == "other";
    forall cat | cat in IntentCategories
      ensures cat != [] && forall k :: 0 <= k < |cat| ==> 'a' <= cat[k] <= 'z'
    {
      assert cat == "food" || cat == "sightseeing" || cat == "lodging" || cat == "events" ||
             cat == "transport" || cat == "other";
    }
  }

  /** A character that lowers to a lower-case ASCII letter is not whitespace. */
  lemma LowersToLetter(c: char)
    requires 'a' <= LowerChar(c) <= 'z'
    ensures !IsWhitespace(c)
  {
    PrintableIsNotWhitespace(c);
  }

  /** `s[i..j]` is `cat` written in any mix of ASCII letter case, and the rest
      of `s` around it is whitespace. */
  predicate SpelledAs(s: string, cat: string, i: int, j: int) {
    0 <= i <= j <= |s| && WhitespaceBetween(s, 0, i) && WhitespaceBetween(s, j, |s|) && AsciiLower(s[i..j]) == cat
  }

  /** A category spelled with whitespace around it normalises to that category. */
  lemma {:induction false} SpelledNormalises(s: string, cat: string, i: int, j: int)
    requires cat != [] && forall k :: 0 <= k < |cat| ==> 'a' <= cat[k] <= 'z'
    requires SpelledAs(s, cat, i, j)
    ensures Normalize(s) == cat
  {
    var core := s[i..j];
    assert LowerChar(core[0]) == cat[0];
    assert LowerChar(core[|core| - 1]) == cat[|cat| - 1];
    LowersToLetter(core[0]);
    LowersToLetter(core[|core| - 1]);
    assert s[i..i + |core|] == core;
    TrimUnique(s, core, i);
  }

  /** The classifier accepts a category whenever the completion spells it, in
      any letter case, with nothing but whitespace around it. */
  lemma ClassifyAccepts(s: string, cat: string, i: int, j: int)
    requires cat in IntentCategories
    requires SpelledAs(s, cat, i, j)
    ensures ClassifyIntent(Answered(Some(s))) == cat
  {
    CategoriesAreWords();
    SpelledNormalises(s, cat, i, j);
  }

  /** Every string spells its own normal form, at the bounds of its trimmed part. */
  lemma SpellsNormalForm(s: string)
    ensures SpelledAs(s, Normalize(s), |s| - |TrimStart(s)|, |s| - |TrimStart(s)| + |Trim(s)|)
  {
    var t, i := Trim(s), |s| - |TrimStart(s)|;
    assert PaddedBy(s, t, i);
    assert s[i..i + |t|] == t;
  }

  /** Conversely, a category other than "other" comes out only when the
      completion spells it that way ("other" is also the fallback). */
  lemma ClassifyOnlyAccepts(s: string, cat: string)
    requires cat != Other
    requires ClassifyIntent(Answered(Some(s))) == cat
    ensures exists i, j :: SpelledAs(s, cat, i, j)
  {
    assert Normalize(s) == cat;
    SpellsNormalForm(s);
  }

  /** A completion that is exactly a category name is taken as is. */
  lemma CategoryIsFixedPoint(cat: string)
    requires cat in IntentCategories
    ensures ClassifyIntent(Answered(Some(cat))) == cat
  {
    assert cat != [] && forall k :: 0 <= k < |cat| ==> 'a' <= cat[k] <= 'z' by {
      CategoriesAreWords();
    }
    WordIsNormal(cat);
    ClassifyNormal(cat);
  }

  /** A completion whose normal form is a category is classified as that category. */
  lemma ClassifyNormal(s: string)
    requires Normalize(s) in IntentCategories
    ensures ClassifyIntent(Answered(Some(s))) == Normalize(s)
  {
  }

  /** A non-empty word of lower-case ASCII letters is its own normal form. */
  lemma WordIsNormal(w: string)
    requires w != [] && forall k :: 0 <= k < |w| ==> 'a' <= w[k] <= 'z'
    ensures Normalize(w) == w
  {
    assert w[0..|w|] == w;
    assert AsciiLower(w) == w;
    SpelledNormalises(w, w, 0, |w|);
  }

  /** The reply used when generation fails or yields nothing. */
  function FallbackReply(intent: string): string {
    "What's cool about " + intent + " in that place?"
  }

  /** The completion carries some non-whitespace text. */
  predicate HasText(completion: Completion) {
    completion.Answered? && completion.content.Some? && Trim(completion.content.value) != []
  }

  /** `generateResponse`: the trimmed first completion when it is non-empty,
      the fallback question about the intent otherwise (a missing or empty
      completion, or a call that throws). */
  function GenerateResponse(intent: string, completion: Completion): (text: string)
    ensures text != []
    ensures HasText(completion) ==> text == Trim(completion.content.value)
    ensures !HasText(completion) ==> text == FallbackReply(intent)
  {
    match completion
    case CompletionThrew(_) => FallbackReply(intent)
    case Answered(content) =>
      if content.Some? && Trim(content.value) != [] then Trim(content.value) else FallbackReply(intent)
  }

  /** The reply text never starts or ends with whitespace, whichever branch produced it. */
  lemma ReplyTextIsTrimmed(intent: string, completion: Completion)
    ensures Trim(GenerateResponse(intent, completion)) == GenerateResponse(intent, completion)
  {
    if HasText(completion) {
      TrimIdempotent(completion.content.value);
    } else {
      var f := FallbackReply(intent);
      assert f[0] == 'W' && f[|f| - 1] == '?';
      TrimKeepsPrintableEnds(f);
    }
  }

  /** A completion whose normalised text is not a category gives "other". */
  lemma ClassifyRejects(s: string)
    requires Normalize(s) !in IntentCategories
    ensures ClassifyIntent(Answered(Some(s))) == Other
  {
  }

  /** An answer outside the category list, a missing answer and a failing
      call all give "other". */
  lemma OffListExample(e: ErrorValue)
    ensures ClassifyIntent(Answered(Some("shopping"))) == Other
    ensures ClassifyIntent(Answered(None)) == Other
    ensures ClassifyIntent(CompletionThrew(e)) == Other
  {
    var off := "shopping";
    assert Normalize(off) == off by {
      assert forall k :: 0 <= k < |off| ==> 'a' <= off[k] <= 'z';
      WordIsNormal(off);
    }
    assert off !in IntentCategories by {
      assert off != IntentCategories[0] && off != IntentCategories[1] && off != IntentCategories[2];
      assert off != IntentCategories[3] && off != IntentCategories[4] && off != IntentCategories[5];
    }
    ClassifyRejects(off);
  }

  /** A padded, capitalised category name is recognised. */
  lemma PaddedExample()
    ensures ClassifyIntent(Answered(Some(" Food\n"))) == "food"
  {
    var s := " Food\n";
    assert s[0] == ' ' && s[5] == '\n' && AsciiLower(s[1..5]) == "food";
    ClassifyAccepts(s, "food", 1, 5);
  }

  /** An empty generation gives the fallback question about the intent. */
  lemma EmptyGenerationExample()
    ensures GenerateResponse("food", Answered(Some(""))) == "What's cool about food in that place?"
  {
  }
}
