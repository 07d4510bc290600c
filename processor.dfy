/**
  * The bilingual keyword extractor. A fixed, ordered lexicon maps each concept to its
  * English and Arabic surface forms; a concept is reported when any of its forms occurs
  * as a substring of the lower-cased complaint. A separate vocabulary of life-threat
  * phrases is scanned the same way. Negation words are listed but never consulted.
  */
module Processor {
  import opened Models
  import opened Text
  import opened Sequences

  /** The concept lexicon, in the order the extractor walks it. */
  const Concepts: seq<(Concept, seq<string>)> := [
    (ChestPain, ["chest pain", "pain in chest", "tightness", "pressure", "angina",
                 "ألم صدر", "وجع في صدري", "نغزة", "طبقة على صدري", "ذبحة", "حرقان في الصدر"]),
    (Sob, ["short of breath", "cant breathe", "difficulty breathing", "dyspnea", "gasping",
           "ضيق تنفس", "مش عارف آخد نفسي", "كرشة نفس", "مخنوق", "نهجان"]),
    (Trauma, ["fall", "hit", "accident", "crash", "fracture", "broken", "cut", "wound",
              "سقوط", "وقعت", "خبطت", "حادث", "كسر", "جرح", "نزيف", "تعويرة"]),
    (Abdominal, ["stomach pain", "abdominal pain", "belly ache", "vomiting", "diarrhea",
                 "وجع بطن", "مغص", "قيء", "ترجيع", "إسهال", "ألم في معدتي"]),
    (Neuro, ["dindsy", "faint", "passed out", "seizure", "stroke", "numbness", "weakness",
             "دوخة", "إغماء", "تشنجات", "جلطة", "تنميل", "ضعف", "صداع شديد"]),
    (Fever, ["fever", "hot", "temperature", "chills", "shivering",
             "حرارة", "سخونية", "رعشة", "حمى"]),
    (Psych, ["suicidal", "kill myself", "hopeless", "voices", "hallucination", "aggressive",
             "انتحار", "هاقتل نفسي", "أصوات", "هلاوس", "عدواني", "مجنون"]),
    (Allergy, ["allergy", "allergic", "rash", "hives", "swelling", "peanut", "bee",
               "حساسية", "طفح", "تورم", "حبوب", "قرصة", "نحل"])
  ]

  /** Negation words. Defined by the extractor and never read by it. */
  const Negations: seq<string> := ["no ", "not ", "denies ", "without ", "لا ", "بدون ", "مافيش "]

  /** The life-threat vocabulary, in the order the detector walks it. */
  const DangerTerms: seq<string> := [
    "cardiac arrest", "unresponsive", "blue", "not breathing", "gunshot", "stab",
    "توقف القلب", "غير مستجيب", "أزرق", "قاطع نفس", "رصاص", "طعن", "سكينة"
  ]

  /** The concept identifiers of a lexicon, in order. */
  function Keys(lexicon: seq<(Concept, seq<string>)>): (ks: seq<Concept>)
    ensures |ks| == |lexicon|
    ensures forall k :: 0 <= k < |lexicon| ==> ks[k] == lexicon[k].0
  {
    if lexicon == [] then [] else Keys(lexicon[..|lexicon| - 1]) + [lexicon[|lexicon| - 1].0]
  }

  /** Some pattern of `patterns` occurs in `text`. */
  predicate AnyContained(text: string, patterns: seq<string>) {
    exists k | 0 <= k < |patterns| :: Contains(text, patterns[k])
  }

  /** The concepts of `lexicon`, in lexicon order, that have a pattern occurring in `text`. */
  function MatchedConcepts(lexicon: seq<(Concept, seq<string>)>, text: string): seq<Concept> {
    if lexicon == [] then []
    else
      var last := lexicon[|lexicon| - 1];
      MatchedConcepts(lexicon[..|lexicon| - 1], text) + (if AnyContained(text, last.1) then [last.0] else [])
  }

  /** The terms of `terms`, in order, that occur in `text`. */
  function MatchedTerms(terms: seq<string>, text: string): seq<string> {
    if terms == [] then []
    else
      var last := terms[|terms| - 1];
      MatchedTerms(terms[..|terms| - 1], text) + (if Contains(text, last) then [last] else [])
  }

  /** What the extractor reports for a complaint. */
  function Symptoms(text: string): seq<Concept> {
    MatchedConcepts(Concepts, Lower(text))
  }

  /** What the danger detector reports for a complaint. */
  function DangerKeywords(text: string): seq<string> {
    MatchedTerms(DangerTerms, Lower(text))
  }

  /**
    * Walks the lexicon; for each concept, tries its patterns in order and records the
    * concept at the first one found, then moves to the next concept.
    */
  method ExtractSymptoms(text: string) returns (detected: seq<Concept>)
    ensures detected == Symptoms(text)
  {
    var lowered := Lower(text);
    detected := [];
    var i := 0;
    while i < |Concepts|
      invariant 0 <= i <= |Concepts|
      invariant detected == MatchedConcepts(Concepts[..i], lowered)
    {
      var category := Concepts[i].0;
      var keywords := Concepts[i].1;
      assert Concepts[..i + 1][..i] == Concepts[..i];
      var j := 0;
      while j < |keywords|
        invariant 0 <= j <= |keywords|
        invariant detected == MatchedConcepts(Concepts[..i], lowered)
        invariant forall k :: 0 <= k < j ==> !Contains(lowered, keywords[k])
      {
        if Contains(lowered, keywords[j]) {
          detected := detected + [category];
          break;
        }
        j := j + 1;
      }
      i := i + 1;
    }
    assert Concepts[..|Concepts|] == Concepts;
  }

  /** Records, in vocabulary order, every danger term occurring in the lower-cased text. */
  method DetectDangerKeywords(text: string) returns (matches: seq<string>)
    ensures matches == DangerKeywords(text)
  {
    matches := [];
    var lowered := Lower(text);
    for i := 0 to |DangerTerms|
      invariant matches == MatchedTerms(DangerTerms[..i], lowered)
    {
      var term := DangerTerms[i];
      assert DangerTerms[..i + 1][..i] == DangerTerms[..i];
      if Contains(lowered, term) {
        matches := matches + [term];
      }
    }
    assert DangerTerms[..|DangerTerms|] == DangerTerms;
  }

  // ----- What the extractor reports -----

  /** A concept is reported exactly when one of its lexicon entries has a pattern in the text. */
  lemma {:induction false} MatchedConceptsMembership(lexicon: seq<(Concept, seq<string>)>, text: string, c: Concept)
    ensures c in MatchedConcepts(lexicon, text) <==>
            exists k :: 0 <= k < |lexicon| && lexicon[k].0 == c && AnyContained(text, lexicon[k].1)
  {
    if lexicon != [] {
      var init := lexicon[..|lexicon| - 1];
      MatchedConceptsMembership(init, text, c);
      if exists k :: 0 <= k < |lexicon| && lexicon[k].0 == c && AnyContained(text, lexicon[k].1) {
        var k :| 0 <= k < |lexicon| && lexicon[k].0 == c && AnyContained(text, lexicon[k].1);
        if k < |init| {
          assert init[k] == lexicon[k];
        }
      }
      if exists k :: 0 <= k < |init| && init[k].0 == c && AnyContained(text, init[k].1) {
        var k :| 0 <= k < |init| && init[k].0 == c && AnyContained(text, init[k].1);
        assert lexicon[k] == init[k];
      }
    }
  }

  /** The reported concepts keep the lexicon's order: they are a subsequence of its keys. */
  lemma {:induction false} MatchedConceptsInOrder(lexicon: seq<(Concept, seq<string>)>, text: string)
    ensures IsSubsequence(MatchedConcepts(lexicon, text), Keys(lexicon))
  {
    if lexicon != [] {
      var init := lexicon[..|lexicon| - 1];
      var last := lexicon[|lexicon| - 1];
      MatchedConceptsInOrder(init, text);
      var rest := MatchedConcepts(init, text);
      var r := MatchedConcepts(lexicon, text);
      var ks := Keys(lexicon);
      assert ks[..|ks| - 1] == Keys(init);
      if AnyContained(text, last.1) {
        assert r == rest + [last.0];
        assert r[..|r| - 1] == rest && r[|r| - 1] == ks[|ks| - 1];
      } else {
        assert r == rest && ks == Keys(init) + [last.0];
        SubsequenceExtend(rest, Keys(init), last.0);
      }
    }
  }

  /** The lexicon has no concept twice. */
  lemma ConceptKeysDistinct()
    ensures NoDuplicates(Keys(Concepts))
    ensures Keys(Concepts) == [ChestPain, Sob, Trauma, Abdominal, Neuro, Fever, Psych, Allergy]
  {
    var ks := Keys(Concepts);
    assert ks == [ChestPain, Sob, Trauma, Abdominal, Neuro, Fever, Psych, Allergy];
  }

  /** `c` is reported iff some pattern listed for `c` occurs in the lower-cased complaint. */
  lemma SymptomIff(text: string, c: Concept)
    ensures c in Symptoms(text) <==>
            exists k :: 0 <= k < |Concepts| && Concepts[k].0 == c && AnyContained(Lower(text), Concepts[k].1)
  {
    MatchedConceptsMembership(Concepts, Lower(text), c);
  }

  /** Each concept is reported at most once, and in lexicon order. */
  lemma SymptomsInLexiconOrder(text: string)
    ensures IsSubsequence(Symptoms(text), Keys(Concepts))
    ensures NoDuplicates(Symptoms(text))
  {
    MatchedConceptsInOrder(Concepts, Lower(text));
    ConceptKeysDistinct();
    SubsequenceNoDuplicates(Symptoms(text), Keys(Concepts));
  }

  /**
    * Only the eight lexicon keys are ever reported: stroke, cardiac, diabetic, pregnancy,
    * laceration, uti, burn and bite/sting, which the triage rules test, never are.
    */
  lemma SymptomsWithinLexicon(text: string, c: Concept)
    requires c in Symptoms(text)
    ensures c in {ChestPain, Sob, Trauma, Abdominal, Neuro, Fever, Psych, Allergy}
  {
    SymptomsInLexiconOrder(text);
    SubsequenceElements(Symptoms(text), Keys(Concepts));
    ConceptKeysDistinct();
  }

  /** A term is reported exactly when it is in the vocabulary and occurs in the text. */
  lemma {:induction false} MatchedTermsMembership(terms: seq<string>, text: string, t: string)
    ensures t in MatchedTerms(terms, text) <==> t in terms && Contains(text, t)
  {
    if terms != [] {
      var init := terms[..|terms| - 1];
      MatchedTermsMembership(init, text, t);
      assert terms == init + [terms[|terms| - 1]];
    }
  }

  /** The reported terms keep the vocabulary's order. */
  lemma {:induction false} MatchedTermsInOrder(terms: seq<string>, text: string)
    ensures IsSubsequence(MatchedTerms(terms, text), terms)
  {
    if terms != [] {
      var init := terms[..|terms| - 1];
      MatchedTermsInOrder(init, text);
      var rest := MatchedTerms(init, text);
      var r := MatchedTerms(terms, text);
      if Contains(text, terms[|terms| - 1]) {
        assert r == rest + [terms[|terms| - 1]];
        assert r[..|r| - 1] == rest && terms[..|terms| - 1] == init;
      } else {
        assert r == rest && terms == init + [terms[|terms| - 1]];
        SubsequenceExtend(rest, init, terms[|terms| - 1]);
      }
    }
  }

  /** The danger vocabulary has no phrase twice. */
  lemma DangerTermsDistinct()
    ensures NoDuplicates(DangerTerms)
  {
  }

  /**
    * The detector returns exactly the vocabulary phrases found in the lower-cased text,
    * each once, in vocabulary order.
    */
  lemma DangerKeywordsExact(text: string)
    ensures forall t :: t in DangerKeywords(text) <==> t in DangerTerms && Contains(Lower(text), t)
    ensures IsSubsequence(DangerKeywords(text), DangerTerms)
    ensures NoDuplicates(DangerKeywords(text))
  {
    forall t ensures t in DangerKeywords(text) <==> t in DangerTerms && Contains(Lower(text), t) {
      MatchedTermsMembership(DangerTerms, Lower(text), t);
    }
    MatchedTermsInOrder(DangerTerms, Lower(text));
    DangerTermsDistinct();
    SubsequenceNoDuplicates(DangerKeywords(text), DangerTerms);
  }

  /** Matching ignores ASCII case: a complaint and its lower-cased form report the same. */
  lemma MatchingIgnoresCase(text: string)
    ensures Symptoms(Lower(text)) == Symptoms(text)
    ensures DangerKeywords(Lower(text)) == DangerKeywords(text)
  {
    LowerIdempotent(text);
  }

  /** Every lexicon pattern is non-empty. */
  lemma PatternsNonEmpty()
    ensures forall k, j :: 0 <= k < |Concepts| && 0 <= j < |Concepts[k].1| ==> Concepts[k].1[j] != []
    ensures forall k :: 0 <= k < |DangerTerms| ==> DangerTerms[k] != []
  {
  }

  /** An empty complaint yields no concept and no danger phrase. */
  lemma EmptyComplaintReportsNothing()
    ensures Symptoms([]) == []
    ensures DangerKeywords([]) == []
  {
    PatternsNonEmpty();
    assert Lower([]) == [];
    var found := Symptoms([]);
    if found != [] {
      SymptomIff([], found[0]);
      var k :| 0 <= k < |Concepts| && Concepts[k].0 == found[0] && AnyContained([], Concepts[k].1);
      var j :| 0 <= j < |Concepts[k].1| && Contains([], Concepts[k].1[j]);
      EmptyTextContainsNothing(Concepts[k].1[j]);
    }
    var terms := DangerKeywords([]);
    DangerKeywordsExact([]);
    if terms != [] {
      assert terms[0] in terms;
      EmptyTextContainsNothing(terms[0]);
    }
  }

  /**
    * Text added before or after a complaint never removes a reported concept or danger
    * phrase, since a substring stays a substring of any extension.
    */
  lemma ExtendingComplaintKeepsFindings(u: string, text: string, w: string)
    ensures forall c :: c in Symptoms(text) ==> c in Symptoms(u + text + w)
    ensures forall t :: t in DangerKeywords(text) ==> t in DangerKeywords(u + text + w)
  {
    LowerAppend(u, text);
    LowerAppend(u + text, w);
    assert Lower(u + text + w) == Lower(u) + Lower(text) + Lower(w);
    forall c | c in Symptoms(text) ensures c in Symptoms(u + text + w) {
      SymptomIff(text, c);
      var k :| 0 <= k < |Concepts| && Concepts[k].0 == c && AnyContained(Lower(text), Concepts[k].1);
      var j :| 0 <= j < |Concepts[k].1| && Contains(Lower(text), Concepts[k].1[j]);
      ContainsExtended(Lower(u), Lower(text), Lower(w), Concepts[k].1[j]);
      SymptomIff(u + text + w, c);
    }
    DangerKeywordsExact(text);
    DangerKeywordsExact(u + text + w);
    forall t | t in DangerKeywords(text) ensures t in DangerKeywords(u + text + w) {
      ContainsExtended(Lower(u), Lower(text), Lower(w), t);
    }
  }

  /**
    * Negation words are never consulted: putting one in front of a complaint keeps every
    * finding, and "no chest pain" is still reported as chest pain.
    */
  lemma NegationIgnored(text: string, n: string)
    requires n in Negations
    ensures forall c :: c in Symptoms(text) ==> c in Symptoms(n + text)
    ensures ChestPain in Symptoms("no chest pain")
  {
    ExtendingComplaintKeepsFindings(n, text, []);
    assert n + text + [] == n + text;
    var complaint := "no chest pain";
    assert Lower(complaint) == complaint;
    assert OccursAt(complaint, "chest pain", 3);
    assert Concepts[0].1[0] == "chest pain";
    SymptomIff(complaint, ChestPain);
  }
}
