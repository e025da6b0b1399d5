/** The cover-letter page: keyword extraction, the letter template, and saving the result. */
module LettreMotivation {
  import opened Wrappers
  import opened Strings
  import opened LocalStorage
  import Export

  /** The form's values. */
  datatype LetterValues = LetterValues(
    nom: string,
    prenom: string,
    email: string,
    telephone: string,
    adresse: string,
    entreprise: string,
    poste: string,
    experience: string,
    formation: string,
    motivation: string)

  /** The form's declared length rules (the e-mail format aside): every other field must be
      non-empty. Generation does not consult them. */
  predicate FormAccepted(v: LetterValues) {
    && |v.nom| >= 1 && |v.prenom| >= 1 && |v.telephone| >= 1 && |v.adresse| >= 1
    && |v.entreprise| >= 1 && |v.poste| >= 1 && |v.experience| >= 1
    && |v.formation| >= 1 && |v.motivation| >= 1
  }

  /** The 24 skill terms looked for, in the order they are looked for. */
  const Vocabulary: seq<string> := [
    "communication", "leadership", "gestion", "analyse", "développement",
    "commerce", "vente", "marketing", "finance", "informatique",
    "programmation", "design", "créativité", "organisation", "planification",
    "résolution de problèmes", "travail d'équipe", "autonomie", "adaptabilité",
    "négociation", "rédaction", "langues", "stratégie", "innovation"
  ]

  /** The keywords used when no term is found. */
  const Fallback: seq<string> := ["polyvalence", "rigueur", "motivation"]

  /** The text searched: both fields lowered, joined by a space. */
  function SearchText(experience: string, formation: string): string {
    Lower(experience) + " " + Lower(formation)
  }

  /** The terms of `vocab` found in `text`, in the order of `vocab`. */
  function MatchesIn(vocab: seq<string>, text: string): (r: seq<string>)
    ensures |r| <= |vocab|
    ensures forall w :: w in r ==> w in vocab && Occurs(text, w)
    ensures forall w :: w in vocab && Occurs(text, w) ==> w in r
  {
    if vocab == [] then []
    else
      var last := vocab[|vocab| - 1];
      MatchesIn(vocab[..|vocab| - 1], text) + (if Includes(text, last) then [last] else [])
  }

  /** `extractKeywords` as a value: the matches, or the fallback when there are none. */
  function Keywords(experience: string, formation: string): seq<string>
  {
    var found := MatchesIn(Vocabulary, SearchText(experience, formation));
    if found == [] then Fallback else found
  }

  /** The scan at the heart of `extractKeywords`: every term of `vocab` that `text` includes
      is pushed, in the order of `vocab`. */
  method CollectMatches(vocab: seq<string>, text: string) returns (found: seq<string>)
    ensures found == MatchesIn(vocab, text)
  {
    found := [];
    for i := 0 to |vocab|
      invariant found == MatchesIn(vocab[..i], text)
    {
      assert vocab[..i + 1][..i] == vocab[..i];
      if Includes(text, vocab[i]) {
        found := found + [vocab[i]];
      }
    }
    assert vocab[..|vocab|] == vocab;
  }

  /** `extractKeywords`: the terms found in the lowered text, or the fallback triple. */
  method ExtractKeywords(experience: string, formation: string) returns (keywords: seq<string>)
    ensures keywords == Keywords(experience, formation)
  {
    var combinedText := Lower(experience) + " " + Lower(formation);
    keywords := CollectMatches(Vocabulary, combinedText);
    if |keywords| == 0 {
      keywords := ["polyvalence", "rigueur", "motivation"];
    }
  }

  /** No term appears twice in `s`. */
  predicate Distinct(s: seq<string>) {
    forall i, j :: 0 <= i < j < |s| ==> s[i] != s[j]
  }

  /** `a` is `b` with some elements left out, the rest in order. */
  predicate IsSubsequence(a: seq<string>, b: seq<string>)
    decreases |b|
  {
    if a == [] then true
    else if b == [] then false
    else if a[|a| - 1] == b[|b| - 1] then IsSubsequence(a[..|a| - 1], b[..|b| - 1])
    else IsSubsequence(a, b[..|b| - 1])
  }

  /** The matches are the vocabulary with the missing terms left out: vocabulary order. */
  lemma {:induction false} MatchesInOrder(vocab: seq<string>, text: string)
    ensures IsSubsequence(MatchesIn(vocab, text), vocab)
  {
    if vocab != [] {
      var init, last := vocab[..|vocab| - 1], vocab[|vocab| - 1];
      MatchesInOrder(init, text);
      var m := MatchesIn(init, text);
      if Includes(text, last) {
        assert (m + [last])[..|m + [last]| - 1] == m;
      } else {
        assert m + [] == m;
        SubsequenceExtend(m, init, last);
      }
    }
  }

  lemma {:induction false} SubsequenceExtend(a: seq<string>, b: seq<string>, x: string)
    requires IsSubsequence(a, b)
    ensures IsSubsequence(a, b + [x])
    decreases |b|, 1
  {
    if a != [] && b != [] {
      var b' := b + [x];
      assert b'[..|b'| - 1] == b;
      if a[|a| - 1] == x {
        assert b' [|b'| - 1] == x;
        SubsequenceDropLast(a, b);
      }
    } else if a != [] {
      assert false;
    }
  }

  lemma {:induction false} SubsequenceDropLast(a: seq<string>, b: seq<string>)
    requires a != [] && IsSubsequence(a, b)
    ensures IsSubsequence(a[..|a| - 1], b)
    decreases |b|, 0
  {
    if b == [] {
      assert false;
    } else if a[|a| - 1] == b[|b| - 1] {
      SubsequenceExtend(a[..|a| - 1], b[..|b| - 1], b[|b| - 1]);
      assert b[..|b| - 1] + [b[|b| - 1]] == b;
    } else {
      SubsequenceDropLast(a, b[..|b| - 1]);
      SubsequenceExtend(a[..|a| - 1], b[..|b| - 1], b[|b| - 1]);
      assert b[..|b| - 1] + [b[|b| - 1]] == b;
    }
  }

  /** A term found is pushed once: the matches of a vocabulary without repeats have none. */
  lemma {:induction false} MatchesInDistinct(vocab: seq<string>, text: string)
    requires Distinct(vocab)
    ensures Distinct(MatchesIn(vocab, text))
  {
    if vocab != [] {
      var init, last := vocab[..|vocab| - 1], vocab[|vocab| - 1];
      assert Distinct(init);
      MatchesInDistinct(init, text);
      assert last !in init;
    }
  }

  /** What the scan finds, for any vocabulary without repeats: a repeat-free subsequence of it,
      empty exactly when no term occurs. */
  lemma MatchesInSpec(vocab: seq<string>, text: string)
    requires Distinct(vocab)
    ensures var r := MatchesIn(vocab, text);
      && IsSubsequence(r, vocab)
      && Distinct(r)
      && (r == [] <==> forall w :: w in vocab ==> !Occurs(text, w))
  {
    MatchesInOrder(vocab, text);
    MatchesInDistinct(vocab, text);
    var r := MatchesIn(vocab, text);
    if r != [] {
      assert r[0] in vocab;
    }
  }

  /** Two repeat-free lists with no term in common make a repeat-free list. */
  lemma DistinctConcat(a: seq<string>, b: seq<string>)
    requires Distinct(a) && Distinct(b)
    requires forall x :: x in a ==> x !in b
    ensures Distinct(a + b)
  {
    forall i, j | 0 <= i < j < |a + b| ensures (a + b)[i] != (a + b)[j] {
      if i < |a| <= j {
        assert (a + b)[i] in a && (a + b)[j] in b;
      }
    }
  }

  // The vocabulary is checked in halves, each half against itself and the first against
  // the second in two parts, to keep each comparison of literals small.
  lemma FirstHalfDistinct()
    ensures Distinct(Vocabulary[..12])
  {
  }

  lemma SecondHalfDistinct()
    ensures Distinct(Vocabulary[12..])
  {
  }

  lemma HalvesDisjoint()
    ensures forall x :: x in Vocabulary[..12] ==> x !in Vocabulary[12..]
  {
    assert forall x :: x in Vocabulary[..12] ==> x !in Vocabulary[12..18];
    assert forall x :: x in Vocabulary[..12] ==> x !in Vocabulary[18..];
    assert Vocabulary[12..] == Vocabulary[12..18] + Vocabulary[18..];
  }

  /** The vocabulary has no repeats. */
  lemma VocabularyDistinct()
    ensures Distinct(Vocabulary)
  {
    FirstHalfDistinct();
    SecondHalfDistinct();
    HalvesDisjoint();
    DistinctConcat(Vocabulary[..12], Vocabulary[12..]);
    assert Vocabulary == Vocabulary[..12] + Vocabulary[12..];
  }

  /** No vocabulary or fallback term is empty. */
  lemma TermsNonEmpty()
    ensures forall w :: w in Vocabulary ==> w != ""
    ensures forall w :: w in Fallback ==> w != ""
  {
  }

  /** The fallback terms are not vocabulary terms. */
  lemma FallbackOutsideVocabulary()
    ensures forall w :: w in Fallback ==> w !in Vocabulary
  {
  }

  /** What `extractKeywords` returns: never empty; either exactly the fallback triple, when no
      vocabulary term occurs in the lowered text, or exactly the terms that occur, in vocabulary
      order, each once, at most 24 of them. */
  lemma KeywordsSpec(experience: string, formation: string)
    ensures var k := Keywords(experience, formation);
      var text := SearchText(experience, formation);
      && |k| >= 1
      && (k == Fallback <==> forall w :: w in Vocabulary ==> !Occurs(text, w))
      && (k != Fallback ==>
          && (forall w :: w in k <==> w in Vocabulary && Occurs(text, w))
          && IsSubsequence(k, Vocabulary)
          && Distinct(k)
          && |k| <= 24)
  {
    var text := SearchText(experience, formation);
    var found := MatchesIn(Vocabulary, text);
    VocabularyDistinct();
    FallbackOutsideVocabulary();
    MatchesInSpec(Vocabulary, text);
    if found != [] {
      assert found[0] in Vocabulary;
      assert Fallback[0] in Fallback;
    }
  }

  /** "diplômé(e)" when the raw experience text contains "diplômé", "professionnel(le)" otherwise. */
  function Status(experience: string): (s: string)
    ensures s == "diplômé(e)" <==> Occurs(experience, "diplômé")
    ensures s == "professionnel(le)" <==> !Occurs(experience, "diplômé")
  {
    if Includes(experience, "diplômé") then "diplômé(e)" else "professionnel(le)"
  }

  /** The skills clause: the first three keywords joined by ", ". */
  function SkillsClause(keywords: seq<string>): string {
    Join(Take(keywords, 3), ", ")
  }

  /** The fixed text after the skills clause. */
  const SkillsTail: string :=
      ", qui me permettraient d'être rapidement opérationnel(le) " +
      "au sein de votre équipe. Je suis particulièrement " +
      "intéressé(e) par votre entreprise car elle incarne des " +
      "valeurs auxquelles j'adhère pleinement et représente pour " +
      "moi une opportunité exceptionnelle de mettre à profit mes " +
      "compétences tout en relevant de nouveaux défis."

  /** The three fixed paragraphs before the signature. */
  const FitParagraph: string :=
      "Je suis convaincu(e) que mon profil correspond aux attentes " +
      "que vous avez pour ce poste. Ma capacité d'adaptation, mon " +
      "sens de l'organisation et ma rigueur sont des atouts qui me " +
      "permettront de m'intégrer efficacement dans vos équipes et " +
      "de contribuer activement à la réussite de vos projets."
  const InterviewParagraph: string :=
      "Je me tiens à votre entière disposition pour un entretien " +
      "qui me permettrait de vous exposer plus en détail ma " +
      "motivation et vous convaincre de l'adéquation de mon profil " +
      "avec le poste proposé."
  const ClosingParagraph: string :=
      "Je vous prie d'agréer, Madame, Monsieur, l'expression de " +
      "mes salutations distinguées."

  /** The template's four fixed passages: the end of the skills paragraph and the three
      paragraphs before the signature. */
  datatype FixedTexts = FixedTexts(skillsTail: string, fit: string, interview: string, closing: string)

  /** The salutation the letter opens with. */
  const Salutation: string := "Madame, Monsieur,"

  const StandardTexts := FixedTexts(SkillsTail, FitParagraph, InterviewParagraph, ClosingParagraph)

  /** The six paragraphs between the salutation and the signature, around the given skills
      clause and fixed passages, separated by blank lines. */
  function Body(v: LetterValues, skills: string, fixed: FixedTexts): string {
    Join([
      "Je me permets de vous adresser ma candidature pour le poste de " + v.poste
        + " au sein de votre entreprise " + v.entreprise + ", que j'ai découvert récemment.",
      "Actuellement " + Status(v.experience) + " en " + v.formation
        + ", je possède une solide expérience dans ce domaine. " + v.experience,
      "Au cours de mon parcours, j'ai développé des compétences en " + skills
        + fixed.skillsTail,
      fixed.fit,
      fixed.interview,
      fixed.closing], "\n\n")
  }

  /** The template filled in: salutation, body and signature, separated by blank lines.
      Whatever the body, the letter opens with the salutation and closes with the signature. */
  function Letter(v: LetterValues, skills: string, fixed: FixedTexts): (letter: string)
    ensures Salutation + "\n\n" <= letter
    ensures EndsWith(letter, "\n\n" + v.prenom + " " + v.nom)
  {
    var opening := Salutation + "\n\n";
    var closing := "\n\n" + v.prenom + " " + v.nom;
    var body := Body(v, skills, fixed);
    FramedEnds(opening, body, closing);
    opening + body + closing
  }

  /** `createAdvancedMotivationLetter`: the template with the page's own passages. Nothing but
      the form values goes in; the date it computes is never used. */
  function MotivationLetter(v: LetterValues): string {
    Letter(v, SkillsClause(Keywords(v.experience, v.formation)), StandardTexts)
  }

  /** The skills clause names one to three keywords. */
  lemma SkillsClauseNonEmpty(experience: string, formation: string)
    ensures SkillsClause(Keywords(experience, formation)) != ""
  {
    KeywordsSpec(experience, formation);
    TermsNonEmpty();
    var k := Take(Keywords(experience, formation), 3);
    assert k[0] in Keywords(experience, formation);
    JoinLength(k, ", ");
    TotalLengthPositive(k);
  }

  lemma {:induction false} TotalLengthPositive(parts: seq<string>)
    requires |parts| >= 1 && parts[0] != ""
    ensures TotalLength(parts) >= 1
  {
  }

  /** The record saved for a generated letter; the form values are spread into it. */
  function NewLetter(v: LetterValues, text: string, now: nat): (d: Doc)
    ensures "letter-" <= d.id
    ensures d.name == "Lettre - " + v.entreprise + " - " + v.poste
    ensures d.content == text && d.date == now && d.kind == None
  {
    Doc("letter-" + Decimal(now), "Lettre - " + v.entreprise + " - " + v.poste, text, now, None, FieldsOf(v))
  }

  function FieldsOf(v: LetterValues): map<string, string> {
    map[
      "nom" := v.nom, "prenom" := v.prenom, "email" := v.email, "telephone" := v.telephone,
      "adresse" := v.adresse, "entreprise" := v.entreprise, "poste" := v.poste,
      "experience" := v.experience, "formation" := v.formation, "motivation" := v.motivation]
  }

  /** Letters saved at different times get different ids. */
  lemma NewLetterIdsDistinct(v: LetterValues, w: LetterValues, text: string, text': string, now: nat, now': nat)
    requires now != now'
    ensures NewLetter(v, text, now).id != NewLetter(w, text', now').id
  {
    if NewLetter(v, text, now).id == NewLetter(w, text', now').id {
      var p := "letter-";
      assert (p + Decimal(now))[|p|..] == Decimal(now);
      assert (p + Decimal(now'))[|p|..] == Decimal(now');
      DecimalInjective(now, now');
    }
  }

  /** The downloaded letter's name: `${prenom}_${nom}_LettreMotivation.pdf`. */
  function LetterFileName(prenom: string, nom: string): (name: string)
    ensures |name| >= 4 && name[|name| - 4..] == ".pdf"
    ensures prenom + "_" <= name
  {
    Export.PersonFileName(prenom, nom, "LettreMotivation")
  }

  class LetterEditor {
    var values: LetterValues
    var generatedMotivation: string
    var activeTab: string

    constructor ()
      ensures values == LetterValues("", "", "", "", "", "", "", "", "", "")
      ensures generatedMotivation == "" && activeTab == "edition"
    {
      values := LetterValues("", "", "", "", "", "", "", "", "", "");
      generatedMotivation, activeTab := "", "edition";
    }

    /** `generateMotivationLetter`: write the letter into the form and, when a user is
        logged in, append one record to `motivationLetters`; then show the preview. */
    method Generate(store: Store, now: nat) returns (text: string)
      modifies this, store
      ensures text == MotivationLetter(old(values))
      ensures generatedMotivation == text && values == old(values).(motivation := text)
      ensures activeTab == "apercu"
      ensures store.user == old(store.user)
      ensures old(store.user).Some? ==>
        store.collections == old(store.collections)[LettersKey := old(store.Collection(LettersKey)) + [NewLetter(old(values), text, now)]]
      ensures old(store.user).None? ==> store.collections == old(store.collections)
    {
      var v := values;
      text := MotivationLetter(v);
      generatedMotivation := text;
      values := values.(motivation := text);
      if store.user.Some? {
        var newLetter := NewLetter(v, text, now);
        store.Append(LettersKey, newLetter);
      }
      activeTab := "apercu";
    }
  }

  /** Saving adds exactly one letter, at the end, and touches no other collection. */
  lemma SaveAppendsOne(m: map<string, seq<Doc>>, d: Doc, key: string)
    ensures var m' := m[LettersKey := ReadCollection(m, LettersKey) + [d]];
      && |ReadCollection(m', LettersKey)| == |ReadCollection(m, LettersKey)| + 1
      && ReadCollection(m', LettersKey)[|ReadCollection(m, LettersKey)|] == d
      && (key != LettersKey ==> ReadCollection(m', key) == ReadCollection(m, key))
  {
  }
}
