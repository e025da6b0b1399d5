/** The cancellation-letter page: contract categories, their prefilled texts, and the form. */
module Resiliation {
  import opened Strings
  import Export

  /** The form's values; `contractType` is the form's `type` field. */
  datatype ResiliationValues = ResiliationValues(
    nom: string,
    prenom: string,
    adresse: string,
    codePostal: string,
    ville: string,
    entreprise: string,
    adresseEntreprise: string,
    codePostalEntreprise: string,
    villeEntreprise: string,
    contractType: string,
    reference: string,
    objet: string,
    contenu: string)

  /** The form's starting values: all empty but the subject line. */
  const Defaults := ResiliationValues("", "", "", "", "", "", "", "", "", "", "", "Résiliation de contrat", "")

  /** The form's declared length rules: postcodes of at least 5 characters, a text of at least
      10, every other field non-empty. No code path consults them before the download. */
  predicate FormAccepted(v: ResiliationValues) {
    && |v.nom| >= 1 && |v.prenom| >= 1 && |v.adresse| >= 1 && |v.codePostal| >= 5
    && |v.ville| >= 1 && |v.entreprise| >= 1 && |v.adresseEntreprise| >= 1
    && |v.codePostalEntreprise| >= 5 && |v.villeEntreprise| >= 1 && |v.contractType| >= 1
    && |v.reference| >= 1 && |v.objet| >= 1 && |v.contenu| >= 10
  }

  /** A choice in the category list. */
  datatype Category = Category(value: string, caption: string)

  /** The five categories offered, in the order offered. */
  const Categories: seq<Category> := [
    Category("abonnement", "Abonnement (téléphone, internet, streaming)"),
    Category("assurance", "Assurance (auto, habitation, santé)"),
    Category("bail", "Bail locatif"),
    Category("salle_sport", "Salle de sport"),
    Category("autre", "Autre service")
  ]

  /** The category list offers five choices, no value twice. */
  lemma CategoriesDistinct()
    ensures |Categories| == 5
    ensures forall i, j :: 0 <= i < j < |Categories| ==> Categories[i].value != Categories[j].value
  {
  }

  /** The values with a text of their own; any other value gets the general text. */
  const NamedCategories: set<string> := {"abonnement", "assurance", "bail", "salle_sport"}

  const Abonnement1: string := "Je souhaite par la présente résilier mon contrat référencé ci-dessus."
  const Abonnement2: string :=
      "Conformément aux dispositions légales en vigueur et aux " +
      "conditions générales de vente, je vous demande de bien " +
      "vouloir prendre en compte cette demande de résiliation dans " +
      "les délais prévus."
  const Abonnement3: string :=
      "Je vous remercie de me confirmer la bonne réception de ce " +
      "courrier ainsi que la date effective de résiliation."
  const Assurance1: string :=
      "Je vous informe par la présente de ma décision de résilier " +
      "mon contrat d'assurance référencé ci-dessus."
  const AssuranceLawBefore: string :=
      "Je vous prie de bien vouloir procéder à la résiliation de " +
      "ce contrat conformément aux dispositions légales ("
  const AssuranceLawAfter: string := ") à compter de la réception de ce courrier."
  const Assurance3: string :=
      "Je vous remercie de me confirmer cette résiliation par " +
      "écrit et de me préciser sa date effective."
  const Bail1: string :=
      "Je vous informe par la présente de ma décision de résilier " +
      "le bail d'habitation pour le logement situé à l'adresse " +
      "mentionnée ci-dessus."
  const BailNoticeBefore: string := "Conformément à la législation en vigueur, je respecte un "
  const BailNoticeAfter: string := " de 3 mois à compter de la réception de ce courrier."
  const Bail3: string :=
      "Je vous remercie de bien vouloir m'indiquer vos " +
      "disponibilités pour effectuer l'état des lieux de sortie."
  const SalleSport1: string :=
      "Je vous informe par la présente de ma volonté de résilier " +
      "mon abonnement à votre salle de sport, référencé ci-dessus."
  const SalleSport2: string :=
      "Conformément aux conditions générales d'abonnement et aux " +
      "dispositions légales applicables, je vous prie de bien " +
      "vouloir procéder à la résiliation de mon contrat."
  const SalleSport3: string :=
      "Je vous serais reconnaissant de bien vouloir me confirmer " +
      "la prise en compte de cette demande ainsi que la date " +
      "effective de résiliation."
  const Default1: string :=
      "Je vous informe par la présente de ma décision de résilier " +
      "le contrat/service référencé ci-dessus."
  const Default2: string :=
      "Conformément aux conditions contractuelles et aux " +
      "dispositions légales en vigueur, je vous demande de bien " +
      "vouloir prendre en compte cette demande dans les meilleurs " +
      "délais."
  const Default3: string :=
      "Je vous remercie de me confirmer par écrit la bonne " +
      "réception de ce courrier ainsi que la date effective de " +
      "résiliation."

  /** Three paragraphs separated by blank lines. */
  function Letter3(p1: string, p2: string, p3: string): (text: string)
    ensures |text| == |p1| + |p2| + |p3| + 4
  {
    p1 + "\n\n" + p2 + "\n\n" + p3
  }

  const AbonnementText := Letter3(Abonnement1, Abonnement2, Abonnement3)
  const AssuranceText := Letter3(Assurance1, AssuranceLawBefore + "loi Hamon/Chatel" + AssuranceLawAfter, Assurance3)
  const BailText := Letter3(Bail1, BailNoticeBefore + "préavis" + BailNoticeAfter, Bail3)
  const SalleSportText := Letter3(SalleSport1, SalleSport2, SalleSport3)
  const DefaultText := Letter3(Default1, Default2, Default3)

  /** The text prefilled for a category; the general text for anything not named. */
  function Boilerplate(value: string): (text: string)
    ensures value !in NamedCategories ==> text == DefaultText
  {
    match value
    case "abonnement" => AbonnementText
    case "assurance" => AssuranceText
    case "bail" => BailText
    case "salle_sport" => SalleSportText
    case _ => DefaultText
  }

  /** The five texts differ in length, hence in content. */
  lemma TextLengths()
    ensures |AbonnementText| == 372 && |AssuranceText| == 371 && |BailText| == 361
    ensures |SalleSportText| == 420 && |DefaultText| == 395
  {
  }

  /** Each named category selects its own text, different from every other choice's, and
      every other value, "autre" included, selects the general one. */
  lemma BoilerplateDistinct(a: string, b: string)
    ensures Boilerplate(a) == Boilerplate(b) <==> a == b || (a !in NamedCategories && b !in NamedCategories)
  {
    TextLengths();
  }

  /** Every prefilled text meets the form's 10-character minimum for the letter body. */
  lemma BoilerplateLongEnough(value: string)
    ensures |Boilerplate(value)| >= 10
  {
    TextLengths();
  }

  /** A phrase placed in the middle paragraph occurs in the letter. */
  lemma Letter3Mentions(p1: string, before: string, phrase: string, after: string, p3: string)
    ensures Occurs(Letter3(p1, before + phrase + after, p3), phrase)
  {
    var head := p1 + "\n\n" + before;
    var tail := after + "\n\n" + p3;
    assert Letter3(p1, before + phrase + after, p3) == head + phrase + tail;
    IncludesMiddle(head, phrase, tail);
  }

  /** The lease text announces the notice period. */
  lemma BailMentionsNotice()
    ensures Occurs(Boilerplate("bail"), "préavis")
  {
    Letter3Mentions(Bail1, BailNoticeBefore, "préavis", BailNoticeAfter, Bail3);
  }

  /** The insurance text cites the law that allows cancelling. */
  lemma AssuranceCitesLaw()
    ensures Occurs(Boilerplate("assurance"), "loi Hamon/Chatel")
  {
    Letter3Mentions(Assurance1, AssuranceLawBefore, "loi Hamon/Chatel", AssuranceLawAfter, Assurance3);
  }

  /** `handleTypeChange` on values: record the category and replace the text with its own. */
  function WithCategory(v: ResiliationValues, value: string): (w: ResiliationValues)
    ensures w.contractType == value && w.contenu == Boilerplate(value)
    ensures w.(contractType := v.contractType, contenu := v.contenu) == v
  {
    v.(contractType := value, contenu := Boilerplate(value))
  }

  /** Only the last choice counts: choosing twice is choosing once, whatever was typed before. */
  lemma LastChoiceWins(v: ResiliationValues, a: string, b: string, typed: string)
    ensures WithCategory(WithCategory(v, a), b) == WithCategory(v, b)
    ensures WithCategory(WithCategory(v, a), a) == WithCategory(v, a)
    ensures WithCategory(v.(contenu := typed), a) == WithCategory(v, a)
  {
  }

  /** A chosen category always leaves a text the form accepts. */
  lemma ChoiceMeetsBodyRule(v: ResiliationValues, value: string)
    ensures |WithCategory(v, value).contenu| >= 10
  {
    BoilerplateLongEnough(value);
  }

  /** The downloaded letter's name: `${prenom}_${nom}_Resiliation.pdf`. */
  function ResiliationFileName(prenom: string, nom: string): (name: string)
    ensures |name| >= 4 && name[|name| - 4..] == ".pdf"
    ensures prenom + "_" <= name
  {
    Export.PersonFileName(prenom, nom, "Resiliation")
  }

  class ResiliationEditor {
    var values: ResiliationValues

    constructor ()
      ensures values == Defaults
    {
      values := Defaults;
    }

    /** `handleTypeChange`: record the category, then overwrite the text. */
    method HandleTypeChange(value: string)
      modifies this
      ensures values == WithCategory(old(values), value)
    {
      values := values.(contractType := value);
      var contenu := Boilerplate(value);
      values := values.(contenu := contenu);
    }
  }
}
