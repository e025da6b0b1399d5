# DocuGen, modelled in Dafny

DocuGen is a browser application for writing three kinds of personal documents: a résumé
(`CV`), a cover letter (`lettre de motivation`) and a contract cancellation letter
(`lettre de résiliation`). The pages are React components. Under the rendering there is a
small amount of deterministic logic, and that logic is what this project models:

- the résumé editor's three ordered sections, with validated appends and remove-by-id;
- the gate before the résumé preview, and the placement of the résumé image on the PDF page;
- the cover-letter synthesiser: a keyword scan over a fixed vocabulary, a fixed template
  with one branch, and the save into the `motivationLetters` collection;
- the cancellation page's category-to-boilerplate switch;
- the browser's local key-value namespace (`user`, `cvs`, `motivationLetters`,
  `resiliations`) as login, registration, logout and the dashboard change and read it;
- the dashboard's merge, tag and stable newest-first sort, its per-kind labels, edit routes
  and download bodies;
- the e-mail pattern and password rules shared by the login and registration forms.

The modules follow the source files:

- `LocalStorage` (`local_storage.dfy`) is the namespace. It is a `Store` class with a `user`
  field and a map from key to document sequence.
- The page modules are `Cv`, `LettreMotivation`, `Resiliation`, `Dashboard`, `Login`,
  `Register` and `Header`.
- `Credentials` holds the e-mail pattern, `Export` the PDF placement and file names, and
  `Strings` the string operations the pages use: substring search, join, slice, lowering and
  decimal rendering.

Where the source changes state step by step, the model does too:

- The résumé editor, the cover-letter editor, the cancellation form, the dashboard page and
  the header are classes whose methods assign their fields.
- The dashboard sorts an `array` in place with an insertion sort. The sort is proved equal to a
  stable reference sort (`SortDesc`), and that reference sort is proved ordered, a
  permutation and stable.
- The keyword scan is a loop. It is proved equal to the function `Keywords`, whose
  soundness, completeness, order, uniqueness and fallback are proved as lemmas.

Clock and random values become parameters:

- `now: nat` stands for `Date.now()` and `new Date()`.
- `token: string` stands for the random base-36 suffix of a user id.

Two source behaviours worth knowing about the résumé export:

- The résumé is saved as `CV_<first>_<last>.pdf`, not as `<first>_<last>_CV.pdf`.
- The export is one page: a taller résumé image is squeezed to the page height, not
  paginated.

Two source facts worth knowing when reading the model:

- Logout deletes every document collection.
- No page stores a document under `cvs` or `resiliations`: login and registration only
  write empty lists there. Only the cover letter is saved, so the dashboard shows letters
  and whatever other tools stored under the two other keys.

## Model

| member | source | states |
|---|---|---|
| Cv.CvEditor.constructor | src/pages/CV.tsx:39-70 | the editor opens on the "edit" tab with empty fields, empty sections, empty drafts and a skill draft at level 3 |
| Cv.CvEditor.AddExperience | src/pages/CV.tsx:72-84 | with a title and a company, exactly one entry is appended at the end, carrying the draft's fields and the id `Date.now().toString()`, and the draft is cleared; otherwise list and draft are unchanged |
| Cv.CvEditor.AddEducation | src/pages/CV.tsx:90-100 | with a degree and an institution, one entry is appended under the timestamp id and the draft cleared; otherwise nothing changes |
| Cv.CvEditor.AddSkill | src/pages/CV.tsx:106-115 | with a name, one skill is appended under the timestamp id and the draft reset to name "" and level 3; otherwise nothing changes; levels stay within 1..5 |
| Cv.CvEditor.RemoveExperience | src/pages/CV.tsx:86-88 | the section becomes its filter by id |
| Cv.CvEditor.RemoveEducation | src/pages/CV.tsx:102-104 | the section becomes its filter by id |
| Cv.CvEditor.RemoveSkill | src/pages/CV.tsx:117-119 | the section becomes its filter by id, and levels stay within 1..5 |
| Cv.RemoveById | src/pages/CV.tsx:87 | filtering never lengthens a section |
| Cv.RemoveByIdMembers | src/pages/CV.tsx:87 | the kept entries are exactly the entries whose id differs; no entry is added |
| Cv.RemoveByIdConcat | src/pages/CV.tsx:87 | filtering works piecewise on a concatenation, so kept entries keep their order |
| Cv.RemoveByIdIdempotent | src/pages/CV.tsx:86-88 | removing the same id twice equals removing it once |
| Cv.RemoveByIdAbsent | src/pages/CV.tsx:87 | removing an id no entry carries changes nothing |
| Cv.RemoveJustAdded | src/pages/CV.tsx:72-88 | removing an entry just appended under a fresh id gives the previous list back |
| Cv.CvEditor.SetSkillLevel | src/pages/CV.tsx:524-530 | the slider sets the draft's level and keeps it within 1..5 |
| Cv.CvEditor.GenerateCv | src/pages/CV.tsx:121-142 | the tab becomes "preview" exactly when first name, last name and e-mail are all non-empty, and stays as it was otherwise |
| Cv.SkillBarWidth | src/pages/CV.tsx:502 | a level in 1..5 gives a bar of 20..100 percent; a full bar means level 5 |
| Cv.CvEditor.SkillBarsInRange | src/pages/CV.tsx:497-503 | every skill bar shown lies between 20 and 100 percent |
| Cv.CvFileName | src/pages/CV.tsx:170 | the résumé name starts with "CV_" and ends with ".pdf" |
| Cv.CvFileNameInjective | src/pages/CV.tsx:170 | two résumés get the same file name only for the same first and last name, when first names carry no underscore |
| Export.FitToWidth | src/pages/CV.tsx:163-169 | placement at the origin with the page's width; a positive height of at most the page height, equal to the aspect-preserving height when that fits and to the page height otherwise |
| Export.FitKeepsAspectIff | src/pages/CV.tsx:165-169 | the image keeps its proportions if and only if its natural height fits on the page |
| Export.FullPage | src/pages/Dashboard.tsx:111 | the letter and dashboard exports stretch the image over the whole page |
| Export.FullPageKeepsAspectIff | src/pages/LettreMotivation.tsx:207 | the stretched image keeps its proportions if and only if the capture has the page's aspect ratio |
| Export.FitWithinFullPage | src/pages/CV.tsx:169 | the résumé placement is as wide as, and no taller than, the stretched placement |
| Export.PdfFileName | src/pages/Dashboard.tsx:112 | the stem followed by ".pdf" |
| Export.PdfFileNameRoundTrip | src/pages/Dashboard.tsx:112 | removing ".pdf" gives the stem back |
| Export.PersonFileName | src/pages/Resiliation.tsx:109 | a letter name starts with the first name and an underscore and ends with ".pdf" |
| Export.PersonFileNameInjective | src/pages/LettreMotivation.tsx:208 | two people get the same letter name only if their first and last names agree, when first names carry no underscore |
| Export.UnderscoreNamesInjective | src/pages/CV.tsx:170 | `first_last` determines first and last when the first name has no underscore |
| Strings.Includes | src/pages/LettreMotivation.tsx:184 | `includes` is true exactly when the pattern occurs at some position |
| Strings.IncludesMiddle | src/pages/LettreMotivation.tsx:184 | a pattern placed inside a string is found |
| Strings.Lower | src/pages/LettreMotivation.tsx:171 | lowering keeps the length, leaves no capital and changes no other character |
| Strings.FramedEnds | src/pages/LettreMotivation.tsx:149-165 | a text framed by an opening and a closing starts with the opening and ends with the closing |
| Strings.JoinLength | src/pages/LettreMotivation.tsx:157 | a joined list is as long as its parts plus one separator between neighbours |
| Strings.Take | src/pages/LettreMotivation.tsx:157 | `slice(0, n)` has `min(n, length)` elements and is a prefix |
| Strings.Decimal | src/pages/CV.tsx:74 | `toString()` of a timestamp: decimal digits, no leading zero, never empty |
| Strings.DecimalRoundTrip | src/pages/CV.tsx:74 | reading the digits back gives the timestamp |
| Strings.DecimalInjective | src/pages/LettreMotivation.tsx:111 | different timestamps give different ids |
| LettreMotivation.CollectMatches | src/pages/LettreMotivation.tsx:183-187 | the scan pushes exactly the matches of the vocabulary, in vocabulary order |
| LettreMotivation.ExtractKeywords | src/pages/LettreMotivation.tsx:169-190 | the lowered, space-joined text is scanned and the fallback triple replaces an empty result: exactly `Keywords` of the two fields |
| LettreMotivation.SearchText | src/pages/LettreMotivation.tsx:171 | the experience and the training, each lowered, joined by one space |
| LettreMotivation.Keywords | src/pages/LettreMotivation.tsx:169-190 | the vocabulary terms found in the search text, or the triple "polyvalence", "rigueur", "motivation" when none is found |
| LettreMotivation.MatchesIn | src/pages/LettreMotivation.tsx:183-187 | a term is kept if and only if it is in the vocabulary and occurs in the text; no more terms than the vocabulary has |
| LettreMotivation.KeywordsSpec | src/pages/LettreMotivation.tsx:169-190 | never empty; exactly the fallback triple when no term occurs in the lowered text; otherwise exactly the occurring terms, in vocabulary order, each once, at most 24 |
| LettreMotivation.MatchesInOrder | src/pages/LettreMotivation.tsx:183-187 | the matches are a subsequence of the vocabulary |
| LettreMotivation.MatchesInDistinct | src/pages/LettreMotivation.tsx:183-187 | a vocabulary without repeats yields matches without repeats |
| LettreMotivation.MatchesInSpec | src/pages/LettreMotivation.tsx:183-187 | for any vocabulary without repeats, the matches are a repeat-free subsequence of it, empty exactly when no term occurs |
| LettreMotivation.DistinctConcat | src/pages/LettreMotivation.tsx:174-180 | two repeat-free lists with no common term concatenate to a repeat-free list |
| LettreMotivation.VocabularyDistinct | src/pages/LettreMotivation.tsx:174-180 | the 24 vocabulary terms are pairwise different |
| LettreMotivation.TermsNonEmpty | src/pages/LettreMotivation.tsx:174-189 | no vocabulary or fallback term is empty |
| LettreMotivation.FallbackOutsideVocabulary | src/pages/LettreMotivation.tsx:174-189 | no fallback term is a vocabulary term, so the fallback cannot be mistaken for a scan result |
| LettreMotivation.Status | src/pages/LettreMotivation.tsx:155 | "diplômé(e)" if and only if the raw experience contains "diplômé", "professionnel(le)" otherwise |
| LettreMotivation.SkillsClause | src/pages/LettreMotivation.tsx:157 | the first three keywords, or all of them when there are fewer, joined by ", " |
| LettreMotivation.MotivationLetter | src/pages/LettreMotivation.tsx:141-166 | the template filled from the form values alone: the skills clause of the extracted keywords and the page's own fixed passages |
| LettreMotivation.FormAccepted | src/pages/LettreMotivation.tsx:18-29 | every field but the e-mail holds at least one character |
| LettreMotivation.Letter | src/pages/LettreMotivation.tsx:149-165 | whatever the skills clause and the fixed passages, the letter starts with "Madame, Monsieur," and a blank line, and ends with a blank line and `prenom nom` |
| LettreMotivation.SkillsClauseNonEmpty | src/pages/LettreMotivation.tsx:157 | the skills clause always names at least one keyword |
| LettreMotivation.NewLetter | src/pages/LettreMotivation.tsx:110-116 | the saved record has an id starting with "letter-", the name "Lettre - entreprise - poste", the generated text and the timestamp |
| LettreMotivation.NewLetterIdsDistinct | src/pages/LettreMotivation.tsx:111 | letters saved at different times get different ids |
| LettreMotivation.LetterFileName | src/pages/LettreMotivation.tsx:208 | the name starts with the first name and an underscore and ends with ".pdf" |
| LettreMotivation.LetterEditor.constructor | src/pages/LettreMotivation.tsx:33-52 | the editor opens on "edition" with every field empty |
| LettreMotivation.LetterEditor.Generate | src/pages/LettreMotivation.tsx:95-123 | the motivation field and the preview hold the letter and the tab becomes "apercu"; with a stored user, exactly one record is appended at the end of `motivationLetters`, and no other key changes; without one, the store is unchanged |
| LettreMotivation.SaveAppendsOne | src/pages/LettreMotivation.tsx:107-120 | saving adds one letter at the end and leaves every other collection as it reads |
| Resiliation.CategoriesDistinct | src/pages/Resiliation.tsx:35-41 | five categories, no value twice |
| Resiliation.FormAccepted | src/pages/Resiliation.tsx:19-33 | both postcodes hold at least 5 characters, the letter body at least 10, every other field at least one |
| Resiliation.Letter3 | src/pages/Resiliation.tsx:75-87 | three paragraphs with two blank lines between them |
| Resiliation.Boilerplate | src/pages/Resiliation.tsx:73-88 | any value other than the four named categories selects the general text |
| Resiliation.TextLengths | src/pages/Resiliation.tsx:75-87 | the five texts have lengths 372, 371, 361, 420 and 395 |
| Resiliation.BoilerplateDistinct | src/pages/Resiliation.tsx:73-88 | two values select the same text if and only if they are equal or neither is a named category; "autre" selects the general text |
| Resiliation.BoilerplateLongEnough | src/pages/Resiliation.tsx:32 | every prefilled text meets the 10-character minimum of `contenu` |
| Resiliation.Letter3Mentions | src/pages/Resiliation.tsx:75-87 | a phrase placed in the middle paragraph occurs in the letter |
| Resiliation.BailMentionsNotice | src/pages/Resiliation.tsx:81 | the lease text contains "préavis" |
| Resiliation.AssuranceCitesLaw | src/pages/Resiliation.tsx:78 | the insurance text contains "loi Hamon/Chatel" |
| Resiliation.WithCategory | src/pages/Resiliation.tsx:67-91 | `type` becomes the chosen value and `contenu` its text; every other field is unchanged |
| Resiliation.LastChoiceWins | src/pages/Resiliation.tsx:67-91 | choosing twice equals choosing once, and the last choice replaces whatever text was typed |
| Resiliation.ChoiceMeetsBodyRule | src/pages/Resiliation.tsx:32 | after any choice the letter body satisfies its length rule |
| Resiliation.ResiliationFileName | src/pages/Resiliation.tsx:109 | the name starts with the first name and an underscore and ends with ".pdf" |
| Resiliation.ResiliationEditor.constructor | src/pages/Resiliation.tsx:47-64 | the form starts empty, with the subject "Résiliation de contrat" |
| Resiliation.ResiliationEditor.HandleTypeChange | src/pages/Resiliation.tsx:67-91 | the values become `WithCategory` of the old values and the chosen value |
| Dashboard.Tag | src/pages/Dashboard.tsx:188-190 | the same documents in the same order, each with its `type` replaced by the tag |
| Dashboard.Merge | src/pages/Dashboard.tsx:183-191 | the merged list is as long as the three collections together, absent ones counting as empty, and every entry carries a known tag |
| Dashboard.InsertLast | src/pages/Dashboard.tsx:194 | one insertion step of the in-place sort: the prefix becomes the reference insertion of the next document |
| Dashboard.SortByDateDesc | src/pages/Dashboard.tsx:194 | the array is sorted in place into the reference order `SortDesc` |
| Dashboard.SortDescSorted | src/pages/Dashboard.tsx:194 | the reference order is newest first |
| Dashboard.SortDescPermutation | src/pages/Dashboard.tsx:194 | the reference order is a permutation of its input |
| Dashboard.SortDescStable | src/pages/Dashboard.tsx:194 | documents of equal date keep their relative order |
| Dashboard.InsertMultiset | src/pages/Dashboard.tsx:194 | an insertion adds exactly the inserted document |
| Dashboard.InsertSorted | src/pages/Dashboard.tsx:194 | an insertion into a newest-first list keeps it newest first |
| Dashboard.InsertAt | src/pages/Dashboard.tsx:194 | the reference insertion places the document right after the last one at least as recent |
| Dashboard.InsertWithDate | src/pages/Dashboard.tsx:194 | an insertion puts the document last among those of its own date and moves no other |
| Dashboard.DashboardPage.constructor | src/pages/Dashboard.tsx:161-162 | the page starts with no documents, loading |
| Dashboard.DashboardPage.LoadDocuments | src/pages/Dashboard.tsx:182-198 | the documents become the sorted merge of the stored collections and loading stops |
| Dashboard.LoadedDocuments | src/pages/Dashboard.tsx:182-198 | the loaded list is newest first, holds every stored document once, has one entry per stored entry, and keeps collection order among equal dates |
| Dashboard.LoadedDocumentsAreKnown | src/pages/Dashboard.tsx:187-191 | every listed document has a known label, an edit page and a download body |
| Dashboard.TypeName | src/pages/Dashboard.tsx:32-43 | the three tags map to "CV", "Lettre de motivation" and "Lettre de résiliation"; "Document" exactly for any other tag |
| Dashboard.EditRoute | src/pages/Dashboard.tsx:54-68 | a known tag opens `/tag`; an unknown tag navigates nowhere |
| Dashboard.Placeholder | src/pages/Dashboard.tsx:85-96 | the kind's stand-in body: "Contenu du CV", "Contenu de la lettre de motivation", and "Contenu de la lettre de résiliation" for any other tag |
| Dashboard.DownloadPageOf | src/pages/Dashboard.tsx:85-100 | the heading is the name; a known tag gets a non-empty body, the content or the kind's placeholder when the content is empty; an unknown tag gets none |
| Dashboard.DownloadFileName | src/pages/Dashboard.tsx:112 | the document's name followed by ".pdf", from which the name is recovered |
| LocalStorage.ReadCollection | src/pages/Dashboard.tsx:183-185 | an absent collection reads as empty, a present one as stored |
| LocalStorage.Store.constructor | src/pages/Dashboard.tsx:183-185 | an empty namespace: no user and no collection |
| LocalStorage.Store.Append | src/pages/LettreMotivation.tsx:109-119 | the collection under the key, as it read, gains the document at its end; the session and every other key are unchanged |
| Login.PasswordAccepted | src/pages/Login.tsx:104-110 | a password of at least 6 characters |
| Login.FormAccepted | src/pages/Login.tsx:83-111 | a non-empty e-mail that passes the e-mail check, and an accepted password |
| Login.LocalPart | src/pages/Login.tsx:34 | the e-mail up to its first "@", containing no "@", or the whole e-mail when it has none |
| Login.UserFor | src/pages/Login.tsx:31-36 | the user's id starts with "user-", the e-mail is copied, the first name is the local part and the last name "Utilisateur" |
| Login.WithCollections | src/pages/Login.tsx:42-52 | each collection is created empty only if absent; every existing key keeps its value |
| Login.Submit | src/pages/Login.tsx:31-52 | `user` is overwritten with the derived user and the collections become `WithCollections` of the old ones |
| Login.WithCollectionsIdempotent | src/pages/Login.tsx:42-52 | logging in again changes no collection |
| Login.LoginPreservesDocuments | src/pages/Login.tsx:42-52 | every collection reads the same before and after login |
| Credentials.IsValidEmail | src/pages/Login.tsx:86 | the e-mail check both forms apply: a first "@" after a non-empty local part of allowed characters, then a domain whose last dot is followed by at least two letters |
| Credentials.IsValidEmailCorrect | src/pages/Login.tsx:86 | the check accepts a string if and only if it is a non-empty local part over letters, digits and `._%+-`, one "@", a non-empty domain over letters, digits and `.-`, a dot, and at least two letters to the end |
| Credentials.OneAt | src/pages/Register.tsx:108 | an accepted address contains exactly one "@" |
| Credentials.IndexOf | src/pages/Login.tsx:86 | the position of the first occurrence of a character, or none |
| Credentials.LastIndexOf | src/pages/Login.tsx:86 | the position of the last occurrence of a character, or none |
| Register.PasswordAccepted | src/pages/Register.tsx:122-128 | a password of at least 8 characters |
| Register.FormAccepted | src/pages/Register.tsx:78-149 | both names non-empty, a non-empty e-mail that passes the e-mail check, an accepted password, a non-empty confirmation equal to the password, and the terms accepted |
| Register.ResetCollections | src/pages/Register.tsx:45-48 | all three collections become empty whatever they held; other keys are kept |
| Register.Submit | src/pages/Register.tsx:35-48 | `user` is overwritten with the form's e-mail and names, and the collections are reset |
| Register.LoginAfterRegister | src/pages/Register.tsx:45-48 | a login after registration finds every collection present and changes nothing |
| Register.RegisteredPasswordLogsIn | src/pages/Register.tsx:122-128 | every form registration accepts also passes the login form's rules |
| Header.FirstChar | src/components/Header.tsx:69 | `charAt(0)`: one character of a non-empty name, nothing for an empty one |
| Header.Initials | src/components/Header.tsx:69 | the initials are the first name's first character then the last name's; each is absent when its name is empty |
| Header.WithoutSession | src/components/Header.tsx:33-37 | logout removes exactly the three collection keys and keeps every other key as it was |
| Header.Header.constructor | src/components/Header.tsx:17-18 | the header starts logged out with empty names |
| Header.Header.Mount | src/components/Header.tsx:21-30 | with a stored user the header is logged in and shows the user's names, a missing one as ""; without one it is unchanged |
| Header.Header.Avatar | src/components/Header.tsx:69 | the avatar shows the initials of the names the header holds |
| Header.Header.Logout | src/components/Header.tsx:33-38 | `user` and the three collections are removed, other keys kept, and the header is logged out |
| Header.LogoutForgetsDocuments | src/components/Header.tsx:33-37 | after logout every collection reads as empty |

## Left out

- Rendering and export: the PDF rasterisation and encoding (`html2canvas`, `jsPDF`, `toDataURL`, `save`), all JSX, the dashboard's temporary DOM node, toasts, tab widgets, and navigation beyond the choice of route. These are foreign libraries or presentation.
- The OpenAI client: its call is commented out in the source and never runs, so generation always uses the template.
- JSON: collections are held as records. Parsing corrupt data throws in the source; that path is not modelled.
- Time and randomness: `Date.now()`, `new Date()`, `Math.random()` and `toLocaleDateString` become parameters.
  - One `now: nat` stands for both the id timestamp and the ISO date string, which the source reads separately.
  - A document's `date` is that timestamp, not its ISO text.
  - Dates are assumed parseable. The sort comparator subtracts `new Date(...).getTime()` values, which are NaN for a missing or malformed `date`; documents written by other tools under `cvs` or `resiliations` can carry one, and the order the sort then produces is not modelled.
  - `currentDate` in the letter is computed but never used, so it is not an input.
- The simulated latency (`setTimeout`) around login and registration.
- The zod `.email()` rule on the letter form; only the `min(n)` length rules are modelled.
- LettreMotivation.FormAccepted and Resiliation.FormAccepted: the forms declare these rules, but no code path consults them before generating or downloading, so no operation requires them.
- Strings.Lower: only ASCII and Latin-1 capitals are lowered; full Unicode case mapping is not modelled.
- Lengths are counted in Unicode characters, not in UTF-16 code units.
- Export.FitToWidth: computes over exact reals, without floating-point rounding, and requires positive page and image sizes; a zero-sized capture is not modelled.
- The A4 page size is a parameter.
- Resiliation.BailMentionsNotice: proves that the lease text mentions "préavis", not that it is the only text to do so; absence of a phrase from the other long literals is too costly for the solver.
- Resiliation.AssuranceCitesLaw: proves that the insurance text cites "loi Hamon/Chatel", not that it is the only text to do so, for the same reason.
- The tab-switching buttons that only set `activeTab`.
- The résumé's colour theme and template, the dashboard's user greeting, and the static and marketing pages.
