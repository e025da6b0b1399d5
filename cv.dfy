/** The résumé editor: three ordered sections edited through drafts, the gate before the
    preview, and the export's placement and file name. */
module Cv {
  import opened Strings
  import Export

  datatype Experience = Experience(id: string, title: string, company: string, startDate: string, endDate: string, description: string)
  datatype Education = Education(id: string, degree: string, institution: string, year: string)
  datatype Skill = Skill(id: string, name: string, level: int)

  /** The drafts being typed in: an entry without its id. */
  datatype ExperienceDraft = ExperienceDraft(title: string, company: string, startDate: string, endDate: string, description: string)
  datatype EducationDraft = EducationDraft(degree: string, institution: string, year: string)
  datatype SkillDraft = SkillDraft(name: string, level: int)

  const EmptyExperienceDraft := ExperienceDraft("", "", "", "", "")
  const EmptyEducationDraft := EducationDraft("", "", "")
  /** A fresh skill draft starts at level 3. */
  const EmptySkillDraft := SkillDraft("", 3)

  function ExperienceId(e: Experience): string { e.id }
  function EducationId(e: Education): string { e.id }
  function SkillId(s: Skill): string { s.id }

  /** The admission rules: an experience needs a title and a company, an education a degree
      and an institution, a skill a name. */
  predicate ExperienceAdmitted(d: ExperienceDraft) { d.title != "" && d.company != "" }
  predicate EducationAdmitted(d: EducationDraft) { d.degree != "" && d.institution != "" }
  predicate SkillAdmitted(d: SkillDraft) { d.name != "" }

  function ExperienceOf(d: ExperienceDraft, id: string): Experience {
    Experience(id, d.title, d.company, d.startDate, d.endDate, d.description)
  }
  function EducationOf(d: EducationDraft, id: string): Education {
    Education(id, d.degree, d.institution, d.year)
  }
  function SkillOf(d: SkillDraft, id: string): Skill {
    Skill(id, d.name, d.level)
  }

  /** `s.filter(x => x.id !== id)`. */
  function RemoveById<T>(s: seq<T>, id: string, idOf: T -> string): (r: seq<T>)
    ensures |r| <= |s|
  {
    if s == [] then []
    else (if idOf(s[0]) == id then [] else [s[0]]) + RemoveById(s[1..], id, idOf)
  }

  /** Removal keeps exactly the entries whose id differs and adds none. */
  lemma {:induction false} RemoveByIdMembers<T>(s: seq<T>, id: string, idOf: T -> string)
    ensures forall x :: x in RemoveById(s, id, idOf) ==> x in s && idOf(x) != id
    ensures forall x :: x in s && idOf(x) != id ==> x in RemoveById(s, id, idOf)
  {
    if s != [] {
      RemoveByIdMembers(s[1..], id, idOf);
      assert forall x :: x in s <==> x == s[0] || x in s[1..];
    }
  }

  /** Removal keeps the order of what it keeps: it works piecewise on a concatenation. */
  lemma {:induction false} RemoveByIdConcat<T>(s: seq<T>, t: seq<T>, id: string, idOf: T -> string)
    ensures RemoveById(s + t, id, idOf) == RemoveById(s, id, idOf) + RemoveById(t, id, idOf)
  {
    if s != [] {
      assert (s + t)[1..] == s[1..] + t;
      RemoveByIdConcat(s[1..], t, id, idOf);
    } else {
      assert s + t == t;
    }
  }

  /** With no entry carrying `id`, removal changes nothing. */
  lemma {:induction false} RemoveByIdAbsent<T>(s: seq<T>, id: string, idOf: T -> string)
    requires forall x :: x in s ==> idOf(x) != id
    ensures RemoveById(s, id, idOf) == s
  {
    if s != [] {
      RemoveByIdAbsent(s[1..], id, idOf);
    }
  }

  /** Removing twice is removing once. */
  lemma RemoveByIdIdempotent<T>(s: seq<T>, id: string, idOf: T -> string)
    ensures RemoveById(RemoveById(s, id, idOf), id, idOf) == RemoveById(s, id, idOf)
  {
    var r := RemoveById(s, id, idOf);
    RemoveByIdMembers(s, id, idOf);
    RemoveByIdAbsent(r, id, idOf);
  }

  /** Removing what was just appended under a fresh id gives the list back. */
  lemma RemoveJustAdded<T>(s: seq<T>, x: T, idOf: T -> string)
    requires forall y :: y in s ==> idOf(y) != idOf(x)
    ensures RemoveById(s + [x], idOf(x), idOf) == s
  {
    RemoveByIdConcat(s, [x], idOf(x), idOf);
    RemoveByIdAbsent(s, idOf(x), idOf);
  }

  /** The width of a skill's bar, in percent. */
  function SkillBarWidth(level: int): (percent: int)
    ensures 1 <= level <= 5 ==> 20 <= percent <= 100
    ensures percent == 100 <==> level == 5
  {
    level * 20
  }

  /** The exported file's name: `CV_${firstName}_${lastName}.pdf`. */
  function CvFileName(firstName: string, lastName: string): (name: string)
    ensures "CV_" <= name
    ensures |name| >= 8 && name[|name| - 4..] == ".pdf"
  {
    Export.PdfFileName("CV_" + firstName + "_" + lastName)
  }

  /** Different people get different file names, as long as first names carry no underscore. */
  lemma CvFileNameInjective(f1: string, l1: string, f2: string, l2: string)
    requires '_' !in f1 && '_' !in f2
    requires CvFileName(f1, l1) == CvFileName(f2, l2)
    ensures f1 == f2 && l1 == l2
  {
    var s1, s2 := "CV_" + f1 + "_" + l1, "CV_" + f2 + "_" + l2;
    Export.PdfFileNameRoundTrip(s1);
    Export.PdfFileNameRoundTrip(s2);
    assert s1 == s2;
    assert f1 + "_" + l1 == s1[3..] == s2[3..] == f2 + "_" + l2;
    Export.UnderscoreNamesInjective(f1, l1, f2, l2);
  }

  class CvEditor {
    var activeTab: string
    var firstName: string
    var lastName: string
    var email: string
    var phone: string
    var address: string
    var objective: string
    var experiences: seq<Experience>
    var education: seq<Education>
    var skills: seq<Skill>
    var newExperience: ExperienceDraft
    var newEducation: EducationDraft
    var newSkill: SkillDraft

    /** Skill levels come from a slider ranging over 1..5. */
    ghost predicate Valid()
      reads this
    {
      && (forall s :: s in skills ==> 1 <= s.level <= 5)
      && 1 <= newSkill.level <= 5
    }

    constructor ()
      ensures Valid()
      ensures activeTab == "edit"
      ensures firstName == lastName == email == phone == address == objective == ""
      ensures experiences == [] && education == [] && skills == []
      ensures newExperience == EmptyExperienceDraft && newEducation == EmptyEducationDraft && newSkill == EmptySkillDraft
    {
      activeTab := "edit";
      firstName, lastName, email, phone, address, objective := "", "", "", "", "", "";
      experiences, education, skills := [], [], [];
      newExperience, newEducation, newSkill := EmptyExperienceDraft, EmptyEducationDraft, EmptySkillDraft;
    }

    /** The slider's handler. */
    method SetSkillLevel(level: int)
      requires Valid() && 1 <= level <= 5
      modifies this`newSkill
      ensures Valid() && newSkill == old(newSkill).(level := level)
    {
      newSkill := newSkill.(level := level);
    }

    /** Append the draft under the id `Date.now().toString()` when it is admitted, and clear
        the draft; otherwise leave both as they are. */
    method AddExperience(now: nat)
      requires Valid()
      modifies this`experiences, this`newExperience
      ensures Valid()
      ensures ExperienceAdmitted(old(newExperience)) ==>
        experiences == old(experiences) + [ExperienceOf(old(newExperience), Decimal(now))] && newExperience == EmptyExperienceDraft
      ensures !ExperienceAdmitted(old(newExperience)) ==>
        experiences == old(experiences) && newExperience == old(newExperience)
    {
      if newExperience.title != "" && newExperience.company != "" {
        var id := Decimal(now);
        experiences := experiences + [ExperienceOf(newExperience, id)];
        newExperience := ExperienceDraft("", "", "", "", "");
      }
    }

    method RemoveExperience(id: string)
      requires Valid()
      modifies this`experiences
      ensures Valid()
      ensures experiences == RemoveById(old(experiences), id, ExperienceId)
    {
      experiences := RemoveById(experiences, id, ExperienceId);
    }

    method AddEducation(now: nat)
      requires Valid()
      modifies this`education, this`newEducation
      ensures Valid()
      ensures EducationAdmitted(old(newEducation)) ==>
        education == old(education) + [EducationOf(old(newEducation), Decimal(now))] && newEducation == EmptyEducationDraft
      ensures !EducationAdmitted(old(newEducation)) ==>
        education == old(education) && newEducation == old(newEducation)
    {
      if newEducation.degree != "" && newEducation.institution != "" {
        var id := Decimal(now);
        education := education + [EducationOf(newEducation, id)];
        newEducation := EducationDraft("", "", "");
      }
    }

    method RemoveEducation(id: string)
      requires Valid()
      modifies this`education
      ensures Valid()
      ensures education == RemoveById(old(education), id, EducationId)
    {
      education := RemoveById(education, id, EducationId);
    }

    method AddSkill(now: nat)
      requires Valid()
      modifies this`skills, this`newSkill
      ensures Valid()
      ensures SkillAdmitted(old(newSkill)) ==>
        skills == old(skills) + [SkillOf(old(newSkill), Decimal(now))] && newSkill == EmptySkillDraft
      ensures !SkillAdmitted(old(newSkill)) ==>
        skills == old(skills) && newSkill == old(newSkill)
    {
      if newSkill.name != "" {
        var id := Decimal(now);
        skills := skills + [SkillOf(newSkill, id)];
        newSkill := SkillDraft("", 3);
      }
    }

    method RemoveSkill(id: string)
      requires Valid()
      modifies this`skills
      ensures Valid()
      ensures skills == RemoveById(old(skills), id, SkillId)
    {
      RemoveByIdMembers(skills, id, SkillId);
      skills := RemoveById(skills, id, SkillId);
    }

    /** Move to the preview only when first name, last name and e-mail are all filled in. */
    method GenerateCv()
      modifies this`activeTab
      ensures activeTab == if firstName != "" && lastName != "" && email != "" then "preview" else old(activeTab)
    {
      if firstName == "" || lastName == "" || email == "" {
        return;
      }
      activeTab := "preview";
    }

    /** Every skill bar shown lies between 20 and 100 percent. */
    lemma SkillBarsInRange()
      requires Valid()
      ensures forall s :: s in skills ==> 20 <= SkillBarWidth(s.level) <= 100
    {
    }
  }
}
