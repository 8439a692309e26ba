/** The Resume page's download: the résumé records written out as one plain
    text document in a fixed section order, and the name of the file it is
    saved under. */
module Resume {
  import opened Text

  datatype PersonalInfo = PersonalInfo(
    name: String,
    title: String,
    email: String,
    phone: String,
    location: String,
    website: String,
    linkedin: String,
    github: String)

  datatype Experience = Experience(
    title: String,
    company: String,
    location: String,
    duration: String,
    responsibilities: seq<String>,
    technologies: seq<String>)

  datatype Education = Education(
    degree: String,
    institution: String,
    location: String,
    duration: String,
    gpa: String,
    achievements: seq<String>)

  /** One entry of the skills object: its key and its list. The entries are
      in the order `Object.entries` yields them: insertion order for keys that
      are not array indices, which come first in ascending order. */
  datatype SkillGroup = SkillGroup(category: String, items: seq<String>)

  datatype Certification = Certification(name: String, issuer: String, date: String, credentialId: String)

  datatype Record = Record(
    info: PersonalInfo,
    summary: String,
    experience: seq<Experience>,
    education: seq<Education>,
    skills: seq<SkillGroup>,
    certifications: seq<Certification>)

  const Bullet: String := "\U{2022} "

  /** `items.map(x => `• ${x}`)`. */
  function Bullets(items: seq<String>): (r: seq<String>)
    ensures |r| == |items|
    ensures forall k :: 0 <= k < |r| ==> r[k] == Bullet + items[k]
  {
    seq(|items|, k requires 0 <= k < |items| => Bullet + items[k])
  }

  /** The four personal lines at the top, after the template's opening line
      break. */
  function Personal(p: PersonalInfo): String
  {
    "\n" + p.name + "\n" + p.title + "\n" + p.email + " | " + p.phone + " | " + p.location
    + "\n" + p.website + " | " + p.linkedin + " | " + p.github
  }

  /** A section: an empty line, the heading on a line of its own, the body. */
  function Section(heading: String, body: String): String
  {
    "\n\n" + heading + "\n" + body
  }

  /** The first line of an experience entry. */
  function ExperienceHeadLine(e: Experience): String
  {
    e.title + " | " + e.company + " | " + e.location
  }

  function TechnologiesLine(e: Experience): String
  {
    "Technologies: " + Join(e.technologies, ", ")
  }

  /** One experience entry, as its template writes it. */
  function ExperienceBlock(e: Experience): String
  {
    "\n" + ExperienceHeadLine(e) + "\n" + e.duration + "\n" + Join(Bullets(e.responsibilities), "\n")
    + "\n" + TechnologiesLine(e) + "\n"
  }

  function DegreeLine(e: Education): String
  {
    e.degree + " | " + e.institution + " | " + e.location
  }

  function GradeLine(e: Education): String
  {
    e.duration + " | GPA: " + e.gpa
  }

  function EducationBlock(e: Education): String
  {
    "\n" + DegreeLine(e) + "\n" + GradeLine(e) + "\n" + Join(Bullets(e.achievements), "\n") + "\n"
  }

  function SkillLine(g: SkillGroup): String
  {
    g.category + ": " + Join(g.items, ", ")
  }

  function SkillBlock(g: SkillGroup): String
  {
    "\n" + SkillLine(g) + "\n"
  }

  function IssueLine(c: Certification): String
  {
    c.name + " | " + c.issuer + " | " + c.date
  }

  function CredentialLine(c: Certification): String
  {
    "Credential ID: " + c.credentialId
  }

  function CertificationBlock(c: Certification): String
  {
    "\n" + IssueLine(c) + "\n" + CredentialLine(c) + "\n"
  }

  function ExperienceText(es: seq<Experience>): String
  {
    Join(seq(|es|, k requires 0 <= k < |es| => ExperienceBlock(es[k])), "\n")
  }

  function EducationText(es: seq<Education>): String
  {
    Join(seq(|es|, k requires 0 <= k < |es| => EducationBlock(es[k])), "\n")
  }

  function SkillsText(gs: seq<SkillGroup>): String
  {
    Join(seq(|gs|, k requires 0 <= k < |gs| => SkillBlock(gs[k])), "\n")
  }

  function CertificationsText(cs: seq<Certification>): String
  {
    Join(seq(|cs|, k requires 0 <= k < |cs| => CertificationBlock(cs[k])), "\n")
  }

  const SummaryHeading: String := "PROFESSIONAL SUMMARY"
  const ExperienceHeading: String := "EXPERIENCE"
  const EducationHeading: String := "EDUCATION"
  const SkillsHeading: String := "SKILLS"
  const CertificationsHeading: String := "CERTIFICATIONS"

  /** The template literal before `trim()`: the personal lines, the five
      sections in their fixed order, and the closing line's indentation. */
  function Untrimmed(r: Record): String
  {
    Layout(Personal(r.info), r.summary, ExperienceText(r.experience), EducationText(r.education),
           SkillsText(r.skills), CertificationsText(r.certifications))
  }

  /** The document's frame: the top lines, then each body under its heading. */
  function Layout(top: String, b1: String, b2: String, b3: String, b4: String, b5: String): String
  {
    top
    + Section(SummaryHeading, b1)
    + Section(ExperienceHeading, b2)
    + Section(EducationHeading, b3)
    + Section(SkillsHeading, b4)
    + Section(CertificationsHeading, b5)
    + "\n    "
  }

  /** The headings in the order the document gives them. */
  const Headings: seq<String> := [SummaryHeading, ExperienceHeading, EducationHeading, SkillsHeading, CertificationsHeading]

  /** Where each heading starts in the frame: two line breaks into its
      section. */
  function HeadingPositions(top: String, b1: String, b2: String, b3: String, b4: String): (ps: seq<int>)
    ensures |ps| == 5
    ensures forall k :: 0 < k < 5 ==> ps[k - 1] < ps[k]
    ensures ps[0] == |top| + 2
  {
    var l1 := |Section(SummaryHeading, b1)|;
    var l2 := |Section(ExperienceHeading, b2)|;
    var l3 := |Section(EducationHeading, b3)|;
    var l4 := |Section(SkillsHeading, b4)|;
    [|top| + 2, |top| + l1 + 2, |top| + l1 + l2 + 2, |top| + l1 + l2 + l3 + 2, |top| + l1 + l2 + l3 + l4 + 2]
  }

  /** A section's heading sits two characters into the section. */
  lemma HeadingInSection(heading: String, body: String)
    ensures OccursAt(Section(heading, body), heading, 2)
  {
    assert Section(heading, body)[2..2 + |heading|] == heading;
  }

  lemma SectionHeadingAt(before: String, heading: String, body: String, after: String)
    ensures OccursAt(before + Section(heading, body) + after, heading, |before| + 2)
  {
    HeadingInSection(heading, body);
    OccursAfter(before, Section(heading, body), heading, 2);
    OccursBefore(before + Section(heading, body), after, heading, |before| + 2);
  }

  /** Each heading is found at its position in the frame. */
  lemma LayoutHeadings(top: String, b1: String, b2: String, b3: String, b4: String, b5: String)
    ensures forall k :: 0 <= k < 5 ==>
              OccursAt(Layout(top, b1, b2, b3, b4, b5), Headings[k], HeadingPositions(top, b1, b2, b3, b4)[k])
  {
    var s1 := Section(SummaryHeading, b1);
    var s2 := Section(ExperienceHeading, b2);
    var s3 := Section(EducationHeading, b3);
    var s4 := Section(SkillsHeading, b4);
    var s5 := Section(CertificationsHeading, b5);
    var t := "\n    ";
    var p1 := top + s1;
    var p2 := p1 + s2;
    var p3 := p2 + s3;
    var p4 := p3 + s4;
    var p5 := p4 + s5;
    var ps := HeadingPositions(top, b1, b2, b3, b4);
    HeadingInSection(SummaryHeading, b1);
    HeadingInSection(ExperienceHeading, b2);
    HeadingInSection(EducationHeading, b3);
    HeadingInSection(SkillsHeading, b4);
    HeadingInSection(CertificationsHeading, b5);
    OccursAfter(top, s1, SummaryHeading, 2);
    OccursBefore(p1, s2, SummaryHeading, ps[0]);
    OccursBefore(p2, s3, SummaryHeading, ps[0]);
    OccursBefore(p3, s4, SummaryHeading, ps[0]);
    OccursBefore(p4, s5, SummaryHeading, ps[0]);
    OccursBefore(p5, t, SummaryHeading, ps[0]);
    OccursAfter(p1, s2, ExperienceHeading, 2);
    OccursBefore(p2, s3, ExperienceHeading, ps[1]);
    OccursBefore(p3, s4, ExperienceHeading, ps[1]);
    OccursBefore(p4, s5, ExperienceHeading, ps[1]);
    OccursBefore(p5, t, ExperienceHeading, ps[1]);
    OccursAfter(p2, s3, EducationHeading, 2);
    OccursBefore(p3, s4, EducationHeading, ps[2]);
    OccursBefore(p4, s5, EducationHeading, ps[2]);
    OccursBefore(p5, t, EducationHeading, ps[2]);
    OccursAfter(p3, s4, SkillsHeading, 2);
    OccursBefore(p4, s5, SkillsHeading, ps[3]);
    OccursBefore(p5, t, SkillsHeading, ps[3]);
    OccursAfter(p4, s5, CertificationsHeading, 2);
    OccursBefore(p5, t, CertificationsHeading, ps[4]);
  }

  /** Every heading starts and ends with a capital letter, not white space. */
  lemma HeadingsHaveLetterEnds()
    ensures forall k :: 0 <= k < 5 ==>
              Headings[k] != [] && !IsSpace(Headings[k][0]) && !IsSpace(Headings[k][|Headings[k]| - 1])
  {
    assert SummaryHeading[0] == 'P' && SummaryHeading[|SummaryHeading| - 1] == 'Y';
    assert ExperienceHeading[0] == 'E' && ExperienceHeading[|ExperienceHeading| - 1] == 'E';
    assert EducationHeading[0] == 'E' && EducationHeading[|EducationHeading| - 1] == 'N';
    assert SkillsHeading[0] == 'S' && SkillsHeading[|SkillsHeading| - 1] == 'S';
    assert CertificationsHeading[0] == 'C' && CertificationsHeading[|CertificationsHeading| - 1] == 'S';
  }

  /** The frame, trimmed, is never empty: its headings are not white space. */
  lemma TrimmedLayoutNotEmpty(top: String, b1: String, b2: String, b3: String, b4: String, b5: String)
    ensures Trim(Layout(top, b1, b2, b3, b4, b5)) != []
  {
    var s := Layout(top, b1, b2, b3, b4, b5);
    var ps := HeadingPositions(top, b1, b2, b3, b4);
    LayoutHeadings(top, b1, b2, b3, b4, b5);
    assert OccursAt(s, Headings[4], ps[4]);
    assert s[ps[4]] == s[ps[4]..ps[4] + |Headings[4]|][0] == 'C';
    TrimEmptyIff(s);
  }

  /** When the top lines start with one line break and then no white space,
      trimming the frame cuts only that line break. */
  lemma TrimmedLayoutStartsWithTop(top: String, b1: String, b2: String, b3: String, b4: String, b5: String)
    requires |top| >= 2 && top[0] == '\n' && !IsSpace(top[1])
    ensures top[1..] <= Trim(Layout(top, b1, b2, b3, b4, b5))
  {
    var s := Layout(top, b1, b2, b3, b4, b5);
    var p := HeadingPositions(top, b1, b2, b3, b4)[0];
    LayoutHeadings(top, b1, b2, b3, b4, b5);
    assert OccursAt(s, Headings[0], p);
    assert s[p] == s[p..p + |Headings[0]|][0] == 'P';
    assert s[..|top|] == top;
    TrimCutsOneBreak(s, top, p);
  }

  /** `resumeContent`: the template, trimmed. It is never empty, and it
      neither starts nor ends with white space. */
  function ResumeContent(r: Record): (doc: String)
    ensures doc != []
    ensures !IsSpace(doc[0]) && !IsSpace(doc[|doc| - 1])
  {
    TrimmedLayoutNotEmpty(Personal(r.info), r.summary, ExperienceText(r.experience),
      EducationText(r.education), SkillsText(r.skills), CertificationsText(r.certifications));
    Trim(Untrimmed(r))
  }

  /** The document gives its five sections in the fixed order:
      PROFESSIONAL SUMMARY, EXPERIENCE, EDUCATION, SKILLS, CERTIFICATIONS. */
  lemma HeadingsInOrder(r: Record)
    ensures InOrder(ResumeContent(r), Headings)
  {
    var s := Untrimmed(r);
    assert ResumeContent(r) == Trim(s);
    var top, b1, b2, b3, b4 := Personal(r.info), r.summary, ExperienceText(r.experience),
      EducationText(r.education), SkillsText(r.skills);
    LayoutHeadings(top, b1, b2, b3, b4, CertificationsText(r.certifications));
    HeadingsHaveLetterEnds();
    TrimKeepsOrder(s, Headings, HeadingPositions(top, b1, b2, b3, b4));
  }

  /** The document starts with the person's name, title, contact line and
      links line when the name does not start with white space: `trim()` then
      removes only the template's opening line break. */
  lemma StartsWithPersonalLines(r: Record)
    requires r.info.name != [] && !IsSpace(r.info.name[0])
    ensures Personal(r.info)[1..] <= ResumeContent(r)
  {
    var top := Personal(r.info);
    assert top[0] == '\n' && top[1] == r.info.name[0];
    TrimmedLayoutStartsWithTop(top, r.summary, ExperienceText(r.experience),
      EducationText(r.education), SkillsText(r.skills), CertificationsText(r.certifications));
  }

  /** The lines of a block written as a line break, the lines joined by line
      breaks, and a closing line break. */
  function Framed(lines: seq<String>): String
  {
    "\n" + Join(lines, "\n") + "\n"
  }

  /** A framed block splits into an empty line, its lines, and an empty line. */
  lemma FramedLines(lines: seq<String>)
    requires |lines| > 0
    requires forall k :: 0 <= k < |lines| ==> '\n' !in lines[k]
    ensures Split(Framed(lines), '\n') == [""] + lines + [""]
  {
    var j := Join(lines, "\n");
    SplitJoin(lines, '\n');
    SplitAppend(j, [], '\n');
    SplitAppend([], j + "\n", '\n');
    assert Framed(lines) == [] + ['\n'] + (j + ['\n'] + []);
  }

  /** A joined list shown as lines: the list itself, or one empty line when
      it is empty (`[].join('\n')` is the empty string). */
  function LinesOf(xs: seq<String>): (r: seq<String>)
    ensures |r| > 0
    ensures Join(r, "\n") == Join(xs, "\n")
  {
    if xs == [] then [""] else xs
  }

  predicate BreakFree(s: String)
  {
    '\n' !in s
  }

  predicate AllBreakFree(xs: seq<String>)
  {
    forall k :: 0 <= k < |xs| ==> '\n' !in xs[k]
  }

  /** The lines an experience entry is meant to show: the title line, the
      dates, one bullet per responsibility in order, and the technologies. */
  function ExperienceLines(e: Experience): seq<String>
  {
    [ExperienceHeadLine(e), e.duration] + LinesOf(Bullets(e.responsibilities)) + [TechnologiesLine(e)]
  }

  /** An experience entry is exactly those lines, framed by line breaks. */
  lemma ExperienceBlockIsFramed(e: Experience)
    ensures ExperienceBlock(e) == Framed(ExperienceLines(e))
  {
    var h, d, t := ExperienceHeadLine(e), e.duration, TechnologiesLine(e);
    var mid := LinesOf(Bullets(e.responsibilities));
    var j := Join(mid, "\n");
    JoinAppend([h, d] + mid, [t], "\n");
    JoinAppend([h, d], mid, "\n");
    assert Join([h, d], "\n") == h + "\n" + d;
    assert Join(ExperienceLines(e), "\n") == h + "\n" + d + "\n" + j + "\n" + t;
  }

  /** When no field holds a line break, the entry's lines are its heading,
      its dates, each responsibility as `• ` and the text in their order, and
      the technologies joined by `, `, between two empty lines. */
  lemma ExperienceBlockLines(e: Experience)
    requires BreakFree(e.title) && BreakFree(e.company) && BreakFree(e.location) && BreakFree(e.duration)
    requires AllBreakFree(e.responsibilities) && AllBreakFree(e.technologies)
    ensures Split(ExperienceBlock(e), '\n') == [""] + ExperienceLines(e) + [""]
  {
    ExperienceBlockIsFramed(e);
    var bullets := Bullets(e.responsibilities);
    forall k | 0 <= k < |bullets|
      ensures '\n' !in bullets[k]
    {
      assert bullets[k] == Bullet + e.responsibilities[k];
    }
    JoinBreakFree(e.technologies, ", ");
    var lines := ExperienceLines(e);
    var mid := LinesOf(bullets);
    forall k | 0 <= k < |lines|
      ensures '\n' !in lines[k]
    {
      if 2 <= k < 2 + |mid| {
        assert lines[k] == mid[k - 2];
      }
    }
    FramedLines(lines);
  }

  /** Joining break-free strings with a break-free separator adds no break. */
  lemma {:induction false} JoinBreakFree(xs: seq<String>, sep: String)
    requires AllBreakFree(xs) && '\n' !in sep
    ensures '\n' !in Join(xs, sep)
  {
    if |xs| > 1 {
      JoinBreakFree(xs[1..], sep);
    }
  }

  /** The lines of an education entry: the degree line, the dates and grade,
      one bullet per achievement in order. */
  function EducationLines(e: Education): seq<String>
  {
    [DegreeLine(e), GradeLine(e)] + LinesOf(Bullets(e.achievements))
  }

  lemma EducationBlockIsFramed(e: Education)
    ensures EducationBlock(e) == Framed(EducationLines(e))
  {
    var h, d := DegreeLine(e), GradeLine(e);
    var mid := LinesOf(Bullets(e.achievements));
    JoinAppend([h, d], mid, "\n");
    assert Join([h, d], "\n") == h + "\n" + d;
  }

  /** A skill group is one line: the category, a colon, and its items joined
      by `, `, in their order. */
  lemma SkillBlockLines(g: SkillGroup)
    requires BreakFree(g.category) && AllBreakFree(g.items)
    ensures Split(SkillBlock(g), '\n') == ["", SkillLine(g), ""]
  {
    JoinBreakFree(g.items, ", ");
    assert SkillBlock(g) == Framed([SkillLine(g)]);
    FramedLines([SkillLine(g)]);
  }

  /** A certification is two lines: name, issuer and date, then the
      credential. */
  lemma CertificationBlockLines(c: Certification)
    requires BreakFree(c.name) && BreakFree(c.issuer) && BreakFree(c.date) && BreakFree(c.credentialId)
    ensures Split(CertificationBlock(c), '\n') == ["", IssueLine(c), CredentialLine(c), ""]
  {
    var lines := [IssueLine(c), CredentialLine(c)];
    assert Join(lines, "\n") == lines[0] + "\n" + lines[1];
    assert CertificationBlock(c) == Framed(lines);
    FramedLines(lines);
  }

  /** The skills section lists the groups in their insertion order: its lines
      are the lines of each group's block, one group after another. */
  lemma SkillsInOrder(gs: seq<SkillGroup>)
    requires |gs| > 0
    ensures Split(SkillsText(gs), '\n') == SplitAll(seq(|gs|, k requires 0 <= k < |gs| => SkillBlock(gs[k])), '\n')
  {
    SplitOverJoin(seq(|gs|, k requires 0 <= k < |gs| => SkillBlock(gs[k])), '\n');
  }

  /** `a.download`: the name with its first space, and only that one,
      replaced by `_`, followed by `_Resume.txt`. */
  function FileName(name: String): String
  {
    ReplaceFirst(name, " ", "_") + "_Resume.txt"
  }

  /** A name without a space is used as it is. */
  lemma FileNameNoSpace(name: String)
    requires ' ' !in name
    ensures FileName(name) == name + "_Resume.txt"
  {
    ReplaceFirstAbsent(name, ' ', '_');
  }

  /** Only the first space becomes `_`; any later space stays. */
  lemma FileNameFirstSpace(name: String, i: nat)
    requires i < |name| && name[i] == ' ' && ' ' !in name[..i]
    ensures FileName(name) == name[..i] + "_" + name[i + 1..] + "_Resume.txt"
    ensures ' ' in name[i + 1..] ==> ' ' in FileName(name)
  {
    ReplaceFirstAt(name, ' ', '_', i);
    if ' ' in name[i + 1..] {
      var j :| 0 <= j < |name[i + 1..]| && name[i + 1..][j] == ' ';
      assert FileName(name)[i + 1 + j] == ' ';
    }
  }

  /** A first name and a last name, separated by one space, are joined by `_`. */
  lemma FileNameOfTwoWords(first: String, last: String)
    requires ' ' !in first
    ensures FileName(first + " " + last) == first + "_" + last + "_Resume.txt"
  {
    var name := first + " " + last;
    assert name[..|first|] == first && name[|first| + 1..] == last;
    FileNameFirstSpace(name, |first|);
  }

  /** The page's name gives `Your_Name_Resume.txt`. */
  lemma SampleFileName()
    ensures FileName("Your Name") == "Your_Name_Resume.txt"
  {
    FileNameOfTwoWords("Your", "Name");
    assert "Your" + " " + "Name" == "Your Name";
    assert "Your" + "_" + "Name" + "_Resume.txt" == "Your_Name_Resume.txt";
  }
}
