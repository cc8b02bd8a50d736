/** The record shapes shared by the client and the server (client/types/resume.ts), and
    their JSON encodings where the server builds them as literals. */
module ResumeTypes {
  import opened Wrappers
  import opened JsValue

  datatype SectionAnalysis = SectionAnalysis(present: bool, score: int, issues: seq<string>, suggestions: seq<string>)

  datatype Sections = Sections(
    skills: SectionAnalysis,
    experience: SectionAnalysis,
    education: SectionAnalysis,
    keywords: SectionAnalysis,
    formatting: SectionAnalysis)
  {
    /** The five sections in the order the analysis prompt lists them. */
    function AsList(): seq<SectionAnalysis> {
      [skills, experience, education, keywords, formatting]
    }
  }

  datatype ResumeAnalysis = ResumeAnalysis(
    id: string,
    fileName: string,
    fileSize: int,
    uploadedAt: string,
    atsScore: int,
    sections: Sections,
    missingItems: seq<string>,
    suggestions: seq<string>,
    resumeContent: string)

  datatype JdMatchResult = JdMatchResult(
    matchPercentage: int,
    matchedSkills: seq<string>,
    missingSkills: seq<string>,
    keywordGaps: seq<string>,
    recommendations: seq<string>)

  datatype ImprovedResume = ImprovedResume(
    originalPoints: seq<string>,
    improvedPoints: seq<string>,
    summary: string,
    downloadReady: bool)

  /** The category is a plain string: the client casts whatever the server sent. */
  datatype InterviewQuestion = InterviewQuestion(category: string, question: string, hint: Option<string>)

  const HrCategory := "hr"
  const TechnicalCategory := "technical"
  const SituationalCategory := "situational"

  /** `questions.filter(q => q.category === category)`. */
  function OfCategory(questions: seq<InterviewQuestion>, category: string): (picked: seq<InterviewQuestion>)
    ensures |picked| <= |questions|
    ensures forall q :: q in picked ==> q in questions && q.category == category
    ensures forall q :: q in questions && q.category == category ==> q in picked
  {
    if questions == [] then []
    else (if questions[0].category == category then [questions[0]] else []) + OfCategory(questions[1..], category)
  }

  lemma {:induction false} OfCategoryAppend(a: seq<InterviewQuestion>, b: seq<InterviewQuestion>, category: string)
    ensures OfCategory(a + b, category) == OfCategory(a, category) + OfCategory(b, category)
  {
    if a == [] {
      assert a + b == b;
    } else {
      assert (a + b)[1..] == a[1..] + b;
      OfCategoryAppend(a[1..], b, category);
    }
  }

  /** Filtering keeps every question when all have the category, and none when none has it. */
  lemma {:induction false} OfCategoryUniform(questions: seq<InterviewQuestion>, category: string)
    ensures (forall q :: q in questions ==> q.category == category) ==> OfCategory(questions, category) == questions
    ensures (forall q :: q in questions ==> q.category != category) ==> OfCategory(questions, category) == []
  {
    if questions != [] {
      assert forall q :: q in questions[1..] ==> q in questions;
      OfCategoryUniform(questions[1..], category);
    }
  }

  datatype CoverLetter = CoverLetter(content: string, generatedAt: string)

  datatype Tier = Free | Premium

  datatype UserSubscription = UserSubscription(tier: Tier, scansRemaining: int, scansUsed: int, maxFreeScans: int)

  datatype ScanHistoryItem = ScanHistoryItem(
    id: string,
    fileName: string,
    score: int,
    scannedAt: string,
    resumeContent: Option<string>)

  // JSON encodings of the records above (an absent optional field is left out).

  function SectionJson(s: SectionAnalysis): Json {
    Obj(map["present" := Bool(s.present), "score" := Num(s.score),
            "issues" := Strings(s.issues), "suggestions" := Strings(s.suggestions)])
  }

  function SectionsJson(s: Sections): Json {
    Obj(map["skills" := SectionJson(s.skills), "experience" := SectionJson(s.experience),
            "education" := SectionJson(s.education), "keywords" := SectionJson(s.keywords),
            "formatting" := SectionJson(s.formatting)])
  }

  function JdMatchJson(r: JdMatchResult): Json {
    Obj(map["matchPercentage" := Num(r.matchPercentage), "matchedSkills" := Strings(r.matchedSkills),
            "missingSkills" := Strings(r.missingSkills), "keywordGaps" := Strings(r.keywordGaps),
            "recommendations" := Strings(r.recommendations)])
  }

  function ImprovedJson(r: ImprovedResume): Json {
    Obj(map["originalPoints" := Strings(r.originalPoints), "improvedPoints" := Strings(r.improvedPoints),
            "summary" := Str(r.summary), "downloadReady" := Bool(r.downloadReady)])
  }

  function QuestionJson(q: InterviewQuestion): Json {
    var fields := map["category" := Str(q.category), "question" := Str(q.question)];
    Obj(if q.hint.Some? then fields["hint" := Str(q.hint.value)] else fields)
  }

  function QuestionsJson(qs: seq<InterviewQuestion>): Json {
    Obj(map["questions" := Arr(seq(|qs|, i requires 0 <= i < |qs| => QuestionJson(qs[i])))])
  }

  function CoverLetterJson(c: CoverLetter): Json {
    Obj(map["content" := Str(c.content), "generatedAt" := Str(c.generatedAt)])
  }
}
