/** The interview-questions screen (client/screens/InterviewQuestionsScreen.tsx): the
    premium and résumé guards before the request, and the grouping of the returned
    questions into category sections. */
module InterviewQuestions {
  import opened Wrappers
  import opened JsValue
  import opened ResumeTypes
  import Routes

  datatype QuestionSection = QuestionSection(title: string, category: string, data: seq<InterviewQuestion>)

  const SectionOrder := [HrCategory, TechnicalCategory, SituationalCategory]

  /** Where a category's section sits in the list; an unknown category has no section. */
  function CategoryRank(category: string): nat {
    if category == HrCategory then 0
    else if category == TechnicalCategory then 1
    else if category == SituationalCategory then 2
    else 3
  }

  /** `.filter(s => s.data.length > 0)`. */
  function KeepNonEmpty(sections: seq<QuestionSection>): (kept: seq<QuestionSection>)
    ensures |kept| <= |sections|
    ensures forall s :: s in kept <==> s in sections && s.data != []
  {
    if sections == [] then []
    else KeepIfNonEmpty(sections[0]) + KeepNonEmpty(sections[1..])
  }

  function KeepIfNonEmpty(s: QuestionSection): seq<QuestionSection> {
    if s.data != [] then [s] else []
  }

  lemma KeepNonEmptyOfThree(a: QuestionSection, b: QuestionSection, c: QuestionSection)
    ensures KeepNonEmpty([a, b, c]) == KeepIfNonEmpty(a) + KeepIfNonEmpty(b) + KeepIfNonEmpty(c)
  {
    KeepNonEmptyOfOne(c);
    assert [b, c][1..] == [c];
    assert KeepNonEmpty([b, c]) == KeepIfNonEmpty(b) + KeepIfNonEmpty(c);
    assert [a, b, c][1..] == [b, c];
  }

  lemma KeepNonEmptyOfOne(s: QuestionSection)
    ensures KeepNonEmpty([s]) == KeepIfNonEmpty(s)
  {
    assert [s][1..] == [];
  }

  function Section(questions: seq<InterviewQuestion>, category: string): (section: QuestionSection)
  {
    var title :=
      if category == HrCategory then "HR Questions"
      else if category == TechnicalCategory then "Technical Questions"
      else "Situational Questions";
    QuestionSection(title, category, OfCategory(questions, category))
  }

  /** The section list has a section of this category. */
  predicate HasSection(sections: seq<QuestionSection>, category: string) {
    exists i :: 0 <= i < |sections| && sections[i].category == category
  }

  /** `sections`: one section per category in the order hr, technical, situational, each
      holding exactly that category's questions in their order, with empty ones dropped.
      (A section is there only if its category has questions, since its data is never empty.) */
  function Sections(questions: seq<InterviewQuestion>): (sections: seq<QuestionSection>)
    ensures |sections| <= 3
    ensures forall s :: s in sections ==>
      s.data != [] && CategoryRank(s.category) < 3 && s.data == OfCategory(questions, s.category)
    ensures OfCategory(questions, HrCategory) != [] ==> HasSection(sections, HrCategory)
    ensures OfCategory(questions, TechnicalCategory) != [] ==> HasSection(sections, TechnicalCategory)
    ensures OfCategory(questions, SituationalCategory) != [] ==> HasSection(sections, SituationalCategory)
    ensures forall i, j :: 0 <= i < j < |sections| ==>
      CategoryRank(sections[i].category) < CategoryRank(sections[j].category)
  {
    SectionsAreCandidates(questions);
    CandidatesKept(questions);
    CandidatesOrdered(questions);
    CandidatesComplete(questions);
    KeepNonEmpty(AllSections(questions))
  }

  /** Each section shown carries the title of its category. */
  lemma SectionTitles(questions: seq<InterviewQuestion>)
    ensures forall s :: s in Sections(questions) ==>
      && (s.category == HrCategory ==> s.title == "HR Questions")
      && (s.category == TechnicalCategory ==> s.title == "Technical Questions")
      && (s.category == SituationalCategory ==> s.title == "Situational Questions")
  {
    SectionsAreCandidates(questions);
  }

  /** The literal list of the three sections, before the filter. */
  function AllSections(questions: seq<InterviewQuestion>): seq<QuestionSection> {
    [Section(questions, HrCategory), Section(questions, TechnicalCategory), Section(questions, SituationalCategory)]
  }

  lemma SectionsAreCandidates(questions: seq<InterviewQuestion>)
    ensures KeepNonEmpty(AllSections(questions)) == Candidates(questions)
  {
    KeepNonEmptyOfThree(Section(questions, HrCategory), Section(questions, TechnicalCategory), Section(questions, SituationalCategory));
  }

  /** The three candidate sections with the empty ones left out. */
  function Candidates(questions: seq<InterviewQuestion>): seq<QuestionSection> {
    KeepIfNonEmpty(Section(questions, HrCategory))
      + KeepIfNonEmpty(Section(questions, TechnicalCategory))
      + KeepIfNonEmpty(Section(questions, SituationalCategory))
  }

  lemma CandidatesKept(questions: seq<InterviewQuestion>)
    ensures |Candidates(questions)| <= 3
    ensures forall s :: s in Candidates(questions) ==>
      s.data != [] && CategoryRank(s.category) < 3 && s.data == OfCategory(questions, s.category)
  {
  }

  lemma CandidatesOrdered(questions: seq<InterviewQuestion>)
    ensures var sections := Candidates(questions);
      forall i, j :: 0 <= i < j < |sections| ==>
        CategoryRank(sections[i].category) < CategoryRank(sections[j].category)
  {
  }

  lemma CandidatesComplete(questions: seq<InterviewQuestion>)
    ensures OfCategory(questions, HrCategory) != [] ==> HasSection(Candidates(questions), HrCategory)
    ensures OfCategory(questions, TechnicalCategory) != [] ==> HasSection(Candidates(questions), TechnicalCategory)
    ensures OfCategory(questions, SituationalCategory) != [] ==> HasSection(Candidates(questions), SituationalCategory)
  {
    var hr, technical, situational :=
      Section(questions, HrCategory), Section(questions, TechnicalCategory), Section(questions, SituationalCategory);
    var sections := Candidates(questions);
    if hr.data != [] { assert sections[0] == hr; }
    if technical.data != [] { assert sections[|KeepIfNonEmpty(hr)|] == technical; }
    if situational.data != [] { assert sections[|sections| - 1] == situational; }
  }

  /** The number of questions whose category is one of the three. */
  function KnownCount(questions: seq<InterviewQuestion>): nat {
    if questions == [] then 0
    else (if CategoryRank(questions[0].category) < 3 then 1 else 0) + KnownCount(questions[1..])
  }

  function SectionTotal(sections: seq<QuestionSection>): nat {
    if sections == [] then 0 else |sections[0].data| + SectionTotal(sections[1..])
  }

  lemma {:induction false} CategoriesCoverKnown(questions: seq<InterviewQuestion>)
    ensures |OfCategory(questions, HrCategory)| + |OfCategory(questions, TechnicalCategory)|
      + |OfCategory(questions, SituationalCategory)| == KnownCount(questions)
  {
    if questions != [] {
      CategoriesCoverKnown(questions[1..]);
    }
  }

  /** The sections together list every question of a known category once, and nothing else. */
  lemma SectionsTotal(questions: seq<InterviewQuestion>)
    ensures SectionTotal(Sections(questions)) == KnownCount(questions)
  {
    var hr, technical, situational :=
      Section(questions, HrCategory), Section(questions, TechnicalCategory), Section(questions, SituationalCategory);
    SectionsAreCandidates(questions);
    var a, b, c := KeepIfNonEmpty(hr), KeepIfNonEmpty(technical), KeepIfNonEmpty(situational);
    SectionTotalAppend(a, b);
    SectionTotalAppend(a + b, c);
    CategoriesCoverKnown(questions);
  }

  lemma {:induction false} SectionTotalAppend(a: seq<QuestionSection>, b: seq<QuestionSection>)
    ensures SectionTotal(a + b) == SectionTotal(a) + SectionTotal(b)
  {
    if a == [] {
      assert a + b == b;
    } else {
      assert (a + b)[1..] == a[1..] + b;
      SectionTotalAppend(a[1..], b);
    }
  }

  /** Three questions in each category give three sections of three questions. */
  lemma ThreeByThree(questions: seq<InterviewQuestion>)
    requires |OfCategory(questions, HrCategory)| == 3
    requires |OfCategory(questions, TechnicalCategory)| == 3
    requires |OfCategory(questions, SituationalCategory)| == 3
    ensures |Sections(questions)| == 3
    ensures forall s :: s in Sections(questions) ==> |s.data| == 3
  {
    SectionsAreCandidates(questions);
    CandidatesThreeByThree(questions);
  }

  lemma CandidatesThreeByThree(questions: seq<InterviewQuestion>)
    requires |OfCategory(questions, HrCategory)| == 3
    requires |OfCategory(questions, TechnicalCategory)| == 3
    requires |OfCategory(questions, SituationalCategory)| == 3
    ensures |Candidates(questions)| == 3
    ensures forall s :: s in Candidates(questions) ==> |s.data| == 3
  {
    var hr, technical, situational :=
      Section(questions, HrCategory), Section(questions, TechnicalCategory), Section(questions, SituationalCategory);
    assert Candidates(questions) == [hr] + [technical] + [situational];
  }

  /** The server's fallback question set shows as three sections of three questions. */
  lemma FallbackSections()
    ensures |Sections(Routes.InterviewFallback())| == 3
    ensures forall s :: s in Sections(Routes.InterviewFallback()) ==> |s.data| == 3
  {
    var questions := Routes.InterviewFallback();
    ThreeByThree(questions);
  }

  /** The screen shows its empty state when there are no questions and none are being
      generated; there are then no sections either. */
  predicate ShowsEmptyState(questions: seq<InterviewQuestion>, isGenerating: bool) {
    |questions| == 0 && !isGenerating
  }

  lemma EmptyStateHasNoSections(questions: seq<InterviewQuestion>, isGenerating: bool)
    requires ShowsEmptyState(questions, isGenerating)
    ensures Sections(questions) == []
  {
    SectionsAreCandidates(questions);
  }

  /** The JSON body of the request: `{ resumeContent, jobDescription }`. */
  function RequestBody(resumeContent: string, jobDescription: string): (body: map<string, Json>)
    ensures body.Keys == {"resumeContent", "jobDescription"}
    ensures body["resumeContent"] == Str(resumeContent) && body["jobDescription"] == Str(jobDescription)
  {
    map["resumeContent" := Str(resumeContent), "jobDescription" := Str(jobDescription)]
  }

  /** What the server makes of this screen's request: it is refused exactly when the
      stored analysis has empty résumé text, and an empty job description adds no
      job-description block to the prompt. */
  lemma RequestAtServer(resumeContent: string, jobDescription: string)
    ensures var body := RequestBody(resumeContent, jobDescription);
      && (Given(Field(body, "resumeContent")) <==> resumeContent != "")
      && Routes.InterviewUserContent(body["resumeContent"], Field(body, "jobDescription"))
         == Some(Routes.ResumeBlock(Str(resumeContent))
                 + (if jobDescription != "" then Routes.JobDescriptionBlock(Str(jobDescription)) else ""))
  {
    var body := RequestBody(resumeContent, jobDescription);
    assert Field(body, "jobDescription") == Some(Str(jobDescription));
    assert Convertible(Str(resumeContent)) && Convertible(Str(jobDescription));
    var content := Routes.InterviewUserContent(body["resumeContent"], Field(body, "jobDescription"));
    if jobDescription != "" {
      assert content == Some(Routes.ResumeBlock(Str(resumeContent)) + Routes.JobDescriptionBlock(Str(jobDescription)));
    } else {
      assert content == Some(Routes.ResumeBlock(Str(resumeContent)));
      assert Routes.ResumeBlock(Str(resumeContent)) + "" == Routes.ResumeBlock(Str(resumeContent));
    }
  }

  /** What `handleGenerate` does: navigate, alert, or send a request. */
  datatype GenerateAction = SentToUpgrade | NoResumeAlert | Requested(body: map<string, Json>)

  /** The outcome of `fetch`: a failure (network error or non-2xx) or the questions received. */
  datatype QuestionsReply = GenerationFailed | Generated(questions: seq<InterviewQuestion>)

  class InterviewQuestionsScreen {
    var resume: Option<ResumeAnalysis>
    var jobDescription: string
    var subscription: Option<UserSubscription>
    var isGenerating: bool
    var questions: seq<InterviewQuestion>

    /** The state after `loadData` has read the store. */
    constructor (resume: Option<ResumeAnalysis>, jobDescription: string, subscription: Option<UserSubscription>)
      ensures this.resume == resume && this.jobDescription == jobDescription && this.subscription == subscription
      ensures !isGenerating && questions == []
    {
      this.resume, this.jobDescription, this.subscription := resume, jobDescription, subscription;
      isGenerating, questions := false, [];
    }

    /** `handleGenerate`: a missing or non-premium subscription goes to the upgrade
        screen and a missing résumé raises an alert, neither sending a request;
        otherwise one request is sent and a successful reply replaces the questions. */
    method HandleGenerate(reply: QuestionsReply) returns (action: GenerateAction)
      modifies this
      ensures resume == old(resume) && jobDescription == old(jobDescription) && subscription == old(subscription)
      ensures subscription.None? || subscription.value.tier != Premium ==>
        action == SentToUpgrade && questions == old(questions) && isGenerating == old(isGenerating)
      ensures subscription.Some? && subscription.value.tier == Premium && resume.None? ==>
        action == NoResumeAlert && questions == old(questions) && isGenerating == old(isGenerating)
      ensures subscription.Some? && subscription.value.tier == Premium && resume.Some? ==>
        && action == Requested(RequestBody(resume.value.resumeContent, jobDescription))
        && !isGenerating
        && questions == (if reply.Generated? then reply.questions else old(questions))
    {
      if subscription.None? || subscription.value.tier != Premium {
        return SentToUpgrade;
      }
      if resume.None? {
        return NoResumeAlert;
      }
      isGenerating := true;
      action := Requested(RequestBody(resume.value.resumeContent, jobDescription));
      if reply.Generated? {
        questions := reply.questions;
      }
      isGenerating := false;
    }
  }
}
