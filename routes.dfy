/** The five résumé endpoints of the server (server/routes.ts). Every handler checks its
    required inputs, builds the user content, makes one chat-completion call, cuts the
    reply down to its outermost `{ … }` span, parses it or substitutes a fixed fallback,
    and assembles the response body.

    The model, `JSON.parse`, base64 and UTF-8 decoding, the clock and the id generator are
    parameters: the model is a function from the request to its reply, `parse` returns
    `None` where `JSON.parse` throws. */
module Routes {
  import opened Wrappers
  import opened Text
  import opened JsValue
  import opened ResumeTypes

  const ModelName := "gpt-5"
  const MaxCompletionTokens := 2048
  /** The upload limit multer enforces before a handler runs. */
  const MaxUploadBytes := 10 * 1024 * 1024
  const PdfMimeType := "application/pdf"
  const PdfHeader := "[PDF Content - Base64 encoded for AI analysis]\n"
  const PdfPreviewLength := 5000
  const TextPreviewLength := 10000

  type Bytes = seq<bv8>

  datatype UploadedFile = UploadedFile(buffer: Bytes, mimeType: string, originalName: string, size: nat)

  datatype Task = AnalyzeTask | MatchJdTask | ImproveTask | InterviewQuestionsTask | CoverLetterTask

  /** One chat-completion call: the task selects the fixed system instruction, the user
      content carries the caller's text. */
  datatype ModelRequest = ModelRequest(model: string, task: Task, userContent: string, maxCompletionTokens: nat)

  /** What the call gives back: an exception, or the first choice's message content
      (`None` when the choice, the message or its content is missing). */
  datatype ModelReply = Threw | Replied(content: Option<string>)

  datatype Response = Response(status: int, body: Json)

  function RequestFor(task: Task, userContent: string): ModelRequest {
    ModelRequest(ModelName, task, userContent, MaxCompletionTokens)
  }

  function ErrorResponse(status: int, message: string): Response {
    Response(status, Obj(map["error" := Str(message)]))
  }

  // ---------------------------------------------------------------------------
  // extractTextFromFile

  /** A PDF becomes a fixed header line, at most 5000 characters of its base64 text and
      "..."; any other file is decoded as UTF-8 and cut to at most 10000 characters. */
  function ExtractText(buffer: Bytes, mimeType: string, base64: Bytes -> string, utf8: Bytes -> string): (text: string)
    ensures mimeType == PdfMimeType ==>
      var encoded := base64(buffer);
      && |text| == |PdfHeader| + Min(|encoded|, PdfPreviewLength) + 3
      && IsPrefix(PdfHeader, text)
      && IsPrefix(text[|PdfHeader|..|text| - 3], encoded)
      && IsSuffix("...", text)
    ensures mimeType != PdfMimeType ==>
      var decoded := utf8(buffer);
      |text| == Min(|decoded|, TextPreviewLength) && IsPrefix(text, decoded)
  {
    if mimeType == PdfMimeType then
      var encoded := base64(buffer);
      var preview := encoded[..Min(|encoded|, PdfPreviewLength)];
      assert (PdfHeader + preview + "...")[|PdfHeader|..|PdfHeader| + |preview|] == preview;
      PdfHeader + preview + "..."
    else
      var decoded := utf8(buffer);
      decoded[..Min(|decoded|, TextPreviewLength)]
  }

  // ---------------------------------------------------------------------------
  // User-content templates

  const AnalyzeIntro := "Analyze this resume for ATS compatibility:\n\n"

  function AnalyzeUserContent(fileContent: string): (content: string)
    ensures IsPrefix(AnalyzeIntro, content) && content[|AnalyzeIntro|..] == fileContent
  {
    AnalyzeIntro + fileContent
  }

  function ResumeBlock(resumeContent: Json): string
    requires Convertible(resumeContent)
  {
    "Resume:\n" + ToText(resumeContent) + "\n\n"
  }

  function JobDescriptionBlock(jobDescription: Json): string
    requires Convertible(jobDescription)
  {
    "Job Description:\n" + ToText(jobDescription)
  }

  // Each prompt builder below returns `None` where converting one of the inserted values
  // throws a TypeError (see `Convertible`); the handler's `catch` then answers 500.

  function MatchJdUserContent(resumeContent: Json, jobDescription: Json): (content: Option<string>)
    ensures content.Some? <==> Convertible(resumeContent) && Convertible(jobDescription)
    ensures content.Some? ==>
      && IsPrefix(ResumeBlock(resumeContent), content.value)
      && IsSuffix(JobDescriptionBlock(jobDescription), content.value)
      && |content.value| == |ResumeBlock(resumeContent)| + |JobDescriptionBlock(jobDescription)|
  {
    if Convertible(resumeContent) && Convertible(jobDescription) then
      Some(ResumeBlock(resumeContent) + JobDescriptionBlock(jobDescription))
    else None
  }

  /** `suggestions || []`: the previous suggestions, or an empty array when absent or falsy. */
  function SuggestionsOrEmpty(suggestions: Option<Json>): (v: Json)
    ensures Given(suggestions) ==> v == suggestions.value
    ensures !Given(suggestions) ==> v == Arr([])
  {
    if Given(suggestions) then suggestions.value else Arr([])
  }

  const ImproveIntro := "Resume to improve:\n"
  const SuggestionsLabel := "Previous suggestions: "

  /** `stringify` stands for `JSON.stringify`, whose text the model only reads. */
  function ImproveUserContent(resumeContent: Json, suggestions: Option<Json>, stringify: Json -> string)
    : (content: Option<string>)
    ensures content.Some? <==> Convertible(resumeContent)
    ensures content.Some? ==>
      var head, tail := ImproveIntro + ToText(resumeContent), SuggestionsLabel + stringify(SuggestionsOrEmpty(suggestions));
      && IsPrefix(head, content.value)
      && IsSuffix(tail, content.value)
      && |content.value| == |head| + 2 + |tail|
      && content.value[|head|..|head| + 2] == "\n\n"
  {
    if !Convertible(resumeContent) then None
    else
      var head, tail := ImproveIntro + ToText(resumeContent), SuggestionsLabel + stringify(SuggestionsOrEmpty(suggestions));
      var content := head + "\n\n" + tail;
      assert content[..|head|] == head;
      assert content[|head|..|head| + 2] == "\n\n";
      assert content[|content| - |tail|..] == tail;
      Some(content)
  }

  /** The résumé block, then the job-description block only when a job description is given. */
  function InterviewUserContent(resumeContent: Json, jobDescription: Option<Json>): (content: Option<string>)
    ensures content.Some? <==> Convertible(resumeContent) && (Given(jobDescription) ==> Convertible(jobDescription.value))
    ensures content.Some? ==> IsPrefix(ResumeBlock(resumeContent), content.value)
    ensures content.Some? ==> (Given(jobDescription) <==> |content.value| > |ResumeBlock(resumeContent)|)
    ensures content.Some? && Given(jobDescription) ==>
      content.value[|ResumeBlock(resumeContent)|..] == JobDescriptionBlock(jobDescription.value)
  {
    if !Convertible(resumeContent) then None
    else if !Given(jobDescription) then Some(ResumeBlock(resumeContent))
    else if !Convertible(jobDescription.value) then None
    else Some(ResumeBlock(resumeContent) + JobDescriptionBlock(jobDescription.value))
  }

  /** The résumé block only when a résumé is given, and always the job-description block last. */
  function CoverLetterUserContent(resumeContent: Option<Json>, jobDescription: Json): (content: Option<string>)
    ensures content.Some? <==> (Given(resumeContent) ==> Convertible(resumeContent.value)) && Convertible(jobDescription)
    ensures content.Some? ==> (Given(resumeContent) <==> IsPrefix("Resume:\n", content.value))
    ensures content.Some? && Given(resumeContent) ==> IsPrefix(ResumeBlock(resumeContent.value), content.value)
    ensures content.Some? ==> IsSuffix(JobDescriptionBlock(jobDescription), content.value)
    ensures content.Some? ==>
      |content.value| == (if Given(resumeContent) then |ResumeBlock(resumeContent.value)| else 0) + |JobDescriptionBlock(jobDescription)|
  {
    if Given(resumeContent) && !Convertible(resumeContent.value) then None
    else if !Convertible(jobDescription) then None
    else
      var head := if Given(resumeContent) then ResumeBlock(resumeContent.value) else "";
      var content := head + JobDescriptionBlock(jobDescription);
      assert !Given(resumeContent) ==> content[0] == 'J';
      Some(content)
  }

  /** A body whose résumé is an object with its own `toString` passes the presence check
      but cannot be put into the prompt, so no request is made. */
  lemma OwnToStringBlocksPrompt(jobDescription: Json)
    ensures var resumeContent := Obj(map["toString" := Num(1)]);
      && Truthy(resumeContent)
      && MatchJdUserContent(resumeContent, jobDescription).None?
      && ImproveUserContent(resumeContent, None, _ => "[]").None?
      && InterviewUserContent(resumeContent, Some(jobDescription)).None?
      && CoverLetterUserContent(Some(resumeContent), jobDescription).None?
  {
  }

  // ---------------------------------------------------------------------------
  // Reply handling: defaulting, the greedy `{ … }` span, parse or fall back

  /** `content || '{}'`: a missing or empty reply reads as an empty object. */
  function ReplyText(content: Option<string>): (text: string)
    ensures text != ""
    ensures content.Some? && content.value != "" ==> text == content.value
    ensures content.None? || content.value == "" ==> text == "{}"
  {
    if content.Some? && content.value != "" then content.value else "{}"
  }

  /** The first index at or after `from` holding `c`. */
  function IndexFrom(s: string, c: char, from: nat): (r: Option<nat>)
    requires from <= |s|
    ensures r.Some? ==> from <= r.value < |s| && s[r.value] == c
    ensures r.Some? ==> forall k :: from <= k < r.value ==> s[k] != c
    ensures r.None? ==> forall k :: from <= k < |s| ==> s[k] != c
    decreases |s| - from
  {
    if from == |s| then None
    else if s[from] == c then Some(from)
    else IndexFrom(s, c, from + 1)
  }

  /** The last index below `upto` holding `c`. */
  function LastIndexBelow(s: string, c: char, upto: nat): (r: Option<nat>)
    requires upto <= |s|
    ensures r.Some? ==> r.value < upto && s[r.value] == c
    ensures r.Some? ==> forall k :: r.value < k < upto ==> s[k] != c
    ensures r.None? ==> forall k :: 0 <= k < upto ==> s[k] != c
  {
    if upto == 0 then None
    else if s[upto - 1] == c then Some(upto - 1)
    else LastIndexBelow(s, c, upto - 1)
  }

  /** Where `/\{[\s\S]*\}/` matches: from the first `{` to the last `}`, present exactly
      when some `{` comes before some `}`. */
  function JsonSpan(s: string): (span: Option<(nat, nat)>)
    ensures span.Some? <==> exists i, j :: 0 <= i < j < |s| && s[i] == '{' && s[j] == '}'
    ensures span.Some? ==>
      var (start, end) := span.value;
      && start < end < |s| && s[start] == '{' && s[end] == '}'
      && (forall k :: 0 <= k < start ==> s[k] != '{')
      && (forall k :: end < k < |s| ==> s[k] != '}')
  {
    var first := IndexFrom(s, '{', 0);
    var last := LastIndexBelow(s, '}', |s|);
    if first.Some? && last.Some? && first.value < last.value then
      Some((first.value, last.value))
    else
      None
  }

  /** The text handed to `JSON.parse`: the matched span, or the whole reply when there is none. */
  function JsonCandidate(reply: string): (candidate: string)
    ensures JsonSpan(reply).None? ==> candidate == reply
    ensures JsonSpan(reply).Some? ==>
      var (start, end) := JsonSpan(reply).value;
      && candidate == reply[start..end + 1]
      && |candidate| >= 2 && candidate[0] == '{' && candidate[|candidate| - 1] == '}'
  {
    match JsonSpan(reply)
    case Some((start, end)) => reply[start..end + 1]
    case None => reply
  }

  /** The body of each handler's inner `try`: whatever `JSON.parse` returns is kept as it
      is, with no check of its keys or shape; when it throws, the task's fallback is used. */
  function Decode(reply: string, parse: string -> Option<Json>, fallback: Json): (v: Json)
    ensures parse(JsonCandidate(reply)).Some? ==> v == parse(JsonCandidate(reply)).value
    ensures parse(JsonCandidate(reply)).None? ==> v == fallback
  {
    match parse(JsonCandidate(reply))
    case Some(parsed) => parsed
    case None => fallback
  }

  /** Prose without braces around one `{ … }` is cut away, whatever the braces enclose. */
  lemma {:induction false} CandidateOfWrapped(prose: string, body: string, trailer: string)
    requires '{' !in prose && '}' !in trailer
    ensures JsonCandidate(prose + "{" + body + "}" + trailer) == "{" + body + "}"
  {
    var s := prose + "{" + body + "}" + trailer;
    var b, e := |prose|, |prose| + |body| + 1;
    assert s[b] == '{' && s[e] == '}';
    var (start, end) := JsonSpan(s).value;
    assert start == b;
    assert end == e;
    assert s[b..e + 1] == "{" + body + "}";
  }

  /** The span is greedy: two objects with prose between them are captured together. */
  lemma CandidateOfTwoObjects()
    ensures JsonCandidate("{\"a\":1} or {\"b\":2}") == "{\"a\":1} or {\"b\":2}"
  {
  }

  /** A `}` that comes only before every `{` gives no span, and the whole reply is parsed. */
  lemma CandidateWithoutSpan()
    ensures JsonCandidate("} then {") == "} then {"
  {
  }

  // ---------------------------------------------------------------------------
  // Fallback payloads, used when `JSON.parse` throws

  function AnalyzeFallbackSections(): (sections: Sections)
    ensures forall section :: section in sections.AsList() ==> section.present
  {
    Sections(
      SectionAnalysis(true, 70, ["Could use more specific technical skills"], ["Add measurable skills"]),
      SectionAnalysis(true, 65, ["Bullet points could be more impactful"], ["Use action verbs"]),
      SectionAnalysis(true, 80, [], []),
      SectionAnalysis(true, 60, ["Missing industry keywords"], ["Add relevant keywords"]),
      SectionAnalysis(true, 70, ["Consider simpler formatting"], ["Use standard fonts"]))
  }

  const AnalyzeFallbackMissingItems := ["Contact information could be more prominent", "Summary section recommended"]
  const AnalyzeFallbackSuggestions := ["Add more quantifiable achievements", "Include relevant certifications"]

  function AnalyzeFallback(): (v: Json)
    ensures v.Obj? && v.fields.Keys == {"atsScore", "sections", "missingItems", "suggestions"}
    ensures v.fields["atsScore"] == Num(65)
    ensures v.fields["sections"] == SectionsJson(AnalyzeFallbackSections())
  {
    Obj(map[
      "atsScore" := Num(65),
      "sections" := SectionsJson(AnalyzeFallbackSections()),
      "missingItems" := Strings(AnalyzeFallbackMissingItems),
      "suggestions" := Strings(AnalyzeFallbackSuggestions)])
  }

  function MatchJdFallback(): (r: JdMatchResult)
    ensures r.matchPercentage == 60 && |r.matchedSkills| == 3
  {
    JdMatchResult(
      60,
      ["Communication", "Problem Solving", "Team Collaboration"],
      ["Specific technical skill from JD"],
      ["Industry-specific terminology"],
      ["Tailor your resume to include keywords from the job description"])
  }

  const ImproveSummary :=
    "Enhanced bullet points with action verbs, quantifiable metrics, and specific achievements while maintaining accuracy."
  const ImproveOriginalPoints := ["Worked on various projects", "Helped team achieve goals", "Managed daily tasks"]
  const ImproveImprovedPoints := [
    "Led development of 5+ cross-functional projects, delivering results 20% ahead of schedule",
    "Collaborated with 12-person team to exceed quarterly targets by 15%",
    "Streamlined operational workflows, reducing task completion time by 30%"]

  function ImproveFallback(): (r: ImprovedResume)
    ensures |r.originalPoints| == 3 && |r.improvedPoints| == 3 && r.downloadReady
  {
    ImprovedResume(ImproveOriginalPoints, ImproveImprovedPoints, ImproveSummary, true)
  }

  const HrFallbackQuestions := [
    InterviewQuestion(HrCategory, "Tell me about yourself and your career journey.", Some("Focus on relevant experience and career highlights")),
    InterviewQuestion(HrCategory, "Why are you interested in this position?", Some("Connect your skills to the job requirements")),
    InterviewQuestion(HrCategory, "What are your greatest strengths?", Some("Provide specific examples from your experience"))]
  const TechnicalFallbackQuestions := [
    InterviewQuestion(TechnicalCategory, "Describe your experience with the tools mentioned in your resume.", Some("Be specific about projects and outcomes")),
    InterviewQuestion(TechnicalCategory, "How do you stay updated with industry trends?", Some("Mention courses, certifications, or communities")),
    InterviewQuestion(TechnicalCategory, "Walk me through a challenging technical problem you solved.", Some("Use the STAR method"))]
  const SituationalFallbackQuestions := [
    InterviewQuestion(SituationalCategory, "Describe a time you had to work under pressure.", Some("Focus on the outcome and what you learned")),
    InterviewQuestion(SituationalCategory, "Tell me about a conflict with a coworker and how you resolved it.", Some("Emphasize communication and collaboration")),
    InterviewQuestion(SituationalCategory, "Give an example of when you had to learn something quickly.", Some("Show adaptability and growth mindset"))]

  function InterviewFallback(): (questions: seq<InterviewQuestion>)
    ensures |questions| == 9
    ensures |OfCategory(questions, HrCategory)| == 3
    ensures |OfCategory(questions, TechnicalCategory)| == 3
    ensures |OfCategory(questions, SituationalCategory)| == 3
  {
    FallbackCounts(HrFallbackQuestions, TechnicalFallbackQuestions, SituationalFallbackQuestions);
    HrFallbackQuestions + TechnicalFallbackQuestions + SituationalFallbackQuestions
  }

  lemma {:induction false} FallbackCounts(hr: seq<InterviewQuestion>, technical: seq<InterviewQuestion>, situational: seq<InterviewQuestion>)
    requires |hr| == |technical| == |situational| == 3
    requires forall q :: q in hr ==> q.category == HrCategory
    requires forall q :: q in technical ==> q.category == TechnicalCategory
    requires forall q :: q in situational ==> q.category == SituationalCategory
    ensures |OfCategory(hr + technical + situational, HrCategory)| == 3
    ensures |OfCategory(hr + technical + situational, TechnicalCategory)| == 3
    ensures |OfCategory(hr + technical + situational, SituationalCategory)| == 3
  {
    SplitByBlocks(hr, technical, situational, HrCategory);
    SplitByBlocks(hr, technical, situational, TechnicalCategory);
    SplitByBlocks(hr, technical, situational, SituationalCategory);
  }

  lemma {:induction false} SplitByBlocks(a: seq<InterviewQuestion>, b: seq<InterviewQuestion>, c: seq<InterviewQuestion>, category: string)
    ensures OfCategory(a + b + c, category) == OfCategory(a, category) + OfCategory(b, category) + OfCategory(c, category)
    ensures (forall q :: q in a ==> q.category == category) ==> OfCategory(a, category) == a
    ensures (forall q :: q in a ==> q.category != category) ==> OfCategory(a, category) == []
    ensures (forall q :: q in b ==> q.category == category) ==> OfCategory(b, category) == b
    ensures (forall q :: q in b ==> q.category != category) ==> OfCategory(b, category) == []
    ensures (forall q :: q in c ==> q.category == category) ==> OfCategory(c, category) == c
    ensures (forall q :: q in c ==> q.category != category) ==> OfCategory(c, category) == []
  {
    OfCategoryAppend(a + b, c, category);
    OfCategoryAppend(a, b, category);
    OfCategoryUniform(a, category);
    OfCategoryUniform(b, category);
    OfCategoryUniform(c, category);
  }

  const CoverLetterFallbackText :=
    "Dear Hiring Manager,\n\n"
    + "I am writing to express my strong interest in the position advertised. With my background and skills, I am confident I would be a valuable addition to your team.\n\n"
    + "Throughout my career, I have developed expertise in areas directly relevant to this role. I am passionate about delivering high-quality work and contributing to team success.\n\n"
    + "I am excited about the opportunity to bring my experience to your organization and would welcome the chance to discuss how I can contribute to your team's goals.\n\n"
    + "Thank you for considering my application. I look forward to the opportunity to speak with you.\n\n"
    + "Best regards"

  /** The cover-letter fallback is stamped with the time it was built. */
  function CoverLetterFallback(now: string): (letter: CoverLetter)
    ensures letter.generatedAt == now && letter.content != ""
  {
    CoverLetter(CoverLetterFallbackText, now)
  }

  // ---------------------------------------------------------------------------
  // Result assembly

  const MetadataKeys := {"id", "fileName", "fileSize", "uploadedAt", "resumeContent"}

  function Metadata(id: string, fileName: string, fileSize: int, uploadedAt: string, resumeContent: string): (m: map<string, Json>)
    ensures m.Keys == MetadataKeys
    ensures m["id"] == Str(id) && m["fileName"] == Str(fileName) && m["fileSize"] == Num(fileSize)
    ensures m["uploadedAt"] == Str(uploadedAt) && m["resumeContent"] == Str(resumeContent)
  {
    map["id" := Str(id), "fileName" := Str(fileName), "fileSize" := Num(fileSize),
        "uploadedAt" := Str(uploadedAt), "resumeContent" := Str(resumeContent)]
  }

  /** `{ id, fileName, fileSize, uploadedAt, resumeContent, ...analysis }`: every property
      of the analysis is copied and wins over the metadata written before it; a metadata
      key the analysis lacks keeps its request-derived value. */
  function AnalysisRecord(id: string, fileName: string, fileSize: int, uploadedAt: string, resumeContent: string, analysis: Json)
    : (record: map<string, Json>)
    ensures record.Keys == MetadataKeys + SpreadEntries(analysis).Keys
    ensures forall k :: k in SpreadEntries(analysis) ==> record[k] == SpreadEntries(analysis)[k]
    ensures forall k :: k in MetadataKeys && k !in SpreadEntries(analysis) ==>
      record[k] == Metadata(id, fileName, fileSize, uploadedAt, resumeContent)[k]
  {
    Metadata(id, fileName, fileSize, uploadedAt, resumeContent) + SpreadEntries(analysis)
  }

  /** `if (!result.generatedAt) result.generatedAt = now` followed by serialisation.
      An object gets the stamp only when its `generatedAt` is missing or falsy; an array
      takes the property but serialises without it; on `null` the read throws, and on a
      boolean, number or string the assignment throws (the module is taken to run in strict mode),
      which `None` stands for. */
  function StampGeneratedAt(result: Json, now: string): (stamped: Option<Json>)
    ensures result.Obj? ==> stamped.Some? && stamped.value.Obj?
    ensures result.Obj? && Given(Field(result.fields, "generatedAt")) ==> stamped == Some(result)
    ensures result.Obj? && !Given(Field(result.fields, "generatedAt")) ==>
      stamped.value.fields == result.fields["generatedAt" := Str(now)]
    ensures result.Arr? ==> stamped == Some(result)
    ensures stamped.None? <==> result.Null? || result.Bool? || result.Num? || result.Str?
  {
    match result
    case Obj(fields) =>
      if Given(Field(fields, "generatedAt")) then Some(result) else Some(Obj(fields["generatedAt" := Str(now)]))
    case Arr(_) => Some(result)
    case _ => None
  }

  /** Stamping a non-empty time twice is stamping once: the first stamp makes
      `generatedAt` truthy, so the second leaves the result alone. */
  lemma StampIdempotent(result: Json, now: string, later: string)
    requires now != ""
    requires StampGeneratedAt(result, now).Some?
    ensures StampGeneratedAt(StampGeneratedAt(result, now).value, later) == StampGeneratedAt(result, now)
  {
  }

  /** An empty reply reads as `{}`; when that parses to the empty object, the analysis
      record carries the request metadata and nothing else. */
  lemma EmptyReplyAnalysis(
    content: Option<string>, parse: string -> Option<Json>,
    id: string, fileName: string, fileSize: int, uploadedAt: string, resumeContent: string)
    requires content.None? || content.value == ""
    requires parse("{}") == Some(Obj(map[]))
    ensures AnalysisRecord(id, fileName, fileSize, uploadedAt, resumeContent,
              Decode(ReplyText(content), parse, AnalyzeFallback()))
            == Metadata(id, fileName, fileSize, uploadedAt, resumeContent)
  {
    EmptyReplyDecodes(content, parse, AnalyzeFallback());
    RecordOfEmptyObject(id, fileName, fileSize, uploadedAt, resumeContent);
  }

  lemma RecordOfEmptyObject(id: string, fileName: string, fileSize: int, uploadedAt: string, resumeContent: string)
    ensures AnalysisRecord(id, fileName, fileSize, uploadedAt, resumeContent, Obj(map[]))
            == Metadata(id, fileName, fileSize, uploadedAt, resumeContent)
  {
    var m := Metadata(id, fileName, fileSize, uploadedAt, resumeContent);
    assert SpreadEntries(Obj(map[])) == map[];
    assert m + map[] == m;
  }

  lemma EmptyReplyDecodes(content: Option<string>, parse: string -> Option<Json>, fallback: Json)
    requires content.None? || content.value == ""
    requires parse("{}") == Some(Obj(map[]))
    ensures Decode(ReplyText(content), parse, fallback) == Obj(map[])
  {
    assert ReplyText(content) == "{}";
    assert JsonSpan("{}") == Some((0, 1));
    assert JsonCandidate("{}") == "{}";
  }

  // ---------------------------------------------------------------------------
  // The handlers. Each returns the model calls it made, in order, and the response.

  /** POST /api/resume/analyze */
  method HandleAnalyze(
    file: Option<UploadedFile>, model: ModelRequest -> ModelReply, parse: string -> Option<Json>,
    base64: Bytes -> string, utf8: Bytes -> string, id: string, now: string)
    returns (sent: seq<ModelRequest>, response: Response)
    requires file.Some? ==> file.value.size == |file.value.buffer| <= MaxUploadBytes
    ensures response.status == 400 <==> file.None?
    ensures file.None? ==> sent == [] && response == ErrorResponse(400, "No file uploaded")
    ensures file.Some? ==>
      var f := file.value;
      var text := ExtractText(f.buffer, f.mimeType, base64, utf8);
      && sent == [RequestFor(AnalyzeTask, AnalyzeUserContent(text))]
      && (model(sent[0]).Threw? ==> response == ErrorResponse(500, "Failed to analyze resume"))
      && (model(sent[0]).Replied? ==>
            response == Response(200, Obj(AnalysisRecord(id, f.originalName, f.size, now, text,
              Decode(ReplyText(model(sent[0]).content), parse, AnalyzeFallback())))))
  {
    if file.None? {
      return [], ErrorResponse(400, "No file uploaded");
    }
    var upload := file.value;
    var fileContent := ExtractText(upload.buffer, upload.mimeType, base64, utf8);
    var request := RequestFor(AnalyzeTask, AnalyzeUserContent(fileContent));
    sent := [request];
    var reply := model(request);
    if reply.Threw? {
      return sent, ErrorResponse(500, "Failed to analyze resume");
    }
    var analysis := Decode(ReplyText(reply.content), parse, AnalyzeFallback());
    response := Response(200, Obj(AnalysisRecord(id, upload.originalName, upload.size, now, fileContent, analysis)));
  }

  /** POST /api/resume/match-jd */
  method HandleMatchJd(body: map<string, Json>, model: ModelRequest -> ModelReply, parse: string -> Option<Json>)
    returns (sent: seq<ModelRequest>, response: Response)
    ensures var ok := Given(Field(body, "resumeContent")) && Given(Field(body, "jobDescription"));
      && (response.status == 400 <==> !ok)
      && (!ok ==> sent == [] && response == ErrorResponse(400, "Resume content and job description are required"))
      && (ok ==>
            && var content := MatchJdUserContent(body["resumeContent"], body["jobDescription"]);
            && (content.None? ==> sent == [] && response == ErrorResponse(500, "Failed to match job description"))
            && (content.Some? ==>
                  && sent == [RequestFor(MatchJdTask, content.value)]
                  && (model(sent[0]).Threw? ==> response == ErrorResponse(500, "Failed to match job description"))
                  && (model(sent[0]).Replied? ==>
                        response == Response(200, Decode(ReplyText(model(sent[0]).content), parse, JdMatchJson(MatchJdFallback()))))))
  {
    var resumeContent, jobDescription := Field(body, "resumeContent"), Field(body, "jobDescription");
    if !Given(resumeContent) || !Given(jobDescription) {
      return [], ErrorResponse(400, "Resume content and job description are required");
    }
    var content := MatchJdUserContent(resumeContent.value, jobDescription.value);
    if content.None? {
      return [], ErrorResponse(500, "Failed to match job description");
    }
    var request := RequestFor(MatchJdTask, content.value);
    sent := [request];
    var reply := model(request);
    if reply.Threw? {
      return sent, ErrorResponse(500, "Failed to match job description");
    }
    var result := Decode(ReplyText(reply.content), parse, JdMatchJson(MatchJdFallback()));
    response := Response(200, result);
  }

  /** POST /api/resume/improve; `stringify` stands for `JSON.stringify`. */
  method HandleImprove(
    body: map<string, Json>, model: ModelRequest -> ModelReply, parse: string -> Option<Json>, stringify: Json -> string)
    returns (sent: seq<ModelRequest>, response: Response)
    ensures var ok := Given(Field(body, "resumeContent"));
      && (response.status == 400 <==> !ok)
      && (!ok ==> sent == [] && response == ErrorResponse(400, "Resume content is required"))
      && (ok ==>
            && var content := ImproveUserContent(body["resumeContent"], Field(body, "suggestions"), stringify);
            && (content.None? ==> sent == [] && response == ErrorResponse(500, "Failed to improve resume"))
            && (content.Some? ==>
                  && sent == [RequestFor(ImproveTask, content.value)]
                  && (model(sent[0]).Threw? ==> response == ErrorResponse(500, "Failed to improve resume"))
                  && (model(sent[0]).Replied? ==>
                        response == Response(200, Decode(ReplyText(model(sent[0]).content), parse, ImprovedJson(ImproveFallback()))))))
  {
    var resumeContent, suggestions := Field(body, "resumeContent"), Field(body, "suggestions");
    if !Given(resumeContent) {
      return [], ErrorResponse(400, "Resume content is required");
    }
    var content := ImproveUserContent(resumeContent.value, suggestions, stringify);
    if content.None? {
      return [], ErrorResponse(500, "Failed to improve resume");
    }
    var request := RequestFor(ImproveTask, content.value);
    sent := [request];
    var reply := model(request);
    if reply.Threw? {
      return sent, ErrorResponse(500, "Failed to improve resume");
    }
    var result := Decode(ReplyText(reply.content), parse, ImprovedJson(ImproveFallback()));
    response := Response(200, result);
  }

  /** POST /api/resume/interview-questions */
  method HandleInterviewQuestions(body: map<string, Json>, model: ModelRequest -> ModelReply, parse: string -> Option<Json>)
    returns (sent: seq<ModelRequest>, response: Response)
    ensures var ok := Given(Field(body, "resumeContent"));
      && (response.status == 400 <==> !ok)
      && (!ok ==> sent == [] && response == ErrorResponse(400, "Resume content is required"))
      && (ok ==>
            && var content := InterviewUserContent(body["resumeContent"], Field(body, "jobDescription"));
            && (content.None? ==> sent == [] && response == ErrorResponse(500, "Failed to generate interview questions"))
            && (content.Some? ==>
                  && sent == [RequestFor(InterviewQuestionsTask, content.value)]
                  && (model(sent[0]).Threw? ==> response == ErrorResponse(500, "Failed to generate interview questions"))
                  && (model(sent[0]).Replied? ==>
                        response == Response(200, Decode(ReplyText(model(sent[0]).content), parse, QuestionsJson(InterviewFallback()))))))
  {
    var resumeContent, jobDescription := Field(body, "resumeContent"), Field(body, "jobDescription");
    if !Given(resumeContent) {
      return [], ErrorResponse(400, "Resume content is required");
    }
    var content := InterviewUserContent(resumeContent.value, jobDescription);
    if content.None? {
      return [], ErrorResponse(500, "Failed to generate interview questions");
    }
    var request := RequestFor(InterviewQuestionsTask, content.value);
    sent := [request];
    var reply := model(request);
    if reply.Threw? {
      return sent, ErrorResponse(500, "Failed to generate interview questions");
    }
    var result := Decode(ReplyText(reply.content), parse, QuestionsJson(InterviewFallback()));
    response := Response(200, result);
  }

  /** POST /api/resume/cover-letter. `now` is the ISO-8601 time read by `new Date()`; at
      most one of the two reads in the source is used on any path. */
  method HandleCoverLetter(body: map<string, Json>, model: ModelRequest -> ModelReply, parse: string -> Option<Json>, now: string)
    returns (sent: seq<ModelRequest>, response: Response)
    requires now != ""
    ensures var ok := Given(Field(body, "jobDescription"));
      && (response.status == 400 <==> !ok)
      && (!ok ==> sent == [] && response == ErrorResponse(400, "Job description is required"))
      && (ok ==>
            && var content := CoverLetterUserContent(Field(body, "resumeContent"), body["jobDescription"]);
            && (content.None? ==> sent == [] && response == ErrorResponse(500, "Failed to generate cover letter"))
            && (content.Some? ==>
                  && sent == [RequestFor(CoverLetterTask, content.value)]
                  && (model(sent[0]).Threw? ==> response == ErrorResponse(500, "Failed to generate cover letter"))
                  && (model(sent[0]).Replied? ==>
                        var result := Decode(ReplyText(model(sent[0]).content), parse, CoverLetterJson(CoverLetterFallback(now)));
                        response == match StampGeneratedAt(result, now)
                                    case Some(stamped) => Response(200, stamped)
                                    case None => ErrorResponse(500, "Failed to generate cover letter"))))
  {
    var resumeContent, jobDescription := Field(body, "resumeContent"), Field(body, "jobDescription");
    if !Given(jobDescription) {
      return [], ErrorResponse(400, "Job description is required");
    }
    var content := CoverLetterUserContent(resumeContent, jobDescription.value);
    if content.None? {
      return [], ErrorResponse(500, "Failed to generate cover letter");
    }
    var request := RequestFor(CoverLetterTask, content.value);
    sent := [request];
    var reply := model(request);
    if reply.Threw? {
      return sent, ErrorResponse(500, "Failed to generate cover letter");
    }
    var result := Decode(ReplyText(reply.content), parse, CoverLetterJson(CoverLetterFallback(now)));
    var stamped := StampGeneratedAt(result, now);
    if stamped.None? {
      return sent, ErrorResponse(500, "Failed to generate cover letter");
    }
    response := Response(200, stamped.value);
  }
}
