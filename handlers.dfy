/** The request handlers that build a model prompt or post-process a reply:
    `/ask`, `/createstudyplan`, `/extract-dates` and `/extract-calendar`.
    The model itself is a parameter (`complete`), as is the JSON parser. */
module Handlers {
  import opened Wrappers
  import opened Text
  import opened Upload
  import opened Documents
  import opened DateScan

  const NoQuestion := "No question provided."
  const NotFoundPrefix := "No document found for filename: "

  function NotFound(filename: string): HttpError
  {
    HttpError(404, NotFoundPrefix + filename, None)
  }

  /** The document text a handler works from: none when no file name is
      given, the stored content when the name is known, 404 otherwise. */
  function Lookup(docs: map<string, Record>, filename: string): (r: Result<string, HttpError>)
    ensures filename == "" ==> r == Success("")
    ensures filename != "" ==> (r.Success? <==> filename in docs)
    ensures r.Success? && filename != "" ==> r.value == docs[filename].content
    ensures r.Failure? ==> r.error.status == 404 && r.error == NotFound(filename)
  {
    if filename == "" then Success("")
    else if filename in docs then Success(docs[filename].content)
    else Failure(NotFound(filename))
  }

  // ---------------------------------------------------------------- /ask

  const AskPreamble :=
    "If the user greets you, respond with a greeting and explain your role only once. "
    + "Analyze the file content and answer the question based on what you learn. "
    + "If the answer cannot be determined from the document, respond with "
    + "'Hm...I can't seem to find the answer to that in your document. '\n\n"
  const ContentLabel := "Document Content:\n"
  const QuestionLabel := "\n\nQuestion: "

  function AskPrompt(content: string, question: string): string
  {
    AskPreamble + ContentLabel + content + QuestionLabel + question
  }

  /** The prompt holds the document and the question at fixed places, so
      both can be read back from it given the document's length. */
  lemma AskPromptParts(content: string, question: string)
    ensures var p, h := AskPrompt(content, question), |AskPreamble + ContentLabel|;
      && AskPreamble + ContentLabel <= p
      && p[h..h + |content|] == content
      && p[h + |content|..h + |content| + |QuestionLabel|] == QuestionLabel
      && p[h + |content| + |QuestionLabel|..] == question
  {
    var p, h := AskPrompt(content, question), |AskPreamble + ContentLabel|;
    assert p == (AskPreamble + ContentLabel) + content + QuestionLabel + question;
  }

  /** `/ask`: the question is checked first, then the file name; on success
      the result is the prompt sent to the model. */
  function Ask(docs: map<string, Record>, question: string, filename: string): (r: Result<string, HttpError>)
    ensures IsBlank(question) ==> r == Failure(ClientError(NoQuestion))
    ensures r.Success? <==> !IsBlank(question) && (filename == "" || filename in docs)
    ensures !IsBlank(question) && filename != "" && filename !in docs ==> r == Failure(NotFound(filename))
    ensures r.Success? && filename == "" ==> r.value == AskPrompt("", question)
    ensures r.Success? && filename != "" ==> r.value == AskPrompt(docs[filename].content, question)
  {
    if IsBlank(question) then Failure(ClientError(NoQuestion))
    else
      match Lookup(docs, filename)
      case Failure(e) => Failure(e)
      case Success(content) => Success(AskPrompt(content, question))
  }

  // ---------------------------------------------------- /createstudyplan

  /** The form fields; a field the form leaves out is the empty string. */
  datatype StudyForm = StudyForm(
    fileName: string, availability: string, overallStart: string,
    overallEnd: string, topics: string, studyPreference: string)

  const StudyHeader := "Based on the following user preferences, generate a detailed and personalized study plan:"

  /** One optional part of the study-plan prompt. */
  datatype Section =
    | Availability(hours: string)
    | Timeline(start: string, end: string)
    | Topics(topics: string)
    | Preference(style: string)
    | FileText(content: string)
  {
    /** The position of the part in the prompt. */
    function Rank(): nat
    {
      match this
      case Availability(_) => 1
      case Timeline(_, _) => 2
      case Topics(_) => 3
      case Preference(_) => 4
      case FileText(_) => 5
    }

    function Line(): string
    {
      match this
      case Availability(h) =>
        "\n1. Weekly availability: " + h + "."
        + "\n   Note: If the user has selected a larger time block than will take to study a given day's topics, include a time estimate."
      case Timeline(s, e) => "\n2. Study timeline: Start - " + s + ", End - " + e
      case Topics(t) => "\n3. Specific topics to cover: " + t
      case Preference(p) => "\n4. Preferred study method: " + p
      case FileText(c) => "\n\nUse the following file to extract due dates, topics to cover and resources need:\n" + c
    }
  }

  /** Whether `x` belongs in the prompt for `form` and `content`: each part
      appears when its fields are non-empty (the timeline needs both ends). */
  predicate Requested(form: StudyForm, content: string, x: Section)
  {
    match x
    case Availability(h) => h == form.availability && h != ""
    case Timeline(s, e) => s == form.overallStart && e == form.overallEnd && s != "" && e != ""
    case Topics(t) => t == form.topics && t != ""
    case Preference(p) => p == form.studyPreference && p != ""
    case FileText(c) => c == content && c != ""
  }

  function Optional(present: bool, x: Section): seq<Section>
  {
    if present then [x] else []
  }

  /** The parts of the study-plan prompt, in order. */
  function Sections(form: StudyForm, content: string): seq<Section>
  {
    []
    + Optional(form.availability != "", Availability(form.availability))
    + Optional(form.overallStart != "" && form.overallEnd != "", Timeline(form.overallStart, form.overallEnd))
    + Optional(form.topics != "", Topics(form.topics))
    + Optional(form.studyPreference != "", Preference(form.studyPreference))
    + Optional(content != "", FileText(content))
  }

  predicate RanksIncrease(parts: seq<Section>)
  {
    forall i, j :: 0 <= i < j < |parts| ==> parts[i].Rank() < parts[j].Rank()
  }

  predicate RanksBelow(parts: seq<Section>, n: nat)
  {
    forall i :: 0 <= i < |parts| ==> parts[i].Rank() < n
  }

  /** Appending a part of higher rank keeps the ranks increasing. */
  lemma AppendOptional(parts: seq<Section>, present: bool, x: Section)
    requires RanksIncrease(parts) && RanksBelow(parts, x.Rank())
    ensures RanksIncrease(parts + Optional(present, x))
    ensures RanksBelow(parts + Optional(present, x), x.Rank() + 1)
  {
    var r := parts + Optional(present, x);
    assert forall i :: 0 <= i < |parts| ==> r[i] == parts[i];
  }

  lemma OrderedFive(p1: bool, x1: Section, p2: bool, x2: Section, p3: bool, x3: Section,
                    p4: bool, x4: Section, p5: bool, x5: Section)
    requires x1.Rank() < x2.Rank() < x3.Rank() < x4.Rank() < x5.Rank()
    ensures RanksIncrease([] + Optional(p1, x1) + Optional(p2, x2) + Optional(p3, x3)
                             + Optional(p4, x4) + Optional(p5, x5))
  {
    var s0: seq<Section> := [];
    var s1 := s0 + Optional(p1, x1);
    AppendOptional(s0, p1, x1);
    var s2 := s1 + Optional(p2, x2);
    AppendOptional(s1, p2, x2);
    var s3 := s2 + Optional(p3, x3);
    AppendOptional(s2, p3, x3);
    var s4 := s3 + Optional(p4, x4);
    AppendOptional(s3, p4, x4);
    AppendOptional(s4, p5, x5);
  }

  /** The parts come in rank order. */
  lemma SectionsOrdered(form: StudyForm, content: string)
    ensures RanksIncrease(Sections(form, content))
  {
    OrderedFive(
      form.availability != "", Availability(form.availability),
      form.overallStart != "" && form.overallEnd != "", Timeline(form.overallStart, form.overallEnd),
      form.topics != "", Topics(form.topics),
      form.studyPreference != "", Preference(form.studyPreference),
      content != "", FileText(content));
  }

  lemma MemberFive(p1: bool, x1: Section, p2: bool, x2: Section, p3: bool, x3: Section,
                   p4: bool, x4: Section, p5: bool, x5: Section, y: Section)
    ensures y in [] + Optional(p1, x1) + Optional(p2, x2) + Optional(p3, x3) + Optional(p4, x4) + Optional(p5, x5)
        <==> (p1 && y == x1) || (p2 && y == x2) || (p3 && y == x3) || (p4 && y == x4) || (p5 && y == x5)
  {
  }

  /** A part is in the prompt exactly when it was requested. */
  lemma SectionsMember(form: StudyForm, content: string, x: Section)
    ensures x in Sections(form, content) <==> Requested(form, content, x)
  {
    MemberFive(
      form.availability != "", Availability(form.availability),
      form.overallStart != "" && form.overallEnd != "", Timeline(form.overallStart, form.overallEnd),
      form.topics != "", Topics(form.topics),
      form.studyPreference != "", Preference(form.studyPreference),
      content != "", FileText(content), x);
  }

  /** The study-plan prompt made of `parts`: the header, then each part. */
  function StudyPrompt(parts: seq<Section>): string
  {
    if |parts| == 0 then StudyHeader else StudyPrompt(parts[..|parts| - 1]) + parts[|parts| - 1].Line()
  }

  function PartText(present: bool, x: Section): string
  {
    if present then x.Line() else ""
  }

  lemma StudyPromptOptional(parts: seq<Section>, present: bool, x: Section)
    ensures StudyPrompt(parts + Optional(present, x)) == StudyPrompt(parts) + PartText(present, x)
  {
    if present {
      assert (parts + [x])[..|parts|] == parts;
    } else {
      assert parts + [] == parts;
    }
  }

  /** Appending five optional parts one `+=` at a time renders them in
      that order. */
  lemma StudyPromptFive(p1: bool, x1: Section, p2: bool, x2: Section, p3: bool, x3: Section,
                        p4: bool, x4: Section, p5: bool, x5: Section)
    ensures StudyPrompt([] + Optional(p1, x1) + Optional(p2, x2) + Optional(p3, x3) + Optional(p4, x4) + Optional(p5, x5))
         == StudyHeader + PartText(p1, x1) + PartText(p2, x2) + PartText(p3, x3) + PartText(p4, x4) + PartText(p5, x5)
  {
    var s0: seq<Section> := [];
    var s1 := s0 + Optional(p1, x1);
    var s2 := s1 + Optional(p2, x2);
    var s3 := s2 + Optional(p3, x3);
    var s4 := s3 + Optional(p4, x4);
    StudyPromptOptional(s0, p1, x1);
    StudyPromptOptional(s1, p2, x2);
    StudyPromptOptional(s2, p3, x3);
    StudyPromptOptional(s3, p4, x4);
    StudyPromptOptional(s4, p5, x5);
  }

  /** Every study-plan prompt starts with the fixed header. */
  lemma {:induction false} StudyPromptStartsWithHeader(parts: seq<Section>)
    ensures StudyHeader <= StudyPrompt(parts)
  {
    if |parts| > 0 {
      StudyPromptStartsWithHeader(parts[..|parts| - 1]);
    }
  }

  /** The file's text, when there is one, closes the prompt. */
  lemma StudyPromptEndsWithFile(form: StudyForm, content: string)
    requires content != ""
    ensures var p := StudyPrompt(Sections(form, content)); var tail := FileText(content).Line();
      |tail| <= |p| && p[|p| - |tail|..] == tail
  {
  }

  /** One `prompt +=` step: append the part when it was requested. */
  method AppendPart(prompt: string, present: bool, x: Section) returns (next: string)
    ensures next == prompt + PartText(present, x)
  {
    next := prompt;
    if present {
      next := prompt + x.Line();
    }
  }

  /** The `prompt +=` steps: start from the header and append each part
      that was requested, in the order given. */
  method BuildStudyPrompt(p1: bool, x1: Section, p2: bool, x2: Section, p3: bool, x3: Section,
                          p4: bool, x4: Section, p5: bool, x5: Section) returns (prompt: string)
    ensures prompt == StudyPrompt([] + Optional(p1, x1) + Optional(p2, x2) + Optional(p3, x3)
                                     + Optional(p4, x4) + Optional(p5, x5))
  {
    prompt := StudyHeader;
    prompt := AppendPart(prompt, p1, x1);
    prompt := AppendPart(prompt, p2, x2);
    prompt := AppendPart(prompt, p3, x3);
    prompt := AppendPart(prompt, p4, x4);
    prompt := AppendPart(prompt, p5, x5);
    StudyPromptFive(p1, x1, p2, x2, p3, x3, p4, x4, p5, x5);
  }

  /** `/createstudyplan`: look up the named document (404 when it is
      missing), then build the prompt from the requested parts: the
      availability, the timeline (only when both ends are given), the
      topics, the study method and the document's text. */
  method CreateStudyPlan(docs: map<string, Record>, form: StudyForm) returns (r: Result<string, HttpError>)
    ensures Lookup(docs, form.fileName).Failure? ==> r == Failure(NotFound(form.fileName))
    ensures Lookup(docs, form.fileName).Success? ==>
              r == Success(StudyPrompt(Sections(form, Lookup(docs, form.fileName).value)))
  {
    var fileContent := "";
    if form.fileName != "" {
      if form.fileName in docs {
        fileContent := docs[form.fileName].content;
      } else {
        return Failure(NotFound(form.fileName));
      }
    }
    var prompt := BuildStudyPrompt(
      form.availability != "", Availability(form.availability),
      form.overallStart != "" && form.overallEnd != "", Timeline(form.overallStart, form.overallEnd),
      form.topics != "", Topics(form.topics),
      form.studyPreference != "", Preference(form.studyPreference),
      fileContent != "", FileText(fileContent));
    r := Success(prompt);
  }

  // ------------------------------------------------------- /extract-dates

  /** `/extract-dates`: validate the upload, join the page texts and report
      every date mention found in them. */
  method ExtractDatesFromUpload(part: Option<FilePart>, pages: seq<Option<string>>)
    returns (r: Result<seq<DateEvent>, HttpError>)
    ensures Validate(part).Failure? ==> r == Failure(Validate(part).error)
    ensures Validate(part).Success? ==>
              var found := FindAll(ExtractText(pages));
              && r.Success? && |r.value| == |found|
              && forall k :: 0 <= k < |found| ==> r.value[k] == DateEvent(found[k], EventLabel)
  {
    var checked := Validate(part);
    if checked.Failure? {
      return Failure(checked.error);
    }
    var events := LabelDates(FindAll(ExtractText(pages)));
    r := Success(events);
  }

  // ---------------------------------------------------- /extract-calendar

  /** A parsed JSON value. */
  datatype Json =
    | JNull
    | JBool(b: bool)
    | JNumber(literal: string)
    | JString(s: string)
    | JArray(items: seq<Json>)
    | JObject(fields: seq<(string, Json)>)

  const CalendarInstructions :=
    "Extract all dates and events from the given text. "
    + "Output only a JSON array with each entry in the format: "
    + "{\"date\": \"mm-dd\", \"title\": \"...\", \"task\": \"...\"} and ensure all dates are in the \"mm-dd\" format. "
    + "Do not include any text outside the JSON array.\n\n"
  const ParseFailed := "Failed to parse GPT output"
  const NotAnArray := "Output is not a JSON array"

  function CalendarPrompt(text: string): (r: string)
    ensures CalendarInstructions <= r && r[|CalendarInstructions|..] == text
  {
    CalendarInstructions + text
  }

  /** `/extract-calendar`: validate the upload, ask the model for a JSON
      array of events, and answer with that array. A reply that does not
      parse, or parses to something other than an array, is a 500. */
  function ExtractCalendar(
    part: Option<FilePart>, pages: seq<Option<string>>,
    complete: string -> string, parse: string -> Result<Json, string>): (r: Result<seq<Json>, HttpError>)
    ensures Validate(part).Failure? ==> r == Failure(Validate(part).error)
    ensures Validate(part).Success? ==>
              var parsed := parse(Strip(complete(CalendarPrompt(ExtractText(pages)))));
              && (parsed.Failure? ==> r == Failure(HttpError(500, ParseFailed, Some(parsed.error))))
              && (parsed.Success? && !parsed.value.JArray? ==> r == Failure(HttpError(500, ParseFailed, Some(NotAnArray))))
              && (r.Success? <==> parsed.Success? && parsed.value.JArray?)
              && (r.Success? ==> parsed.value == JArray(r.value))
  {
    match Validate(part)
    case Failure(e) => Failure(e)
    case Success(_) =>
      var reply := Strip(complete(CalendarPrompt(ExtractText(pages))));
      match parse(reply)
      case Failure(detail) => Failure(HttpError(500, ParseFailed, Some(detail)))
      case Success(JArray(items)) => Success(items)
      case Success(_) => Failure(HttpError(500, ParseFailed, Some(NotAnArray)))
  }
}
