# Bindr backend: request handling model

Bindr's backend is a Flask service (`backend/app.py`). Users upload PDF
documents to it. It stores each document's extracted text, searches the texts,
and builds prompts for a language model: questions about a document, a study
plan, and a calendar of dates. This project models the request handling that
does not depend on the external services. The services become parameters:
the language model, the PDF reader, the blob URL and the JSON parser.

- `wrappers.dfy` (`Wrappers`): `Option`, `Result` and the HTTP error
  value: status, message and optional details.
- `text.dfy` (`Text`): the Python string operations the handlers use.
  - `str.strip` uses Python's own whitespace set.
  - `str.lower`.
  - `endswith`, `in`, `s[:n]`.
  - `" ".join`.
- `upload.dfy` (`Upload`):
  - the three upload checks shared by `/upload`, `/extract-dates` and
    `/extract-calendar`;
  - the page join;
  - the 500-character preview.
- `documents.dfy` (`Documents`): the "documents" collection as a class
  `DocumentStore`. It holds a map from file name to record and the order in
  which the store lists its records. It has two operations:
  - the `/upload` write;
  - the `/search` loop, proved against the specification function `Matching`.
- `datescan.dfy` (`DateScan`): the regular expression of `/extract-dates`,
  written as a left-to-right scanner that behaves like `re.findall`. Its
  match at each position is proved to be the longest date mention a grammar
  of the pattern admits there. The scan is proved to miss no mention. Then
  comes the loop that labels every match.
- `handlers.dfy` (`Handlers`):
  - the document lookup with its 404;
  - the `/ask` prompt;
  - the study-plan prompt, built with `+=` steps;
  - the `/extract-dates` handler;
  - the `/extract-calendar` decision ("not a list" is a 500).

The comment above the pattern at `backend/app.py:240` lists "MM/DD/YYYY"
among the formats. The pattern itself only matches dates that start with a
month name. The model follows the pattern: `DateScan.NumericDateNotFound`
shows that "05/01/2024" yields no date.

## Model

| member | source | states |
|---|---|---|
| Upload.Validate | backend/app.py:154-163 | An upload is accepted exactly when the file part is present, its name is non-empty and the lower-cased name ends with ".pdf". The checks run in that order. Each failure is a 400 with its own message. On success the file name is returned. |
| Upload.UpperCasePdfAccepted | backend/app.py:162 | "FILE.PDF" is accepted. |
| Upload.TextFileRefused | backend/app.py:162 | "notes.txt" is refused with "Only PDF files are allowed.". |
| Upload.PageTexts | backend/app.py:174 | There is one text per page. A page without text contributes "". |
| Upload.ExtractTextLength | backend/app.py:174 | k pages give a text as long as the page texts together plus k - 1 separating spaces. |
| Upload.ExtractTextPage | backend/app.py:174 | Each page's text appears unchanged at its offset in the joined text. A single space follows it unless it is the last page. |
| Upload.Preview | backend/app.py:188 | The preview is a prefix of the text and at most 500 characters long. It is the whole text when the text is no longer than that, and exactly 500 characters otherwise. |
| Text.TrimStart | backend/app.py:52 | The result is a suffix of the input. Every character dropped is whitespace, and the result does not start with whitespace. |
| Text.TrimEnd | backend/app.py:52 | The result is a prefix of the input. Every character dropped is whitespace, and the result does not end with whitespace. |
| Text.BlankIffAllSpace | backend/app.py:52 | `not s.strip()` holds exactly when every character of `s` is whitespace. |
| Text.ToLower | backend/app.py:208 | Lower-casing keeps the length and lowers each character in place. |
| Text.ContainsIffOccurs | backend/app.py:208 | The substring test succeeds exactly when the pattern occurs at some index of the text. |
| Text.Prefix | backend/app.py:209 | `s[:n]` is a prefix of `s`. It has length `min(n, len(s))`. |
| Text.JoinLength | backend/app.py:174 | A join of k parts is as long as the parts together plus k - 1 separators. |
| Text.JoinPart | backend/app.py:174 | Every part appears unchanged at its offset in the join. |
| Text.JoinSeparator | backend/app.py:174 | Every part but the last is followed by the separator, and the next part starts right after it. |
| Documents.MatchingSound | backend/app.py:206-214 | Every search result is the hit of a stored record whose lower-cased content contains the lower-cased query. |
| Documents.MatchingComplete | backend/app.py:206-214 | Every record that matches the query gives a result with its file name, its URL and its first 500 characters. |
| Documents.MatchingConcat | backend/app.py:206-214 | Results keep the enumeration order. Searching two runs of records gives the first run's results, then the second's. |
| Documents.DocumentStore.Stream | backend/app.py:204 | The enumeration yields one record per stored file name. Every stored record appears in it. |
| Documents.DocumentStore.Upload | backend/app.py:177-189 | A rejected upload returns the validation error and leaves the store unchanged. An accepted upload stores `{filename, url, content}` under the file name. It overwrites any earlier record and leaves every other name unchanged. It answers with the success message, the name, the URL and the 500-character preview of the stored content. The store stays well formed. |
| Documents.DocumentStore.Search | backend/app.py:198-216 | A blank query is a 400 with "Query parameter 'q' is required.". Otherwise the result is `Matching` over the store's enumeration, so `MatchingSound`, `MatchingComplete` and `MatchingConcat` apply. An empty store gives no results. |
| Handlers.Lookup | backend/app.py:57-64 | No file name gives the empty content. A known name gives its stored content. An unknown name gives a 404 "No document found for filename: ...". |
| Handlers.Ask | backend/app.py:52-73 | A blank question is a 400 before any lookup. `/ask` succeeds exactly when the question is not blank and the file name is empty or stored. A missing file is a 404. On success the prompt is built from the stored content, or from "" when no file was named. |
| Handlers.AskPromptParts | backend/app.py:67-73 | The `/ask` prompt is the fixed preamble, "Document Content:\n", the content, "\n\nQuestion: " and the question. Each part can be read back at its position. |
| Handlers.SectionsMember | backend/app.py:116-130 | A part is in the study-plan prompt exactly when it was requested. Availability needs a non-empty availability. The timeline needs both a start and an end. Topics and study method need non-empty values. The file section needs non-empty document content. |
| Handlers.SectionsOrdered | backend/app.py:116-130 | The parts appear in the fixed order 1, 2, 3, 4, then the file section. |
| Handlers.StudyPromptStartsWithHeader | backend/app.py:114 | Every study-plan prompt starts with the fixed header. |
| Handlers.StudyPromptEndsWithFile | backend/app.py:128-130 | When the document has content, the file section closes the prompt. |
| Handlers.StudyPromptOptional | backend/app.py:116-126 | One conditional `+=` appends the part's line when it was requested and nothing otherwise. |
| Handlers.StudyPromptFive | backend/app.py:114-130 | Five conditional `+=` steps after the header give the prompt of the parts that were requested, in that order. |
| Handlers.AppendPart | backend/app.py:116-126 | One `prompt +=` step appends the line of a requested part. |
| Handlers.BuildStudyPrompt | backend/app.py:114-130 | The step-by-step prompt equals the prompt of the requested parts in their order. |
| Handlers.CreateStudyPlan | backend/app.py:104-130 | A named file that is missing is a 404. Otherwise the prompt is the study prompt of exactly the requested parts of the form and the looked-up content. |
| Handlers.ExtractDatesFromUpload | backend/app.py:223-247 | A failed upload check returns that check's 400. Otherwise the result has one entry per date found in the joined page text, in order, each labelled "Event description". |
| Handlers.CalendarPrompt | backend/app.py:290-296 | The calendar prompt is the fixed instructions followed by the document text, unchanged. |
| Handlers.ExtractCalendar | backend/app.py:272-315 | A failed upload check returns that check's 400. The stripped model reply is parsed. A parse failure is a 500 "Failed to parse GPT output" with the parser's message as details. A value that is not an array is a 500 with details "Output is not a JSON array". The handler succeeds exactly when the reply parses to an array, and then returns that array's items. |
| DateScan.SpacesEndRun | backend/app.py:241 | `\s*` scanning stops at the first character that is not whitespace, and everything before it is whitespace. |
| DateScan.DigitsEndRun | backend/app.py:241 | `\d{0,n}` scanning takes digits only, and stops after n digits or at the first non-digit. |
| DateScan.YearEndSound | backend/app.py:241 | A year group the scanner accepts is a comma, whitespace and four digits. |
| DateScan.YearEndComplete | backend/app.py:241 | Every comma, whitespace and four-digit run is accepted by the scanner, with the same end. |
| DateScan.TailEndSound | backend/app.py:241 | A tail the scanner accepts is whitespace, one or two digits and an optional year. |
| DateScan.TailEndLongest | backend/app.py:241 | The scanner finds a tail whenever the grammar admits one, and its tail is at least as long. |
| DateScan.TryMonthsFound | backend/app.py:241 | When the alternatives succeed, some month form occurs at the position and its tail decides the match. |
| DateScan.TryMonthsNone | backend/app.py:241 | When the alternatives fail, no month form occurring there is followed by a tail. |
| DateScan.MonthsAreLetters | backend/app.py:241 | Every month alternative is a non-empty run of letters. |
| DateScan.TokenUnique | backend/app.py:241 | At most one month form at a position is followed by whitespace. So the alternatives' order only decides between forms that cannot both start a date. |
| DateScan.MatchAtIsLongestDate | backend/app.py:241 | A match at a position is a date mention by the grammar of the pattern, and no date mention there is longer. |
| DateScan.NoMatchNoDate | backend/app.py:241 | Where the pattern does not match, no date mention starts. |
| DateScan.Scan | backend/app.py:242 | The matches lie inside the text, are non-empty and do not overlap, and are listed left to right. |
| DateScan.ScanSpansMatch | backend/app.py:242 | Every span the scan reports is the pattern's match at its start. |
| DateScan.ScanComplete | backend/app.py:242 | Every position where the pattern matches is covered by a reported span. |
| DateScan.FindAll | backend/app.py:242 | `re.findall` returns the text of every reported span, in order. |
| DateScan.FindAllSpansAreLongestDates | backend/app.py:241-242 | Every found date is the longest date mention at its start, and found dates do not overlap. |
| DateScan.FindAllMissesNothing | backend/app.py:241-242 | Every date mention in the text starts inside a found date. |
| DateScan.DateStartsWithLetter | backend/app.py:241 | A date mention starts with a letter. |
| DateScan.ScanWithoutLetters | backend/app.py:241-242 | Text without letters holds no date. |
| DateScan.LabelDates | backend/app.py:245-247 | There is one event per found date, in order, each labelled "Event description". |
| DateScan.DayHasAtMostTwoDigits | backend/app.py:241 | "Jan 123" yields "Jan 12". |
| DateScan.ShortYearLeftOut | backend/app.py:241 | "Jan 5, 24" yields "Jan 5". |
| DateScan.FullDateWithYear | backend/app.py:241 | "January 5, 2024" yields itself. |
| DateScan.NoDateInSept | backend/app.py:241 | No date mention starts anywhere in "Sept 5". |
| DateScan.SeptNotAMonthForm | backend/app.py:241 | "Sept" is not one of the month forms. |
| DateScan.SeptIsNotAMonth | backend/app.py:241 | "Sept 5" yields no date. |
| DateScan.NumericDateNotFound | backend/app.py:240-241 | "05/01/2024" yields no date. |

## Left out

- The language-model calls at lines 76-83, 134-143 and 299-305 are remote services. `/ask` and the study plan stop at the prompt they send. `/extract-calendar` takes the model as a function parameter `complete`.
- Cloud Storage is an external service. The blob upload, `make_public` and `public_url` are not modelled; the public URL is an input of `DocumentStore.Upload`.
- `list_files` (lines 255-267) only lists the bucket's blobs, so it is not modelled.
- PyPDF2 text extraction is a foreign library. The pages arrive as `seq<Option<string>>`, where `None` stands for a page without text.
- `json.loads` is a library parser. It is a parameter of `ExtractCalendar`, and only the "not a list → 500" decision is modelled.
- The `except Exception` paths that answer 500 are not modelled. They fire only when an external call fails.
- Flask plumbing is not modelled: request parsing, CORS, the request logging hook, `print`, and credential and `.env` loading.
- A JSON body that is not an object, or a `question` that is not a string, makes `/ask` fail in Flask before the handler answers. The model takes the question as a string.
- Form fields that are absent (`None`) and empty behave alike in `/createstudyplan` (both are falsy). The model represents both as "".
- A stored record without a "content" field, read with `.get("content", "")`, is not modelled: every record the model stores has content, as `/upload` writes it.
- Documents.DocumentStore.Upload: the order in which Firestore streams documents is not modelled. A new file name is appended to the store's enumeration order, and an existing name keeps its place.
- Documents.DocumentStore.Search: `Stream()` follows that insertion order, not Firestore's own ordering.
- Text.ToLower: only ASCII letters are lower-cased. Python's full Unicode case mapping is not modelled.
- DateScan.FindAll: `\d` and the word characters behind `\b` are ASCII here. Python's `str` patterns also accept other Unicode digits and letters. `\s` uses Python's whitespace set.
