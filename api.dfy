/**
 * The HTTP endpoints of the Greek Derby API, over the one global chatbot
 * (`null` when start-up has not created it), and the parser that turns the
 * chatbot's statistics text back into four fields.
 *
 * Timestamps of the responses are parameters; the web framework, routing and
 * serialisation are not modelled.
 */
module Api {
  import opened Wrappers
  import opened Text
  import opened Chatbot

  /** An endpoint's outcome: the response body, or an `HTTPException`. */
  datatype Response<T> = Success(body: T) | HttpError(status: int, detail: string)

  const NotInitialized := "Chatbot not initialized"
  const EmptyQuestion := "Question cannot be empty"
  const ClearedMessage := "Η μνήμη της συνομιλίας διαγράφηκε."
  const ExportedPrefix := "Συνομιλία εξήχθη στο αρχείο: "
  /** What `str(e)` gives for the `IndexError` of indexing past a split's end. */
  const IndexErrorMessage := "list index out of range"

  datatype ChatResponse = ChatResponse(answer: string, timestamp: string, conversationId: Option<string>)
  datatype HistoryResponse = HistoryResponse(history: seq<Entry>, totalMessages: int)
  datatype StatsResponse = StatsResponse(
    totalQuestions: int,
    totalAnswers: int,
    conversationStart: string,
    lastActivity: string)
  datatype StampedMessage = StampedMessage(message: string, timestamp: string)
  datatype ExportResponse = ExportResponse(message: string, filename: Option<string>, timestamp: string)
  datatype HealthResponse = HealthResponse(status: string, chatbotLoaded: bool, timestamp: string)
  datatype SampleQuestionsResponse = SampleQuestionsResponse(sampleQuestions: seq<string>, totalQuestions: int)

  // ---------------------------------------------------------------------------
  // Endpoints
  // ---------------------------------------------------------------------------

  /**
   * `POST /chat`: 500 without a chatbot; 400, without consulting the chatbot,
   * for an empty or whitespace-only question; otherwise the chatbot's reply.
   */
  method ChatEndpoint(bot: GreekDerbyChatbot?, question: string, generation: Generation, chatTime: string, now: string)
    returns (r: Response<ChatResponse>)
    requires bot != null ==> bot.Valid()
    modifies bot
    ensures bot == null ==> r == HttpError(500, NotInitialized)
    ensures bot != null && IsBlank(question) ==> r == HttpError(400, EmptyQuestion) && unchanged(bot)
    ensures bot != null && !IsBlank(question) ==>
              && bot.Valid()
              && r.Success? && r.body.timestamp == now && r.body.conversationId == Some("default")
              && r.body.answer == (if generation.Generated? then generation.answer else ErrorPrefix + generation.message)
              && bot.memory == old(bot.memory) + [HumanMessage(question), AIMessage(r.body.answer)]
              && bot.conversationHistory == old(bot.conversationHistory)
                   + (if generation.Generated?
                      then [Entry(chatTime, question, generation.answer, ContextSources(generation.context))]
                      else [])
  {
    if bot == null {
      return HttpError(500, NotInitialized);
    }
    if IsBlank(Strip(question)) {
      StripBlank(question);
      return HttpError(400, EmptyQuestion);
    }
    StripBlank(question);
    var answer := bot.Chat(question, generation, chatTime);
    r := Success(ChatResponse(answer, now, Some("default")));
  }

  /** `not question.strip()` holds exactly for the whitespace-only questions. */
  lemma StripBlank(s: string)
    ensures Strip(s) == [] <==> IsBlank(s)
    ensures IsBlank(Strip(s)) <==> IsBlank(s)
  {
    var r := Strip(s);
    if !IsBlank(s) {
      var i :| 0 <= i < |s| && !IsSpace(s[i]);
      assert LeadingSpaces(s) <= i < LeadingSpaces(s) + |r|;
      assert !IsSpace(r[i - LeadingSpaces(s)]);
    }
  }

  /**
   * A value in the dictionary of one history entry: `timestamp`, `user` and
   * `bot` are strings, `context_sources` is a list of strings.
   */
  datatype JsonValue = Str(s: string) | StrList(items: seq<string>)

  function EntryFields(e: Entry): seq<JsonValue> {
    [Str(e.timestamp), Str(e.user), Str(e.bot), StrList(e.contextSources)]
  }

  /**
   * Whether the history passes as `List[Dict[str, str]]` when
   * `ConversationHistory(history=...)` is constructed: every value of every
   * entry must be a string, and a list is never accepted as one.
   */
  predicate ValidatesAsStringDicts(history: seq<Entry>) {
    forall i, j :: 0 <= i < |history| && 0 <= j < |EntryFields(history[i])| ==> EntryFields(history[i])[j].Str?
  }

  /** Any non-empty history fails that validation, on its entries' `context_sources`. */
  lemma ValidatesIffEmpty(history: seq<Entry>)
    ensures ValidatesAsStringDicts(history) <==> history == []
  {
    if history != [] {
      assert !EntryFields(history[0])[3].Str?;
    }
  }

  /**
   * `GET /history`: 500 without a chatbot. Otherwise the response model is
   * built inside the endpoint's `try`; its validation error (whose text is
   * `validationError`) becomes 500 "Error getting history: ...".
   */
  function HistoryEndpoint(bot: GreekDerbyChatbot?, validationError: string): (r: Response<HistoryResponse>)
    reads bot
    ensures bot == null ==> r == HttpError(500, NotInitialized)
    ensures bot != null && bot.conversationHistory == [] ==> r == Success(HistoryResponse([], 0))
    ensures bot != null && bot.conversationHistory != [] ==>
              r == HttpError(500, "Error getting history: " + validationError)
  {
    if bot == null then HttpError(500, NotInitialized)
    else
      var history := bot.ConversationHistory();
      ValidatesIffEmpty(history);
      if ValidatesAsStringDicts(history) then Success(HistoryResponse(history, |history|))
      else HttpError(500, "Error getting history: " + validationError)
  }

  /** `GET /stats`: the chatbot's statistics text, parsed back into fields. */
  method StatsEndpoint(bot: GreekDerbyChatbot?, avgQuestion: string, avgAnswer: string) returns (r: Response<StatsResponse>)
    ensures bot == null ==> r == HttpError(500, NotInitialized)
    ensures bot != null ==>
              match ParseLines(DefaultStats, Split(bot.Stats(avgQuestion, avgAnswer), '\n'))
              case Ok(fields) => r == Success(fields)
              case Err(e) => r == HttpError(500, "Error getting stats: " + e)
  {
    if bot == null {
      return HttpError(500, NotInitialized);
    }
    var stats := bot.Stats(avgQuestion, avgAnswer);
    var parsed := ParseStats(stats);
    match parsed {
      case Ok(fields) => r := Success(fields);
      case Err(e) => r := HttpError(500, "Error getting stats: " + e);
    }
  }

  /** `POST /clear`: 500 without a chatbot; otherwise both logs are emptied. */
  method ClearEndpoint(bot: GreekDerbyChatbot?, now: string) returns (r: Response<StampedMessage>)
    modifies bot
    ensures bot == null ==> r == HttpError(500, NotInitialized)
    ensures bot != null ==>
              r == Success(StampedMessage(ClearedMessage, now))
              && bot.Valid() && bot.memory == [] && bot.conversationHistory == []
  {
    if bot == null {
      return HttpError(500, NotInitialized);
    }
    bot.ClearMemory();
    r := Success(StampedMessage(ClearedMessage, now));
  }

  /**
   * `GET /export`. The chatbot's `export_conversation` writes the file and
   * returns `None`, so the response carries no file name and the message
   * names `None`. `writeError` is the message of the exception that opening
   * or writing the file raised, if it did; the endpoint turns it into a 500.
   */
  function ExportEndpoint(bot: GreekDerbyChatbot?, writeError: Option<string>, now: string): (r: Response<ExportResponse>)
    ensures bot == null ==> r == HttpError(500, NotInitialized)
    ensures bot != null && writeError.Some? ==> r == HttpError(500, "Error exporting conversation: " + writeError.value)
    ensures bot != null && writeError.None? ==>
              r.Success? && r.body.filename.None? && r.body.message == ExportedPrefix + "None" && r.body.timestamp == now
  {
    if bot == null then HttpError(500, NotInitialized)
    else if writeError.Some? then HttpError(500, "Error exporting conversation: " + writeError.value)
    else
      var filename: Option<string> := None;
      Success(ExportResponse(ExportedPrefix + "None", filename, now))
  }

  /** `GET /health`: always healthy; reports whether the chatbot was created. */
  function HealthEndpoint(bot: GreekDerbyChatbot?, now: string): (r: HealthResponse)
    ensures r.status == "healthy" && r.timestamp == now
    ensures r.chatbotLoaded <==> bot != null
  {
    HealthResponse("healthy", bot != null, now)
  }

  /** The example questions listed by `GET /`. */
  const RootExampleQuestions: seq<string> := [
    "Ποια είναι η ιστορία του ντέρμπι;",
    "Ποιος έχει κερδίσει περισσότερες φορές;",
    "Ποιοι είναι οι κορυφαίοι παίκτες;",
    "Ποια είναι τα πιο αξέχαστα γκολ;",
    "Που γίνεται το ντέρμπι;"
  ]

  /** `GET /sample-questions`: a constant list and its advertised size. */
  function SampleQuestions(): (r: SampleQuestionsResponse)
    ensures |r.sampleQuestions| == 10 && r.totalQuestions == |r.sampleQuestions|
    ensures r.sampleQuestions[..5] == RootExampleQuestions
  {
    SampleQuestionsResponse(
      RootExampleQuestions + [
        "Ποια είναι η σημασία για τους φιλάθλους;",
        "Ποια είναι τα στατιστικά;",
        "Ποια είναι τα γήπεδα;",
        "Ποια είναι τα πιο αξέχαστα γεγονότα;",
        "Πώς ξεκίνησε η αντιπαλότητα;"
      ],
      10)
  }

  // ---------------------------------------------------------------------------
  // The statistics parser of `GET /stats`
  // ---------------------------------------------------------------------------

  const QuestionsKey := "Ερωτήσεις"
  const AnswersKey := "Απαντήσεις"
  const StartKey := "Ξεκίνησε"
  const LastKey := "Τελευταία"

  const DefaultStats := StatsResponse(0, 0, "Unknown", "Unknown")

  /** The four fields the parser fills. */
  datatype StatsField = TotalQuestions | TotalAnswers | ConversationStart | LastActivity

  datatype FieldValue = Number(n: int) | Label(s: string)

  function Get(fields: StatsResponse, f: StatsField): FieldValue {
    match f
    case TotalQuestions => Number(fields.totalQuestions)
    case TotalAnswers => Number(fields.totalAnswers)
    case ConversationStart => Label(fields.conversationStart)
    case LastActivity => Label(fields.lastActivity)
  }

  /** The field a line is about: the first keyword it contains, in `elif` order. */
  function Branch(line: string): Option<StatsField> {
    if Contains(line, QuestionsKey) then Some(TotalQuestions)
    else if Contains(line, AnswersKey) then Some(TotalAnswers)
    else if Contains(line, StartKey) then Some(ConversationStart)
    else if Contains(line, LastKey) then Some(LastActivity)
    else None
  }

  /**
   * `int(line.split(":")[1].strip())`, or `previous` when there is no second
   * piece or it is not an integer (the bare `except: pass`).
   */
  function IntAfterColon(line: string, previous: int): int {
    var parts := Split(line, ':');
    if |parts| < 2 then previous
    else match ParseInt(Strip(parts[1]))
      case Some(v) => v
      case None => previous
  }

  /** `line.split(":", 1)[1]`; `None` stands for the `IndexError` it raises without a colon. */
  function RestAfterColon(line: string): Option<string> {
    match IndexOfChar(line, ':')
    case None => None
    case Some(i) => Some(line[i + 1..])
  }

  /** The counts take the integer between the first and the second colon. */
  lemma IntBetweenColons(parts: seq<string>, previous: int)
    requires |parts| >= 2
    requires forall i :: 0 <= i < |parts| ==> ':' !in parts[i]
    ensures IntAfterColon(Join(parts, ':'), previous)
            == match ParseInt(Strip(parts[1])) case Some(v) => v case None => previous
  {
    SplitJoin(parts, ':');
  }

  /** A line without a colon leaves a count as it was. */
  lemma IntWithoutColon(line: string, previous: int)
    requires ':' !in line
    ensures IntAfterColon(line, previous) == previous
  {
    SplitJoin([line], ':');
  }

  /** The two dates take everything after the first colon, later colons included. */
  lemma RestKeepsLaterColons(key: string, value: string)
    requires ':' !in key
    ensures RestAfterColon(key + ":" + value) == Some(value)
  {
    var line := key + ":" + value;
    var i := IndexOfChar(line, ':');
    assert line[|key|] == ':';
    assert i.Some?;
    assert i.value == |key|;
    assert line[|key| + 1..] == value;
  }

  /** One iteration of the parser's loop over `line`; `Err` is the `IndexError` escaping it. */
  function ParseStep(fields: StatsResponse, line: string): (r: Result<StatsResponse>)
    ensures r.Err? <==> (Branch(line) == Some(ConversationStart) || Branch(line) == Some(LastActivity)) && ':' !in line
    ensures r.Err? ==> r.error == IndexErrorMessage
  {
    match Branch(line)
    case None => Ok(fields)
    case Some(TotalQuestions) => Ok(fields.(totalQuestions := IntAfterColon(line, fields.totalQuestions)))
    case Some(TotalAnswers) => Ok(fields.(totalAnswers := IntAfterColon(line, fields.totalAnswers)))
    case Some(ConversationStart) =>
      (match RestAfterColon(line)
       case None => Err(IndexErrorMessage)
       case Some(rest) => Ok(fields.(conversationStart := Strip(rest))))
    case Some(LastActivity) =>
      (match RestAfterColon(line)
       case None => Err(IndexErrorMessage)
       case Some(rest) => Ok(fields.(lastActivity := Strip(rest))))
  }

  /** A step changes at most the field its line is about. */
  lemma ParseStepFrame(fields: StatsResponse, line: string, g: StatsField)
    requires Branch(line) != Some(g) && ParseStep(fields, line).Ok?
    ensures Get(ParseStep(fields, line).value, g) == Get(fields, g)
  {
  }

  /** The parser's loop over `lines`, from `fields`: the first error stops it. */
  function ParseLines(fields: StatsResponse, lines: seq<string>): Result<StatsResponse> {
    if lines == [] then Ok(fields)
    else match ParseLines(fields, lines[..|lines| - 1])
      case Err(e) => Err(e)
      case Ok(before) => ParseStep(before, lines[|lines| - 1])
  }

  /** Continuing a parse over more lines. */
  function Continue(r: Result<StatsResponse>, lines: seq<string>): Result<StatsResponse> {
    match r
    case Err(e) => Err(e)
    case Ok(fields) => ParseLines(fields, lines)
  }

  /** Parsing two blocks of lines is parsing the first, then the second. */
  lemma {:induction false} ParseLinesAppend(fields: StatsResponse, a: seq<string>, b: seq<string>)
    decreases |b|
    ensures ParseLines(fields, a + b) == Continue(ParseLines(fields, a), b)
  {
    if b == [] {
      assert a + b == a;
    } else {
      assert (a + b)[..|a + b| - 1] == a + b[..|b| - 1];
      ParseLinesAppend(fields, a, b[..|b| - 1]);
    }
  }

  /** Lines that mention none of the four keywords change nothing. */
  lemma {:induction false} UnmatchedLinesKeepFields(fields: StatsResponse, lines: seq<string>)
    requires forall i :: 0 <= i < |lines| ==> Branch(lines[i]).None?
    ensures ParseLines(fields, lines) == Ok(fields)
  {
    if lines != [] {
      UnmatchedLinesKeepFields(fields, lines[..|lines| - 1]);
    }
  }

  /** Text with no keyword line parses to exactly the defaults. */
  lemma NoMatchGivesDefaults(stats: string)
    requires forall line :: line in Split(stats, '\n') ==> Branch(line).None?
    ensures ParseLines(DefaultStats, Split(stats, '\n')) == Ok(DefaultStats)
  {
    UnmatchedLinesKeepFields(DefaultStats, Split(stats, '\n'));
  }

  /** A field is only ever changed by a line whose branch is that field. */
  lemma {:induction false} FieldFrame(fields: StatsResponse, lines: seq<string>, f: StatsField)
    requires forall i :: 0 <= i < |lines| ==> Branch(lines[i]) != Some(f)
    ensures ParseLines(fields, lines).Ok? ==> Get(ParseLines(fields, lines).value, f) == Get(fields, f)
  {
    if lines != [] {
      FieldFrame(fields, lines[..|lines| - 1], f);
      var before := ParseLines(fields, lines[..|lines| - 1]);
      if before.Ok? && ParseStep(before.value, lines[|lines| - 1]).Ok? {
        ParseStepFrame(before.value, lines[|lines| - 1], f);
      }
    }
  }

  /**
   * Within one field the last matching line wins: whatever follows the last
   * line about `f` leaves the value that line gave it.
   */
  lemma LastMatchWins(fields: StatsResponse, lines: seq<string>, k: nat, f: StatsField)
    requires k < |lines| && Branch(lines[k]) == Some(f)
    requires forall j :: k < j < |lines| ==> Branch(lines[j]) != Some(f)
    ensures ParseLines(fields, lines).Ok? ==>
              ParseLines(fields, lines[..k + 1]).Ok?
              && Get(ParseLines(fields, lines).value, f) == Get(ParseLines(fields, lines[..k + 1]).value, f)
  {
    var a, b := lines[..k + 1], lines[k + 1..];
    assert lines == a + b;
    ParseLinesAppend(fields, a, b);
    if ParseLines(fields, a).Ok? {
      forall i | 0 <= i < |b| ensures Branch(b[i]) != Some(f) {
        assert b[i] == lines[k + 1 + i];
      }
      FieldFrame(ParseLines(fields, a).value, b, f);
    }
  }

  /** The line-by-line parse of `get_stats`, updating its four variables and returning at the first line that raises. */
  method ParseStats(stats: string) returns (r: Result<StatsResponse>)
    ensures r == ParseLines(DefaultStats, Split(stats, '\n'))
  {
    var lines := Split(stats, '\n');
    var totalQuestions, totalAnswers, conversationStart, lastActivity := 0, 0, "Unknown", "Unknown";
    for k := 0 to |lines|
      invariant ParseLines(DefaultStats, lines[..k])
                == Ok(StatsResponse(totalQuestions, totalAnswers, conversationStart, lastActivity))
    {
      var line := lines[k];
      assert lines[..k + 1][..k] == lines[..k];
      if Contains(line, QuestionsKey) {
        totalQuestions := IntAfterColon(line, totalQuestions);
      } else if Contains(line, AnswersKey) {
        totalAnswers := IntAfterColon(line, totalAnswers);
      } else if Contains(line, StartKey) {
        var rest := RestAfterColon(line);
        if rest.None? {
          ErrorIsFinal(DefaultStats, lines, k + 1);
          return Err(IndexErrorMessage);
        }
        conversationStart := Strip(rest.value);
      } else if Contains(line, LastKey) {
        var rest := RestAfterColon(line);
        if rest.None? {
          ErrorIsFinal(DefaultStats, lines, k + 1);
          return Err(IndexErrorMessage);
        }
        lastActivity := Strip(rest.value);
      }
    }
    assert lines[..|lines|] == lines;
    r := Ok(StatsResponse(totalQuestions, totalAnswers, conversationStart, lastActivity));
  }

  /** Once a prefix of the lines raises, the whole parse raises the same error. */
  lemma ErrorIsFinal(fields: StatsResponse, lines: seq<string>, k: nat)
    requires k <= |lines| && ParseLines(fields, lines[..k]).Err?
    ensures ParseLines(fields, lines) == ParseLines(fields, lines[..k])
  {
    assert lines == lines[..k] + lines[k..];
    ParseLinesAppend(fields, lines[..k], lines[k..]);
  }

  // ---------------------------------------------------------------------------
  // The parser applied to the chatbot's own statistics
  // ---------------------------------------------------------------------------

  /** How Python's `{:.1f}` renders a non-negative average: digits and a decimal point. */
  predicate IsFixedPoint(s: string) {
    forall i :: 0 <= i < |s| ==> IsDigit(s[i]) || s[i] == '.'
  }

  /** A line is about no field when each keyword has a letter the line lacks. */
  lemma NoBranchByWitnesses(line: string, q: char, a: char, s: char, l: char)
    requires q in QuestionsKey && q !in line
    requires a in AnswersKey && a !in line
    requires s in StartKey && s !in line
    requires l in LastKey && l !in line
    ensures Branch(line).None?
  {
    NotContainsByWitness(line, QuestionsKey, q);
    NotContainsByWitness(line, AnswersKey, a);
    NotContainsByWitness(line, StartKey, s);
    NotContainsByWitness(line, LastKey, l);
  }

  /** Numerals (digits, grouping commas, a decimal point) hold no letter and no separator. */
  lemma NotInNumeral(s: string, c: char)
    requires forall i :: 0 <= i < |s| ==> IsDigit(s[i]) || s[i] == ',' || s[i] == '.'
    requires !IsDigit(c) && c != ',' && c != '.'
    ensures c !in s
  {
  }

  /** A count line `caption: n` is about the questions and yields `n`. */
  lemma CountLine(caption: string, n: nat, previous: int)
    requires ':' !in caption && Contains(caption, QuestionsKey)
    ensures Branch(caption + ": " + ShowNat(n)) == Some(TotalQuestions)
    ensures IntAfterColon(caption + ": " + ShowNat(n), previous) == n
  {
    var digits := ShowNat(n);
    ContainsExtended(caption, ": " + digits, QuestionsKey);
    assert caption + ": " + digits == caption + (": " + digits);
    var parts := [caption, " " + digits];
    assert Join(parts, ':') == caption + ": " + digits by {
      NotInNumeral(digits, ':');
      assert Join(parts[1..], ':') == " " + digits;
    }
    assert ':' !in parts[1] by {
      NotInNumeral(digits, ':');
    }
    IntBetweenColons(parts, previous);
    SpacedNumeral(n);
  }

  /** `int(" n".strip())` is `n`. */
  lemma SpacedNumeral(n: nat)
    ensures ParseInt(Strip(" " + ShowNat(n))) == Some(n)
  {
    var digits := ShowNat(n);
    assert " " + digits + "" == " " + digits;
    assert "" + digits + "" == digits;
    StripPadded(" ", digits, "");
    ParseShowNat("", n, "");
  }

  lemma ContainsExtended(s: string, t: string, sub: string)
    requires Contains(s, sub)
    ensures Contains(s + t, sub)
  {
    var i: nat :| OccursAt(s, sub, i);
    assert (s + t)[i..i + |sub|] == s[i..i + |sub|];
    assert OccursAt(s + t, sub, i);
  }

  /** The caption of the chatbot's question count. */
  lemma QuestionsLabel()
    ensures ':' !in "- Συνολικές Ερωτήσεις" && Contains("- Συνολικές Ερωτήσεις", QuestionsKey)
    ensures NoLineBreak("- Συνολικές Ερωτήσεις: ")
    ensures "- Συνολικές Ερωτήσεις: " == "- Συνολικές Ερωτήσεις" + ": "
  {
    ContainsInside("- Συνολικές ", QuestionsKey, "");
    assert "- Συνολικές " + QuestionsKey + "" == "- Συνολικές Ερωτήσεις";
  }

  lemma NoBreakInNumeral(caption: string, digits: string)
    requires NoLineBreak(caption) && forall i :: 0 <= i < |digits| ==> IsDigit(digits[i])
    ensures '\n' !in caption + digits
  {
    var line := caption + digits;
    forall i | 0 <= i < |line| ensures line[i] != '\n' {
      if i < |caption| {
        assert line[i] == caption[i];
      } else {
        assert line[i] == digits[i - |caption|];
      }
    }
  }

  /** The count line of the statistics text: its branch and the count it yields. */
  lemma QuestionsLine(n: nat, previous: int)
    ensures Branch("- Συνολικές Ερωτήσεις: " + ShowNat(n)) == Some(TotalQuestions)
    ensures IntAfterColon("- Συνολικές Ερωτήσεις: " + ShowNat(n), previous) == n
    ensures '\n' !in "- Συνολικές Ερωτήσεις: " + ShowNat(n)
  {
    QuestionsLabel();
    NoBreakInNumeral("- Συνολικές Ερωτήσεις: ", ShowNat(n));
    CountLine("- Συνολικές Ερωτήσεις", n, previous);
    assert "- Συνολικές Ερωτήσεις" + ": " + ShowNat(n) == "- Συνολικές Ερωτήσεις: " + ShowNat(n);
  }

  /** `s` holds no line break. */
  predicate NoLineBreak(s: string) {
    forall i :: 0 <= i < |s| ==> s[i] != '\n'
  }

  /**
   * `s` holds no line break and lacks a letter of each keyword: 'ω' of
   * "Ερωτήσεις", the given letter of "Απαντήσεις", 'Ξ' of "Ξεκίνησε" and 'Τ'
   * of "Τελευταία".
   */
  predicate AvoidsKeywords(s: string, answerLetter: char) {
    forall i :: 0 <= i < |s| ==>
      s[i] != '\n' && s[i] != 'ω' && s[i] != answerLetter && s[i] != 'Ξ' && s[i] != 'Τ'
  }

  /** A line `a + x + b` is about no field when each of its pieces avoids the keywords. */
  lemma NoBranchInPieces(a: string, x: string, b: string, answerLetter: char)
    requires answerLetter == 'Α' || answerLetter == 'ι'
    requires AvoidsKeywords(a, answerLetter) && AvoidsKeywords(x, answerLetter)
    requires AvoidsKeywords(b, answerLetter)
    ensures Branch(a + x + b).None? && '\n' !in a + x + b
  {
    var line := a + x + b;
    forall i | 0 <= i < |line|
      ensures line[i] != '\n' && line[i] != 'ω' && line[i] != answerLetter && line[i] != 'Ξ' && line[i] != 'Τ'
    {
      if i < |a| {
        assert line[i] == a[i];
      } else if i < |a| + |x| {
        assert line[i] == x[i - |a|];
      } else {
        assert line[i] == b[i - |a| - |x|];
      }
    }
    NoBranchByWitnesses(line, 'ω', answerLetter, 'Ξ', 'Τ');
  }

  /** A numeral avoids the keywords. */
  lemma NumeralAvoidsKeywords(x: string)
    requires forall i :: 0 <= i < |x| ==> IsDigit(x[i]) || x[i] == ',' || x[i] == '.'
    ensures AvoidsKeywords(x, 'Α') && AvoidsKeywords(x, 'ι')
  {
  }

  lemma BlankLine()
    ensures Branch("").None? && '\n' !in ""
  {
    NoBranchByWitnesses("", 'ω', 'Α', 'Ξ', 'Τ');
  }

  lemma HeaderLine()
    ensures Branch("📊 Στατιστικά Συνομιλίας:").None? && '\n' !in "📊 Στατιστικά Συνομιλίας:"
  {
    var header := "📊 Στατιστικά Συνομιλίας:";
    assert AvoidsKeywords(header, 'Α');
    NoBranchInPieces(header, "", "", 'Α');
    assert header + "" + "" == header;
  }

  lemma CharsLine(grouped: string)
    requires forall i :: 0 <= i < |grouped| ==> IsDigit(grouped[i]) || grouped[i] == ','
    ensures Branch("- Συνολικοί Χαρακτήρες: " + grouped).None?
    ensures '\n' !in "- Συνολικοί Χαρακτήρες: " + grouped
  {
    NumeralAvoidsKeywords(grouped);
    assert AvoidsKeywords("- Συνολικοί Χαρακτήρες: ", 'Α');
    NoBranchInPieces("- Συνολικοί Χαρακτήρες: ", grouped, "", 'Α');
    assert "- Συνολικοί Χαρακτήρες: " + grouped + "" == "- Συνολικοί Χαρακτήρες: " + grouped;
  }

  /**
   * The two average lines mention no keyword. The answer-length line says
   * "Απάντησης", which lacks the 'ι' of the keyword "Απαντήσεις".
   */
  lemma AverageLines(avgQuestion: string, avgAnswer: string)
    requires IsFixedPoint(avgQuestion) && IsFixedPoint(avgAnswer)
    ensures Branch("- Μέσος Όρος Μήκους Ερώτησης: " + avgQuestion + " χαρακτήρες").None?
    ensures '\n' !in "- Μέσος Όρος Μήκους Ερώτησης: " + avgQuestion + " χαρακτήρες"
    ensures Branch("- Μέσος Όρος Μήκους Απάντησης: " + avgAnswer + " χαρακτήρες").None?
    ensures '\n' !in "- Μέσος Όρος Μήκους Απάντησης: " + avgAnswer + " χαρακτήρες"
  {
    NumeralAvoidsKeywords(avgQuestion);
    assert AvoidsKeywords("- Μέσος Όρος Μήκους Ερώτησης: ", 'Α');
    assert AvoidsKeywords(" χαρακτήρες", 'Α');
    NoBranchInPieces("- Μέσος Όρος Μήκους Ερώτησης: ", avgQuestion, " χαρακτήρες", 'Α');
    NumeralAvoidsKeywords(avgAnswer);
    assert AvoidsKeywords("- Μέσος Όρος Μήκους Απάντησης: ", 'ι');
    assert AvoidsKeywords(" χαρακτήρες", 'ι');
    NoBranchInPieces("- Μέσος Όρος Μήκους Απάντησης: ", avgAnswer, " χαρακτήρες", 'ι');
  }

  /** The lines of the statistics text other than the count mention no keyword. */
  lemma OtherStatsLines(h: seq<Entry>, avgQuestion: string, avgAnswer: string)
    requires IsFixedPoint(avgQuestion) && IsFixedPoint(avgAnswer)
    ensures forall i :: 0 <= i < 7 && i != 2 ==>
              Branch(StatsLines(h, avgQuestion, avgAnswer)[i]).None? && '\n' !in StatsLines(h, avgQuestion, avgAnswer)[i]
  {
    BlankLine();
    HeaderLine();
    CharsLine(ShowGrouped(TotalChars(h)));
    AverageLines(avgQuestion, avgAnswer);
  }

  /** Lines of which only the `k`-th is about a field, and that one about the question count. */
  lemma {:induction false} OneCountLine(fields: StatsResponse, lines: seq<string>, k: nat)
    requires k < |lines| && Branch(lines[k]) == Some(TotalQuestions)
    requires forall i :: 0 <= i < |lines| && i != k ==> Branch(lines[i]).None?
    ensures ParseLines(fields, lines) == Ok(fields.(totalQuestions := IntAfterColon(lines[k], fields.totalQuestions)))
  {
    var a, b := lines[..k], lines[k + 1..];
    assert lines == a + ([lines[k]] + b);
    forall i | 0 <= i < |a| ensures Branch(a[i]).None? {
      assert a[i] == lines[i];
    }
    forall i | 0 <= i < |b| ensures Branch(b[i]).None? {
      assert b[i] == lines[k + 1 + i];
    }
    UnmatchedLinesKeepFields(fields, a);
    ParseLinesAppend(fields, a, [lines[k]] + b);
    var counted := fields.(totalQuestions := IntAfterColon(lines[k], fields.totalQuestions));
    assert ParseLines(fields, [lines[k]]) == Ok(counted) by {
      assert [lines[k]][..0] == [];
    }
    ParseLinesAppend(fields, [lines[k]], b);
    UnmatchedLinesKeepFields(counted, b);
  }

  /** The answer to the chatbot's "no conversation yet" text mentions no keyword. */
  lemma NoStatsLine()
    ensures Branch(NoStatsText).None? && '\n' !in NoStatsText
  {
    assert AvoidsKeywords(NoStatsText, 'Α');
    NoBranchInPieces(NoStatsText, "", "", 'Α');
    assert NoStatsText + "" + "" == NoStatsText;
  }

  /** A single line about no field parses to the defaults. */
  lemma UnmatchedText(text: string)
    requires '\n' !in text && Branch(text).None?
    ensures ParseLines(DefaultStats, Split(text, '\n')) == Ok(DefaultStats)
  {
    SplitJoin([text], '\n');
    UnmatchedLinesKeepFields(DefaultStats, [text]);
  }

  /**
   * Text whose lines are about no field except one question-count line parses
   * to that line's count and the other defaults.
   */
  lemma OneCountText(lines: seq<string>, k: nat, n: int)
    requires k < |lines| && Branch(lines[k]) == Some(TotalQuestions)
    requires IntAfterColon(lines[k], 0) == n
    requires forall i :: 0 <= i < |lines| && i != k ==> Branch(lines[i]).None?
    requires forall i :: 0 <= i < |lines| ==> '\n' !in lines[i]
    ensures ParseLines(DefaultStats, Split(Join(lines, '\n'), '\n')) == Ok(StatsResponse(n, 0, "Unknown", "Unknown"))
  {
    SplitJoin(lines, '\n');
    OneCountLine(DefaultStats, lines, k);
  }

  /** The statistics text's lines: only the third is about a field, the question count. */
  lemma StatsLinesShape(h: seq<Entry>, avgQuestion: string, avgAnswer: string)
    requires IsFixedPoint(avgQuestion) && IsFixedPoint(avgAnswer)
    ensures var lines := StatsLines(h, avgQuestion, avgAnswer);
      && Branch(lines[2]) == Some(TotalQuestions) && IntAfterColon(lines[2], 0) == |h|
      && (forall i :: 0 <= i < |lines| && i != 2 ==> Branch(lines[i]).None?)
      && (forall i :: 0 <= i < |lines| ==> '\n' !in lines[i])
  {
    OtherStatsLines(h, avgQuestion, avgAnswer);
    QuestionsLine(|h|, 0);
  }

  /** The statistics of a non-empty history parse to its number of questions and the defaults. */
  lemma StatsOfHistory(h: seq<Entry>, avgQuestion: string, avgAnswer: string)
    requires h != [] && IsFixedPoint(avgQuestion) && IsFixedPoint(avgAnswer)
    ensures ParseLines(DefaultStats, Split(Join(StatsLines(h, avgQuestion, avgAnswer), '\n'), '\n'))
            == Ok(StatsResponse(|h|, 0, "Unknown", "Unknown"))
  {
    StatsLinesShape(h, avgQuestion, avgAnswer);
    OneCountText(StatsLines(h, avgQuestion, avgAnswer), 2, |h|);
  }

  /**
   * What `GET /stats` reports for the chatbot's own statistics: the number of
   * questions, and otherwise the defaults. The chatbot writes "Απάντησης" and
   * no start or last-activity line, so `total_answers` stays 0 and both dates
   * stay "Unknown".
   */
  lemma StatsOfChatbot(h: seq<Entry>, avgQuestion: string, avgAnswer: string)
    requires IsFixedPoint(avgQuestion) && IsFixedPoint(avgAnswer)
    ensures ParseLines(DefaultStats, Split(StatsText(h, avgQuestion, avgAnswer), '\n'))
            == Ok(if h == [] then DefaultStats else StatsResponse(|h|, 0, "Unknown", "Unknown"))
  {
    if h == [] {
      NoStatsLine();
      UnmatchedText(StatsText(h, avgQuestion, avgAnswer));
    } else {
      StatsOfHistory(h, avgQuestion, avgAnswer);
    }
  }
}
