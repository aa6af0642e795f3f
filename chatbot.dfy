/**
 * The conversation bookkeeping of `GreekDerbyChatbot`: the LangChain message
 * memory and the structured conversation history that `chat` appends to and
 * `clear_memory` empties, the summary and statistics texts derived from the
 * history, and the start-up decisions (required environment variables, whether
 * the knowledge base must be seeded).
 *
 * Retrieval and generation (the vector store and the language model) are an
 * oracle: each call to `Chat` is handed what they produced, either an answer
 * with the retrieved documents or the message of the exception they raised.
 */
module Chatbot {
  import opened Wrappers
  import opened Text

  /** A message of the buffer memory (`add_user_message` / `add_ai_message`). */
  datatype Message = HumanMessage(content: string) | AIMessage(content: string)

  /** A retrieved document: its text and its metadata. */
  datatype Document = Document(pageContent: string, metadata: map<string, string>)

  /** One element of `conversation_history`. */
  datatype Entry = Entry(timestamp: string, user: string, bot: string, contextSources: seq<string>)

  /**
   * What the retrieval graph and the language model did for one question: the
   * retrieved context and the model's answer, or the message of the exception
   * one of them raised.
   */
  datatype Generation = Generated(context: seq<Document>, answer: string) | Raised(message: string)

  const ErrorPrefix := "Σφάλμα: "
  const NoHistoryText := "Δεν υπάρχει ιστορικό συνομιλίας."
  const NoStatsText := "Δεν υπάρχει συνομιλία ακόμα."
  const UnknownSource := "unknown"

  // ---------------------------------------------------------------------------
  // Context sources of a new history entry
  // ---------------------------------------------------------------------------

  /** `doc.metadata.get("source", "unknown")` */
  function SourceOf(d: Document): string {
    if "source" in d.metadata then d.metadata["source"] else UnknownSource
  }

  /** The `context_sources` of a new entry: one source per retrieved document, in order. */
  function ContextSources(context: seq<Document>): (r: seq<string>)
    ensures |r| == |context|
    ensures forall i :: 0 <= i < |context| ==>
              ("source" in context[i].metadata ==> r[i] == context[i].metadata["source"])
              && ("source" !in context[i].metadata ==> r[i] == UnknownSource)
  {
    if context == [] then [] else [SourceOf(context[0])] + ContextSources(context[1..])
  }

  // ---------------------------------------------------------------------------
  // The memory summary
  // ---------------------------------------------------------------------------

  /** `s[:50]`: at most the first fifty code points of `s`. */
  function Preview(s: string): (r: string)
    ensures r <= s
    ensures |r| == if |s| < 50 then |s| else 50
  {
    if |s| <= 50 then s else s[..50]
  }

  /** A line of the memory summary, before it is rendered as text. */
  datatype SummaryLine =
    | CountHeader(count: nat)
    | QuestionLine(number: nat, entry: Entry)
    | AnswerLine(entry: Entry)

  /** The text of one summary line, without its line break. */
  function Render(line: SummaryLine): string {
    match line
    case CountHeader(n) => "Συνομιλία με " + ShowNat(n) + " ερωτήσεις:"
    case QuestionLine(i, e) => ShowNat(i) + ". Ερώτηση: " + Preview(e.user) + "..."
    case AnswerLine(e) => "   Απάντηση: " + Preview(e.bot) + "..."
  }

  /** The rendered lines, without line breaks. */
  function RenderAll(lines: seq<SummaryLine>): (r: seq<string>)
    ensures |r| == |lines|
    ensures forall k :: 0 <= k < |lines| ==> r[k] == Render(lines[k])
  {
    seq(|lines|, k requires 0 <= k < |lines| => Render(lines[k]))
  }

  /** The summary lines for `h`: a question line and an answer line per entry, numbered from `first`. */
  function EntryLines(h: seq<Entry>, first: nat): (lines: seq<SummaryLine>)
    decreases |h|
    ensures |lines| == 2 * |h|
    ensures forall i :: 0 <= i < |h| ==>
              lines[2 * i] == QuestionLine(first + i, h[i]) && lines[2 * i + 1] == AnswerLine(h[i])
  {
    if h == [] then []
    else
      var rest := EntryLines(h[1..], first + 1);
      var lines := [QuestionLine(first, h[0]), AnswerLine(h[0])] + rest;
      assert forall i :: 0 <= i < |h| ==>
               lines[2 * i] == QuestionLine(first + i, h[i]) && lines[2 * i + 1] == AnswerLine(h[i]) by {
        forall i | 1 <= i < |h|
          ensures lines[2 * i] == QuestionLine(first + i, h[i]) && lines[2 * i + 1] == AnswerLine(h[i])
        {
          var j := i - 1;
          assert h[1..][j] == h[i];
          assert lines[2 * i] == rest[2 * j] && lines[2 * i + 1] == rest[2 * j + 1];
        }
      }
      lines
  }

  /** All lines of the summary of a non-empty history: the count header, then the entries. */
  function SummaryLines(h: seq<Entry>): seq<SummaryLine> {
    [CountHeader(|h|)] + EntryLines(h, 1)
  }

  /** What `get_memory_summary` returns for the history `h`. */
  function Summary(h: seq<Entry>): string {
    if h == [] then NoHistoryText else Terminated(RenderAll(SummaryLines(h)))
  }

  /** The text of `lines`, each followed by a line break. */
  function Terminated(lines: seq<string>): string {
    if lines == [] then "" else lines[0] + "\n" + Terminated(lines[1..])
  }

  lemma {:induction false} TerminatedAppend(a: seq<string>, b: seq<string>)
    ensures Terminated(a + b) == Terminated(a) + Terminated(b)
  {
    if a == [] {
      assert a + b == b;
    } else {
      assert (a + b)[1..] == a[1..] + b;
      TerminatedAppend(a[1..], b);
    }
  }

  /** Appending two terminated lines, as the summary loop does for each entry. */
  lemma AppendTwoLines(done: seq<string>, x: string, y: string)
    ensures Terminated(done) + x + "\n" + y + "\n" == Terminated(done + [x, y])
  {
    TerminatedAppend(done, [x, y]);
    assert [x, y][1..] == [y] && [y][1..] == [];
    var last := Terminated([y]);
    assert last == y + "\n" + Terminated([]);
    assert last == y + "\n";
    assert Terminated([x, y]) == x + "\n" + last;
  }

  lemma RenderAllAppend(a: seq<SummaryLine>, b: seq<SummaryLine>)
    ensures RenderAll(a + b) == RenderAll(a) + RenderAll(b)
  {
    assert forall k :: 0 <= k < |a + b| ==> RenderAll(a + b)[k] == (RenderAll(a) + RenderAll(b))[k] by {
      forall k | 0 <= k < |a + b| ensures RenderAll(a + b)[k] == (RenderAll(a) + RenderAll(b))[k] {
        if k < |a| { assert (a + b)[k] == a[k]; } else { assert (a + b)[k] == b[k - |a|]; }
      }
    }
  }

  /** Appending entries appends their lines, numbered on from where the others stopped. */
  lemma {:induction false} EntryLinesAppend(a: seq<Entry>, b: seq<Entry>, first: nat)
    decreases |a|
    ensures EntryLines(a + b, first) == EntryLines(a, first) + EntryLines(b, first + |a|)
  {
    if a == [] {
      assert a + b == b;
    } else {
      assert (a + b)[1..] == a[1..] + b;
      EntryLinesAppend(a[1..], b, first + 1);
    }
  }

  /** Terminating every line is joining the lines and a final empty one. */
  lemma {:induction false} TerminatedIsJoin(lines: seq<string>)
    ensures Terminated(lines) == Join(lines + [""], '\n')
  {
    if lines != [] {
      TerminatedIsJoin(lines[1..]);
      assert (lines + [""])[1..] == lines[1..] + [""];
    }
  }

  /** The summary is the fixed "no history" text exactly when the history is empty. */
  lemma SummaryEmptyIff(h: seq<Entry>)
    ensures Summary(h) == NoHistoryText <==> h == []
  {
    if h != [] {
      var lines := SummaryLines(h);
      var header := Render(CountHeader(|h|));
      var text := RenderAll(lines);
      assert text[0] == header;
      assert Summary(h) == header + "\n" + Terminated(text[1..]);
      assert header[0] == 'Σ';
      assert NoHistoryText[0] == 'Δ';
    }
  }

  lemma NoNewlineInShowNat(n: nat)
    ensures '\n' !in ShowNat(n)
  {
    var s := ShowNat(n);
    forall i | 0 <= i < |s| ensures s[i] != '\n' {
      assert IsDigit(s[i]);
    }
  }

  /** No previewed question or answer holds a line break. */
  predicate SingleLinePreviews(h: seq<Entry>) {
    forall i :: 0 <= i < |h| ==> '\n' !in Preview(h[i].user) && '\n' !in Preview(h[i].bot)
  }

  lemma NoNewlineInLine(line: SummaryLine)
    requires line.QuestionLine? ==> '\n' !in Preview(line.entry.user)
    requires line.AnswerLine? ==> '\n' !in Preview(line.entry.bot)
    ensures '\n' !in Render(line)
  {
    match line
    case CountHeader(n) => NoNewlineInShowNat(n);
    case QuestionLine(i, e) => NoNewlineInShowNat(i);
    case AnswerLine(e) =>
  }

  lemma NoNewlineInSummaryLines(h: seq<Entry>)
    requires SingleLinePreviews(h)
    ensures forall k :: 0 <= k < |SummaryLines(h)| ==> '\n' !in Render(SummaryLines(h)[k])
  {
    var lines := SummaryLines(h);
    var body := EntryLines(h, 1);
    forall k | 0 <= k < |lines| ensures '\n' !in Render(lines[k]) {
      if k > 0 {
        var i := (k - 1) / 2;
        assert lines[k] == body[k - 1];
        assert k - 1 == 2 * i || k - 1 == 2 * i + 1;
        assert body[2 * i].entry == h[i] && body[2 * i + 1].entry == h[i];
      }
      NoNewlineInLine(lines[k]);
    }
  }

  /**
   * When no previewed question or answer holds a line break, the summary's lines
   * are the count header, then a question line and an answer line per entry
   * (`EntryLines`: numbered from 1, in history order), then the empty text after
   * the last line break.
   */
  lemma SummaryLayout(h: seq<Entry>)
    requires h != []
    requires SingleLinePreviews(h)
    ensures Split(Summary(h), '\n') == RenderAll(SummaryLines(h)) + [""]
  {
    var lines := RenderAll(SummaryLines(h)) + [""];
    NoNewlineInSummaryLines(h);
    TerminatedIsJoin(RenderAll(SummaryLines(h)));
    assert forall k :: 0 <= k < |lines| ==> '\n' !in lines[k];
    SplitJoin(lines, '\n');
  }

  /** The rendered summary lines grow by one question and one answer line per entry. */
  lemma NextSummaryLines(h: seq<Entry>, i: nat, done: seq<SummaryLine>)
    requires i < |h|
    requires done == [CountHeader(|h|)] + EntryLines(h[..i], 1)
    ensures RenderAll([CountHeader(|h|)] + EntryLines(h[..i + 1], 1))
            == RenderAll(done) + [Render(QuestionLine(i + 1, h[i])), Render(AnswerLine(h[i]))]
  {
    EntryLinesAppend(h[..i], [h[i]], 1);
    assert h[..i + 1] == h[..i] + [h[i]];
    var more := EntryLines([h[i]], i + 1);
    assert more == [QuestionLine(i + 1, h[i]), AnswerLine(h[i])];
    assert [CountHeader(|h|)] + EntryLines(h[..i + 1], 1) == done + more;
    RenderAllAppend(done, more);
  }

  // ---------------------------------------------------------------------------
  // Statistics
  // ---------------------------------------------------------------------------

  /** `sum(len(conv['user']) + len(conv['bot']) for conv in h)` */
  function TotalChars(h: seq<Entry>): (r: nat)
    ensures forall i :: 0 <= i < |h| ==> |h[i].user| + |h[i].bot| <= r
    ensures r == 0 <==> forall i :: 0 <= i < |h| ==> h[i].user == [] && h[i].bot == []
  {
    if h == [] then 0 else TotalChars(h[..|h| - 1]) + |h[|h| - 1].user| + |h[|h| - 1].bot|
  }

  /** The character total is additive over the history. */
  lemma {:induction false} TotalCharsAppend(a: seq<Entry>, b: seq<Entry>)
    decreases |b|
    ensures TotalChars(a + b) == TotalChars(a) + TotalChars(b)
  {
    if b != [] {
      assert (a + b)[..|a + b| - 1] == a + b[..|b| - 1];
      TotalCharsAppend(a, b[..|b| - 1]);
    } else {
      assert a + b == a;
    }
  }

  /**
   * The lines of the `get_stats` text for a non-empty history. The two averages
   * are floating-point values formatted with one decimal; their renderings are
   * taken as parameters.
   */
  function StatsLines(h: seq<Entry>, avgQuestion: string, avgAnswer: string): seq<string> {
    [ "",
      "📊 Στατιστικά Συνομιλίας:",
      "- Συνολικές Ερωτήσεις: " + ShowNat(|h|),
      "- Συνολικοί Χαρακτήρες: " + ShowGrouped(TotalChars(h)),
      "- Μέσος Όρος Μήκους Ερώτησης: " + avgQuestion + " χαρακτήρες",
      "- Μέσος Όρος Μήκους Απάντησης: " + avgAnswer + " χαρακτήρες",
      "" ]
  }

  /** What `get_stats` returns for the history `h`. */
  function StatsText(h: seq<Entry>, avgQuestion: string, avgAnswer: string): (r: string)
    ensures r == NoStatsText <==> h == []
  {
    if h == [] then NoStatsText
    else
      var lines := StatsLines(h, avgQuestion, avgAnswer);
      var r := Join(lines, '\n');
      assert r == "" + ['\n'] + Join(lines[1..], '\n');
      assert r[0] == '\n' && NoStatsText[0] == 'Δ';
      r
  }

  // ---------------------------------------------------------------------------
  // Start-up
  // ---------------------------------------------------------------------------

  const RequiredVars: seq<string> := ["OPENAI_API_KEY", "PINECONE_API_KEY", "PINECONE_GREEK_DERBY_INDEX_NAME"]

  /** `not os.getenv(v)`: the variable is unset or set to the empty string. */
  predicate IsUnset(env: map<string, string>, v: string) {
    v !in env || env[v] == ""
  }

  /** `[var for var in vars if not os.getenv(var)]` */
  function MissingVars(vars: seq<string>, env: map<string, string>): (r: seq<string>)
    ensures |r| <= |vars|
    ensures forall v :: v in r <==> v in vars && IsUnset(env, v)
  {
    if vars == [] then []
    else (if IsUnset(env, vars[0]) then [vars[0]] else []) + MissingVars(vars[1..], env)
  }

  /** The filter keeps the listed order: filtering a concatenation concatenates the filtered parts. */
  lemma {:induction false} MissingVarsAppend(a: seq<string>, b: seq<string>, env: map<string, string>)
    decreases |a|
    ensures MissingVars(a + b, env) == MissingVars(a, env) + MissingVars(b, env)
  {
    if a == [] {
      assert a + b == b;
    } else {
      assert (a + b)[1..] == a[1..] + b;
      MissingVarsAppend(a[1..], b, env);
    }
  }

  /** The outcome of `_load_environment`: exit with status 1 listing the missing names, or go on. */
  datatype EnvCheck = Exit(status: int, missing: seq<string>) | Loaded

  function LoadEnvironment(env: map<string, string>): (r: EnvCheck)
    ensures r.Loaded? <==> forall v :: v in RequiredVars ==> v in env && env[v] != ""
    ensures r.Exit? ==> r.status == 1 && r.missing != [] && r.missing == MissingVars(RequiredVars, env)
  {
    var missing := MissingVars(RequiredVars, env);
    if missing != [] then
      assert missing[0] in missing;
      Exit(1, missing)
    else Loaded
  }

  /** The index `_init_vector_store` opens: `os.getenv('PINECONE_INDEX_NAME')`. */
  function OpenedIndexName(env: map<string, string>): Option<string> {
    if "PINECONE_INDEX_NAME" in env then Some(env["PINECONE_INDEX_NAME"]) else None
  }

  /**
   * The start-up check does not cover the variable naming the index that is
   * opened: start-up can pass with that variable unset.
   */
  lemma StartupPassesWithoutOpenedIndexName()
    ensures exists env :: LoadEnvironment(env).Loaded? && OpenedIndexName(env).None?
  {
    var env := map["OPENAI_API_KEY" := "k", "PINECONE_API_KEY" := "k", "PINECONE_GREEK_DERBY_INDEX_NAME" := "i"];
    assert LoadEnvironment(env).Loaded?;
    assert OpenedIndexName(env).None?;
  }

  /** `_load_knowledge_base`: seed the sample content into an empty index, else use what is there. */
  datatype KnowledgeBaseAction = CreateSampleContent | UseExisting(vectorCount: nat)

  function LoadKnowledgeBase(totalVectorCount: nat): (r: KnowledgeBaseAction)
    ensures r.CreateSampleContent? <==> totalVectorCount == 0
    ensures r.UseExisting? ==> r.vectorCount == totalVectorCount
  {
    if totalVectorCount == 0 then CreateSampleContent else UseExisting(totalVectorCount)
  }

  // ---------------------------------------------------------------------------
  // The chatbot object
  // ---------------------------------------------------------------------------

  /** `memory[2k]`, `memory[2k+1]` hold the question and reply of call `k`. */
  ghost predicate IsExchange(memory: seq<Message>, k: nat, user: string, bot: string) {
    2 * k + 1 < |memory| && memory[2 * k] == HumanMessage(user) && memory[2 * k + 1] == AIMessage(bot)
  }

  class GreekDerbyChatbot {
    /** `self.memory.chat_memory.messages` */
    var memory: seq<Message>
    /** `self.conversation_history` */
    var conversationHistory: seq<Entry>

    /** Calls of `Chat` since creation or the last `ClearMemory`. */
    ghost var calls: nat
    /** For each history entry, which of those calls produced it. */
    ghost var answeredAt: seq<nat>

    /**
     * The memory holds one question-and-reply pair per call; the history holds
     * one entry per answered call, in call order, each matching its pair.
     */
    ghost predicate Valid()
      reads this
    {
      |memory| == 2 * calls
      && (forall i :: 0 <= i < |memory| ==> (memory[i].HumanMessage? <==> i % 2 == 0))
      && |answeredAt| == |conversationHistory| <= calls
      && (forall j :: 0 <= j < |answeredAt| ==>
            answeredAt[j] < calls
            && IsExchange(memory, answeredAt[j], conversationHistory[j].user, conversationHistory[j].bot))
      && (forall j, j' :: 0 <= j < j' < |answeredAt| ==> answeredAt[j] < answeredAt[j'])
    }

    /** `_init_memory`: both logs start empty. */
    constructor ()
      ensures Valid()
      ensures memory == [] && conversationHistory == []
    {
      memory := [];
      conversationHistory := [];
      calls := 0;
      answeredAt := [];
    }

    /**
     * `chat(user_input)`. Both outcomes store the question and the reply in the
     * message memory; only an answered question adds a history entry.
     */
    method Chat(userInput: string, generation: Generation, now: string) returns (reply: string)
      requires Valid()
      modifies this
      ensures Valid()
      ensures calls == old(calls) + 1
      ensures memory == old(memory) + [HumanMessage(userInput), AIMessage(reply)]
      ensures generation.Generated? ==>
                reply == generation.answer
                && conversationHistory == old(conversationHistory)
                     + [Entry(now, userInput, reply, ContextSources(generation.context))]
      ensures generation.Raised? ==>
                reply == ErrorPrefix + generation.message
                && conversationHistory == old(conversationHistory)
    {
      match generation {
        case Generated(context, answer) =>
          memory := memory + [HumanMessage(userInput), AIMessage(answer)];
          conversationHistory := conversationHistory + [Entry(now, userInput, answer, ContextSources(context))];
          answeredAt := answeredAt + [calls];
          reply := answer;
        case Raised(message) =>
          reply := ErrorPrefix + message;
          memory := memory + [HumanMessage(userInput), AIMessage(reply)];
      }
      assert forall j :: 0 <= j < |answeredAt| - 1 ==> IsExchange(old(memory), answeredAt[j], conversationHistory[j].user, conversationHistory[j].bot);
      calls := calls + 1;
    }

    /** `get_conversation_history()` */
    function ConversationHistory(): (r: seq<Entry>)
      reads this
      ensures Valid() ==> 2 * |r| <= |memory|
      ensures Valid() ==> forall j :: 0 <= j < |r| ==> HumanMessage(r[j].user) in memory && AIMessage(r[j].bot) in memory
    {
      assert Valid() ==> forall j :: 0 <= j < |conversationHistory| ==>
        IsExchange(memory, answeredAt[j], conversationHistory[j].user, conversationHistory[j].bot);
      conversationHistory
    }

    /** `clear_memory()`: both logs become empty. */
    method ClearMemory()
      modifies this
      ensures Valid()
      ensures memory == [] && conversationHistory == [] && ConversationHistory() == []
    {
      memory := [];
      conversationHistory := [];
      calls := 0;
      answeredAt := [];
    }

    /** `get_memory_summary()`, built line by line with `+=`. */
    method MemorySummary() returns (summary: string)
      ensures summary == Summary(conversationHistory)
    {
      var h := conversationHistory;
      if h == [] {
        return NoHistoryText;
      }
      summary := Render(CountHeader(|h|)) + "\n";
      var i := 0;
      while i < |h|
        invariant 0 <= i <= |h|
        invariant summary == Terminated(RenderAll([CountHeader(|h|)] + EntryLines(h[..i], 1)))
      {
        ghost var done := [CountHeader(|h|)] + EntryLines(h[..i], 1);
        var q, a := Render(QuestionLine(i + 1, h[i])), Render(AnswerLine(h[i]));
        summary := summary + q + "\n";
        summary := summary + a + "\n";
        NextSummaryLines(h, i, done);
        AppendTwoLines(RenderAll(done), q, a);
        i := i + 1;
      }
      assert h[..i] == h;
    }

    /** `get_stats()` with the two formatted averages supplied. */
    function Stats(avgQuestion: string, avgAnswer: string): (r: string)
      reads this
      ensures r == NoStatsText <==> ConversationHistory() == []
    {
      StatsText(conversationHistory, avgQuestion, avgAnswer)
    }
  }
}
