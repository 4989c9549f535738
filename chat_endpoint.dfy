/**
 * The simulated chat endpoint: it picks the prompt from the request's
 * messages, chooses a canned reply by an ordered keyword test on the
 * lower-cased prompt, and streams the reply word by word.
 */
module ChatEndpoint {
  import opened Wrappers
  import opened Text

  /** A message of the request body: a role and a possibly absent content. */
  datatype WireMessage = WireMessage(role: string, content: Option<string>)

  /** The prompt used when the request carries no usable user message. */
  const DefaultPrompt: string := "Hello"

  // ---------------------------------------------------------------------
  // Prompt selection

  /** Whether a request message has the role "user". */
  predicate IsUser(m: WireMessage) { m.role == "user" }

  /** The messages whose role is "user", in order. */
  function UserRequests(ms: seq<WireMessage>): (us: seq<WireMessage>)
    decreases |ms|
  {
    if ms == [] then []
    else UserRequests(ms[..|ms| - 1]) + (if IsUser(ms[|ms| - 1]) then [ms[|ms| - 1]] else [])
  }

  /** The last user message (the last element of the filtered list), if any. */
  function LastUserMessage(ms: seq<WireMessage>): (r: Option<WireMessage>)
  {
    var us := UserRequests(ms);
    if us == [] then None else Some(us[|us| - 1])
  }

  /** The last user message is the one at the last index whose role is "user". */
  lemma {:induction false} LastUserMessageIsLast(ms: seq<WireMessage>) returns (k: nat)
    ensures LastUserMessage(ms).None? <==> forall j :: 0 <= j < |ms| ==> !IsUser(ms[j])
    ensures LastUserMessage(ms).Some? ==>
      k < |ms| && ms[k] == LastUserMessage(ms).value && IsUser(ms[k]) &&
      forall j :: k < j < |ms| ==> !IsUser(ms[j])
    decreases |ms|
  {
    if ms == [] {
      k := 0;
    } else {
      var init := ms[..|ms| - 1];
      var last := ms[|ms| - 1];
      if IsUser(last) {
        assert UserRequests(ms) == UserRequests(init) + [last];
        k := |ms| - 1;
      } else {
        assert UserRequests(ms) == UserRequests(init);
        k := LastUserMessageIsLast(init);
        assert LastUserMessage(ms) == LastUserMessage(init);
        assert forall j :: 0 <= j < |init| ==> init[j] == ms[j];
        assert ms == init + [last];
      }
    }
  }

  /**
   * The prompt: the content of the last user message, or "Hello" when the
   * messages are absent, hold no user message, or that content is absent or
   * empty (both falsy).
   */
  function UserPrompt(messages: Option<seq<WireMessage>>): (prompt: string)
    ensures prompt != ""
    ensures messages.None? ==> prompt == DefaultPrompt
  {
    match messages
    case None => DefaultPrompt
    case Some(ms) =>
      match LastUserMessage(ms)
      case None => DefaultPrompt
      case Some(m) => if m.content.None? || m.content.value == "" then DefaultPrompt else m.content.value
  }

  /** The prompt is a non-empty content of the last user message exactly when there is one; otherwise it is "Hello". */
  lemma UserPromptChoice(ms: seq<WireMessage>, k: nat)
    requires k < |ms| && IsUser(ms[k])
    requires forall j :: k < j < |ms| ==> !IsUser(ms[j])
    ensures UserPrompt(Some(ms)) ==
      if ms[k].content.Some? && ms[k].content.value != "" then ms[k].content.value else DefaultPrompt
  {
    var i := LastUserMessageIsLast(ms);
    assert LastUserMessage(ms).Some? by {
      assert !(forall j :: 0 <= j < |ms| ==> !IsUser(ms[j])) by { assert IsUser(ms[k]); }
    }
    assert !(i < k) && !(k < i);
  }

  /** Without a user message the prompt is "Hello". */
  lemma UserPromptDefault(ms: seq<WireMessage>)
    requires forall j :: 0 <= j < |ms| ==> !IsUser(ms[j])
    ensures UserPrompt(Some(ms)) == DefaultPrompt
  {
    var _ := LastUserMessageIsLast(ms);
  }

  // ---------------------------------------------------------------------
  // Keyword dispatch

  /** Which canned reply a prompt gets. */
  datatype ReplyKind = Greeting | CodeExample | Summary | Explanation | DesignAdvice | General

  predicate GreetingKeyword(p: string) { Contains(p, "hello") || Contains(p, "hi") || Contains(p, "halo") }
  predicate CodeKeyword(p: string) { Contains(p, "code") || Contains(p, "function") || Contains(p, "program") }
  predicate SummaryKeyword(p: string) { Contains(p, "summarize") || Contains(p, "summary") }
  predicate ExplainKeyword(p: string) { Contains(p, "explain") || Contains(p, "what is") }
  predicate DesignKeyword(p: string) { Contains(p, "design") || Contains(p, "color") || Contains(p, "ui") }

  /** The keyword groups tested in order on the lower-cased prompt; the first that matches wins. */
  function Classify(p: string): (kind: ReplyKind)
  {
    if GreetingKeyword(p) then Greeting
    else if CodeKeyword(p) then CodeExample
    else if SummaryKeyword(p) then Summary
    else if ExplainKeyword(p) then Explanation
    else if DesignKeyword(p) then DesignAdvice
    else General
  }

  /** The rank of a reply kind in the order the keyword groups are tested. */
  function Rank(kind: ReplyKind): nat
  {
    match kind
    case Greeting => 0
    case CodeExample => 1
    case Summary => 2
    case Explanation => 3
    case DesignAdvice => 4
    case General => 5
  }

  /** Whether the keyword group of `kind` matches `p` (the fallback has no keywords). */
  predicate Matches(kind: ReplyKind, p: string)
  {
    match kind
    case Greeting => GreetingKeyword(p)
    case CodeExample => CodeKeyword(p)
    case Summary => SummaryKeyword(p)
    case Explanation => ExplainKeyword(p)
    case DesignAdvice => DesignKeyword(p)
    case General => false
  }

  /**
   * First match wins: the chosen kind matches (unless it is the fallback),
   * and no kind tested earlier matches; the fallback is chosen exactly when
   * no keyword group matches.
   */
  lemma ClassifyFirstMatch(p: string, earlier: ReplyKind)
    ensures Classify(p) != General ==> Matches(Classify(p), p)
    ensures Rank(earlier) < Rank(Classify(p)) ==> !Matches(earlier, p)
    ensures Classify(p) == General <==>
      forall kind :: kind != General ==> !Matches(kind, p)
  {
    if Classify(p) != General {
      assert Matches(Classify(p), p);
    }
  }

  // ---------------------------------------------------------------------
  // The canned replies, split where the model id is interpolated

  const GreetingText0: string :=
    "Hello! I'm Visora AI, powered by "
  const GreetingText1: string :=
    ". How can I help you today? I can assist with coding, research, creative writing, analysis, and much more. Just ask me anything!"
  const CodeExampleText0: string :=
    "Here's an example approach using "
  const CodeExampleText1: string :=
    ":\n\n```javascript\n// Example function\nfunction solve(input) {\n  // Process the input\n  const result = input\n    .split('')\n    .reverse()\n    .join('');\n  return result;\n}\n\nconsole.log(solve(\"hello\")); // \"olleh\"\n```\n\nThis demonstrates a simple string reversal. Would you like me to help with a more specific coding task?"
  const SummaryText0: string :=
    "Here's a concise summary:\n\n**Key Points:**\n\n1. The topic involves multiple interconnected themes that build upon historical foundations\n2. Recent developments have shifted the landscape significantly\n3. Experts suggest a balanced approach considering both traditional and modern perspectives\n4. The implications extend across social, economic, and technological domains\n\nWould you like me to elaborate on any specific aspect?"
  const ExplanationText0: string :=
    "Great question! Let me break this down in simple terms:\n\n**The Basics:**\nThink of it like building blocks. Each concept builds on the previous one, creating a larger structure.\n\n**How It Works:**\n- First, the foundational layer establishes the core principles\n- Then, intermediate concepts add complexity and nuance\n- Finally, advanced applications combine everything together\n\n**Why It Matters:**\nUnderstanding this helps you make better decisions and see connections others might miss.\n\nWant me to dive deeper into any particular aspect?"
  const DesignAdviceText0: string :=
    "Here's a design recommendation:\n\n**Color Palette:**\n- Primary: #0EA5E9 (Sky Blue)\n- Secondary: #6366F1 (Indigo)\n- Accent: #F59E0B (Amber)\n- Background: #F8FAFC (Slate 50)\n- Text: #0F172A (Slate 900)\n\n**Typography:**\n- Headings: Inter, 700 weight\n- Body: Inter, 400 weight\n- Code: JetBrains Mono\n\n**Spacing:**\n- Use 4px base unit\n- Consistent padding: 16px, 24px, 32px\n\nThis creates a clean, professional look with good contrast and readability."
  const GeneralText0: string :=
    "Thank you for your question! Using "
  const GeneralText1: string :=
    ", here's my analysis:\n\nThis is a thoughtful topic that deserves careful consideration. Let me share some key insights:\n\n**Overview:**\nThe subject you've raised touches on several important areas. Understanding the context helps us form a more complete picture.\n\n**Key Considerations:**\n1. Multiple perspectives exist, each with valid reasoning\n2. The evidence points toward a nuanced conclusion\n3. Practical applications should be evaluated case by case\n\n**Recommendation:**\nI'd suggest approaching this step by step, starting with the fundamentals and building toward more complex analysis.\n\nWould you like me to explore any specific angle in more detail?"

  /** The reply text of each kind; three of them mention the model. */
  function ReplyText(kind: ReplyKind, model: string): (text: string)
  {
    match kind
    case Greeting => GreetingText0 + model + GreetingText1
    case CodeExample => CodeExampleText0 + model + CodeExampleText1
    case Summary => SummaryText0
    case Explanation => ExplanationText0
    case DesignAdvice => DesignAdviceText0
    case General => GeneralText0 + model + GeneralText1
  }

  /** The reply to `prompt`: the canned text for the kind its lower-cased form selects. */
  function GenerateResponse(prompt: string, model: string): (response: string)
  {
    ReplyText(Classify(Lower(prompt)), model)
  }

  /** The greeting, code and fallback replies contain the model; the other three do not depend on it. */
  lemma ModelInterpolation(kind: ReplyKind, model: string, other: string)
    ensures kind in {Greeting, CodeExample, General} ==> Contains(ReplyText(kind, model), model)
    ensures kind in {Summary, Explanation, DesignAdvice} ==> ReplyText(kind, model) == ReplyText(kind, other)
  {
    match kind
    case Greeting => ContainsMiddle(GreetingText0, model, GreetingText1);
    case CodeExample => ContainsMiddle(CodeExampleText0, model, CodeExampleText1);
    case General => ContainsMiddle(GeneralText0, model, GeneralText1);
    case _ =>
  }

  /** Matching ignores ASCII case: prompts that lower-case alike get the same reply, which is the reply to the lower-cased prompt. */
  lemma ResponseIgnoresCase(prompt: string, other: string, model: string)
    ensures GenerateResponse(Lower(prompt), model) == GenerateResponse(prompt, model)
    ensures Lower(prompt) == Lower(other) ==> GenerateResponse(prompt, model) == GenerateResponse(other, model)
  {
    LowerIdempotent(prompt);
  }

  /** Any prompt with "hi" in it, in either case and inside any word, gets the greeting. */
  lemma HiAnywhereGreets(prompt: string, model: string)
    requires Contains(prompt, "hi") || Contains(prompt, "HI") || Contains(prompt, "Hi") || Contains(prompt, "hI")
    ensures GenerateResponse(prompt, model) == ReplyText(Greeting, model)
  {
    if Contains(prompt, "hi") {
      ContainsLower(prompt, "hi");
    } else if Contains(prompt, "HI") {
      ContainsLower(prompt, "HI");
    } else if Contains(prompt, "Hi") {
      ContainsLower(prompt, "Hi");
    } else {
      ContainsLower(prompt, "hI");
    }
    assert Lower("hi") == Lower("HI") == Lower("Hi") == Lower("hI") == "hi";
  }

  /** The default prompt always yields the greeting. */
  lemma DefaultPromptGreets(model: string)
    ensures GenerateResponse(DefaultPrompt, model) == ReplyText(Greeting, model)
  {
    assert DefaultPrompt[3..5] == "lo";
    assert Lower(DefaultPrompt) == "hello";
    ContainsAt("hello", "hello", 0);
  }

  /** "Explain this" contains "hi" and so gets the greeting, not the explanation. */
  lemma ExplainThisGreets(model: string)
    ensures GenerateResponse("Explain this", model) == ReplyText(Greeting, model)
  {
    assert "Explain this"[9..11] == "hi";
    ContainsAt("Explain this", "hi", 9);
    HiAnywhereGreets("Explain this", model);
  }

  // A keyword group cannot match a prompt that lacks a letter which each of
  // its keywords needs.

  lemma NoGreetingKeyword(p: string)
    requires 'h' !in p
    ensures !GreetingKeyword(p)
  {
    MissingChar(p, "hello", 0); MissingChar(p, "hi", 0); MissingChar(p, "halo", 0);
  }

  lemma NoCodeKeyword(p: string)
    requires 'o' !in p
    ensures !CodeKeyword(p)
  {
    MissingChar(p, "code", 1); MissingChar(p, "function", 6); MissingChar(p, "program", 2);
  }

  lemma NoSummaryKeyword(p: string)
    requires 'u' !in p
    ensures !SummaryKeyword(p)
  {
    MissingChar(p, "summarize", 1); MissingChar(p, "summary", 1);
  }

  lemma NoExplainKeyword(p: string)
    requires 'x' !in p && 'w' !in p
    ensures !ExplainKeyword(p)
  {
    MissingChar(p, "explain", 1); MissingChar(p, "what is", 0);
  }

  lemma NoDesignKeyword(p: string)
    requires 'g' !in p && 'o' !in p && 'u' !in p
    ensures !DesignKeyword(p)
  {
    MissingChar(p, "design", 4); MissingChar(p, "color", 1); MissingChar(p, "ui", 0);
  }

  // Every reply kind is reached by some lower-cased prompt, so the order of
  // the tests hides none of them.

  /** A prompt with "code" and no "h" gets the code reply. */
  lemma CodeReachable(p: string)
    requires Contains(p, "code") && 'h' !in p
    ensures Classify(p) == CodeExample
  {
    NoGreetingKeyword(p);
  }

  /** A prompt with "summary" and neither "h" nor "o" gets the summary. */
  lemma SummaryReachable(p: string)
    requires Contains(p, "summary") && 'h' !in p && 'o' !in p
    ensures Classify(p) == Summary
  {
    NoGreetingKeyword(p);
    NoCodeKeyword(p);
  }

  /** A prompt with "explain" and none of "h", "o", "u" gets the explanation (so not "explain this"). */
  lemma ExplanationReachable(p: string)
    requires Contains(p, "explain") && 'h' !in p && 'o' !in p && 'u' !in p
    ensures Classify(p) == Explanation
  {
    NoGreetingKeyword(p);
    NoCodeKeyword(p);
    NoSummaryKeyword(p);
  }

  /** A prompt with "design" and none of "h", "o", "u", "x", "w" gets the design advice. */
  lemma DesignReachable(p: string)
    requires Contains(p, "design") && 'h' !in p && 'o' !in p && 'u' !in p && 'x' !in p && 'w' !in p
    ensures Classify(p) == DesignAdvice
  {
    NoGreetingKeyword(p);
    NoCodeKeyword(p);
    NoSummaryKeyword(p);
    NoExplainKeyword(p);
  }

  /** A prompt with none of "h", "o", "u", "x", "w", "g" matches no group and gets the fallback. */
  lemma FallbackReachable(p: string)
    requires 'h' !in p && 'o' !in p && 'u' !in p && 'x' !in p && 'w' !in p && 'g' !in p
    ensures Classify(p) == General
  {
    NoGreetingKeyword(p);
    NoCodeKeyword(p);
    NoSummaryKeyword(p);
    NoExplainKeyword(p);
    NoDesignKeyword(p);
  }

  // ---------------------------------------------------------------------
  // Streaming the reply

  /** The response stream: the sequence of texts written to it so far. */
  class TextStream {
    var written: seq<string>

    constructor ()
      ensures written == []
    {
      written := [];
    }

    /** Sends one chunk. */
    method Write(chunk: string)
      modifies this
      ensures written == old(written) + [chunk]
    {
      written := written + [chunk];
    }
  }

  /** Each word followed by one space. */
  function Chunks(words: seq<string>): (chunks: seq<string>)
  {
    seq(|words|, i requires 0 <= i < |words| => words[i] + " ")
  }

  /** The chunks concatenate to the words joined by spaces, plus one trailing space. */
  lemma {:induction false} ChunksConcat(words: seq<string>)
    requires |words| >= 1
    ensures Concat(Chunks(words)) == JoinWithSpace(words) + " "
    decreases |words|
  {
    var cs := Chunks(words);
    assert cs[1..] == Chunks(words[1..]);
    if |words| > 1 {
      ChunksConcat(words[1..]);
    }
  }

  /** What the stream carries is the reply and one trailing space, in one write per space-separated piece. */
  lemma StreamedText(response: string)
    ensures Concat(Chunks(SplitOnSpace(response))) == response + " "
    ensures |Chunks(SplitOnSpace(response))| == CountSpaces(response) + 1
  {
    ChunksConcat(SplitOnSpace(response));
    JoinSplit(response);
  }

  /** Writes each space-separated piece of `response`, followed by a space, in order. */
  method StreamText(stream: TextStream, response: string)
    modifies stream
    ensures stream.written == old(stream.written) + Chunks(SplitOnSpace(response))
    ensures Concat(stream.written[|old(stream.written)|..]) == response + " "
    ensures Concat(stream.written) == Concat(old(stream.written)) + response + " "
  {
    var words := SplitOnSpace(response);
    for i := 0 to |words|
      invariant stream.written == old(stream.written) + Chunks(words[..i])
    {
      assert Chunks(words[..i + 1]) == Chunks(words[..i]) + [words[i] + " "];
      stream.Write(words[i] + " ");
    }
    assert words[..|words|] == words;
    assert stream.written[|old(stream.written)|..] == Chunks(words);
    StreamedText(response);
    ConcatAppend(old(stream.written), Chunks(words));
  }

  /** The handler of a chat request: select the prompt, generate the reply, stream it. */
  method HandleChat(messages: Option<seq<WireMessage>>, model: string, stream: TextStream)
    modifies stream
    ensures stream.written == old(stream.written) + Chunks(SplitOnSpace(GenerateResponse(UserPrompt(messages), model)))
  {
    var prompt := UserPrompt(messages);
    var response := GenerateResponse(prompt, model);
    StreamText(stream, response);
  }
}
