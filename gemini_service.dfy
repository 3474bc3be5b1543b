/**
 * app/services/gemini_service.py: the prompts sent to the language model.
 * The model call itself (`generate_content`) is an outside call, given here
 * as a function from prompt to reply text (None when it raises).
 */
module GeminiService {
  import opened Wrappers
  import opened Strings
  import opened Errors

  /** The twelve spaces of source indentation that the triple-quoted literals keep. */
  const Indent: string := "            "

  /** The opening of the `analyze_code` prompt, up to where the code goes:
      the request, then a fence line. */
  const AnalyzeHead: string := AnalyzeIntro + (Indent + "```\n" + Indent)

  const AnalyzeIntro: string :=
    "\n" + Indent + "You are an expert code analyzer. Please analyze the following code:\n"
    + "\n"

  /** The rest of the `analyze_code` prompt after the code: the closing fence
      line, then the instructions (`{{` renders as `{`). */
  const AnalyzeTail: string := ("\n" + Indent + "```\n") + AnalyzeInstructions

  const AnalyzeInstructions: string :=
    "\n"
    + Indent + "Provide a high-level overview of:\n"
    + Indent + "1. What this code does\n"
    + Indent + "2. Key functions/classes and their purposes\n"
    + Indent + "3. Any potential issues or improvements\n"
    + "\n"
    + Indent + "Format your response as JSON with the following structure:\n"
    + Indent + "{\n"
    + Indent + "    \"overview\": \"A brief description of the code\",\n"
    + Indent + "    \"key_components\": [\n"
    + Indent + "        {\"name\": \"component_name\", \"type\": \"function/class/etc\", \"purpose\": \"description\"}\n"
    + Indent + "    ],\n"
    + Indent + "    \"potential_issues\": [\"issue1\", \"issue2\"],\n"
    + Indent + "    \"suggested_improvements\": [\"improvement1\", \"improvement2\"]\n"
    + Indent + "}\n"
    + Indent

  /** The first part of every question prompt. */
  const Preamble: string := "You are an expert code explainer."

  /** The fixed last part of every question prompt: its lines joined by newlines. */
  const AnswerFormat: string := Join(AnswerFormatLines, "\n")

  /** The lines of that instruction as the triple-quoted literal spells them. */
  const AnswerFormatLines: seq<string> := [
    "",
    Indent + "Please provide a clear, concise explanation that would help a developer understand this code.",
    Indent + "Include code snippets where relevant, and explain the reasoning behind implementation choices.",
    "",
    Indent + "Format your response as JSON with the following structure:",
    Indent + "{",
    Indent + "    \"text_response\": \"Your detailed explanation here\",",
    Indent + "    \"code_snippets\": [",
    Indent + "        {\"language\": \"language_name\", \"code\": \"code_here\", \"explanation\": \"explanation_here\"}",
    Indent + "    ],",
    Indent + "    \"references\": [",
    Indent + "        {\"type\": \"documentation/pattern/library\", \"name\": \"reference_name\", \"description\": \"brief_description\"}",
    Indent + "    ]",
    Indent + "}",
    Indent
  ]

  /** The `analyze_code` prompt. */
  function AnalyzePrompt(code: string): string
  {
    AnalyzeHead + code + AnalyzeTail
  }

  /** The code sits verbatim between the fixed head and tail: cutting them off
      gives it back unchanged. */
  lemma AnalyzePromptEmbedsCode(code: string)
    ensures |AnalyzePrompt(code)| == |AnalyzeHead| + |code| + |AnalyzeTail|
    ensures AnalyzePrompt(code)[..|AnalyzeHead|] == AnalyzeHead
    ensures AnalyzePrompt(code)[|AnalyzeHead|..|AnalyzeHead| + |code|] == code
    ensures AnalyzePrompt(code)[|AnalyzeHead| + |code|..] == AnalyzeTail
  {
    Embeds(AnalyzeHead, code, AnalyzeTail);
  }

  lemma Embeds(head: string, code: string, tail: string)
    ensures (head + code + tail)[..|head|] == head
    ensures (head + code + tail)[|head|..|head| + |code|] == code
    ensures (head + code + tail)[|head| + |code|..] == tail
  {
    var p := head + code + tail;
    assert p[|head|..|head| + |code|] == code;
  }

  /** `analyze_code`: the model's reply to the prompt; a failure is re-raised. */
  function AnalyzeCode(code: string, generate: string -> Option<string>): (r: Result<string, Failure>)
    ensures generate(AnalyzePrompt(code)).None? <==> r == Err(Foreign("generate_content"))
    ensures generate(AnalyzePrompt(code)).Some? ==> r == Ok(generate(AnalyzePrompt(code)).value)
  {
    match generate(AnalyzePrompt(code))
    case Some(text) => Ok(text)
    case None => Err(Foreign("generate_content"))
  }

  /** The repository details a question prompt may carry (`repository_info`). */
  type RepositoryInfo = map<string, string>

  /** `if repository_info:`: present and not empty. */
  predicate HasInfo(info: Option<RepositoryInfo>)
  {
    info.Some? && |info.value| > 0
  }

  /** The repository line: the name (or "Unknown"), then " - " and the
      description when the description is not empty. */
  function RepositoryLine(info: RepositoryInfo): (r: string)
    ensures var name := if "name" in info then info["name"] else "Unknown";
            ("description" in info && info["description"] != "") ==> r == "Repository: " + name + " - " + info["description"]
    ensures var name := if "name" in info then info["name"] else "Unknown";
            !("description" in info && info["description"] != "") ==> r == "Repository: " + name
  {
    var repoDesc := "Repository: " + (if "name" in info then info["name"] else "Unknown");
    if "description" in info && info["description"] != "" then repoDesc + " - " + info["description"] else repoDesc
  }

  /** The fenced code-context part. */
  function ContextPart(context: string): string
  {
    "Here is the relevant code context:\n```\n" + context + "\n```"
  }

  /** The parts of a question prompt, in order: the preamble, the repository
      line when there is repository info, the code context when it is not
      empty, the question, and the fixed format instruction. */
  function PromptParts(question: string, context: Option<string>, info: Option<RepositoryInfo>): (r: seq<string>)
    ensures |r| == 3 + (if HasInfo(info) then 1 else 0) + (if Truthy(context) then 1 else 0)
    ensures r[0] == Preamble
    ensures r[|r| - 2] == "Question: " + question
    ensures r[|r| - 1] == AnswerFormat
    ensures HasInfo(info) ==> r[1] == RepositoryLine(info.value)
    ensures Truthy(context) ==> r[|r| - 3] == ContextPart(context.value)
  {
    [Preamble]
    + (if HasInfo(info) then [RepositoryLine(info.value)] else [])
    + (if Truthy(context) then [ContextPart(context.value)] else [])
    + ["Question: " + question, AnswerFormat]
  }

  /** The prompt `answer_question` builds: parts appended one after the other,
      then joined with blank lines. */
  method AnswerPrompt(question: string, context: Option<string>, info: Option<RepositoryInfo>) returns (prompt: string)
    ensures prompt == Join(PromptParts(question, context, info), "\n\n")
  {
    var promptParts := [Preamble];
    if HasInfo(info) {
      var repoDesc := "Repository: " + (if "name" in info.value then info.value["name"] else "Unknown");
      if "description" in info.value && info.value["description"] != "" {
        repoDesc := repoDesc + " - " + info.value["description"];
      }
      assert repoDesc == RepositoryLine(info.value);
      promptParts := promptParts + [repoDesc];
    }
    ghost var head := promptParts;
    assert head == [Preamble] + (if HasInfo(info) then [RepositoryLine(info.value)] else []);
    if Truthy(context) {
      promptParts := promptParts + ["Here is the relevant code context:\n```\n" + context.value + "\n```"];
    }
    assert promptParts == head + (if Truthy(context) then [ContextPart(context.value)] else []);
    promptParts := promptParts + ["Question: " + question];
    promptParts := promptParts + [AnswerFormat];
    assert promptParts == PromptParts(question, context, info);
    prompt := Join(promptParts, "\n\n");
  }

  lemma {:induction false} JoinAppend(parts: seq<string>, last: string)
    requires |parts| >= 1
    ensures Join(parts + [last], "\n\n") == Join(parts, "\n\n") + "\n\n" + last
  {
    if |parts| > 1 {
      assert (parts + [last])[1..] == parts[1..] + [last];
      JoinAppend(parts[1..], last);
    }
  }

  lemma {:induction false} JoinPrepend(first: string, parts: seq<string>)
    requires |parts| >= 1
    ensures Join([first] + parts, "\n\n") == first + "\n\n" + Join(parts, "\n\n")
  {
    assert ([first] + parts)[1..] == parts;
  }

  lemma JoinFrame(first: string, middle: seq<string>, q: string, last: string)
    ensures var prompt := Join([first] + middle + [q, last], "\n\n");
            var closing := q + "\n\n" + last;
            |prompt| >= |first| + 2 + |closing|
            && prompt[..|first| + 2] == first + "\n\n"
            && prompt[|prompt| - |closing|..] == closing
  {
    var parts := [first] + middle + [q, last];
    var front := [first] + middle;
    assert parts == front + [q] + [last];
    JoinAppend(front + [q], last);
    JoinAppend(front, q);
    var closing := q + "\n\n" + last;
    var prompt := Join(parts, "\n\n");
    assert prompt == Join(front, "\n\n") + "\n\n" + closing;
    assert parts == [first] + (middle + [q, last]);
    JoinPrepend(first, middle + [q, last]);
    assert prompt == first + "\n\n" + Join(middle + [q, last], "\n\n");
  }

  /** Every question prompt opens with the preamble and closes with the
      question followed by the format instruction. */
  lemma PromptFrame(question: string, context: Option<string>, info: Option<RepositoryInfo>)
    ensures var prompt := Join(PromptParts(question, context, info), "\n\n");
            var closing := "Question: " + question + "\n\n" + AnswerFormat;
            |prompt| >= |Preamble| + 2 + |closing|
            && prompt[..|Preamble| + 2] == Preamble + "\n\n"
            && prompt[|prompt| - |closing|..] == closing
  {
    var parts := PromptParts(question, context, info);
    var n := |parts|;
    assert parts == [Preamble] + parts[1..n - 2] + ["Question: " + question, AnswerFormat];
    JoinFrame(Preamble, parts[1..n - 2], "Question: " + question, AnswerFormat);
  }

  /** `answer_question`: the model's reply to the assembled prompt; a failure is re-raised. */
  method AnswerQuestion(question: string, context: Option<string>, info: Option<RepositoryInfo>,
                        generate: string -> Option<string>)
    returns (r: Result<string, Failure>)
    ensures var prompt := Join(PromptParts(question, context, info), "\n\n");
            (generate(prompt).None? <==> r == Err(Foreign("generate_content")))
            && (generate(prompt).Some? ==> r == Ok(generate(prompt).value))
  {
    var fullPrompt := AnswerPrompt(question, context, info);
    var response := generate(fullPrompt);
    if response.None? {
      return Err(Foreign("generate_content"));
    }
    r := Ok(response.value);
  }
}
