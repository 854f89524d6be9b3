/** `explainTopic`, the unrouted variant of the explain handler: all three
    of subject, topic and language are required, the prompt is a trimmed
    template, and a successful answer carries `explanation` (not `reply`). */
module ChatBotController {
  import opened JsValues
  import opened Http

  const ValidationMessage := "subject, topic, and language are required"
  const SystemPrompt := "You are a helpful academic tutor."
  const Title := "Learning Assistant"
  const ThrownFallbackMessage := "OpenRouter failed"
  const MaxTokens: nat := 400
  const Temperature: real := 0.7

  /** `subject && topic && language`: all three request members are
      present and non-empty. */
  predicate Complete(body: JsonObject) {
    Truthy(Get(body, "subject")) && Truthy(Get(body, "topic")) && Truthy(Get(body, "language"))
  }

  /** The lines of the prompt's template literal before `trim()`: a leading
      newline, the text, and the indentation before the closing backtick. */
  function TemplateLines(subject: string, topic: string, language: string): seq<string> {
    [ "",
      "You are a helpful academic tutor.",
      "",
      "Subject: " + subject,
      "Topic: " + topic,
      "",
      "Explain this topic in " + language + ".",
      "Use simple and student-friendly language.",
      "Include examples if possible.",
      "    " ]
  }

  /** The lines of the prompt that is sent: the template without its first
      and last line. */
  function PromptLines(subject: string, topic: string, language: string): (lines: seq<string>)
    ensures |lines| == 8
  {
    TemplateLines(subject, topic, language)[1..9]
  }

  /** The template literal, trimmed. Trimming removes exactly the opening
      newline and the closing indentation, whatever the three values are, so
      the prompt names the subject, the topic and "Explain this topic in
      <language>."; when none of the values holds a newline, its lines are
      exactly the template's inner lines. */
  function Prompt(subject: string, topic: string, language: string): (p: string)
    ensures p == JoinLines(PromptLines(subject, topic, language))
    ensures Includes(p, "Subject: " + subject)
    ensures Includes(p, "Topic: " + topic)
    ensures Includes(p, "Explain this topic in " + language + ".")
    ensures NoNewlines([subject, topic, language]) ==> Split(p) == PromptLines(subject, topic, language)
  {
    TrimmedTemplate(subject, topic, language);
    var inner := PromptLines(subject, topic, language);
    JoinIncludesLine(inner, 2);
    JoinIncludesLine(inner, 3);
    JoinIncludesLine(inner, 5);
    if NoNewlines([subject, topic, language]) then
      assert '\n' !in subject && '\n' !in topic && '\n' !in language by {
        assert [subject, topic, language][0] == subject;
        assert [subject, topic, language][1] == topic;
        assert [subject, topic, language][2] == language;
      }
      InnerLinesHaveNoNewlines(subject, topic, language);
      SplitJoin(inner);
      Trim(JoinLines(TemplateLines(subject, topic, language)))
    else
      Trim(JoinLines(TemplateLines(subject, topic, language)))
  }

  /** `trim()` on the joined template keeps exactly the joined inner lines. */
  lemma TrimmedTemplate(subject: string, topic: string, language: string)
    ensures Trim(JoinLines(TemplateLines(subject, topic, language)))
            == JoinLines(PromptLines(subject, topic, language))
  {
    var all := TemplateLines(subject, topic, language);
    var inner := PromptLines(subject, topic, language);
    assert all == [""] + inner + ["    "];
    JoinAppend([""] + inner, ["    "]);
    JoinAppend([""], inner);
    var text := JoinLines(inner);
    assert JoinLines(all) == "\n" + text + "\n    ";
    // the text starts with the first inner line ...
    assert text == inner[0] + "\n" + JoinLines(inner[1..]);
    assert text[0] == 'Y';
    // ... and ends with the last one
    assert inner == inner[..7] + [inner[7]];
    JoinAppend(inner[..7], [inner[7]]);
    assert text == JoinLines(inner[..7]) + "\n" + "Include examples if possible.";
    assert text[|text| - 1] == '.';
    assert AllWhitespace("\n") && AllWhitespace("\n    ");
    TrimPadded("\n", text, "\n    ");
  }

  lemma InnerLinesHaveNoNewlines(subject: string, topic: string, language: string)
    requires '\n' !in subject && '\n' !in topic && '\n' !in language
    ensures NoNewlines(PromptLines(subject, topic, language))
  {
    var lines := PromptLines(subject, topic, language);
    forall i | 0 <= i < |lines| ensures '\n' !in lines[i] {
      if i == 0 {
        LabelledLine("You are a helpful academic tutor.", "");
      } else if i == 2 {
        LabelledLine("Subject: ", subject);
      } else if i == 3 {
        LabelledLine("Topic: ", topic);
      } else if i == 5 {
        LabelledLine("Explain this topic in ", language);
        LabelledLine("Explain this topic in " + language, ".");
      } else if i == 6 {
        LabelledLine("Use simple and student-friendly language.", "");
      } else if i == 7 {
        LabelledLine("Include examples if possible.", "");
      }
    }
  }

  /** The provider call made for a validated request: a POST to the
      completions endpoint with the bearer key, the referer and title
      headers, the model, the two messages, at most 400 tokens and
      temperature 0.7. The user message is the trimmed prompt. */
  function Call(subject: string, topic: string, language: string, apiKey: string): (c: ProviderCall)
    ensures c.url == CompletionsUrl && c.authorization == "Bearer " + apiKey
    ensures c.referer == Referer && c.title == Title && c.model == ModelName
    ensures c.systemPrompt == SystemPrompt
    ensures c.userPrompt == JoinLines(PromptLines(subject, topic, language))
    ensures Includes(c.userPrompt, "Subject: " + subject) && Includes(c.userPrompt, "Topic: " + topic)
    ensures Includes(c.userPrompt, "Explain this topic in " + language + ".")
    ensures c.maxTokens == Some(400) && c.temperature == Some(0.7)
  {
    ProviderCall(
      CompletionsUrl,
      "Bearer " + apiKey,
      Referer,
      Title,
      ModelName,
      SystemPrompt,
      Prompt(subject, topic, language),
      Some(MaxTokens),
      Some(Temperature))
  }

  /** How the handler answers once the provider call settled: as the routed
      handler does, except that a success carries the content as
      `explanation`, and a thrown error without a message is reported as
      "OpenRouter failed". */
  function Relay(upstream: Upstream): (a: Answer)
    ensures a.body.success <==> upstream.Response? && IsOk(upstream.status) && Truthy(upstream.data.content)
    ensures a.body.success ==> a.status == 200 && a.body.explanation == upstream.data.content && a.body.message == None
    ensures a.body.success ==> a == Answer(200, Body(true, None, None, upstream.data.content, None))
    ensures a.body.reply == None
    ensures !a.body.success ==> a.body.explanation == None
    ensures upstream.Response? ==> a.status == (if IsOk(upstream.status) then 200 else upstream.status)
    ensures upstream.Response? && !IsOk(upstream.status) ==> a.body == FailureBody(Some(upstream.text))
    ensures upstream.Response? && IsOk(upstream.status) && !Truthy(upstream.data.content) ==>
              a.body == NoContentBody(upstream.data)
    ensures upstream.Threw? ==>
              a == Answer(500, FailureBody(Some(OrDefault(upstream.message, ThrownFallbackMessage))))
  {
    match upstream
    case Response(status, text, data) =>
      if !IsOk(status) then Answer(status, FailureBody(Some(text)))
      else if !Truthy(data.content) then Answer(200, NoContentBody(data))
      else Answer(200, Body(true, None, None, data.content, None))
    case Threw(message) =>
      Answer(500, FailureBody(Some(OrDefault(message, ThrownFallbackMessage))))
  }

  /** `explainTopic(req, res)`, with the request body, the environment's
      provider key and what the provider call would settle to. Validation
      comes first and needs all three members, the key check second, and
      the provider is called only when both pass. */
  function ExplainTopic(body: JsonObject, apiKey: Field, upstream: Upstream): (o: Outcome)
    ensures !Complete(body) ==> o == Outcome(Answer(400, FailureBody(Some(ValidationMessage))), None)
    ensures Complete(body) && !Truthy(apiKey) ==>
              o == Outcome(Answer(500, FailureBody(Some(MissingKeyMessage))), None)
    ensures o.call.Some? <==> Complete(body) && Truthy(apiKey)
    ensures o.call.Some? ==> o.answer == Relay(upstream)
    ensures o.call.Some? ==> o.call.value == Call(body["subject"], body["topic"], body["language"], apiKey.value)
    ensures o.call.Some? ==>
              && o.call.value.authorization == "Bearer " + apiKey.value
              && o.call.value.userPrompt == Prompt(body["subject"], body["topic"], body["language"])
              && o.call.value.maxTokens == Some(400)
  {
    if !Complete(body) then
      Outcome(Answer(400, FailureBody(Some(ValidationMessage))), None)
    else if !Truthy(apiKey) then
      Outcome(Answer(500, FailureBody(Some(MissingKeyMessage))), None)
    else
      Outcome(Relay(upstream), Some(Call(body["subject"], body["topic"], body["language"], apiKey.value)))
  }
}
