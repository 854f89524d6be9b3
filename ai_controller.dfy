/** `AIController.explain`, the handler routed at POST /api/v2/chatbot/explain:
    resolve the topic, validate it, check the provider key, send one prompt
    to the provider and classify what comes back. */
module AiController {
  import opened JsValues
  import opened Http

  const TopicRequiredMessage := "Topic is required"
  const SystemPrompt := "You are a helpful academic AI tutor. Explain clearly and in simple language."
  const Title := "NexaLearn AI Assistant"
  const DefaultSubject := "General"
  const DefaultLanguage := "English"

  /** The topic the handler works with: `customTopic || selectedTopic`. It is
      truthy exactly when one of the two is, and the custom topic wins. */
  function ResolveTopic(body: JsonObject): (topic: Field)
    ensures Truthy(topic) <==> Truthy(Get(body, "customTopic")) || Truthy(Get(body, "selectedTopic"))
    ensures Truthy(Get(body, "customTopic")) ==> topic == Get(body, "customTopic")
    ensures !Truthy(Get(body, "customTopic")) ==> topic == Get(body, "selectedTopic")
  {
    Or(Get(body, "customTopic"), Get(body, "selectedTopic"))
  }

  /** The lines of the user prompt's template literal, which opens with a
      newline and closes with the indentation of the closing backtick. */
  function PromptLines(subject: string, topic: string, language: string): seq<string> {
    [ "",
      "Subject: " + subject,
      "Topic: " + topic,
      "Language: " + language,
      "",
      "Explain in simple student-friendly language.",
      "Add real-world examples if possible.",
      "Use bullet points where helpful.",
      "                " ]
  }

  /** The user prompt. Each of the three values stands in it on its own
      labelled line; when none of them holds a newline, splitting the prompt
      into lines gives the template's lines back. */
  function UserPrompt(subject: string, topic: string, language: string): (p: string)
    ensures Includes(p, "Subject: " + subject)
    ensures Includes(p, "Topic: " + topic)
    ensures Includes(p, "Language: " + language)
    ensures NoNewlines([subject, topic, language]) ==> Split(p) == PromptLines(subject, topic, language)
  {
    var lines := PromptLines(subject, topic, language);
    JoinIncludesLine(lines, 1);
    JoinIncludesLine(lines, 2);
    JoinIncludesLine(lines, 3);
    if NoNewlines([subject, topic, language]) then
      assert '\n' !in subject && '\n' !in topic && '\n' !in language by {
        assert [subject, topic, language][0] == subject;
        assert [subject, topic, language][1] == topic;
        assert [subject, topic, language][2] == language;
      }
      LabelledLinesHaveNoNewlines(subject, topic, language);
      SplitJoin(lines);
      JoinLines(lines)
    else
      JoinLines(lines)
  }

  lemma LabelledLinesHaveNoNewlines(subject: string, topic: string, language: string)
    requires '\n' !in subject && '\n' !in topic && '\n' !in language
    ensures NoNewlines(PromptLines(subject, topic, language))
  {
    var lines := PromptLines(subject, topic, language);
    forall i | 0 <= i < |lines| ensures '\n' !in lines[i] {
      if i == 1 {
        LabelledLine("Subject: ", subject);
      } else if i == 2 {
        LabelledLine("Topic: ", topic);
      } else if i == 3 {
        LabelledLine("Language: ", language);
      } else if i == 5 {
        LabelledLine("Explain in simple student-friendly language.", "");
      } else if i == 6 {
        LabelledLine("Add real-world examples if possible.", "");
      } else if i == 7 {
        LabelledLine("Use bullet points where helpful.", "");
      } else if i == 8 {
        LabelledLine("                ", "");
      }
    }
  }

  /** The provider call made for a validated request: a POST to the
      completions endpoint with the bearer key, the referer and title
      headers, the model, the two messages and no sampling options. The user
      message names the subject (default "General"), the topic and the
      language (default "English"). */
  function Call(body: JsonObject, topic: string, apiKey: string): (c: ProviderCall)
    ensures c.url == CompletionsUrl && c.authorization == "Bearer " + apiKey
    ensures c.referer == Referer && c.title == Title && c.model == ModelName
    ensures c.systemPrompt == SystemPrompt
    ensures Includes(c.userPrompt, "Subject: " + OrDefault(Get(body, "selectedSubject"), DefaultSubject))
    ensures Includes(c.userPrompt, "Topic: " + topic)
    ensures Includes(c.userPrompt, "Language: " + OrDefault(Get(body, "language"), DefaultLanguage))
    ensures c.maxTokens == None && c.temperature == None
  {
    ProviderCall(
      CompletionsUrl,
      "Bearer " + apiKey,
      Referer,
      Title,
      ModelName,
      SystemPrompt,
      UserPrompt(OrDefault(Get(body, "selectedSubject"), DefaultSubject),
                 topic,
                 OrDefault(Get(body, "language"), DefaultLanguage)),
      None,
      None)
  }

  /** How the handler answers once the provider call settled. Success means
      an OK response with non-empty content, which is relayed verbatim as
      `reply`; a non-OK status and its text are passed through; an OK
      response without content is a 200 failure carrying the raw data; a
      thrown error is a 500 carrying the error's message. */
  function Relay(upstream: Upstream): (a: Answer)
    ensures a.body.success <==> upstream.Response? && IsOk(upstream.status) && Truthy(upstream.data.content)
    ensures a.body.success ==> a.status == 200 && a.body.reply == upstream.data.content && a.body.message == None
    ensures a.body.success ==> a == Answer(200, Body(true, None, upstream.data.content, None, None))
    ensures !a.body.success ==> a.body.reply == None && a.body.explanation == None
    ensures upstream.Response? ==> a.status == (if IsOk(upstream.status) then 200 else upstream.status)
    ensures upstream.Response? && !IsOk(upstream.status) ==> a.body == FailureBody(Some(upstream.text))
    ensures upstream.Response? && IsOk(upstream.status) && !Truthy(upstream.data.content) ==>
              a.body == NoContentBody(upstream.data)
    ensures upstream.Threw? ==> a == Answer(500, FailureBody(upstream.message))
  {
    match upstream
    case Response(status, text, data) =>
      if !IsOk(status) then Answer(status, FailureBody(Some(text)))
      else if !Truthy(data.content) then Answer(200, NoContentBody(data))
      else Answer(200, Body(true, None, data.content, None, None))
    case Threw(message) =>
      Answer(500, FailureBody(message))
  }

  /** `AIController.explain(req, res)`, with the request body, the
      environment's provider key and what the provider call would settle to.
      The topic is validated first, the key second, and the provider is
      called only when both pass; the prompt then names the subject
      (default "General"), the topic and the language (default "English"). */
  function Explain(body: JsonObject, apiKey: Field, upstream: Upstream): (o: Outcome)
    ensures !Truthy(ResolveTopic(body)) ==>
              o == Outcome(Answer(400, FailureBody(Some(TopicRequiredMessage))), None)
    ensures Truthy(ResolveTopic(body)) && !Truthy(apiKey) ==>
              o == Outcome(Answer(500, FailureBody(Some(MissingKeyMessage))), None)
    ensures o.call.Some? <==> Truthy(ResolveTopic(body)) && Truthy(apiKey)
    ensures o.call.Some? ==> o.answer == Relay(upstream)
    ensures o.call.Some? ==> o.call.value == Call(body, ResolveTopic(body).value, apiKey.value)
    ensures o.call.Some? ==>
              && o.call.value.url == CompletionsUrl
              && o.call.value.authorization == "Bearer " + apiKey.value
              && Includes(o.call.value.userPrompt, "Subject: " + OrDefault(Get(body, "selectedSubject"), DefaultSubject))
              && Includes(o.call.value.userPrompt, "Topic: " + ResolveTopic(body).value)
              && Includes(o.call.value.userPrompt, "Language: " + OrDefault(Get(body, "language"), DefaultLanguage))
  {
    var topic := ResolveTopic(body);
    if !Truthy(topic) then
      Outcome(Answer(400, FailureBody(Some(TopicRequiredMessage))), None)
    else if !Truthy(apiKey) then
      Outcome(Answer(500, FailureBody(Some(MissingKeyMessage))), None)
    else
      Outcome(Relay(upstream), Some(Call(body, topic.value, apiKey.value)))
  }

  /** A worked example: subject "Biology", topic "Photosynthesis" (no
      custom topic), language "English", and a provider that answers with
      some text. Exactly one call is made, its prompt
      carries the three values on their own labelled lines, and the text
      comes back unchanged. */
  lemma PhotosynthesisExample(body: JsonObject, apiKey: string, text: string)
    requires Get(body, "selectedSubject") == Some("Biology")
    requires Get(body, "selectedTopic") == Some("Photosynthesis")
    requires !Truthy(Get(body, "customTopic"))
    requires Get(body, "language") == Some("English")
    requires apiKey != "" && text != ""
    ensures var o := Explain(body, Some(apiKey), Response(200, text, Completion(Some(text))));
            && o.call.Some?
            && Split(o.call.value.userPrompt) == PromptLines("Biology", "Photosynthesis", "English")
            && o.answer == Answer(200, Body(true, None, Some(text), None, None))
  {
    var values := ["Biology", "Photosynthesis", "English"];
    forall i | 0 <= i < |values| ensures '\n' !in values[i] {
      if i == 0 {
        LabelledLine("Biology", "");
      } else if i == 1 {
        LabelledLine("Photosynthesis", "");
      } else {
        LabelledLine("English", "");
      }
    }
    assert ResolveTopic(body) == Some("Photosynthesis");
    assert OrDefault(Get(body, "selectedSubject"), DefaultSubject) == "Biology";
    assert OrDefault(Get(body, "language"), DefaultLanguage) == "English";
    var call := Call(body, "Photosynthesis", apiKey);
    assert call.userPrompt == UserPrompt("Biology", "Photosynthesis", "English");
    assert Split(call.userPrompt) == PromptLines("Biology", "Photosynthesis", "English");
    var o := Explain(body, Some(apiKey), Response(200, text, Completion(Some(text))));
    assert o.call == Some(call);
  }
}
