/** The learning page: its form state, the request it sends to the explain
    endpoint and what it shows once the request settled, the custom-topic
    input, and the plain-text export. The network, `alert`, the download
    mechanics, speech and the typed-markdown display are not modelled. */
module LearningPage {
  import opened JsValues
  import opened Http
  import AiController
  import ChatBotController

  const FailureText := "\U{26A0}\U{FE0F} Failed to generate explanation. Please try again."
  const MissingTopicAlert := "Please enter a topic"

  /** `customTopic || selectedTopic` on the page's string state: empty only
      when both are, and the custom topic wins. */
  function ResolveTopic(customTopic: string, selectedTopic: string): (topic: string)
    ensures topic == "" <==> customTopic == "" && selectedTopic == ""
    ensures customTopic != "" ==> topic == customTopic
    ensures customTopic == "" ==> topic == selectedTopic
  {
    if customTopic != "" then customTopic else selectedTopic
  }

  /** The JSON body the page posts to the explain endpoint: the four form
      fields under their own names. The routed handler reads from it the
      topic the page resolved, the subject and the language; it carries no
      `subject` or `topic` member, so it is never complete for the unrouted
      handler. */
  function RequestBody(subject: string, selectedTopic: string, customTopic: string, language: string): (body: JsonObject)
    ensures body.Keys == {"selectedSubject", "selectedTopic", "customTopic", "language"}
    ensures AiController.ResolveTopic(body) == Some(ResolveTopic(customTopic, selectedTopic))
    ensures Get(body, "selectedSubject") == Some(subject) && Get(body, "language") == Some(language)
    ensures !ChatBotController.Complete(body)
  {
    map["selectedSubject" := subject, "selectedTopic" := selectedTopic,
        "customTopic" := customTopic, "language" := language]
  }

  /** What the page gets from the endpoint: a JSON answer, or an exception
      from `fetch` or from `response.json()`. */
  datatype BackendReply = Delivered(status: int, data: Body) | Failed

  /** The explanation shown once the request settled: an OK answer shows
      its `reply`, or "No explanation generated" without one; a non-OK
      answer (whose message is dropped) and an exception show the fixed
      failure text. Never empty. */
  function ExplanationAfter(reply: BackendReply): (text: string)
    ensures text != ""
    ensures reply.Delivered? && IsOk(reply.status) && Truthy(reply.data.reply) ==> text == reply.data.reply.value
    ensures reply.Delivered? && IsOk(reply.status) && !Truthy(reply.data.reply) ==> text == NoExplanationMessage
    ensures !(reply.Delivered? && IsOk(reply.status)) ==> text == FailureText
  {
    if reply.Delivered? && IsOk(reply.status) then OrDefault(reply.data.reply, NoExplanationMessage)
    else FailureText
  }

  // ---------------------------------------------------------------------
  // Export

  datatype ExportFile = ExportFile(name: string, content: string)

  /** `${selectedSubject}_${topic}.txt`. */
  function FileName(subject: string, topic: string): string {
    subject + "_" + topic + ".txt"
  }

  /** The first index of `c` in `s`, if any. */
  function FirstIndexOf(s: string, c: char): (r: Option<nat>)
    ensures r.None? <==> c !in s
    ensures r.Some? ==> r.value < |s| && s[r.value] == c && c !in s[..r.value]
  {
    if s == [] then None
    else if s[0] == c then Some(0)
    else
      match FirstIndexOf(s[1..], c)
      case None => None
      case Some(i) =>
        assert s[..i + 1] == [s[0]] + s[1..][..i];
        Some(i + 1)
  }

  /** Reads a subject and a topic back from an export file name: the part
      before the first underscore, and the part between it and ".txt". */
  function ParseFileName(name: string): Option<(string, string)> {
    if |name| < 4 || name[|name| - 4..] != ".txt" then None
    else
      var stem := name[..|name| - 4];
      match FirstIndexOf(stem, '_')
      case None => None
      case Some(i) => Some((stem[..i], stem[i + 1..]))
  }

  lemma {:induction false} FirstIndexAfterPrefix(prefix: string, c: char, rest: string)
    requires c !in prefix
    ensures FirstIndexOf(prefix + [c] + rest, c) == Some(|prefix|)
  {
    var s := prefix + [c] + rest;
    if prefix != [] {
      assert prefix[0] in prefix;
      assert s[0] == prefix[0];
      assert s[1..] == prefix[1..] + [c] + rest;
      assert c !in prefix[1..] by {
        forall k | 0 <= k < |prefix[1..]| ensures prefix[1..][k] != c {
          assert prefix[1..][k] == prefix[k + 1];
        }
      }
      FirstIndexAfterPrefix(prefix[1..], c, rest);
    }
  }

  /** A file name gives back its subject and topic when the subject holds
      no underscore; the topic may hold any. */
  lemma FileNameRoundTrip(subject: string, topic: string)
    requires '_' !in subject
    ensures ParseFileName(FileName(subject, topic)) == Some((subject, topic))
  {
    var name := FileName(subject, topic);
    var stem := subject + "_" + topic;
    assert name == stem + ".txt";
    assert name[|name| - 4..] == ".txt";
    assert name[..|name| - 4] == stem;
    FirstIndexAfterPrefix(subject, '_', topic);
    assert stem[..|subject|] == subject;
    assert stem[|subject| + 1..] == topic;
  }

  /** The header lines of the export, before the explanation and the
      closing indentation. */
  function HeaderLines(subject: string, topic: string, language: string): seq<string> {
    ["", "Subject: " + subject, "Topic: " + topic, "Language: " + language, "", "Explanation:"]
  }

  /** `exportToFile`: nothing without an explanation; otherwise a file named
      after the subject and the topic whose text is the header naming the
      subject, the topic and the language on their own lines, then the
      explanation verbatim after "Explanation:", then the closing
      indentation. */
  function Export(subject: string, topic: string, language: string, explanation: string): (file: Option<ExportFile>)
    ensures file.None? <==> explanation == ""
    ensures file.Some? ==> file.value.name == FileName(subject, topic)
    ensures file.Some? ==>
              file.value.content == JoinLines(HeaderLines(subject, topic, language)) + "\n" + explanation + "\n    "
    ensures file.Some? ==> Includes(file.value.content, explanation)
    ensures file.Some? && NoNewlines([subject, topic, language]) ==>
              HeaderLines(subject, topic, language) <= Split(file.value.content)
  {
    if explanation == "" then None
    else
      var header := HeaderLines(subject, topic, language);
      var lines := header + [explanation, "    "];
      JoinIncludesLine(lines, 6);
      assert lines[6] == explanation;
      JoinAppend(header, [explanation, "    "]);
      if NoNewlines([subject, topic, language]) then
        HeaderHasNoNewlines(subject, topic, language);
        SplitAfterLines(header, JoinLines([explanation, "    "]));
        Some(ExportFile(FileName(subject, topic), JoinLines(lines)))
      else
        Some(ExportFile(FileName(subject, topic), JoinLines(lines)))
  }

  lemma HeaderHasNoNewlines(subject: string, topic: string, language: string)
    requires NoNewlines([subject, topic, language])
    ensures NoNewlines(HeaderLines(subject, topic, language))
  {
    assert '\n' !in subject && '\n' !in topic && '\n' !in language by {
      assert [subject, topic, language][0] == subject;
      assert [subject, topic, language][1] == topic;
      assert [subject, topic, language][2] == language;
    }
    var lines := HeaderLines(subject, topic, language);
    forall i | 0 <= i < |lines| ensures '\n' !in lines[i] {
      if i == 1 {
        LabelledLine("Subject: ", subject);
      } else if i == 2 {
        LabelledLine("Topic: ", topic);
      } else if i == 3 {
        LabelledLine("Language: ", language);
      } else if i == 5 {
        LabelledLine("Explanation:", "");
      }
    }
  }

  /** Splitting lines without newlines followed by a newline and more text
      peels those lines off. */
  lemma {:induction false} SplitAfterLines(lines: seq<string>, rest: string)
    requires |lines| > 0 && NoNewlines(lines)
    ensures Split(JoinLines(lines) + "\n" + rest) == lines + Split(rest)
  {
    var first := lines[0];
    assert '\n' !in first;
    if |lines| == 1 {
      assert JoinLines(lines) == first;
      SplitAfterLine(first, rest);
    } else {
      var tail := lines[1..];
      assert NoNewlines(tail) by {
        forall i | 0 <= i < |tail| ensures '\n' !in tail[i] {
          assert tail[i] == lines[i + 1];
        }
      }
      var after := JoinLines(tail) + "\n" + rest;
      assert JoinLines(lines) == first + "\n" + JoinLines(tail);
      assert JoinLines(lines) + "\n" + rest == first + "\n" + after;
      calc {
        Split(JoinLines(lines) + "\n" + rest);
        Split(first + "\n" + after);
        { SplitAfterLine(first, after); }
        [first] + Split(after);
        { SplitAfterLines(tail, rest); }
        [first] + (tail + Split(rest));
        { assert lines == [first] + tail; }
        lines + Split(rest);
      }
    }
  }

  // ---------------------------------------------------------------------
  // The page's state

  class Page {
    var selectedSubject: string
    var selectedTopic: string
    var customTopic: string
    var language: string
    var explanation: string
    var loading: bool

    /** Nothing sets the subject, so it stays "General"; and while a request
        is in flight no explanation is shown. */
    ghost predicate Valid()
      reads this
    {
      selectedSubject == "General" && (loading ==> explanation == "")
    }

    /** The topic a request would be sent for. */
    function Topic(): string
      reads this
    {
      ResolveTopic(customTopic, selectedTopic)
    }

    constructor ()
      ensures Valid()
      ensures selectedTopic == "" && customTopic == "" && language == "English"
      ensures explanation == "" && !loading && Topic() == ""
    {
      selectedSubject := "General";
      selectedTopic := "";
      customTopic := "";
      language := "English";
      explanation := "";
      loading := false;
    }

    /** The custom-topic input's `onChange`: it sets the custom topic and
        clears the picked one, so the topic is then exactly what was typed. */
    method EditCustomTopic(value: string)
      requires Valid()
      modifies this
      ensures Valid()
      ensures customTopic == value && selectedTopic == "" && Topic() == value
      ensures selectedSubject == old(selectedSubject) && language == old(language)
      ensures explanation == old(explanation) && loading == old(loading)
    {
      customTopic := value;
      selectedTopic := "";
    }

    /** The topic picker's `onSubmit`: it sets only the picked topic, which
        therefore changes nothing while a custom topic is typed. */
    method PickTopic(topic: string)
      requires Valid()
      modifies this
      ensures Valid()
      ensures selectedTopic == topic && customTopic == old(customTopic)
      ensures old(customTopic) != "" ==> Topic() == old(Topic())
      ensures selectedSubject == old(selectedSubject) && language == old(language)
      ensures explanation == old(explanation) && loading == old(loading)
    {
      selectedTopic := topic;
    }

    /** The language toggle's `onChange`. */
    method SetLanguage(value: string)
      requires Valid()
      modifies this
      ensures Valid()
      ensures language == value
      ensures selectedSubject == old(selectedSubject) && selectedTopic == old(selectedTopic)
      ensures customTopic == old(customTopic) && explanation == old(explanation) && loading == old(loading)
    {
      language := value;
    }

    /** `handleGetExplanation` up to the `fetch`: without a topic it alerts
        and changes nothing; otherwise it starts loading, clears the
        explanation and posts the form. */
    method StartExplanation() returns (alert: Option<string>, sent: Option<JsonObject>)
      requires Valid()
      modifies this
      ensures Valid()
      ensures old(Topic()) == "" ==> alert == Some(MissingTopicAlert) && sent == None && unchanged(this)
      ensures old(Topic()) != "" ==>
                && alert == None
                && sent == Some(RequestBody(selectedSubject, selectedTopic, customTopic, language))
                && loading && explanation == ""
                && selectedSubject == old(selectedSubject) && selectedTopic == old(selectedTopic)
                && customTopic == old(customTopic) && language == old(language)
    {
      var topic := ResolveTopic(customTopic, selectedTopic);
      if topic == "" {
        alert, sent := Some(MissingTopicAlert), None;
        return;
      }
      alert := None;
      loading := true;
      explanation := "";
      sent := Some(RequestBody(selectedSubject, selectedTopic, customTopic, language));
    }

    /** `handleGetExplanation` after the `fetch` settled: the explanation is
        set from the reply and loading ends, whatever the reply was. */
    method FinishExplanation(reply: BackendReply)
      requires Valid()
      modifies this
      ensures Valid()
      ensures explanation == ExplanationAfter(reply) && !loading
      ensures selectedSubject == old(selectedSubject) && selectedTopic == old(selectedTopic)
      ensures customTopic == old(customTopic) && language == old(language)
    {
      explanation := ExplanationAfter(reply);
      loading := false;
    }

    /** `exportToFile`. Because the subject is always "General", the file
        name gives the topic back. */
    method ExportToFile() returns (file: Option<ExportFile>)
      requires Valid()
      ensures file == Export(selectedSubject, Topic(), language, explanation)
      ensures file.Some? ==> ParseFileName(file.value.name) == Some(("General", Topic()))
    {
      var topic := ResolveTopic(customTopic, selectedTopic);
      file := Export(selectedSubject, topic, language, explanation);
      if file.Some? {
        assert '_' !in "General";
        FileNameRoundTrip(selectedSubject, topic);
      }
    }
  }

  // ---------------------------------------------------------------------
  // The page against the two controllers

  /** The page and the routed controller resolve the topic by the same
      rule, so a request the page sends always passes the controller's topic
      check: the provider is called exactly when the key is configured. */
  lemma SentRequestPassesTopicCheck(subject: string, selectedTopic: string, customTopic: string, language: string,
                                    apiKey: Field, upstream: Upstream)
    requires ResolveTopic(customTopic, selectedTopic) != ""
    ensures var body := RequestBody(subject, selectedTopic, customTopic, language);
            && AiController.ResolveTopic(body) == Some(ResolveTopic(customTopic, selectedTopic))
            && (AiController.Explain(body, apiKey, upstream).call.Some? <==> Truthy(apiKey))
  {
    var body := RequestBody(subject, selectedTopic, customTopic, language);
    assert Get(body, "customTopic") == Some(customTopic);
    assert Get(body, "selectedTopic") == Some(selectedTopic);
  }

  /** End to end through the routed controller: the page shows the
      provider's content verbatim when the key is configured and the
      provider answered OK with content, "No explanation generated" when it
      answered OK without content, and the failure text otherwise. */
  lemma RoutedExplanationShown(subject: string, selectedTopic: string, customTopic: string, language: string,
                               apiKey: Field, upstream: Upstream)
    requires ResolveTopic(customTopic, selectedTopic) != ""
    ensures var o := AiController.Explain(RequestBody(subject, selectedTopic, customTopic, language), apiKey, upstream);
            ExplanationAfter(Delivered(o.answer.status, o.answer.body)) ==
              if Truthy(apiKey) && upstream.Response? && IsOk(upstream.status)
              then OrDefault(upstream.data.content, NoExplanationMessage)
              else FailureText
  {
    SentRequestPassesTopicCheck(subject, selectedTopic, customTopic, language, apiKey, upstream);
  }

  /** Against the unrouted controller the page could show no explanation:
      the body it sends has no `subject` or `topic` member, so that
      controller rejects it with 400; and even a success from that
      controller carries `explanation`, not the `reply` the page reads. */
  lemma UnroutedControllerNeverExplains(subject: string, selectedTopic: string, customTopic: string, language: string,
                                        apiKey: Field, upstream: Upstream, body: JsonObject)
    ensures var o := ChatBotController.ExplainTopic(RequestBody(subject, selectedTopic, customTopic, language), apiKey, upstream);
            && o.answer.status == 400 && o.call.None?
            && ExplanationAfter(Delivered(o.answer.status, o.answer.body)) == FailureText
    ensures var o := ChatBotController.ExplainTopic(body, apiKey, upstream);
            o.answer.body.success ==> ExplanationAfter(Delivered(o.answer.status, o.answer.body)) == NoExplanationMessage
  {
    var sent := RequestBody(subject, selectedTopic, customTopic, language);
    assert "subject" !in sent;
    assert !ChatBotController.Complete(sent);
  }
}
