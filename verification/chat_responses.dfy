/** The chat tab's keyword responder (src/utils/chatResponses.ts): an ordered table
    of six canned responses keyed by a word; the reply is the response of the first
    key, in table order, that occurs in the lower-cased input, or the default one. */
module ChatResponses {
  import opened Common
  import opened Strings

  datatype Sender = UserSender | BotSender

  /** A chat message; its id and timestamp come from the clock and are not modelled. */
  datatype Message = Message(text: string, sender: Sender)

  /** A canned response; `followUp` may be absent. */
  datatype Response = Response(text: string, followUp: Option<seq<string>>)

  datatype Entry = Entry(key: string, response: Response)

  const DefaultResponse: Response :=
    Response("I'm here to help! Could you please be more specific about what you'd like to learn about machine learning?",
             Some(["You can ask about:", "- ML basics and concepts", "- Specific algorithms",
                   "- Course recommendations", "- Learning paths"]))

  const HelloResponse: Response :=
    Response("Hello! I'm excited to help you with your machine learning journey. What would you like to learn about?",
             Some(["- Getting started with ML", "- Course recommendations", "- Assessment preparation"]))

  const CourseResponse: Response :=
    Response("We offer several courses ranging from ML basics to advanced topics. What's your current experience level with machine learning?",
             Some(["We have courses in:", "- ML Foundations", "- Deep Learning",
                   "- Natural Language Processing", "- Computer Vision"]))

  const TransformerResponse: Response :=
    Response("Transformers are a powerful architecture in deep learning, particularly for NLP tasks. Would you like to learn about their key components?",
             Some(["Key topics include:", "- Self-attention mechanism", "- Multi-head attention",
                   "- Positional encoding", "- Feed-forward networks"]))

  const NeuralResponse: Response :=
    Response("Neural networks are fundamental to deep learning. Would you like to understand their basic structure or learn about specific architectures?",
             Some(["We can discuss:", "- Basic neural network concepts", "- Activation functions",
                   "- Backpropagation", "- Different architectures"]))

  const HelpResponse: Response :=
    Response("I can help you with various ML topics and guide you through our platform.",
             Some(["Try asking about:", "- ML concepts and terminology", "- Course recommendations",
                   "- Project ideas", "- Learning resources"]))

  /** `RESPONSES`, in the insertion order its iteration follows. */
  const Responses: seq<Entry> := [
    Entry("default", DefaultResponse),
    Entry("hello", HelloResponse),
    Entry("course", CourseResponse),
    Entry("transformer", TransformerResponse),
    Entry("neural", NeuralResponse),
    Entry("help", HelpResponse)
  ]

  /** The position of the first entry whose key occurs in `s`, or `|entries|` when none does. */
  function FirstKeyIn(entries: seq<Entry>, s: string): (i: nat)
    ensures i <= |entries|
    ensures i < |entries| ==> Contains(s, entries[i].key)
    ensures forall j :: 0 <= j < i ==> !Contains(s, entries[j].key)
  {
    if entries == [] then 0
    else if Contains(s, entries[0].key) then 0
    else 1 + FirstKeyIn(entries[1..], s)
  }

  /** The response `findBestMatch` picks for `input`. */
  function BestMatch(input: string): Response {
    var i := FirstKeyIn(Responses, ToLower(input));
    if i < |Responses| then Responses[i].response else DefaultResponse
  }

  /** `findBestMatch`: lower-case the input, scan the table in order and return at the
      first key the input includes; fall back to the default response. */
  method FindBestMatch(input: string) returns (r: Response)
    ensures r == BestMatch(input)
    ensures r in ResponseSet()
  {
    var normalized := ToLower(input);
    var i := 0;
    while i < |Responses|
      invariant 0 <= i <= |Responses|
      invariant forall j :: 0 <= j < i ==> !Contains(normalized, Responses[j].key)
    {
      if Contains(normalized, Responses[i].key) {
        BestMatchIsFirstKey(input, i);
        BestMatchInTable(input);
        return Responses[i].response;
      }
      i := i + 1;
    }
    BestMatchInTable(input);
    return DefaultResponse;
  }

  /** The six responses of the table. */
  function ResponseSet(): set<Response> {
    set e | e in Responses :: e.response
  }

  /** The picked response is the one of the first key in table order that occurs in the
      lower-cased input: earlier keys win over later ones. */
  lemma BestMatchIsFirstKey(input: string, k: nat)
    requires k < |Responses|
    requires Contains(ToLower(input), Responses[k].key)
    requires forall j :: 0 <= j < k ==> !Contains(ToLower(input), Responses[j].key)
    ensures BestMatch(input) == Responses[k].response
  {
  }

  /** An input that includes no key gets the default response. */
  lemma NoKeyGivesDefault(input: string)
    requires forall e :: e in Responses ==> !Contains(ToLower(input), e.key)
    ensures BestMatch(input) == DefaultResponse
  {
  }

  /** Matching ignores case: an input and its upper-case form get the same response. */
  lemma BestMatchIgnoresCase(input: string)
    ensures BestMatch(ToUpper(input)) == BestMatch(input)
  {
    LowerOfUpper(input);
  }

  /** Every response the matcher can pick is one of the six in the table. */
  lemma BestMatchInTable(input: string)
    ensures BestMatch(input) in ResponseSet()
  {
    assert Responses[0] in Responses;
    var i := FirstKeyIn(Responses, ToLower(input));
    if i < |Responses| {
      assert Responses[i] in Responses;
    }
  }

  /** A string lacking some character of `sub` does not include `sub`. */
  lemma MissingChar(s: string, sub: string, k: int)
    requires 0 <= k < |sub| && sub[k] !in s
    ensures !Contains(s, sub)
  {
    if Contains(s, sub) {
      ContainsChar(s, sub, k);
    }
  }

  /** "hello, help" includes both `hello` and `help`; `hello` comes first. */
  lemma HelloBeforeHelp(input: string)
    requires input == "hello, help"
    ensures BestMatch(input) == HelloResponse
  {
    HelloHelpKeys(input);
    HelloKeyFirst(input, ToLower(input));
  }

  lemma HelloKeyFirst(input: string, s: string)
    requires s == ToLower(input)
    requires !Contains(s, "default") && Contains(s, "hello")
    ensures BestMatch(input) == HelloResponse
  {
    assert Responses[0].key == "default" && Responses[1].key == "hello";
    BestMatchIsFirstKey(input, 1);
  }

  lemma HelloHelpKeys(s: string)
    requires s == "hello, help"
    ensures ToLower(s) == s
    ensures !Contains(s, "default") && Contains(s, "hello") && Contains(s, "help")
  {
    LowerOfNoUpper(s);
    MissingChar(s, "default", 0);
    assert StartsWith(s, "hello");
    ContainsInside("hello, ", "help", "");
    assert "hello, " + "help" + "" == s;
  }

  /** "helpful" includes none of the other keys and gets the `help` response. */
  lemma HelpfulMatchesHelp(input: string)
    requires input == "helpful"
    ensures BestMatch(input) == HelpResponse
  {
    HelpfulKeys(input);
    OnlyHelpKey(input, ToLower(input));
  }

  lemma OnlyHelpKey(input: string, s: string)
    requires s == ToLower(input)
    requires !Contains(s, "default") && !Contains(s, "hello") && !Contains(s, "course")
    requires !Contains(s, "transformer") && !Contains(s, "neural") && Contains(s, "help")
    ensures BestMatch(input) == HelpResponse
  {
    assert Responses[0].key == "default" && Responses[1].key == "hello" && Responses[2].key == "course";
    assert Responses[3].key == "transformer" && Responses[4].key == "neural" && Responses[5].key == "help";
    BestMatchIsFirstKey(input, 5);
  }

  lemma HelpfulKeys(s: string)
    requires s == "helpful"
    ensures ToLower(s) == s
    ensures !Contains(s, "default") && !Contains(s, "hello") && !Contains(s, "course")
    ensures !Contains(s, "transformer") && !Contains(s, "neural") && Contains(s, "help")
  {
    LowerOfNoUpper(s);
    MissingChar(s, "default", 0);
    MissingChar(s, "hello", 4);
    MissingChar(s, "course", 0);
    MissingChar(s, "transformer", 0);
    MissingChar(s, "neural", 0);
    assert StartsWith(s, "help");
  }

  /** `generateResponse`'s text: the response text, then a blank line and the
      follow-up lines one per line when there is a follow-up list (an empty list
      counts, arrays being truthy). */
  function ReplyText(r: Response): (t: string)
    ensures r.followUp.None? ==> t == r.text
    ensures r.followUp.Some? ==> |t| >= |r.text| + 2
    ensures r.followUp.Some? ==> t[..|r.text|] == r.text && t[|r.text|..|r.text| + 2] == "\n\n"
    ensures r.followUp.Some? ==> t[|r.text| + 2..] == Join(r.followUp.value, "\n")
  {
    match r.followUp
    case None => r.text
    case Some(lines) => r.text + "\n\n" + Join(lines, "\n")
  }

  /** Every table entry has a follow-up list, so every reply carries its response's
      follow-up lines after a blank line. */
  lemma EveryResponseHasFollowUp(r: Response)
    requires r in ResponseSet()
    ensures r.followUp.Some? && |r.followUp.value| >= 3
    ensures StartsWith(ReplyText(r), r.text + "\n\n")
  {
    var e :| e in Responses && e.response == r;
    assert ReplyText(r)[..|r.text + "\n\n"|] == r.text + "\n\n";
  }

  /** `generateResponse(input)`: a bot message whose text is the reply text of the
      best-matching response (id and timestamp omitted). */
  method GenerateResponse(input: string) returns (m: Message)
    ensures m.sender == BotSender
    ensures m.text == ReplyText(BestMatch(input))
    ensures exists r :: r in ResponseSet() && m.text == ReplyText(r)
  {
    var response := FindBestMatch(input);
    m := Message(ReplyText(response), BotSender);
  }
}
