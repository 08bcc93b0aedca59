/**
  The conversation controller of the browser agent: a running chat with the
  language model whose history is cut back to the system prompt whenever the
  browser moves to another host, and which turns the model's reply into an
  `Action`.

  The three collaborators the controller cannot see are passed in as function
  values: the URL parser (`parse`), the completion service (`complete`) and the
  action decoder (`decode`). The pure functions `EnforceContext` and `Request`
  are the reference definitions; the class `Conversation` updates its fields in
  place and is proved to agree with them.
*/
module OpenAi {

  datatype Option<+T> = None | Some(value: T)

  datatype Result<+T, +E> = Ok(value: T) | Err(error: E)

  /** The roles a chat message can carry. */
  datatype Role = System | User | Assistant

  /** A chat message as sent to and received from the completion service
      (the optional author `name` is always absent and is not modelled). */
  datatype Message = Message(role: Role, content: string)

  /** The host of a parsed URL: a domain name or an IP address. */
  datatype Host = Domain(name: string) | Ipv4(v4: bv32) | Ipv6(v6: bv128)

  /** A parsed URL: its serialization and its host, which some URLs
      (`mailto:`, `data:`) do not have. */
  datatype Url = Url(href: string, host: Option<Host>)

  /** The command decoded from the model's reply. */
  datatype Action = Click(id: nat) | Type(id: nat, text: string) | Goal(text: string)

  /** What is sent to the completion service (the sampling temperature is left out). */
  datatype CompletionRequest = CompletionRequest(model: string, maxTokens: nat, messages: seq<Message>)

  datatype Usage = Usage(totalTokens: nat)

  /** The outcome of one call to the completion service: the request could not be
      built or sent, or the service answered with a list of candidate replies. */
  datatype Completion = Failed | Responded(choices: seq<Message>, usage: Option<Usage>)

  datatype Error =
    | InvalidUrl
    | CompletionFailed
    | UsageMissing          // the Rust code panics here, and only with debug logging enabled
    | NoCompletionChoice
    | ActionDecodeFailed(reason: string)

  const DefaultGoal: string := "Visit 10 webpages."

  const SystemPrompt: string :=
    "You are an agent controlling a browser. You are given the URL of the current website, and a simplified markup description of the page contents, which looks like this:\n"
    + "<p id=0>text</p>\n"
    + "<link id=1 href=\"link url\">text</link>\n"
    + "<button id=2>text</button>\n"
    + "<input id=3>placeholder</input>\n"
    + "<img id=4 alt=\"image description\"/>\n"
    + "\n"
    + "You are not given a goal but should create and alter a goal based on the previous actions you have taken. Your initial goal should be to visit at least 10 webpages and update your goal based on the content of those page.\n"
    + "\n"
    + "You must respond with ONLY one of the following commands AND NOTHING ELSE:\n"
    + "    - CLICK X - click on a given element. You can only click on links, buttons, and inputs!\n"
    + "    - TYPE X \"TEXT\" - type the specified text into the input with id X and press ENTER\n"
    + "    - GOAL \"TEXT\" - Outputs your updated goal.\n"

  const SystemMessage: Message := Message(System, SystemPrompt)

  const ModelName: string := "gpt-4"

  const MaxTokens: nat := 100

  const ObjectiveLabel: string := "OBJECTIVE: "
  const UrlLabel: string := "\nCURRENT URL: "
  const PageLabel: string := "\nPAGE CONTENT: "

  /** The durable state of a conversation. */
  datatype State = State(goal: string, url: Option<Url>, messages: seq<Message>)

  /** The conversation invariant: the system prompt is the first message and is never lost. */
  predicate WellFormed(s: State) {
    |s.messages| >= 1 && s.messages[0] == SystemMessage
  }

  /** The state of a freshly created conversation. */
  function Initial(): State {
    State(DefaultGoal, None, [SystemMessage])
  }

  /** The host of the stored URL, if a URL is stored. */
  function StoredHost(stored: Option<Url>): Option<Option<Host>> {
    match stored
    case None => None
    case Some(u) => Some(u.host)
  }

  /** Whether moving to `next` starts a new context. Only the hosts are compared,
      never scheme, port or path, and two URLs without a host count as equal. */
  function HostChanged(stored: Option<Url>, next: Url): (changed: bool)
    ensures changed <==> stored.None? || stored.value.host != next.host
  {
    StoredHost(stored) != Some(next.host)
  }

  /** Context maintenance after `next` has been parsed: on a host change the
      history is cut back to its first entry; the new URL is always recorded. */
  function EnforceContext(s: State, next: Url): (t: State)
    requires |s.messages| >= 1
    ensures t.goal == s.goal && t.url == Some(next)
    ensures 1 <= |t.messages| && t.messages <= s.messages
    ensures HostChanged(s.url, next) ==> |t.messages| == 1
    ensures !HostChanged(s.url, next) ==> t.messages == s.messages
    ensures WellFormed(s) ==> WellFormed(t)
  {
    State(s.goal, Some(next), if HostChanged(s.url, next) then s.messages[..1] else s.messages)
  }

  /** The text of the per-turn User message: the three labelled fields
      objective, current URL and page content, in that order. */
  function UserPrompt(goal: string, url: string, pageContent: string): (p: string)
    ensures |p| == |ObjectiveLabel| + |goal| + |UrlLabel| + |url| + |PageLabel| + |pageContent|
    ensures p[..|ObjectiveLabel|] == ObjectiveLabel
    ensures var i := |ObjectiveLabel|; p[i..i + |goal|] == goal
    ensures var i := |ObjectiveLabel| + |goal|; p[i..i + |UrlLabel|] == UrlLabel
    ensures var i := |ObjectiveLabel| + |goal| + |UrlLabel|; p[i..i + |url|] == url
    ensures var i := |ObjectiveLabel| + |goal| + |UrlLabel| + |url|; p[i..i + |PageLabel|] == PageLabel
    ensures p[|p| - |pageContent|..] == pageContent
  {
    var p := ObjectiveLabel + goal + UrlLabel + url + PageLabel + pageContent;
    assert p == ObjectiveLabel + (goal + (UrlLabel + (url + (PageLabel + pageContent))));
    p
  }

  /** The User message appended for one turn. */
  function UserMessage(goal: string, url: string, pageContent: string): Message {
    Message(User, UserPrompt(goal, url, pageContent))
  }

  /** The request sent for a history. */
  function RequestFor(messages: seq<Message>): CompletionRequest {
    CompletionRequest(ModelName, MaxTokens, messages)
  }

  /** The outcomes after which the model's reply has been appended to the history. */
  predicate Replied(r: Result<Action, Error>) {
    r.Ok? || r.error.ActionDecodeFailed?
  }

  /** One turn of the conversation: the new state and the outcome.
      `debugLogging` says whether the debug event that reports token usage is
      enabled; only then is the usage metadata looked at, and its absence
      aborts the turn. */
  function Request(s: State, rawUrl: string, pageContent: string,
                   parse: string -> Option<Url>,
                   complete: CompletionRequest -> Completion,
                   decode: string -> Result<Action, string>,
                   debugLogging: bool): (out: (State, Result<Action, Error>))
    requires WellFormed(s)
    ensures WellFormed(out.0) && out.0.goal == s.goal
    // a URL that does not parse fails before anything changes
    ensures out.1 == Err(InvalidUrl) <==> parse(rawUrl).None?
    ensures parse(rawUrl).None? ==> out.0 == s
    // otherwise the new URL is recorded, exactly one User message follows the
    // maintained context, and at most the reply follows it
    ensures parse(rawUrl).Some? ==>
              var asked := EnforceContext(s, parse(rawUrl).value).messages
                           + [UserMessage(s.goal, rawUrl, pageContent)];
              var response := complete(RequestFor(asked));
              && out.0.url == parse(rawUrl)
              && |out.0.messages| == |asked| + (if Replied(out.1) then 1 else 0)
              && out.0.messages[..|asked|] == asked
              // each outcome of the completion call, in both directions
              && (out.1 == Err(CompletionFailed) <==> response.Failed?)
              && (out.1 == Err(UsageMissing) <==>
                    debugLogging && response.Responded? && response.usage.None?)
              && (out.1 == Err(NoCompletionChoice) <==>
                    response.Responded? && (response.usage.Some? || !debugLogging) && response.choices == [])
              && (Replied(out.1) <==>
                    response.Responded? && (response.usage.Some? || !debugLogging) && |response.choices| > 0)
              // a reply is kept whether or not it decodes; the outcome is the decoder's
              && (Replied(out.1) ==>
                    && out.0.messages[|asked|] == response.choices[0]
                    && out.1 == match decode(response.choices[0].content)
                                case Ok(a) => Ok(a)
                                case Err(e) => Err(ActionDecodeFailed(e)))
  {
    match parse(rawUrl)
    case None => (s, Err(InvalidUrl))
    case Some(u) =>
      var context := EnforceContext(s, u);
      var asked := State(s.goal, context.url, context.messages + [UserMessage(s.goal, rawUrl, pageContent)]);
      match complete(RequestFor(asked.messages))
      case Failed => (asked, Err(CompletionFailed))
      case Responded(choices, usage) =>
        if debugLogging && usage.None? then (asked, Err(UsageMissing))
        else if |choices| == 0 then (asked, Err(NoCompletionChoice))
        else
          var reply := Message(choices[0].role, choices[0].content);
          var answered := State(s.goal, context.url, asked.messages + [reply]);
          match decode(reply.content)
          case Ok(action) => (answered, Ok(action))
          case Err(reason) => (answered, Err(ActionDecodeFailed(reason)))
  }

  /** A conversation, updated in place by each request. */
  class Conversation {
    /** The goal for the agent to achieve. */
    var goal: string
    /** The last URL seen. */
    var url: Option<Url>
    /** The messages sent to the model so far. */
    var messages: seq<Message>

    function Snapshot(): State
      reads this
    {
      State(goal, url, messages)
    }

    ghost predicate Valid()
      reads this
    {
      WellFormed(Snapshot())
    }

    /** The default conversation: the default goal, no URL, and the system prompt alone. */
    constructor ()
      ensures Valid()
      ensures Snapshot() == Initial()
    {
      goal := DefaultGoal;
      url := None;
      messages := [SystemMessage];
    }

    method EnforceContextLength(rawUrl: string, parse: string -> Option<Url>) returns (r: Result<(), Error>)
      requires Valid()
      modifies this`url, this`messages
      ensures Valid() && goal == old(goal)
      ensures parse(rawUrl).None? ==> r == Err(InvalidUrl) && url == old(url) && messages == old(messages)
      ensures parse(rawUrl).Some? ==> r == Ok(()) && Snapshot() == EnforceContext(old(Snapshot()), parse(rawUrl).value)
    {
      var parsed := parse(rawUrl);
      if parsed.None? {
        return Err(InvalidUrl);
      }
      var newUrl := parsed.value;
      if HostChanged(url, newUrl) {
        messages := messages[..1];
      }
      url := Some(newUrl);
      return Ok(());
    }

    method RequestAction(rawUrl: string, pageContent: string,
                         parse: string -> Option<Url>,
                         complete: CompletionRequest -> Completion,
                         decode: string -> Result<Action, string>,
                         debugLogging: bool) returns (r: Result<Action, Error>)
      requires Valid()
      modifies this`url, this`messages
      ensures Valid() && goal == old(goal)
      ensures (Snapshot(), r) == Request(old(Snapshot()), rawUrl, pageContent, parse, complete, decode, debugLogging)
    {
      var context := EnforceContextLength(rawUrl, parse);
      if context.Err? {
        return Err(context.error);
      }
      messages := messages + [UserMessage(goal, rawUrl, pageContent)];
      var response := complete(RequestFor(messages));
      if response.Failed? {
        return Err(CompletionFailed);
      }
      if debugLogging && response.usage.None? {
        return Err(UsageMissing);
      }
      if |response.choices| == 0 {
        return Err(NoCompletionChoice);
      }
      var message := response.choices[0];
      messages := messages + [Message(message.role, message.content)];
      match decode(message.content)
      case Ok(action) => r := Ok(action);
      case Err(reason) => r := Err(ActionDecodeFailed(reason));
    }
  }
}
