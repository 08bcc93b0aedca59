/**
  Properties of sequences of requests against one conversation.
*/
module OpenAiProperties {
  import opened OpenAi

  /** One call of the request operation: the page observed and how the
      completion service answers this time. */
  datatype Turn = Turn(url: string, pageContent: string, complete: CompletionRequest -> Completion)

  /** The state after a sequence of requests, whatever each of them returns;
      the log level is the same for the whole run. */
  function Run(s: State, turns: seq<Turn>,
               parse: string -> Option<Url>,
               decode: string -> Result<Action, string>,
               debugLogging: bool): State
    requires WellFormed(s)
    decreases |turns|
  {
    if turns == [] then s
    else
      var t := turns[0];
      Run(Request(s, t.url, t.pageContent, parse, t.complete, decode, debugLogging).0, turns[1..], parse, decode, debugLogging)
  }

  /** Whatever the calls and their outcomes, the system prompt stays the first
      message and the goal is never changed. */
  lemma {:induction false} RunKeepsSystemMessage(s: State, turns: seq<Turn>,
                                                 parse: string -> Option<Url>,
                                                 decode: string -> Result<Action, string>,
                                                 debugLogging: bool)
    requires WellFormed(s)
    ensures WellFormed(Run(s, turns, parse, decode, debugLogging))
    ensures Run(s, turns, parse, decode, debugLogging).goal == s.goal
    decreases |turns|
  {
    if turns != [] {
      var t := turns[0];
      RunKeepsSystemMessage(Request(s, t.url, t.pageContent, parse, t.complete, decode, debugLogging).0, turns[1..], parse, decode, debugLogging);
    }
  }

  /** In particular for every session that starts from the default conversation. */
  lemma SessionKeepsSystemMessage(turns: seq<Turn>,
                                  parse: string -> Option<Url>,
                                  decode: string -> Result<Action, string>,
                                  debugLogging: bool)
    ensures var t := Run(Initial(), turns, parse, decode, debugLogging); |t.messages| >= 1 && t.messages[0] == SystemMessage
    ensures Run(Initial(), turns, parse, decode, debugLogging).goal == DefaultGoal
  {
    RunKeepsSystemMessage(Initial(), turns, parse, decode, debugLogging);
  }

  /** After a call whose URL parsed, a call on the same host keeps the whole
      history: nothing is trimmed, whatever the first call's outcome was, and
      the second call's new User message directly follows it. */
  lemma SameHostContinues(s: State, first: Turn, second: Turn,
                          parse: string -> Option<Url>,
                          decode: string -> Result<Action, string>,
                          debugLogging: bool)
    requires WellFormed(s)
    requires parse(first.url).Some? && parse(second.url).Some?
    requires parse(first.url).value.host == parse(second.url).value.host
    ensures var t := Request(s, first.url, first.pageContent, parse, first.complete, decode, debugLogging).0;
            var t2 := Request(t, second.url, second.pageContent, parse, second.complete, decode, debugLogging).0;
            var sent := t.messages + [UserMessage(s.goal, second.url, second.pageContent)];
            && EnforceContext(t, parse(second.url).value).messages == t.messages
            && |t2.messages| >= |sent| && t2.messages[..|sent|] == sent
  {
  }

  /** After a call whose URL parsed, a call on a different host starts over
      from the system prompt alone. */
  lemma HostChangeResets(s: State, first: Turn, second: Turn,
                         parse: string -> Option<Url>,
                         decode: string -> Result<Action, string>,
                         debugLogging: bool)
    requires WellFormed(s)
    requires parse(first.url).Some? && parse(second.url).Some?
    requires parse(first.url).value.host != parse(second.url).value.host
    ensures var t := Request(s, first.url, first.pageContent, parse, first.complete, decode, debugLogging).0;
            var t2 := Request(t, second.url, second.pageContent, parse, second.complete, decode, debugLogging).0;
            var sent := [SystemMessage, UserMessage(s.goal, second.url, second.pageContent)];
            && EnforceContext(t, parse(second.url).value).messages == [SystemMessage]
            && |t2.messages| >= 2 && t2.messages[..2] == sent
  {
  }

  /** A failed completion call leaves its User message unanswered at the end of
      the history, and a following call on the same host keeps it there, directly
      before its own User message. */
  lemma UnansweredMessageIsKept(s: State, first: Turn, second: Turn,
                                parse: string -> Option<Url>,
                                decode: string -> Result<Action, string>,
                                debugLogging: bool)
    requires WellFormed(s)
    requires Request(s, first.url, first.pageContent, parse, first.complete, decode, debugLogging).1 == Err(CompletionFailed)
    requires parse(second.url).Some?
    requires parse(first.url).value.host == parse(second.url).value.host
    ensures var t := Request(s, first.url, first.pageContent, parse, first.complete, decode, debugLogging).0;
            var t2 := Request(t, second.url, second.pageContent, parse, second.complete, decode, debugLogging).0;
            && t.messages[|t.messages| - 1] == UserMessage(s.goal, first.url, first.pageContent)
            && EnforceContext(t, parse(second.url).value).messages == t.messages
            && |t2.messages| > |t.messages|
            && t2.messages[|t.messages| - 1] == UserMessage(s.goal, first.url, first.pageContent)
            && t2.messages[|t.messages|] == UserMessage(s.goal, second.url, second.pageContent)
  {
  }

  /** With the debug event disabled the usage metadata is never looked at: a
      response without it is handled like any other, so its first choice is
      appended and decoded, and an empty choice list still fails. */
  lemma UsageIgnoredWithoutDebugLogging(s: State, rawUrl: string, pageContent: string,
                                        parse: string -> Option<Url>,
                                        decode: string -> Result<Action, string>,
                                        reply: Message)
    requires WellFormed(s)
    requires parse(rawUrl).Some?
    ensures var (t, r) := Request(s, rawUrl, pageContent, parse, _ => Responded([reply], None), decode, false);
            && t.messages[|t.messages| - 1] == reply
            && r == match decode(reply.content)
                    case Ok(a) => Ok(a)
                    case Err(e) => Err(ActionDecodeFailed(e))
    ensures Request(s, rawUrl, pageContent, parse, _ => Responded([], None), decode, false).1 == Err(NoCompletionChoice)
    ensures Request(s, rawUrl, pageContent, parse, _ => Responded([reply], None), decode, true).1 == Err(UsageMissing)
  {
  }

  const PageA1: string := "https://a.example/page1"
  const PageA2: string := "https://a.example/page2"
  const PageB: string := "https://b.example/x"

  /** The three-call session: a first call on host a.example answered with
      `CLICK 0`, a second call on the same host whose completion fails, and a
      third call on host b.example whose completion fails. */
  lemma Scenario(parse: string -> Option<Url>, decode: string -> Result<Action, string>,
                 debugLogging: bool, page1: string, page2: string, page3: string)
    requires parse(PageA1) == Some(Url(PageA1, Some(Domain("a.example"))))
    requires parse(PageA2) == Some(Url(PageA2, Some(Domain("a.example"))))
    requires parse(PageB) == Some(Url(PageB, Some(Domain("b.example"))))
    requires decode("CLICK 0") == Ok(Click(0))
    ensures var answer := (req: CompletionRequest) => Responded([Message(Assistant, "CLICK 0")], Some(Usage(120)));
            var fail := (req: CompletionRequest) => Failed;
            var (s1, r1) := Request(Initial(), PageA1, page1, parse, answer, decode, debugLogging);
            var (s2, r2) := Request(s1, PageA2, page2, parse, fail, decode, debugLogging);
            var (s3, r3) := Request(s2, PageB, page3, parse, fail, decode, debugLogging);
            && |s1.messages| == 3 && r1 == Ok(Click(0))
            && s1.url == Some(Url(PageA1, Some(Domain("a.example"))))
            && |s2.messages| == 4 && s2.messages[..3] == s1.messages && r2 == Err(CompletionFailed)
            && |s3.messages| == 2 && r3 == Err(CompletionFailed)
            && s3.messages == [SystemMessage, UserMessage(DefaultGoal, PageB, page3)]
  {
  }
}
