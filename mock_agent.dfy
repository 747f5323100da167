/** The mock agent (`src/python_agent/agent.py`): answers every query with a fixed
    prefix and the query itself; its file handler is `AgentProtocol.ProcessFile`. Both
    handlers are functions of the request alone. */
module MockAgent {
  import opened Text
  import opened AgentProtocol

  const ReplyPrefix := "AI response to: "

  /** `process_query`: a text reply, without videos or file, that repeats the query
      after the fixed prefix; a missing query counts as "". */
  function ProcessQuery(query: Option<string>): (r: AgentReply)
    ensures r.kind == "text" && r.videos.None? && r.file.None?
    ensures StartsWith(r.text, ReplyPrefix) && r.text[|ReplyPrefix|..] == query.GetOr("")
  {
    var text := ReplyPrefix + query.GetOr("");
    assert text[..|ReplyPrefix|] == ReplyPrefix && text[|ReplyPrefix|..] == query.GetOr("");
    AgentReply(text, "text", None, None)
  }

  /** The query can be read back from the reply, so distinct queries get distinct
      replies; a missing query gives just the prefix. */
  lemma {:induction false} ProcessQueryInjective(a: Option<string>, b: Option<string>)
    ensures ProcessQuery(a) == ProcessQuery(b) <==> a.GetOr("") == b.GetOr("")
    ensures ProcessQuery(None).text == ReplyPrefix
  {
    if ProcessQuery(a) == ProcessQuery(b) {
      assert ProcessQuery(a).text[|ReplyPrefix|..] == ProcessQuery(b).text[|ReplyPrefix|..];
    }
    assert ProcessQuery(None).text == ReplyPrefix + "";
  }
}
