/** What reaches a session: the three validations in front of handleChat give admitted requests. */
module Admission {
  import opened Types
  import opened History
  import opened Sessions
  import Toolsets

  /** The normalised tools are the client's: one for each, under its valid name. */
  lemma NormalisedToolsKeepNames(tools: seq<Toolsets.RawTool>)
    requires Toolsets.ValidTools(tools)
    ensures var normal := Toolsets.SortTools(Toolsets.NormalTools(tools));
      && (forall f | f in normal :: ValidName(f.name) && exists t | t in tools :: t.name == f.name)
      && (forall t | t in tools :: exists f | f in normal :: f.name == t.name)
      && |normal| == |tools|
  {
    var raw := Toolsets.NormalTools(tools);
    var normal := Toolsets.SortTools(raw);
    Toolsets.SortKeepsLength(raw);
    forall f | f in normal
      ensures ValidName(f.name) && exists t | t in tools :: t.name == f.name
    {
      assert f in multiset(raw);
      var i :| 0 <= i < |raw| && raw[i] == f;
      assert tools[i] in tools;
    }
    forall t | t in tools
      ensures exists f | f in normal :: f.name == t.name
    {
      var i :| 0 <= i < |tools| && tools[i] == t;
      assert raw[i] in multiset(normal);
      assert raw[i].name == t.name;
    }
  }

  /** A request whose messages, tools and tool_choice were accepted, with an absolute directory, is admitted. */
  lemma ValidatedIsAdmitted(messages: seq<ChatMessage>, tools: seq<Toolsets.RawTool>, choice: Toolsets.Choice,
                            cwd: string)
    requires Normalized(messages).Ok? && Toolsets.NormalizedTools(tools, choice).Ok? && AbsolutePath(cwd)
    ensures var normal := Toolsets.NormalizedTools(tools, choice).value;
      && Admitted(Request(Normalized(messages).value, cwd, normal.tools, normal.policy))
      && normal.hash == ToolHashOf(normal.tools)
  {
    var ms := Normalized(messages).value;
    NormalisedExactly(ms);
    assert forall m | m in ms :: NormalMessage(m);
    NormalisedToolsKeepNames(tools);
  }
}
