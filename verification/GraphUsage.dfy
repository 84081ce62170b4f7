/** What a scan counts: the usage of its agents is that of exactly the transcripts it accepted, each once. */
module GraphUsage {
  import opened Common
  import opened Usage
  import opened Transcript
  import opened GraphModel
  import opened GraphSteps
  import opened GraphInvariant
  import opened GraphTheorems
  import opened GraphCache

  // The content of every file is what parsing its lines gives.
  ghost predicate Transcribed(w: World, decode: string -> Event, lines: Path -> seq<string>) {
    forall p | IsMeta(w, p) && w.files[p].content.Some? ::
      w.files[p].content.value == Fold(w.files[p].meta.value.id, decode, lines(p)).summary
  }

  function Usages(agents: seq<Agent>): (r: seq<RolloutUsage>)
    ensures |r| == |agents| && forall i | 0 <= i < |agents| :: r[i] == agents[i].summary.usage
  {
    seq(|agents|, i requires 0 <= i < |agents| => agents[i].summary.usage)
  }

  function Rollouts(agents: seq<Agent>, lines: Path -> seq<string>): (r: seq<Rollout>)
    ensures |r| == |agents| && forall i | 0 <= i < |agents| :: r[i] == Rollout(agents[i].id, lines(agents[i].path))
  {
    seq(|agents|, i requires 0 <= i < |agents| => Rollout(agents[i].id, lines(agents[i].path)))
  }

  lemma AgentParsed(w: World, c: Config, decode: string -> Event, lines: Path -> seq<string>, g: Graph, i: nat)
    requires Transcribed(w, decode, lines) && Faithful(w, c) && i < |g.agents| && AgentOk(w, c, g, i)
    ensures g.agents[i].summary.usage == UsageOf(decode, Rollout(g.agents[i].id, lines(g.agents[i].path)))
  {
    hide Fold;
    var a := g.agents[i];
    assert IsMeta(w, a.path);
    var key := CacheKey(a.id, w.files[a.path].stat);
    assert Hit(c, key).Some? ==> Hit(c, key) == w.files[a.path].content;
  }

  /**
   The aggregate over the agents of a scan regroups all calls of the accepted transcripts and nothing else: no
   transcript counts twice, calls are counted one by one, and usage and shown tokens are their sums.
   */
  lemma ScanUsage(w: World, c: Config, decode: string -> Event, lines: Path -> seq<string>)
    requires Transcribed(w, decode, lines) && Faithful(w, c)
    ensures var agents := Result(w, c).graph.agents;
            var usages, calls := Usages(agents), CallsOf(decode, Rollouts(agents, lines));
            && (forall i, j | 0 <= i < j < |agents| :: agents[i].id != agents[j].id && agents[i].path != agents[j].path)
            && Regroup(AllRows(usages)) == Regroup(calls) && Total(AllRows(usages)) == Total(calls)
            && AllCalls(usages) == |calls| && AllTokens(usages) == TokenTotal(Total(calls).usage)
  {
    ResultFinished(w, c);
    var g := Result(w, c).graph;
    assert Ids(c, g) && Forest(w, c, g);
    hide Result, Origins, Handled, Transcribed, Faithful, UsageOf;
    forall i | 0 <= i < |g.agents|
      ensures Usages(g.agents)[i] == UsageOf(decode, Rollouts(g.agents, lines)[i])
      ensures IsFile(w, g.agents[i].path, g.agents[i].id)
    {
      assert AgentOk(w, c, g, i);
      AgentParsed(w, c, decode, lines, g, i);
    }
    assert Usages(g.agents) == UsagesOf(decode, Rollouts(g.agents, lines));
    hide *;
    UsageConserved(decode, Rollouts(g.agents, lines));
    OwnFiles(w, g.agents);
  }

  // Files of different ids are different files.
  lemma OwnFiles(w: World, agents: seq<Agent>)
    requires forall i | 0 <= i < |agents| :: IsFile(w, agents[i].path, agents[i].id)
    requires forall i, j | 0 <= i < j < |agents| :: agents[i].id != agents[j].id
    ensures forall i, j | 0 <= i < j < |agents| :: agents[i].path != agents[j].path
  {
  }
}
