/**
 * A handler among others does what the handler of the webhook does: how it begins, and what each of its attempts comes
 * to.
 */
module EvictionHandlers {
  import opened Seqs
  import opened Pods
  import opened ZdbStore
  import opened EvictionWebhook
  import opened BudgetRuns
  import opened BudgetCluster

  /**
   * A handler begins as the webhook screens its request: let through at once, or to decide on the version it has read.
   */
  lemma BeginIsScreened(c: Cluster, e: Event, d: Cluster)
    requires c.history != [] && e.Begin? && Enabled(c, e) && d == Next(c, e)
    ensures d.history == c.history && e.handler in d.handlers && d.handlers[e.handler].pod == e.pod
    ensures var zdb, handler := c.history[e.version], d.handlers[e.handler];
            && handler.dryRun == (e.dryRun || zdb.spec.dryRun)
            && handler.state == if Protected(e.pod) && e.pod.name !in zdb.status.disrupted
                                then Deciding(e.version, 0) else Closed(LetThrough)
    ensures var handler := d.handlers[e.handler];
            match Screen(Request(true, true, Ok(e.dryRun)), Some(e.pod), Budget(c.history[e.version]))
            case Answer(answer) => handler.state == Closed(LetThrough) && answer.Allow?
            case Contest(dryRun) => handler.state == Deciding(e.version, 0) && handler.dryRun == dryRun
  {}

  function Given(dryRun: bool): HandlerState {
    Closed(if dryRun then LetThrough else Refusal)
  }

  /**
   * An attempt comes to what a round of the retry loop comes to when nobody else writes between its read and its
   * commit.
   */
  lemma AttemptIsRound(c: Cluster, e: Event, d: Cluster, round: Round)
    requires c.history != [] && e.TryCommit? && Enabled(c, e) && d == Next(c, e)
    requires round == Round(true, 0, [], e.zone, c.now)
    ensures var before, after := c.handlers[e.handler], d.handlers[e.handler];
            && after == before.(state := after.state)
            && match RoundEndOf(c.history, before.state.version, before.pod.name, before.dryRun, [round], 0)
               case Unread => false
               case Forbidden => d.history == c.history && after.state == Given(before.dryRun)
               case DryPass => d.history == c.history && after.state == Closed(LetThrough)
               case Commit(status) =>
                 && d.history == c.history + [c.Current().(status := status)]
                 && after.state == Closed(GrantedAt(|c.history|))
               case Again =>
                 && d.history == c.history
                 && after.state == if before.state.attempt + 1 < 20 then Conflicting(before.state.attempt + 1)
                                   else Given(before.dryRun)
  {
    assert [round][..0] == [] && [round][..1] == [round];
    assert Others([]) == [] && Others([round]) == [];
    assert c.history + [] == c.history;
  }
}
