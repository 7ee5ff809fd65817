/**
 * Properties of the Http plugin that relate several of its operations:
 * preparing twice, merging then preparing, and concrete cases for the
 * header-merge direction and the label filter.
 */
module HttpPluginProperties {
  import opened Base
  import opened Templates
  import opened HttpPlugin

  /** Preparing a declaration a second time changes nothing. */
  lemma PrepareIdempotent(c: Config)
    ensures Prepared(Prepared(c)) == Prepared(c)
  {
  }

  /** The lookup set of a concatenation is the union of the lookup sets. */
  lemma MakeSetConcat(s: seq<string>, t: seq<string>)
    ensures MakeSet(s + t) == MakeSet(s) + MakeSet(t)
  {
  }

  /**
   * Merging `b` into `a` and then preparing the result listens to exactly the
   * labels either declaration named: an event fires the gate for no other label.
   */
  lemma MergedHookListensToBoth(a: Config, b: Config, ops: TemplateOps, e: Event)
    requires Merge(a, b, ops).err == None
    ensures Prepared(Merge(a, b, ops).target).servicesSet == MakeSet(a.services) + MakeSet(b.services)
    ensures Gate(Prepared(Merge(a, b, ops).target), e, ops) != NoOp <==>
              e.serviceLabel in a.services || e.serviceLabel in b.services
  {
  }

  /**
   * Preparing before merging leaves the lookup set stale: it still reflects
   * only the receiver's own labels, which is why merging must come first.
   */
  lemma PrepareBeforeMergeIsStale(a: Config, b: Config, ops: TemplateOps, e: Event)
    requires e.serviceLabel in b.services && e.serviceLabel !in a.services
    ensures Gate(Merge(Prepared(a), b, ops).target, e, ops) == NoOp
  {
  }

  /**
   * Two declarations that agree on every singular field they both set merge
   * without error (given a template merge that succeeds), and the result
   * carries both sides' services and headers.
   */
  lemma AgreeingDeclarationsMerge(a: Config, b: Config, ops: TemplateOps)
    requires a.url == b.url && a.httpMethod == b.httpMethod && a.timeout == b.timeout
    requires TemplateMergeOf(a, b, ops).err == None
    ensures Merge(a, b, ops).err == None
    ensures forall l :: l in a.services || l in b.services ==> l in Merge(a, b, ops).target.services
    ensures a.headers.Keys + b.headers.Keys == Merge(a, b, ops).target.headers.Keys
  {
  }

  /**
   * A declaration with a URL of its own does not accept one that leaves the
   * URL empty: only an empty receiver adopts the argument's value.
   */
  lemma EmptySourceUrlConflicts(a: Config, b: Config, ops: TemplateOps)
    requires a.url != "" && b.url == ""
    ensures Merge(a, b, ops).err == Some(DifferentUrls)
    ensures Merge(b, a, ops).err != Some(DifferentUrls)
  {
  }

  /**
   * Headers are merged source-wins: `{a: "1"}` merged into `{a: "0", b: "2"}`
   * gives `{a: "1", b: "2"}`, and merging in the other direction keeps "0".
   */
  lemma HeadersSourceWins(a: Config, b: Config, ops: TemplateOps)
    requires Agree(a, b) && Agree(b, a)
    requires TemplateMergeOf(a, b, ops).err == None && TemplateMergeOf(b, a, ops).err == None
    requires a.headers == map["a" := "0", "b" := "2"] && b.headers == map["a" := "1"]
    ensures Merge(a, b, ops).target.headers == map["a" := "1", "b" := "2"]
    ensures Merge(b, a, ops).target.headers == map["a" := "0", "b" := "2"]
  {
  }

  /**
   * A hook listening to "web" fires for a "web" event and not for a "db"
   * event; for "web" it sends exactly when the body renders.
   */
  lemma ListensOnlyToConfiguredLabels(c: Config, ops: TemplateOps, id: string, err: Option<string>)
    requires c.services == ["web"]
    ensures Gate(Prepared(c), Event(StoppedKind, id, "db", err), ops) == NoOp
    ensures Gate(Prepared(c), Event(SpawnedKind, id, "web", None), ops).Send? <==>
              ops.renderDefaultParams(c.template, Event(SpawnedKind, id, "web", None)).Rendered?
  {
  }
}
