/**
 * The `Http` lifecycle-notification plugin (plugins/adp_http.go): its
 * configuration, the merge of sibling declarations, the preparation step and
 * the label gate in front of every notification.
 *
 * `Config` is the value of one declaration; `Merge`, `Prepared` and `Gate`
 * say what the operations do to such a value, and `class Http` holds the
 * same fields and changes them in place the way the plugin does, each method
 * proved against those functions.
 */
module HttpPlugin {
  import opened Base
  import opened Templates

  /** The value of one plugin declaration, field for field. */
  datatype Config = Config(
    url: string,                  // template of the destination URL
    httpMethod: string,           // HTTP verb, "POST" once prepared if unset
    headers: map<string, string>, // additional static headers
    services: seq<string>,        // labels the hook listens to, in declaration order
    timeout: Duration,            // bound on one render-and-send, 20 s once prepared if unset
    template: TemplateSettings,   // the embedded template sub-configuration
    servicesSet: set<string>,     // lookup built from `services` by Prepare
    workDir: string)              // directory of the declaring file

  const DefaultMethod := "POST"
  const DefaultTimeout: Duration := 20 * Second
  const SpawnedKind := "spawned"
  const StoppedKind := "stopped"

  /** The conflicts MergeFrom reports, in the order it checks for them. */
  datatype MergeError =
    | DifferentUrls
    | DifferentMethods
    | DifferentTimeout
    | TemplateError(msg: string)

  /** The new states of the receiver and of the argument, and the returned error. */
  datatype MergeResult = MergeResult(target: Config, source: Config, err: Option<MergeError>)

  /** What one lifecycle event leads to. */
  datatype Outcome =
    | NoOp                                               // label not listened to
    | RenderFailed(msg: string)                          // the body did not render
    | Send(event: Event, body: string, params: Params)   // one request is attempted

  // A singular field conflicts when the receiver has a value of its own
  // that differs from the argument's; an empty receiver adopts the argument's.

  predicate UrlConflict(a: Config, b: Config) { a.url != "" && a.url != b.url }

  predicate MethodConflict(a: Config, b: Config) { a.httpMethod != "" && a.httpMethod != b.httpMethod }

  predicate TimeoutConflict(a: Config, b: Config) { a.timeout != 0 && a.timeout != b.timeout }

  /** No singular field conflicts. */
  predicate Agree(a: Config, b: Config) {
    !UrlConflict(a, b) && !MethodConflict(a, b) && !TimeoutConflict(a, b)
  }

  /** The template merge MergeFrom performs once both paths are resolved. */
  function TemplateMergeOf(a: Config, b: Config, ops: TemplateOps): TemplateMerge {
    ops.mergeFrom(ops.resolvePath(a.template, a.workDir), ops.resolvePath(b.template, b.workDir))
  }

  /** `a.MergeFrom(b)`: fold the declaration `b` into `a`. */
  function Merge(a: Config, b: Config, ops: TemplateOps): (r: MergeResult)
    // which error is returned: the first conflict in the order URL, method, timeout, template
    ensures r.err == Some(DifferentUrls) <==> UrlConflict(a, b)
    ensures r.err == Some(DifferentMethods) <==> !UrlConflict(a, b) && MethodConflict(a, b)
    ensures r.err == Some(DifferentTimeout) <==>
              !UrlConflict(a, b) && !MethodConflict(a, b) && TimeoutConflict(a, b)
    ensures (r.err.Some? && r.err.value.TemplateError?) <==>
              Agree(a, b) && TemplateMergeOf(a, b, ops).err.Some?
    ensures r.err.Some? && r.err.value.TemplateError? ==>
              r.err.value.msg == TemplateMergeOf(a, b, ops).err.value
    ensures r.err == None <==> Agree(a, b) && TemplateMergeOf(a, b, ops).err == None
    // a field that passed its check equals the argument's; later fields are untouched
    ensures r.err != Some(DifferentUrls) ==> r.target.url == b.url
    ensures r.err == Some(DifferentUrls) ==> r.target == a && r.source == b
    ensures r.err == Some(DifferentMethods) ==> r.target == a.(url := b.url) && r.source == b
    ensures r.err == Some(DifferentTimeout) ==>
              r.target == a.(url := b.url, httpMethod := b.httpMethod) && r.source == b
    ensures Agree(a, b) ==>
              r.target.url == b.url && r.target.httpMethod == b.httpMethod && r.target.timeout == b.timeout
              && r.target.template == TemplateMergeOf(a, b, ops).merged
              && r.source == b.(template := TemplateMergeOf(a, b, ops).source)
    // the collections change only on success
    ensures r.err.Some? ==> r.target.headers == a.headers && r.target.services == a.services
    ensures r.err == None ==> r.target.headers.Keys == a.headers.Keys + b.headers.Keys
    ensures r.err == None ==> forall k :: k in b.headers ==> r.target.headers[k] == b.headers[k]
    ensures r.err == None ==>
              forall k :: k in a.headers && k !in b.headers ==> r.target.headers[k] == a.headers[k]
    ensures r.err == None ==> r.target.services == a.services + b.services
    // what Prepare derives, and where the declaration came from, are never touched
    ensures r.target.servicesSet == a.servicesSet && r.target.workDir == a.workDir
  {
    var url := if a.url == "" then b.url else a.url;
    if url != b.url then
      MergeResult(a, b, Some(DifferentUrls))
    else
      var httpMethod := if a.httpMethod == "" then b.httpMethod else a.httpMethod;
      if httpMethod != b.httpMethod then
        MergeResult(a.(url := url), b, Some(DifferentMethods))
      else
        var timeout := if a.timeout == 0 then b.timeout else a.timeout;
        if timeout != b.timeout then
          MergeResult(a.(url := url, httpMethod := httpMethod), b, Some(DifferentTimeout))
        else
          var bt := ops.resolvePath(b.template, b.workDir);
          var m := ops.mergeFrom(ops.resolvePath(a.template, a.workDir), bt);
          var checked := a.(url := url, httpMethod := httpMethod, timeout := timeout, template := m.merged);
          if m.err.Some? then
            MergeResult(checked, b.(template := m.source), Some(TemplateError(m.err.value)))
          else
            MergeResult(checked.(headers := a.headers + b.headers, services := a.services + b.services),
                        b.(template := m.source), None)
  }

  /** `makeSet`: the lookup set of the labels in `items`. */
  function MakeSet(items: seq<string>): (r: set<string>)
    ensures forall x :: x in r <==> x in items
  {
    if items == [] then {} else {items[0]} + MakeSet(items[1..])
  }

  /** `Prepare`: fill in the defaults and build the label lookup. */
  function Prepared(c: Config): (p: Config)
    ensures p.httpMethod != "" && (c.httpMethod != "" ==> p.httpMethod == c.httpMethod)
    ensures c.httpMethod == "" ==> p.httpMethod == DefaultMethod
    ensures p.timeout != 0 && (c.timeout != 0 ==> p.timeout == c.timeout)
    ensures c.timeout == 0 ==> p.timeout == 20_000_000_000
    ensures forall l :: l in p.servicesSet <==> l in c.services
    ensures p.(httpMethod := c.httpMethod, timeout := c.timeout, servicesSet := c.servicesSet) == c
  {
    c.(servicesSet := MakeSet(c.services),
       httpMethod := if c.httpMethod == "" then DefaultMethod else c.httpMethod,
       timeout := if c.timeout == 0 then DefaultTimeout else c.timeout)
  }

  /** `Spawned`/`Stopped`: the label filter, then render, then send. */
  function Gate(c: Config, e: Event, ops: TemplateOps): (o: Outcome)
    ensures o == NoOp <==> e.serviceLabel !in c.servicesSet
    ensures o.RenderFailed? <==>
              e.serviceLabel in c.servicesSet && ops.renderDefaultParams(c.template, e).RenderError?
    ensures o.RenderFailed? ==> o.msg == ops.renderDefaultParams(c.template, e).msg
    ensures o.Send? ==>
              o.event == e && ops.renderDefaultParams(c.template, e) == Rendered(o.body, o.params)
  {
    if e.serviceLabel !in c.servicesSet then NoOp
    else
      match ops.renderDefaultParams(c.template, e)
      case RenderError(msg) => RenderFailed(msg)
      case Rendered(content, params) => Send(e, content, params)
  }

  /**
   * The `for k, v := range b.Headers { a.Headers[k] = v }` loop of MergeFrom.
   * Keys are visited in an unspecified order, as Go's map iteration does.
   */
  method CopyHeaders(into: map<string, string>, from: map<string, string>)
    returns (merged: map<string, string>)
    ensures merged.Keys == into.Keys + from.Keys
    ensures forall k :: k in from ==> merged[k] == from[k]
    ensures forall k :: k in into && k !in from ==> merged[k] == into[k]
    ensures merged == into + from
  {
    merged := into;
    var pending := from.Keys;
    while pending != {}
      invariant pending <= from.Keys
      invariant merged.Keys == into.Keys + (from.Keys - pending)
      invariant forall k :: k in from && k !in pending ==> merged[k] == from[k]
      invariant forall k :: k in into && k !in from ==> merged[k] == into[k]
      decreases pending
    {
      var k :| k in pending;
      merged := merged[k := from[k]];
      pending := pending - {k};
    }
    assert merged.Keys == (into + from).Keys;
  }

  /** One `Http` plugin instance, updated in place by MergeFrom and Prepare. */
  class Http {
    var url: string
    var httpMethod: string
    var headers: map<string, string>
    var services: seq<string>
    var timeout: Duration
    var template: TemplateSettings
    var servicesSet: set<string>
    var workDir: string

    /** The declaration's current value. */
    function State(): Config
      reads this
    {
      Config(url, httpMethod, headers, services, timeout, template, servicesSet, workDir)
    }

    /** A declaration as parsed from its file; nothing is derived yet. */
    constructor (c: Config)
      ensures State() == c.(servicesSet := {})
    {
      url, httpMethod, headers, services := c.url, c.httpMethod, c.headers, c.services;
      timeout, template, servicesSet, workDir := c.timeout, c.template, {}, c.workDir;
    }

    method MergeFrom(other: Http, ops: TemplateOps) returns (err: Option<MergeError>)
      requires other != this
      modifies this, other
      ensures var r := Merge(old(State()), old(other.State()), ops);
              State() == r.target && other.State() == r.source && err == r.err
    {
      if url == "" {
        url := other.url;
      }
      if url != other.url {
        return Some(DifferentUrls);
      }
      if httpMethod == "" {
        httpMethod := other.httpMethod;
      }
      if httpMethod != other.httpMethod {
        return Some(DifferentMethods);
      }
      if timeout == 0 {
        timeout := other.timeout;
      }
      if timeout != other.timeout {
        return Some(DifferentTimeout);
      }
      template := ops.resolvePath(template, workDir);
      other.template := ops.resolvePath(other.template, other.workDir);
      var m := ops.mergeFrom(template, other.template);
      template, other.template := m.merged, m.source;
      if m.err.Some? {
        return Some(TemplateError(m.err.value));
      }
      headers := CopyHeaders(headers, other.headers);
      services := services + other.services;
      return None;
    }

    method Prepare() returns (err: Option<string>)
      modifies this
      ensures State() == Prepared(old(State()))
      ensures err == None
    {
      servicesSet := MakeSet(services);
      if httpMethod == "" {
        httpMethod := DefaultMethod;
      }
      if timeout == 0 {
        timeout := DefaultTimeout;
      }
      err := None;
    }

    method Spawned(serviceLabel: string, id: string, ops: TemplateOps) returns (o: Outcome)
      ensures o == Gate(State(), Event(SpawnedKind, id, serviceLabel, None), ops)
      ensures o.Send? ==> o.event.kind == SpawnedKind && o.event.err == None
    {
      o := NoOp;
      if serviceLabel in servicesSet {
        var rendering := ops.renderDefaultParams(template, Event(SpawnedKind, id, serviceLabel, None));
        if rendering.RenderError? {
          o := RenderFailed(rendering.msg);
        } else {
          o := Send(Event(SpawnedKind, id, serviceLabel, None), rendering.content, rendering.params);
        }
      }
    }

    method Stopped(serviceLabel: string, id: string, err: Option<string>, ops: TemplateOps)
      returns (o: Outcome)
      ensures o == Gate(State(), Event(StoppedKind, id, serviceLabel, err), ops)
      ensures o.Send? ==> o.event.kind == StoppedKind && o.event.err == err
    {
      o := NoOp;
      if serviceLabel in servicesSet {
        var rendering := ops.renderDefaultParams(template, Event(StoppedKind, id, serviceLabel, err));
        if rendering.RenderError? {
          o := RenderFailed(rendering.msg);
        } else {
          o := Send(Event(StoppedKind, id, serviceLabel, err), rendering.content, rendering.params);
        }
      }
    }
  }
}
