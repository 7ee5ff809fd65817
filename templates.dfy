/**
 * The template sub-configuration that the Http plugin embeds (`withTemplate`).
 * Its fields and code live outside this model, so the sub-configuration is an
 * opaque value and its three operations are supplied by the caller as total
 * functions: every proof about the plugin holds for every choice of them,
 * including ones that always fail.
 */
module Templates {
  import opened Base

  /** The embedded template settings, seen only through the operations below. */
  datatype TemplateSettings = TemplateSettings(settings: map<string, string>)

  /** The parameter mapping handed to templates (`map[string]interface{}`). */
  type Params = map<string, string>

  /** A lifecycle event as passed to the parameter builder. */
  datatype Event = Event(kind: string, id: string, serviceLabel: string, err: Option<string>)

  /**
   * What `withTemplate.MergeFrom` leaves in the receiver and in the argument
   * (which it gets by pointer), and the error it returns.
   */
  datatype TemplateMerge =
    TemplateMerge(merged: TemplateSettings, source: TemplateSettings, err: Option<string>)

  /** What `renderDefaultParams` returns: the body and parameters, or a render error. */
  datatype Rendering = Rendered(content: string, params: Params) | RenderError(msg: string)

  datatype TemplateOps = TemplateOps(
    /** `withTemplate.resolvePath(workDir)`: the settings with their path resolved. */
    resolvePath: (TemplateSettings, string) -> TemplateSettings,
    /** `withTemplate.MergeFrom`: both sides' new settings and the error, if any. */
    mergeFrom: (TemplateSettings, TemplateSettings) -> TemplateMerge,
    /** `renderDefaultParams(kind, id, serviceLabel, err)` under the given settings. */
    renderDefaultParams: (TemplateSettings, Event) -> Rendering)
}
