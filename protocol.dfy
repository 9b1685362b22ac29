/**
 * The messages exchanged between the extension and its settings webview
 * (src/PanelProvider.ts on one side, resources/script.js on the other).
 */
module Protocol {
  import opened Wrappers

  /**
   * A JavaScript object mapping property names to property kinds (or project
   * names to project IDs), as the sequence of entries `Object.entries` yields.
   */
  type Properties = seq<(string, string)>

  /** Messages the extension posts to the webview (the `command` field picks the case). */
  datatype ToWebview =
    | UpdatePropertySettings(properties: Properties, selectedProjectProperty: Option<string>, selectedTimeProperty: Option<string>)
    | UpdateProjects(projects: Properties, workspaceName: Option<string>)
    | OtherToWebview(command: string)

  /** Messages the webview posts to the extension. */
  datatype FromWebview =
    | WebviewReady
    | Log(text: string)
    | LogError(text: string)
    | SaveSettings(projectProperty: string, timeProperty: string)
    | OtherFromWebview(command: string)
}
