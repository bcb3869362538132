/** The pure helpers of the older generation's menu-bar view
    (`MenuBarContentView`): the short model name shown for the selected model,
    and the status line and its colour. The view itself is not modelled. */
module MenuBar {
  import opened Common
  import KitModelDisplay

  /** The view's own six-entry table. */
  const MenuModelMap: map<string, string> := map[
    "gemini-3-pro-preview" := "Gemini 3.0 Pro",
    "gemini-3-flash" := "Gemini 3.0 Flash",
    "claude-opus-4-5" := "Claude Opus 4.5",
    "claude-sonnet-4-5" := "Claude Sonnet 4.5",
    "glm-4.7" := "GLM-4.7",
    "gpt-4o-mini" := "GPT-4o Mini"
  ]

  /** `getModelDisplayName(_:)`: for `provider/model` the text after the first
      `/` is looked up (lower-cased) and shown as is when absent; an id without
      `/` is looked up whole. */
  function GetModelDisplayName(modelId: string): (r: string)
    ensures r in MenuModelMap.Values || (|r| <= |modelId| && r == modelId[|modelId| - |r|..])
  {
    match FirstIndexOf(modelId, '/')
    case Some(slash) =>
      var modelOnly := modelId[slash + 1..];
      assert modelId[|modelId| - |modelOnly|..] == modelOnly;
      LookupOr(MenuModelMap, ToLower(modelOnly), modelOnly)
    case None =>
      assert modelId[0..] == modelId;
      LookupOr(MenuModelMap, ToLower(modelId), modelId)
  }

  /** The name shown for `provider/model` is the label of `model` or `model`
      itself: the provider part never shows, and it does not matter which
      provider it was. */
  lemma ProviderNeverShown(p: string, m: string)
    requires '/' !in p
    ensures GetModelDisplayName(p + "/" + m) == LookupOr(MenuModelMap, ToLower(m), m)
    ensures GetModelDisplayName(p + "/" + m) in MenuModelMap.Values || GetModelDisplayName(p + "/" + m) == m
  {
    SplitAtFirstSlash(p, m);
  }

  /** An id without `/` is looked up whole, and shown as is when absent. */
  lemma BareIdLookedUpWhole(modelId: string)
    requires '/' !in modelId
    ensures GetModelDisplayName(modelId) == LookupOr(MenuModelMap, ToLower(modelId), modelId)
    ensures ToLower(modelId) !in MenuModelMap ==> GetModelDisplayName(modelId) == modelId
  {
  }

  /** Every entry of the view's table is an entry of the catalog's table with
      the same label, so where the view knows a model both name it alike. */
  lemma MenuTableWithinCatalogTable(m: string)
    requires ToLower(m) in MenuModelMap
    ensures ToLower(m) in KitModelDisplay.ModelMap
    ensures LookupOr(MenuModelMap, ToLower(m), m) == KitModelDisplay.GetDisplayName(m)
  {
  }

  /** The catalog table has entries the view lacks: the view shows
      `claude-sonnet-4-7` raw where the catalog says `Claude Sonnet 4.7`. */
  lemma MenuTableSmaller()
    ensures "claude-sonnet-4-7" in KitModelDisplay.ModelMap && "claude-sonnet-4-7" !in MenuModelMap
    ensures |MenuModelMap.Keys| == 6
  {
  }

  // ---------------------------------------------------------------------------
  // Status

  datatype Color = Red | Green | Orange

  /** `statusText`. */
  function StatusText(running: bool, active: bool): (r: string)
    ensures r == "Stopped" <==> !running
    ensures r == "Active" <==> running && active
    ensures r == "Idle" <==> running && !active
  {
    if !running then "Stopped"
    else if active then "Active"
    else "Idle"
  }

  /** `statusColor`. */
  function StatusColor(running: bool, active: bool): (r: Color)
    ensures r == Red <==> !running
    ensures r == Green <==> running && active
    ensures r == Orange <==> running && !active
  {
    if !running then Red
    else if active then Green
    else Orange
  }

  /** The colour each status line is shown in. */
  function ColorOfText(text: string): Color {
    if text == "Stopped" then Red
    else if text == "Active" then Green
    else Orange
  }

  /** Colour and text always tell the same story. */
  lemma ColorMatchesText(running: bool, active: bool)
    ensures StatusColor(running, active) == ColorOfText(StatusText(running, active))
  {
  }
}
