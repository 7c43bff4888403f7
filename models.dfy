/** The AI model selection (models.ts): a fixed catalogue of Gemini models, a stored
    selection that only accepts catalogue ids, and a read that falls back to the default. */
module Models {
  import opened Wrappers

  datatype AiModel = AiModel(id: string, name: string, description: string, provider: string)

  /** A model as listed to the settings page: its id and display name only. */
  datatype ModelInfo = ModelInfo(id: string, name: string)

  const Google: string := "Google"

  const AvailableModels: seq<AiModel> := [
    AiModel("gemini-2.0-flash-lite", "Gemini 2.0 Flash Lite",
            "Fast, lightweight model for quick responses", Google),
    AiModel("gemini-2.0-flash", "Gemini 2.0 Flash",
            "Advanced fast response model with improved capabilities", Google),
    AiModel("gemini-2.5-flash", "Gemini 2.5 Flash",
            "Best for fast performance on everyday tasks. Enhanced speed and efficiency.", Google),
    AiModel("gemma-3", "Gemma 3",
            "Open source model with enhanced performance", Google),
    AiModel("gemma-3n", "Gemma 3n",
            "Nano version of Gemma 3 for efficient processing", Google),
    AiModel("gemini-2.5-flash-lite-preview-06-17", "Gemini 2.5 Flash-Lite Preview 06-17",
            "Preview version of the next-generation lightweight model", Google),
    AiModel("gemini-1.5-flash-latest", "Gemini 1.5 Flash",
            "Latest version of the fast response model", Google)
  ]

  const DefaultModel: string := "gemini-2.0-flash-lite"

  /** The storage key of the selected model id. */
  const StorageKey: string := "selected_ai_model"

  /** The catalogue has seven models, the default is the first one's id and no id repeats. */
  lemma CatalogueShape()
    ensures |AvailableModels| == 7
    ensures AvailableModels[0].id == DefaultModel
    ensures forall i, j :: 0 <= i < j < |AvailableModels| ==> AvailableModels[i].id != AvailableModels[j].id
  {
    var ids := [AvailableModels[0].id, AvailableModels[1].id, AvailableModels[2].id,
                AvailableModels[3].id, AvailableModels[4].id, AvailableModels[5].id,
                AvailableModels[6].id];
    assert |ids[0]| == 21 && |ids[1]| == 16 && |ids[2]| == 16 && |ids[3]| == 7;
    assert |ids[4]| == 8 && |ids[5]| == 35 && |ids[6]| == 23;
    assert ids[1][9] == '0' && ids[2][9] == '5';
  }

  /** `getSelectedModel`: the stored id when one is stored and non-empty, else the default. */
  function GetSelectedModel(items: map<string, string>): (r: string)
    ensures r != ""
    ensures StorageKey in items && items[StorageKey] != "" ==> r == items[StorageKey]
    ensures StorageKey !in items || items[StorageKey] == "" ==> r == DefaultModel
  {
    if StorageKey in items && items[StorageKey] != "" then items[StorageKey] else DefaultModel
  }

  /** The first model in `models` whose id is `id`, as `Array.prototype.find` returns it. */
  function FindById(models: seq<AiModel>, id: string): (r: Option<AiModel>)
    ensures r.Some? ==> r.value in models && r.value.id == id
    ensures r.Some? ==> exists k :: 0 <= k < |models| && models[k] == r.value
                                    && forall j :: 0 <= j < k ==> models[j].id != id
    ensures r.None? <==> forall m :: m in models ==> m.id != id
  {
    if models == [] then None
    else if models[0].id == id then Some(models[0])
    else FindById(models[1..], id)
  }

  /** `AVAILABLE_MODELS.some(model => model.id === modelId)`. */
  predicate ModelExists(id: string) {
    exists k :: 0 <= k < |AvailableModels| && AvailableModels[k].id == id
  }

  /** `getSelectedModelInfo`: the catalogue entry of the selected id, or the second catalogue
      entry when the stored id is not in the catalogue. */
  function GetSelectedModelInfo(items: map<string, string>): (r: AiModel)
    ensures r in AvailableModels
    ensures ModelExists(GetSelectedModel(items)) ==> r.id == GetSelectedModel(items)
    ensures !ModelExists(GetSelectedModel(items)) ==> r == AvailableModels[1]
  {
    var found := FindById(AvailableModels, GetSelectedModel(items));
    if found.Some? then found.value else AvailableModels[1]
  }

  /** `Array.prototype.map`, kept order and length. */
  function MapSeq<A, B>(s: seq<A>, f: A -> B): (r: seq<B>)
    ensures |r| == |s|
    ensures forall i :: 0 <= i < |s| ==> r[i] == f(s[i])
  {
    if s == [] then [] else [f(s[0])] + MapSeq(s[1..], f)
  }

  /** `getAvailableModelIds`: the catalogue ids in catalogue order. */
  function GetAvailableModelIds(): (r: seq<string>)
    ensures |r| == |AvailableModels|
    ensures forall i :: 0 <= i < |r| ==> r[i] == AvailableModels[i].id
  {
    MapSeq(AvailableModels, (m: AiModel) => m.id)
  }

  /** `getAvailableModelNames`: the catalogue names in catalogue order. */
  function GetAvailableModelNames(): (r: seq<string>)
    ensures |r| == |AvailableModels|
    ensures forall i :: 0 <= i < |r| ==> r[i] == AvailableModels[i].name
  {
    MapSeq(AvailableModels, (m: AiModel) => m.name)
  }

  /** `getAvailableModelsInfo`: each catalogue entry's id and name, in catalogue order. */
  function GetAvailableModelsInfo(): (r: seq<ModelInfo>)
    ensures |r| == |AvailableModels|
    ensures forall i :: 0 <= i < |r| ==> r[i] == ModelInfo(AvailableModels[i].id, AvailableModels[i].name)
  {
    MapSeq(AvailableModels, (m: AiModel) => ModelInfo(m.id, m.name))
  }

  /** Every listed id is selectable: saving it is accepted and reads back. */
  lemma ListedIdsExist(i: int)
    requires 0 <= i < |GetAvailableModelIds()|
    ensures ModelExists(GetAvailableModelIds()[i])
  {
    assert GetAvailableModelIds()[i] == AvailableModels[i].id;
  }

  /** The browser storage that holds the selection. */
  class ModelSelection {
    var items: map<string, string>

    constructor(items0: map<string, string>)
      ensures items == items0
    {
      items := items0;
    }

    /** `saveSelectedModel`: stores a catalogue id; an id outside the catalogue changes nothing. */
    method SaveSelectedModel(modelId: string)
      modifies this
      ensures ModelExists(modelId) ==> items == old(items)[StorageKey := modelId]
      ensures !ModelExists(modelId) ==> items == old(items)
      ensures ModelExists(modelId) ==> GetSelectedModel(items) == modelId
    {
      if !ModelExists(modelId) {
        return;
      }
      CatalogueIdsNonEmpty(modelId);
      items := items[StorageKey := modelId];
    }

    /** `resetSelectedModel`: removes the stored id, so the default is selected again. */
    method ResetSelectedModel()
      modifies this
      ensures items == old(items) - {StorageKey}
      ensures GetSelectedModel(items) == DefaultModel
    {
      items := items - {StorageKey};
    }
  }

  /** No catalogue id is empty, so a saved id is what the selection reads back. */
  lemma CatalogueIdsNonEmpty(id: string)
    requires ModelExists(id)
    ensures id != ""
  {
    var k :| 0 <= k < |AvailableModels| && AvailableModels[k].id == id;
    assert |AvailableModels[k].id| > 0 by {
      if k == 0 {} else if k == 1 {} else if k == 2 {} else if k == 3 {}
      else if k == 4 {} else if k == 5 {} else {}
    }
  }

  /** Saving a catalogue id and reading the selection returns that id. */
  lemma SaveThenGet(items: map<string, string>, id: string)
    ensures ModelExists(id) ==> GetSelectedModel(items[StorageKey := id]) == id
  {
    if ModelExists(id) {
      CatalogueIdsNonEmpty(id);
    }
  }

  /** After a reset the selection is the default model, which is the first catalogue entry. */
  lemma ResetThenGet(items: map<string, string>)
    ensures GetSelectedModel(items - {StorageKey}) == DefaultModel
    ensures GetSelectedModelInfo(items - {StorageKey}) == AvailableModels[0]
  {
    CatalogueShape();
    assert ModelExists(DefaultModel) by { assert AvailableModels[0].id == DefaultModel; }
    var found := FindById(AvailableModels, DefaultModel);
    assert found == Some(AvailableModels[0]);
  }
}
