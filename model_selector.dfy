/** The static table of model variants offered by the model picker. */
module ModelSelector {

  import opened Types

  /** `MODELS[key]`: the configuration stored under each key; every entry's `id` is its own key. */
  function Models(key: ModelId): (c: ModelConfig)
    ensures c.id == key
  {
    match key
    case Flash => ModelConfig(Flash, "Flash", "Fast & efficient", "gemini-2.5-flash", None)
    case Reasoning => ModelConfig(Reasoning, "Reasoning", "High intelligence", "gemini-3-pro-preview", None)
    case Research => ModelConfig(Research, "Research", "Web grounded", "gemini-2.5-flash", Some(true))
  }

  /** Web grounding is switched on for the research variant and for no other. */
  lemma OnlyResearchIsGrounded(key: ModelId)
    ensures IsSet(Models(key).useGrounding) <==> key == Research
  {
  }

  /** The remote model behind each variant. */
  lemma ApiModels()
    ensures Models(Flash).apiModel == "gemini-2.5-flash"
    ensures Models(Reasoning).apiModel == "gemini-3-pro-preview"
    ensures Models(Research).apiModel == "gemini-2.5-flash"
  {
  }

  /** Two different variants share one remote model, so `apiModel` does not identify a variant. */
  lemma ApiModelIsNotAKey()
    ensures Models(Flash) != Models(Research)
    ensures Models(Flash).apiModel == Models(Research).apiModel
    ensures forall a, b :: Models(a).apiModel == Models(b).apiModel <==> (a == b || (a != Reasoning && b != Reasoning))
  {
  }
}
