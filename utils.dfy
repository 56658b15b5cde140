/** The alias tables between the short model names users type and the
    service's model ids. */
module Utils {

  const AliasToModel: map<string, string> := map[
    "chatgpt" := "gpt-3.5-turbo",
    "davinci" := "text-davinci-003",
    "curie" := "text-curie-001",
    "babbage" := "text-babbage-001",
    "ada" := "text-ada-001"]

  const ModelToAlias: map<string, string> := map[
    "gpt-3.5-turbo" := "chatgpt",
    "text-davinci-003" := "davinci",
    "text-curie-001" := "curie",
    "text-babbage-001" := "babbage",
    "text-ada-001" := "ada"]

  /** `alias_to_model.get(alias, alias)`. */
  function ModelFromAlias(alias: string): (m: string)
  {
    if alias in AliasToModel then AliasToModel[alias] else alias
  }

  /** `model_to_alias.get(model, model)`. */
  function AliasForModel(model: string): (a: string)
  {
    if model in ModelToAlias then ModelToAlias[model] else model
  }

  /** "alias (model)" when the model has an alias, the model id otherwise. */
  function ModelNameForPrint(model: string): (r: string)
  {
    var alias := AliasForModel(model);
    if alias != model then alias + " (" + model + ")" else model
  }

  /** The two tables are inverse to each other. */
  lemma TablesInverse()
    ensures forall a :: a in AliasToModel ==>
      AliasToModel[a] in ModelToAlias && ModelToAlias[AliasToModel[a]] == a
    ensures forall m :: m in ModelToAlias ==>
      ModelToAlias[m] in AliasToModel && AliasToModel[ModelToAlias[m]] == m
    ensures AliasToModel.Keys !! ModelToAlias.Keys
  {
  }

  /** A known alias maps to its model id; any other text passes through. */
  lemma ModelFromAliasLookup(alias: string)
    ensures alias in AliasToModel ==> ModelFromAlias(alias) == AliasToModel[alias] != alias
    ensures alias !in AliasToModel ==> ModelFromAlias(alias) == alias
  {
  }

  /** A known model id maps to its alias; any other text passes through. */
  lemma AliasForModelLookup(model: string)
    ensures model in ModelToAlias ==> AliasForModel(model) == ModelToAlias[model] != model
    ensures model !in ModelToAlias ==> AliasForModel(model) == model
  {
  }

  /** Round trips through the two tables. */
  lemma RoundTrips(alias: string, model: string)
    ensures alias in AliasToModel ==> AliasForModel(ModelFromAlias(alias)) == alias
    ensures model in ModelToAlias ==> ModelFromAlias(AliasForModel(model)) == model
  {
    TablesInverse();
  }

  /** Both lookups are idempotent: no model id is an alias and no alias is a
      model id. */
  lemma LookupsIdempotent(s: string)
    ensures ModelFromAlias(ModelFromAlias(s)) == ModelFromAlias(s)
    ensures AliasForModel(AliasForModel(s)) == AliasForModel(s)
  {
    TablesInverse();
  }

  /** The printed name is "alias (model)" exactly for the known model ids. */
  lemma ModelNameForPrintCases(model: string)
    ensures model in ModelToAlias ==>
      ModelNameForPrint(model) == ModelToAlias[model] + " (" + model + ")"
    ensures model !in ModelToAlias ==> ModelNameForPrint(model) == model
  {
    AliasForModelLookup(model);
  }
}
