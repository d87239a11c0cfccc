/** The definition source: which text `fetchDefinition` shows as a hint for a
    given answer of the dictionary service. */
module Definitions {
  import opened Wrappers

  const NoDefinitionAvailable := "No definition available."
  const NoDefinitionFound := "No definition found."

  /** One element of a meaning's `definitions` list; "" stands for a `definition`
      field that is missing or empty (falsy). */
  datatype Def = Def(definition: string)

  /** One meaning; `definitions` is `None` when the field is absent, so that
      iterating over it throws. */
  datatype Meaning = Meaning(definitions: Option<seq<Def>>)

  /** One dictionary entry; an entry without meanings has an empty list. */
  datatype Entry = Entry(meanings: seq<Meaning>)

  /** The dictionary service's answer: `Failed` when the request was rejected or
      the body was not JSON, `NotArray` for JSON that is not an array, otherwise
      the array of entries. */
  datatype DictReply = Failed | NotArray | Entries(entries: seq<Entry>)

  /** The position of the first definition with a non-empty text, if any. */
  function FirstTruthy(defs: seq<Def>): (r: Option<nat>)
    ensures r.Some? ==> r.value < |defs| && defs[r.value].definition != ""
    ensures r.Some? ==> forall j :: 0 <= j < r.value ==> defs[j].definition == ""
    ensures r.None? ==> forall j :: 0 <= j < |defs| ==> defs[j].definition == ""
  {
    if defs == [] then None
    else if defs[0].definition != "" then Some(0)
    else match FirstTruthy(defs[1..])
      case Some(k) => Some(k + 1)
      case None => None
  }

  /** The definitions list of the first meaning of the first entry, when the reply
      has one: `Some(None)` when that meaning has no list. */
  function FirstMeaningDefinitions(reply: DictReply): Option<Option<seq<Def>>> {
    if reply.Entries? && |reply.entries| > 0 && |reply.entries[0].meanings| > 0
    then Some(reply.entries[0].meanings[0].definitions)
    else None
  }

  /** The text `fetchDefinition` returns; it is never empty. */
  function Hint(reply: DictReply): (text: string)
    ensures text != ""
    ensures reply.Failed? ==> text == NoDefinitionAvailable
    ensures FirstMeaningDefinitions(reply) == Some(None) ==> text == NoDefinitionAvailable
    ensures !reply.Failed? && FirstMeaningDefinitions(reply) == None ==> text == NoDefinitionFound
  {
    match reply
    case Failed => NoDefinitionAvailable
    case NotArray => NoDefinitionFound
    case Entries(es) =>
      if |es| == 0 || |es[0].meanings| == 0 then NoDefinitionFound
      else match es[0].meanings[0].definitions
        case None => NoDefinitionAvailable
        case Some(defs) =>
          match FirstTruthy(defs)
          case Some(i) => defs[i].definition
          case None => NoDefinitionFound
  }

  /** When the first meaning lists definitions, the hint is the first of them
      with a non-empty text. */
  lemma HintIsFirstDefinition(reply: DictReply, defs: seq<Def>, i: nat)
    requires FirstMeaningDefinitions(reply) == Some(Some(defs))
    requires i < |defs| && defs[i].definition != ""
    requires forall j :: 0 <= j < i ==> defs[j].definition == ""
    ensures Hint(reply) == defs[i].definition
  {
  }

  /** When the first meaning lists only empty definitions the hint says none was found. */
  lemma HintWithoutDefinition(reply: DictReply, defs: seq<Def>)
    requires FirstMeaningDefinitions(reply) == Some(Some(defs))
    requires forall j :: 0 <= j < |defs| ==> defs[j].definition == ""
    ensures Hint(reply) == NoDefinitionFound
  {
  }
}
