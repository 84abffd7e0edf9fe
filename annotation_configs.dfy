/**
 * Annotator-config generation (src/generate_annotation_configs.py): each
 * annotator persona is flattened into one space-joined attribute string.
 */
module AnnotationConfigs {
  import opened Text
  import Persona

  /** `LLMAnnotatorData`: one flattened attribute string per annotator persona. */
  datatype AnnotatorData = AnnotatorData(attributes: seq<string>, instructions: string, historyCtxLen: int)

  /** One persona's attribute list, space-joined. */
  function Flatten(p: Persona.LlmPersona): string {
    Join(" ", Persona.Attributes(p))
  }

  /** `generate_annotator_file`: one flattened entry per persona, in persona order; the rest passes through. */
  function GenerateAnnotatorFile(personas: seq<Persona.LlmPersona>, instructions: string, historyCtxLen: int)
    : (d: AnnotatorData)
    ensures |d.attributes| == |personas|
    ensures forall i | 0 <= i < |personas| :: d.attributes[i] == Flatten(personas[i])
    ensures d.instructions == instructions && d.historyCtxLen == historyCtxLen
    ensures personas == [] ==> d.attributes == []
  {
    AnnotatorData(seq(|personas|, i requires 0 <= i < |personas| => Flatten(personas[i])), instructions,
                  historyCtxLen)
  }

  /** Every flattened entry opens with the persona's age phrase and closes with its intent phrase. */
  lemma FlattenShape(p: Persona.LlmPersona)
    ensures IntToString(p.age) + " years old" <= Flatten(p)
    ensures EndsWith(Flatten(p), "and " + p.intent + " intent")
  {
    var a := Persona.Attributes(p);
    Persona.AttributesLayout(p);
    JoinEnds(" ", a);
    assert a[|a| - 1] == "and " + p.intent + " intent";
  }

  /** Each entry of a generated file has that shape, for the persona at the same position. */
  lemma GeneratedEntries(personas: seq<Persona.LlmPersona>, instructions: string, historyCtxLen: int)
    ensures var d := GenerateAnnotatorFile(personas, instructions, historyCtxLen);
      forall i | 0 <= i < |personas| ::
        && IntToString(personas[i].age) + " years old" <= d.attributes[i]
        && EndsWith(d.attributes[i], "and " + personas[i].intent + " intent")
  {
    forall i | 0 <= i < |personas|
      ensures IntToString(personas[i].age) + " years old" <= Flatten(personas[i])
      ensures EndsWith(Flatten(personas[i]), "and " + personas[i].intent + " intent")
    {
      FlattenShape(personas[i]);
    }
  }
}
