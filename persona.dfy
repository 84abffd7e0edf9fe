/** A user persona and its prompt-ready attribute list (src/sdl/persona.py). */
module Persona {
  import opened Text

  /** `LlmPersona`. */
  datatype LlmPersona = LlmPersona(
    name: string,
    age: int,
    sex: string,
    sexualOrientation: string,
    demographicGroup: string,
    currentEmployment: string,
    educationLevel: string,
    intent: string,
    personalityCharacteristics: seq<string>)

  /** `_sex_parse`: "male" and "female" in any casing become "man" and "woman", everything else "non-binary". */
  function SexParse(sex: string): (r: string)
    ensures r == "man" <==> ToLower(sex) == "male"
    ensures r == "woman" <==> ToLower(sex) == "female"
    ensures r == "non-binary" <==> ToLower(sex) != "male" && ToLower(sex) != "female"
  {
    var s := ToLower(sex);
    if s == "male" then "man" else if s == "female" then "woman" else "non-binary"
  }

  /** The casings `_sex_parse` maps to "man" and to "woman", letter by letter. */
  lemma SexParseCharwise(sex: string)
    ensures SexParse(sex) == "man" <==> |sex| == 4 && forall i | 0 <= i < 4 :: LowerChar(sex[i]) == "male"[i]
    ensures SexParse(sex) == "woman" <==> |sex| == 6 && forall i | 0 <= i < 6 :: LowerChar(sex[i]) == "female"[i]
  {
    LowerMatches(sex, "male");
    LowerMatches(sex, "female");
  }

  /**
   * The list `to_attribute_list` builds: age, orientation, demographic group
   * and employment, the personality characteristics in order, then the parsed
   * sex, the education and the intent.
   */
  function Attributes(p: LlmPersona): (a: seq<string>)
    ensures |a| == 7 + |p.personalityCharacteristics|
  {
    [IntToString(p.age) + " years old", p.sexualOrientation, p.demographicGroup, p.currentEmployment]
    + p.personalityCharacteristics
    + [SexParse(p.sex), "with " + p.educationLevel + " education", "and " + p.intent + " intent"]
  }

  /** Entry by entry: the four leading fields, the characteristics in order and the three trailing phrases. */
  lemma AttributesLayout(p: LlmPersona)
    ensures var a := Attributes(p);
      var n := |p.personalityCharacteristics|;
      && a[0] == IntToString(p.age) + " years old"
      && a[1] == p.sexualOrientation && a[2] == p.demographicGroup && a[3] == p.currentEmployment
      && a[4..4 + n] == p.personalityCharacteristics
      && a[4 + n] == SexParse(p.sex) && a[4 + n] in {"man", "woman", "non-binary"}
      && a[5 + n] == "with " + p.educationLevel + " education"
      && a[6 + n] == "and " + p.intent + " intent"
  {
    var a := Attributes(p);
    var n := |p.personalityCharacteristics|;
    var head := [IntToString(p.age) + " years old", p.sexualOrientation, p.demographicGroup, p.currentEmployment];
    var tail := [SexParse(p.sex), "with " + p.educationLevel + " education", "and " + p.intent + " intent"];
    assert a == head + p.personalityCharacteristics + tail;
    assert a[4..4 + n] == p.personalityCharacteristics;
    assert a[4 + n] == tail[0] && a[5 + n] == tail[1] && a[6 + n] == tail[2];
  }

  /** The persona's name plays no part in its attribute list. */
  lemma AttributesIgnoreName(p: LlmPersona, name: string)
    ensures Attributes(p.(name := name)) == Attributes(p)
  {
  }

  /** `to_attribute_list`: the list built append by append. */
  method ToAttributeList(p: LlmPersona) returns (attributes: seq<string>)
    ensures attributes == Attributes(p)
  {
    attributes := [];
    attributes := attributes + [IntToString(p.age) + " years old"];
    attributes := attributes + [p.sexualOrientation];
    attributes := attributes + [p.demographicGroup];
    attributes := attributes + [p.currentEmployment];
    ghost var head := attributes;
    for i := 0 to |p.personalityCharacteristics|
      invariant attributes == head + p.personalityCharacteristics[..i]
    {
      attributes := attributes + [p.personalityCharacteristics[i]];
      assert p.personalityCharacteristics[..i + 1] == p.personalityCharacteristics[..i] + [p.personalityCharacteristics[i]];
    }
    assert p.personalityCharacteristics[..|p.personalityCharacteristics|] == p.personalityCharacteristics;
    attributes := attributes + [SexParse(p.sex)];
    attributes := attributes + ["with " + p.educationLevel + " education"];
    attributes := attributes + ["and " + p.intent + " intent"];
  }
}
