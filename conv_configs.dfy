/**
 * Conversation-config generation (src/generate_conv_configs.py): a random
 * subset of personas and a random topic become an `LLMConvData` record. The
 * random draws are parameters: the indices `random.sample` picks and the index
 * `random.choice` picks.
 */
module ConvConfigs {
  import opened Wrappers
  import opened Text
  import Persona
  import ConversationIO
  import Actors

  /** A persona as read from its JSON file: a dictionary with the keys the generator reads. */
  datatype PersonaRecord = PersonaRecord(
    username: string,
    age: int,
    sex: string,
    sexualOrientation: string,
    demographicGroup: string,
    currentEmployment: string,
    educationLevel: string,
    intent: string,
    personalityCharacteristics: seq<string>)

  /** The `config` dictionary: the four entries copied into every record. */
  datatype RunConfig = RunConfig(turnManagerType: string, turnManagerConfig: map<string, real>, convLen: int,
                                 historyCtxLen: int)

  /** Prepended to the topic to form the context. */
  const CtxPreface: string := ""

  /** The name given to the moderator when there is one. */
  const ModeratorName: string := "moderator"

  const TooManyUsersMessage: string := "Number of users must be less or equal to the number of provided personas"
  /** What `random.sample` raises for a negative sample size. */
  const SampleMessage: string := "Sample larger than population or is negative"
  /** What `random.choice` raises on an empty list. */
  const ChoiceMessage: string := "Cannot choose from an empty sequence"

  /** The persona a record describes, its `username` as the name. */
  function AsPersona(d: PersonaRecord): (p: Persona.LlmPersona)
    ensures p.name == d.username && p.age == d.age && p.sex == d.sex
    ensures p.personalityCharacteristics == d.personalityCharacteristics
  {
    Persona.LlmPersona(d.username, d.age, d.sex, d.sexualOrientation, d.demographicGroup, d.currentEmployment,
                       d.educationLevel, d.intent, d.personalityCharacteristics)
  }

  /** `sex_parse`, a second copy of the persona's; the two agree on every input. */
  function SexParse(sex: string): (r: string)
    ensures r == Persona.SexParse(sex)
  {
    match ToLower(sex)
    case "male" => "man"
    case "female" => "woman"
    case _ => "non-binary"
  }

  /** `format_persona_attributes`: the same list `to_attribute_list` gives for the persona the record describes. */
  method FormatPersonaAttributes(d: PersonaRecord) returns (attributes: seq<string>)
    ensures attributes == Persona.Attributes(AsPersona(d))
    ensures |attributes| == 7 + |d.personalityCharacteristics|
  {
    attributes := [];
    attributes := attributes + [IntToString(d.age) + " years old"];
    attributes := attributes + [d.sexualOrientation];
    attributes := attributes + [d.demographicGroup];
    attributes := attributes + [d.currentEmployment];
    ghost var head := attributes;
    for i := 0 to |d.personalityCharacteristics|
      invariant attributes == head + d.personalityCharacteristics[..i]
    {
      attributes := attributes + [d.personalityCharacteristics[i]];
      assert d.personalityCharacteristics[..i + 1] == d.personalityCharacteristics[..i] + [d.personalityCharacteristics[i]];
    }
    assert d.personalityCharacteristics[..|d.personalityCharacteristics|] == d.personalityCharacteristics;
    var sex := SexParse(d.sex);
    attributes := attributes + [sex];
    attributes := attributes + ["with " + d.educationLevel + " education"];
    attributes := attributes + ["and " + d.intent + " intent"];
  }

  /** What `random.sample(personas, k)` can return, as indices: `k` distinct positions. */
  predicate IsSample(picks: seq<nat>, k: int, n: nat) {
    && |picks| == k
    && (forall i | 0 <= i < |picks| :: picks[i] < n)
    && (forall i, j | 0 <= i < j < |picks| :: picks[i] != picks[j])
  }

  /**
   * `generate_conv_config`. The draws are those of the random module: when
   * `0 <= numUsers <= |personas|`, `picks` is a sample of `numUsers` distinct
   * indices, and when there are topics, `topicPick` indexes one.
   */
  function GenerateConvConfig(
    personas: seq<PersonaRecord>, topics: seq<string>, userInstructions: string, modInstructions: string,
    config: RunConfig, numUsers: int, modExists: bool, picks: seq<nat>, topicPick: nat)
    : (r: Result<ConversationIO.ConvData, string>)
    requires 0 <= numUsers <= |personas| ==> IsSample(picks, numUsers, |personas|)
    requires topics != [] ==> topicPick < |topics|
    ensures r.Success? <==> 0 <= numUsers <= |personas| && topics != []
    ensures numUsers > |personas| ==> r == Failure(TooManyUsersMessage)
    ensures numUsers < 0 ==> r == Failure(SampleMessage)
    ensures 0 <= numUsers <= |personas| && topics == [] ==> r == Failure(ChoiceMessage)
    ensures r.Success? ==>
      var d := r.value;
      && ConversationIO.WellFormed(d)
      && |d.userNames| == numUsers
      && (forall i | 0 <= i < numUsers :: d.userNames[i] == personas[picks[i]].username)
      && (forall i | 0 <= i < numUsers :: d.userAttributes[i] == Persona.Attributes(AsPersona(personas[picks[i]])))
      && d.context == topics[topicPick]
      && d.userInstructions == userInstructions
      && d.turnManagerType == config.turnManagerType && d.turnManagerConfig == config.turnManagerConfig
      && d.convLen == config.convLen && d.historyCtxLen == config.historyCtxLen
      && (modExists ==> d.moderatorName == Some(ModeratorName) && d.moderatorAttributes == Some([])
                        && d.moderatorInstructions == Some(modInstructions))
      && (!modExists ==> d.moderatorName.None? && d.moderatorAttributes.None? && d.moderatorInstructions.None?)
  {
    if numUsers > |personas| then Failure(TooManyUsersMessage)
    else if numUsers < 0 then Failure(SampleMessage)
    else if topics == [] then Failure(ChoiceMessage)
    else
      var chosen := seq(numUsers, i requires 0 <= i < numUsers => personas[picks[i]]);
      var topic := topics[topicPick];
      var userNames := seq(numUsers, i requires 0 <= i < numUsers => chosen[i].username);
      var userAttributes := seq(numUsers, i requires 0 <= i < numUsers => Persona.Attributes(AsPersona(chosen[i])));
      var d := ConversationIO.ConvData(
        CtxPreface + topic, userNames, userAttributes, userInstructions,
        config.turnManagerType, config.turnManagerConfig, config.convLen, config.historyCtxLen,
        if modExists then Some(ModeratorName) else None,
        if modExists then Some([]) else None,
        if modExists then Some(modInstructions) else None);
      assert CtxPreface + topic == topic;
      ConversationIO.MakeConvData(d)
  }

  /**
   * A generated record always passes the length check, and a conversation
   * produced from it has a moderator exactly when one was asked for and a
   * moderator model is supplied.
   */
  lemma GeneratedModerator(
    personas: seq<PersonaRecord>, topics: seq<string>, userInstructions: string, modInstructions: string,
    config: RunConfig, numUsers: int, modExists: bool, picks: seq<nat>, topicPick: nat,
    moderatorModel: Option<Actors.Oracle>)
    requires 0 <= numUsers <= |personas| ==> IsSample(picks, numUsers, |personas|)
    requires topics != [] ==> topicPick < |topics|
    requires GenerateConvConfig(personas, topics, userInstructions, modInstructions, config, numUsers, modExists,
                                picks, topicPick).Success?
    ensures var d := GenerateConvConfig(personas, topics, userInstructions, modInstructions, config, numUsers,
                                        modExists, picks, topicPick).value;
      && ConversationIO.MakeConvData(d) == Success(d)
      && (ConversationIO.ModeratorFor(d, moderatorModel).Some? <==> modExists && moderatorModel.Some?)
  {
  }
}
