/**
 * From conversation data to a ready conversation (src/sdl/conversation_io.py):
 * the data record with its length check, and the generator that owns one turn
 * manager and builds a user per name, an optional moderator and the
 * Conversation itself.
 */
module ConversationIO {
  import opened Wrappers
  import opened Util
  import opened Actors
  import TurnManager
  import Conversation

  /** `LLMConvData`; `turn_manager_config` is carried but never read. */
  datatype ConvData = ConvData(
    context: string,
    userNames: seq<string>,
    userAttributes: seq<seq<string>>,
    userInstructions: string,
    turnManagerType: string,
    turnManagerConfig: map<string, real>,
    convLen: int,
    historyCtxLen: int,
    moderatorName: Option<string>,
    moderatorAttributes: Option<seq<string>>,
    moderatorInstructions: Option<string>)

  /** The AssertionError message of `__post_init__`. */
  const MismatchMessage: string := "Number of actor names and actor attribute lists must be the same"

  /** What `__post_init__` checks: one attribute list per user name. */
  predicate WellFormed(d: ConvData) {
    |d.userNames| == |d.userAttributes|
  }

  /** Constructing `LLMConvData`: the record, or the assertion failure of `__post_init__`. */
  function MakeConvData(d: ConvData): (r: Result<ConvData, string>)
    ensures r.Success? <==> |d.userNames| == |d.userAttributes|
    ensures r.Success? ==> r.value == d && WellFormed(r.value)
    ensures r.Failure? ==> r.error == MismatchMessage
  {
    if |d.userNames| == |d.userAttributes| then Success(d) else Failure(MismatchMessage)
  }

  /** Why `LLMConvGenerator.__init__` fails, in the order it checks. */
  datatype GeneratorError = NoUserModel | NoModeratorModel | BadTurnManager(message: string)

  /** The ValueError `collections.deque` raises for a negative `maxlen`. */
  const NegativeMaxlenMessage: string := "maxlen must be non-negative"

  /** User `i` of a produced conversation: the i-th name and attribute list, the shared context and instructions. */
  function UserActor(d: ConvData, model: Oracle, i: nat): (a: Actor)
    requires WellFormed(d) && i < |d.userNames|
    ensures a.LLMUser? && a.model == model && a.name == d.userNames[i]
    ensures a.attributes == d.userAttributes[i] && a.context == d.context && a.instructions == d.userInstructions
  {
    LLMUser(model, d.userNames[i], d.userAttributes[i], d.context, d.userInstructions)
  }

  /** The `user_list` of `produce_conversation`, one actor per name in order. */
  function UserActors(d: ConvData, model: Oracle): (users: seq<Actor>)
    requires WellFormed(d)
    ensures |users| == |d.userNames|
    ensures forall i | 0 <= i < |users| :: users[i] == UserActor(d, model, i)
  {
    seq(|d.userNames|, i requires 0 <= i < |d.userNames| => UserActor(d, model, i))
  }

  /** The moderator of a produced conversation: present exactly when all four of its parts are. */
  function ModeratorFor(d: ConvData, moderatorModel: Option<Oracle>): (m: Option<Actor>)
    ensures m.Some? <==>
      d.moderatorName.Some? && moderatorModel.Some? && d.moderatorAttributes.Some? && d.moderatorInstructions.Some?
    ensures m.Some? ==> m.value == LLMUser(moderatorModel.value, d.moderatorName.value,
                                           d.moderatorAttributes.value, d.context, d.moderatorInstructions.value)
  {
    if d.moderatorName.Some? && moderatorModel.Some? && d.moderatorAttributes.Some? && d.moderatorInstructions.Some? then
      Some(LLMUser(moderatorModel.value, d.moderatorName.value, d.moderatorAttributes.value, d.context,
                   d.moderatorInstructions.value))
    else None
  }

  /** Every name the turn manager proposes resolves to the user built from it. */
  lemma RosterResolves(d: ConvData, model: Oracle)
    requires WellFormed(d)
    ensures var byName := Conversation.UsersByName(UserActors(d, model));
      forall x | x in d.userNames :: x in byName && byName[x].name == x
  {
    var users := UserActors(d, model);
    var byName := Conversation.UsersByName(users);
    forall x | x in d.userNames
      ensures x in byName && byName[x].name == x
    {
      var i :| 0 <= i < |d.userNames| && d.userNames[i] == x;
      assert users[i].name == x;
    }
  }

  /**
   * A produced conversation whose roster is non-empty (or whose `conv_len` is
   * not positive) runs to completion, whatever the actors reply, with
   * `conv_len` entries, or twice that with a moderator.
   */
  lemma ProducedTranscriptLength(d: ConvData, model: Oracle, moderator: Option<Actor>,
                                 respond: Conversation.Responder, cap: nat, t: nat)
    requires WellFormed(d)
    requires d.userNames != [] || d.convLen <= 0
    ensures var c := Conversation.Cast(Conversation.UsersByName(UserActors(d, model)), moderator, respond, cap);
      var run := Conversation.Play(c, d.userNames, t, Conversation.Turns(d.convLen), Conversation.Record([], []));
      && run.error == None
      && |run.record.logs| == (if moderator.Some? then 2 * Conversation.Turns(d.convLen) else Conversation.Turns(d.convLen))
  {
    var c := Conversation.Cast(Conversation.UsersByName(UserActors(d, model)), moderator, respond, cap);
    RosterResolves(d, model);
    Conversation.TranscriptLength(c, d.userNames, t, d.convLen);
  }

  /**
   * `LLMConvGenerator`: the data, the two models and the one turn manager
   * every produced conversation shares.
   */
  class ConvGenerator {
    const userModel: Oracle
    const moderatorModel: Option<Oracle>
    const data: ConvData
    const nextTurnManager: TurnManager.RoundRobin
    const fill: Wrapper

    /** What `__init__` establishes: the checked data, a moderator model if a moderator is named, a roster of the user names. */
    ghost predicate Valid()
      reads this, nextTurnManager
    {
      && WellFormed(data)
      && (data.moderatorName.Some? ==> moderatorModel.Some?)
      && nextTurnManager.Valid()
      && nextTurnManager.usernames == data.userNames
    }

    constructor (data: ConvData, userModel: Oracle, moderatorModel: Option<Oracle>,
                 turnManager: TurnManager.RoundRobin, fill: Wrapper)
      ensures this.data == data && this.userModel == userModel && this.moderatorModel == moderatorModel
      ensures nextTurnManager == turnManager && this.fill == fill
    {
      this.data := data;
      this.userModel := userModel;
      this.moderatorModel := moderatorModel;
      nextTurnManager := turnManager;
      this.fill := fill;
    }

    /** The append loop of `produce_conversation`. */
    method BuildUserList() returns (userList: seq<Actor>)
      requires WellFormed(data)
      ensures userList == UserActors(data, userModel)
    {
      userList := [];
      var i := 0;
      while i < |data.userNames|
        invariant 0 <= i <= |data.userNames|
        invariant |userList| == i
        invariant forall j | 0 <= j < i :: userList[j] == UserActor(data, userModel, j)
      {
        userList := userList + [LLMUser(userModel, data.userNames[i], data.userAttributes[i], data.context,
                                        data.userInstructions)];
        i := i + 1;
      }
    }

    /**
     * `produce_conversation`: the users in name order, the moderator if all of
     * its parts are configured, and a fresh Conversation over the shared turn
     * manager with `history_ctx_len` and `conv_len` passed unchanged. A
     * negative `history_ctx_len` makes the deque constructor raise.
     */
    method ProduceConversation() returns (r: Result<Conversation.Conversation, string>)
      requires Valid()
      ensures r.Success? <==> data.historyCtxLen >= 0
      ensures r.Failure? ==> r.error == NegativeMaxlenMessage
      ensures r.Success? ==>
        var c := r.value;
        && fresh(c) && c.Valid()
        && c.nextTurnManager == nextTurnManager
        && c.users == Conversation.UsersByName(UserActors(data, userModel))
        && c.moderator == ModeratorFor(data, moderatorModel)
        && c.historyContextLen == data.historyCtxLen && c.convLen == data.convLen && c.fill == fill
        && c.convLogs == [] && c.ctxHistory == []
    {
      var userList := BuildUserList();
      var moderator: Option<Actor>;
      if data.moderatorName.Some? && moderatorModel.Some? && data.moderatorAttributes.Some?
         && data.moderatorInstructions.Some? {
        moderator := Some(LLMUser(moderatorModel.value, data.moderatorName.value, data.moderatorAttributes.value,
                                  data.context, data.moderatorInstructions.value));
      } else {
        moderator := None;
      }
      if data.historyCtxLen < 0 {
        return Failure(NegativeMaxlenMessage);
      }
      var c := new Conversation.Conversation(nextTurnManager, userList, moderator, data.historyCtxLen,
                                             data.convLen, fill);
      return Success(c);
    }
  }

  /**
   * `LLMConvGenerator.__init__`: a user model is required, a named moderator
   * needs a model, and the turn-manager tag must be known; the roster is the
   * data's user names.
   */
  method NewGenerator(data: ConvData, userModel: Option<Oracle>, moderatorModel: Option<Oracle>, fill: Wrapper)
    returns (r: Result<ConvGenerator, GeneratorError>)
    requires WellFormed(data)
    ensures r.Success? <==>
      userModel.Some? && (data.moderatorName.Some? ==> moderatorModel.Some?)
      && TurnManager.IsRoundRobinTag(data.turnManagerType)
    ensures userModel.None? ==> r == Failure(NoUserModel)
    ensures userModel.Some? && data.moderatorName.Some? && moderatorModel.None? ==> r == Failure(NoModeratorModel)
    ensures r.Failure? && userModel.Some? && (data.moderatorName.Some? ==> moderatorModel.Some?) ==>
      r.error == BadTurnManager(TurnManager.UnknownTagMessage(data.turnManagerType))
    ensures r.Success? ==>
      var g := r.value;
      && fresh(g) && fresh(g.nextTurnManager) && g.Valid() && g.nextTurnManager.turns == 0
      && g.data == data && g.userModel == userModel.value && g.moderatorModel == moderatorModel && g.fill == fill
  {
    if userModel.None? {
      return Failure(NoUserModel);
    }
    if moderatorModel.None? && data.moderatorName.Some? {
      return Failure(NoModeratorModel);
    }
    var manager := TurnManager.TurnManagerFactory(data.turnManagerType, data.userNames);
    if manager.Failure? {
      return Failure(BadTurnManager(manager.error));
    }
    var g := new ConvGenerator(data, userModel.value, moderatorModel, manager.value, fill);
    return Success(g);
  }
}
