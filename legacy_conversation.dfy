/**
 * The older conversation engine (src/lib/conversation.py): every round each
 * user speaks in list order, each followed by the moderator if there is one;
 * the whole run stops at the first user whose raw reply is blank. The
 * transcript keeps the raw replies, the window their formatted form.
 */
module LegacyConversation {
  import opened Wrappers
  import opened Text
  import opened Window
  import opened Util
  import opened Actors
  import TurnManager

  /** A `lib.actors.LLMUser` as the legacy generator builds it: the moderator's attributes and instructions may be None. */
  datatype LegacyActor = LegacyActor(
    model: Oracle, name: string, role: string, attributes: Option<seq<string>>, context: string,
    instructions: Option<string>)

  /** A transcript entry: speaker and raw reply. */
  type Entry = (string, string)

  /** `actor.speak(history)`; lib/actors.py is not part of this model, so the reply is a parameter. */
  type Speech = (LegacyActor, seq<string>) -> string

  /** The fixed ingredients of a run. */
  datatype Cast = Cast(users: seq<LegacyActor>, moderator: Option<LegacyActor>, speak: Speech, format: Formatter, cap: nat)

  datatype Record = Record(logs: seq<Entry>, window: seq<string>)

  /** Where a run left the record, and whether a blank reply ended it early. */
  datatype Outcome = Outcome(record: Record, stopped: bool)

  /** The condition of the early stop: the reply strips to nothing. */
  predicate Silent(reply: string) {
    |Strip(reply)| == 0
  }

  /** `_actor_turn`: the raw reply goes to the transcript, its formatted form to the window. */
  function Step(c: Cast, a: LegacyActor, r: Record): Record {
    var reply := c.speak(a, r.window);
    Record(r.logs + [(a.name, reply)], Push(r.window, c.format(a.name, reply), c.cap))
  }

  /** The inner loop from user `j` on: a blank user reply stops the run before the moderator answers. */
  function UsersFrom(c: Cast, j: nat, r: Record): Outcome
    decreases |c.users| - j
  {
    if j >= |c.users| then Outcome(r, false)
    else
      var r1 := Step(c, c.users[j], r);
      if Silent(r1.logs[|r1.logs| - 1].1) then Outcome(r1, true)
      else
        var r2 := if c.moderator.Some? then Step(c, c.moderator.value, r1) else r1;
        UsersFrom(c, j + 1, r2)
  }

  /** The outer loop: `n` more rounds unless one stops. */
  function Rounds(c: Cast, n: nat, r: Record): Outcome
    decreases n
  {
    if n == 0 then Outcome(r, false)
    else
      var o := UsersFrom(c, 0, r);
      if o.stopped then o else Rounds(c, n - 1, o.record)
  }

  /** Number of iterations of `range(conv_len)`. */
  function Turns(convLen: int): nat {
    if convLen < 0 then 0 else convLen
  }

  /** Transcript entries produced by `t` complete user turns. */
  function Span(c: Cast, t: nat): nat {
    if c.moderator.Some? then 2 * t else t
  }

  /** Position `i` of the schedule belongs to a user (every position without a moderator, the even ones with one). */
  predicate UserSlot(c: Cast, i: nat) {
    c.moderator.None? || i % 2 == 0
  }

  /** Who speaks at transcript position `i`: users in list order, round after round, each followed by the moderator. */
  function ActorAt(c: Cast, i: nat): LegacyActor
    requires c.users != []
  {
    if c.moderator.Some? then
      if i % 2 == 0 then c.users[(i / 2) % |c.users|] else c.moderator.value
    else c.users[i % |c.users|]
  }

  /** The deque after every entry of `logs`, formatted, was appended to an empty one. */
  function WindowOf(c: Cast, logs: seq<Entry>): seq<string> {
    if logs == [] then []
    else Push(WindowOf(c, logs[..|logs| - 1]), c.format(logs[|logs| - 1].0, logs[|logs| - 1].1), c.cap)
  }

  /** The window is the deque of the transcript's formatted entries. */
  ghost predicate WindowIsSuffix(c: Cast, r: Record) {
    r.window == WindowOf(c, r.logs)
  }

  /** Entry `i` is the scheduled actor's raw reply to the window made of the entries before it. */
  ghost predicate Spoke(c: Cast, logs: seq<Entry>, i: nat)
    requires c.users != [] && i < |logs|
  {
    logs[i] == (ActorAt(c, i).name, c.speak(ActorAt(c, i), WindowOf(c, logs[..i])))
  }

  /** Every entry follows the schedule. */
  ghost predicate Follows(c: Cast, logs: seq<Entry>) {
    logs == [] || (c.users != [] && forall i | 0 <= i < |logs| :: Spoke(c, logs, i))
  }

  /** No user reply in `logs` is blank. */
  ghost predicate NoSilentUser(c: Cast, logs: seq<Entry>) {
    forall i | 0 <= i < |logs| && UserSlot(c, i) :: !Silent(logs[i].1)
  }

  /** The schedule and the window agree with the transcript. */
  ghost predicate Scheduled(c: Cast, r: Record) {
    Follows(c, r.logs) && WindowIsSuffix(c, r)
  }

  /** A run cut short: the last entry is the first blank user reply. */
  ghost predicate StoppedShape(c: Cast, logs: seq<Entry>) {
    && logs != []
    && UserSlot(c, |logs| - 1)
    && Silent(logs[|logs| - 1].1)
    && NoSilentUser(c, logs[..|logs| - 1])
  }

  /** The count promised for a run that reaches user turn `t`: all its entries and no blank user reply, or an early stop. */
  ghost predicate Counted(c: Cast, o: Outcome, t: nat) {
    && (!o.stopped ==> |o.record.logs| == Span(c, t) && NoSilentUser(c, o.record.logs))
    && (o.stopped ==> StoppedShape(c, o.record.logs) && |o.record.logs| <= Span(c, t))
  }

  lemma WindowOfSnoc(c: Cast, logs: seq<Entry>, e: Entry)
    ensures WindowOf(c, logs + [e]) == Push(WindowOf(c, logs), c.format(e.0, e.1), c.cap)
  {
    assert (logs + [e])[..|logs|] == logs;
  }

  /** The deque holds the latest `min(cap, |logs|)` formatted entries of the transcript. */
  lemma {:induction false} WindowOfIsLast(c: Cast, logs: seq<Entry>)
    ensures WindowOf(c, logs) == Last(c.cap, Formatted(c.format, logs))
  {
    if logs != [] {
      var init := logs[..|logs| - 1];
      var e := logs[|logs| - 1];
      var x := c.format(e.0, e.1);
      assert logs == init + [e];
      WindowOfIsLast(c, init);
      FormattedSnoc(c.format, init, e);
      PushLast(c.cap, Formatted(c.format, init), x);
      calc {
        WindowOf(c, logs);
        Push(WindowOf(c, init), x, c.cap);
        Push(Last(c.cap, Formatted(c.format, init)), x, c.cap);
        Last(c.cap, Formatted(c.format, init) + [x]);
      }
    }
  }

  /** Any turn keeps the window the deque of the transcript. */
  lemma StepWindow(c: Cast, a: LegacyActor, r: Record)
    requires WindowIsSuffix(c, r)
    ensures WindowIsSuffix(c, Step(c, a, r))
  {
    var reply := c.speak(a, r.window);
    WindowOfSnoc(c, r.logs, (a.name, reply));
  }

  /** A turn by the scheduled actor keeps the schedule and the window invariant. */
  lemma {:induction false} StepFollows(c: Cast, a: LegacyActor, r: Record)
    requires c.users != [] && Follows(c, r.logs) && WindowIsSuffix(c, r)
    requires a == ActorAt(c, |r.logs|)
    ensures var r1 := Step(c, a, r);
      && r1.logs == r.logs + [r1.logs[|r.logs|]]
      && Follows(c, r1.logs) && WindowIsSuffix(c, r1)
  {
    var r1 := Step(c, a, r);
    StepWindow(c, a, r);
    forall i | 0 <= i < |r1.logs|
      ensures Spoke(c, r1.logs, i)
    {
      assert r1.logs[..i] == r.logs[..i] || i == |r.logs|;
      if i == |r.logs| {
        assert r1.logs[..i] == r.logs;
      } else {
        assert r1.logs[..i] == r.logs[..i];
        assert Spoke(c, r.logs, i);
      }
    }
  }

  lemma DivMod2(t: nat)
    ensures (2 * t) % 2 == 0 && (2 * t) / 2 == t && (2 * t + 1) % 2 == 1
  {
    TurnManager.ModUnique(2 * t, 2, t, 0);
    TurnManager.ModUnique(2 * t + 1, 2, t, 1);
  }

  /** The first entry of user turn `t` belongs to user `t mod |users|`, the second (with a moderator) to the moderator. */
  lemma SlotActors(c: Cast, t: nat)
    requires c.users != []
    ensures UserSlot(c, Span(c, t)) && ActorAt(c, Span(c, t)) == c.users[t % |c.users|]
    ensures c.moderator.Some? ==> !UserSlot(c, 2 * t + 1) && ActorAt(c, 2 * t + 1) == c.moderator.value
  {
    DivMod2(t);
  }

  /** A turn `j` places past a round boundary is user `j`. */
  lemma RoundIndex(t: nat, j: nat, n: nat)
    requires j < n && j <= t && (t - j) % n == 0
    ensures t % n == j
  {
    TurnManager.ModUnique(t, n, (t - j) / n, j);
  }

  /** A full round from a round boundary lands on the next boundary. */
  lemma RoundNext(t: nat, n: nat)
    requires n > 0 && t % n == 0
    ensures (t + n) % n == 0
  {
    TurnManager.ModUnique(t + n, n, t / n + 1, 0);
  }

  /** Appending one entry keeps the earlier user replies. */
  lemma NoSilentUserSnoc(c: Cast, logs: seq<Entry>, e: Entry)
    requires NoSilentUser(c, logs) && (UserSlot(c, |logs|) ==> !Silent(e.1))
    ensures NoSilentUser(c, logs + [e])
  {
    assert forall i | 0 <= i < |logs| :: (logs + [e])[i] == logs[i];
  }

  /** From user `j` of a round (user turn `t`), the inner loop keeps the schedule and the window. */
  lemma {:induction false} UsersFromScheduled(c: Cast, j: nat, r: Record, t: nat)
    requires c.users != [] && j <= |c.users| && j <= t && (t - j) % |c.users| == 0
    requires |r.logs| == Span(c, t) && Scheduled(c, r)
    ensures var o := UsersFrom(c, j, r);
      && Scheduled(c, o.record)
      && (!o.stopped ==> |o.record.logs| == Span(c, t + (|c.users| - j)))
    decreases |c.users| - j
  {
    var n := |c.users|;
    if j < n {
      RoundIndex(t, j, n);
      SlotActors(c, t);
      var r1 := Step(c, c.users[j], r);
      StepFollows(c, c.users[j], r);
      if !Silent(r1.logs[|r1.logs| - 1].1) {
        var r2 := if c.moderator.Some? then Step(c, c.moderator.value, r1) else r1;
        if c.moderator.Some? {
          StepFollows(c, c.moderator.value, r1);
        }
        assert |r2.logs| == Span(c, t + 1);
        assert t + 1 - (j + 1) == t - j;
        UsersFromScheduled(c, j + 1, r2, t + 1);
      }
    }
  }

  /** From user `j` of a round (user turn `t`), the inner loop either takes every turn or stops at a blank user reply. */
  lemma {:induction false} UsersFromCounted(c: Cast, j: nat, r: Record, t: nat)
    requires j <= |c.users|
    requires |r.logs| == Span(c, t) && NoSilentUser(c, r.logs)
    ensures Counted(c, UsersFrom(c, j, r), t + (|c.users| - j))
    decreases |c.users| - j
  {
    var n := |c.users|;
    if j < n {
      DivMod2(t);
      var r1 := Step(c, c.users[j], r);
      var e := r1.logs[|r.logs|];
      assert r1.logs == r.logs + [e];
      if Silent(e.1) {
        assert r1.logs[..|r1.logs| - 1] == r.logs;
      } else {
        NoSilentUserSnoc(c, r.logs, e);
        var r2 := if c.moderator.Some? then Step(c, c.moderator.value, r1) else r1;
        if c.moderator.Some? {
          var e2 := r2.logs[|r1.logs|];
          assert r2.logs == r1.logs + [e2];
          NoSilentUserSnoc(c, r1.logs, e2);
        }
        assert |r2.logs| == Span(c, t + 1);
        UsersFromCounted(c, j + 1, r2, t + 1);
      }
    }
  }

  lemma RoundsLength(m: nat, n: nat, t: nat)
    requires m > 0
    ensures t + n + (m - 1) * n == t + m * n && t + n <= t + m * n
  {
    var p := (m - 1) * n;
    assert m * n == p + n;
    assert p >= 0;
  }

  /** `m` rounds from a round boundary (user turn `t`) keep the schedule and the window. */
  lemma {:induction false} RoundsScheduled(c: Cast, m: nat, r: Record, t: nat)
    requires c.users != [] && t % |c.users| == 0
    requires |r.logs| == Span(c, t) && Scheduled(c, r)
    ensures Scheduled(c, Rounds(c, m, r).record)
    decreases m
  {
    var n := |c.users|;
    if m > 0 {
      UsersFromScheduled(c, 0, r, t);
      var o := UsersFrom(c, 0, r);
      if !o.stopped {
        RoundNext(t, n);
        RoundsScheduled(c, m - 1, o.record, t + n);
      }
    }
  }

  /** `m` rounds from user turn `t` either take all `m * |users|` user turns or stop at a blank user reply. */
  lemma {:induction false} RoundsCounted(c: Cast, m: nat, r: Record, t: nat)
    requires |r.logs| == Span(c, t) && NoSilentUser(c, r.logs)
    ensures Counted(c, Rounds(c, m, r), t + m * |c.users|)
    decreases m
  {
    var n := |c.users|;
    if m == 0 {
      assert t + m * n == t;
    } else {
      UsersFromCounted(c, 0, r, t);
      var o := UsersFrom(c, 0, r);
      RoundsLength(m, n, t);
      if !o.stopped {
        RoundsCounted(c, m - 1, o.record, t + n);
      }
    }
  }

  /** With no users the loops do nothing. */
  lemma {:induction false} NoUsersNoRun(c: Cast, n: nat, r: Record)
    requires c.users == []
    ensures Rounds(c, n, r) == Outcome(r, false)
    decreases n
  {
    if n > 0 {
      NoUsersNoRun(c, n - 1, r);
    }
  }

  /**
   * A run from an empty record follows the schedule: entry `i` is the reply
   * of `ActorAt(c, i)` (users in list order, each followed by the moderator)
   * to the window made of the entries before it, and the window is the
   * formatted suffix of the transcript, never longer than its capacity.
   */
  lemma LegacySchedule(c: Cast, n: nat)
    ensures var o := Rounds(c, n, Record([], []));
      && Follows(c, o.record.logs)
      && o.record.window == Last(c.cap, Formatted(c.format, o.record.logs)) && |o.record.window| <= c.cap
  {
    var r0 := Record([], []);
    if c.users == [] {
      NoUsersNoRun(c, n, r0);
    } else {
      RoundsScheduled(c, n, r0, 0);
    }
    WindowOfIsLast(c, Rounds(c, n, r0).record.logs);
  }

  /** The window an entry answers is the formatted suffix of the entries before it. */
  lemma SpokeToLast(c: Cast, logs: seq<Entry>, i: nat)
    requires c.users != [] && i < |logs|
    ensures Spoke(c, logs, i) <==>
      logs[i] == (ActorAt(c, i).name, c.speak(ActorAt(c, i), Last(c.cap, Formatted(c.format, logs[..i]))))
  {
    WindowOfIsLast(c, logs[..i]);
  }

  /**
   * A run from an empty record has at most `n * |users| * (1 + [moderator])`
   * entries, exactly that many unless it stopped; it stopped exactly when its
   * last entry is a blank user reply, and no earlier user reply is blank.
   */
  lemma LegacyCount(c: Cast, n: nat)
    ensures var o := Rounds(c, n, Record([], []));
      var logs := o.record.logs;
      && |logs| <= Span(c, n * |c.users|)
      && (!o.stopped ==> |logs| == Span(c, n * |c.users|))
      && (o.stopped <==> logs != [] && UserSlot(c, |logs| - 1) && Silent(logs[|logs| - 1].1))
      && (forall i | 0 <= i < |logs| - 1 && UserSlot(c, i) :: !Silent(logs[i].1))
  {
    var r0 := Record([], []);
    RoundsCounted(c, n, r0, 0);
    var o := Rounds(c, n, r0);
    var logs := o.record.logs;
    assert 0 + n * |c.users| == n * |c.users|;
    if o.stopped {
      forall i | 0 <= i < |logs| - 1 && UserSlot(c, i)
        ensures !Silent(logs[i].1)
      {
        assert logs[..|logs| - 1][i] == logs[i];
      }
    } else if logs != [] && UserSlot(c, |logs| - 1) {
      assert !Silent(logs[|logs| - 1].1);
    }
  }

  /** `Conversation` of src/lib/conversation.py. */
  class LegacyConv {
    const users: seq<LegacyActor>
    const moderator: Option<LegacyActor>
    const convLen: int
    const historyContextLen: nat
    const fill: Wrapper
    /** How the actors answer: lib/actors.py is not part of this model. */
    const speech: Speech
    var convLogs: seq<Entry>
    var ctxHistory: seq<string>
    /** `lib.util.format_chat_message`, taken to be `FormatChatMessage` over `fill`. */
    ghost const format: Formatter

    ghost function Setting(): Cast {
      Cast(users, moderator, speech, format, historyContextLen)
    }

    ghost predicate Valid()
      reads this
    {
      && WindowIsSuffix(Setting(), Record(convLogs, ctxHistory))
      && forall u, m {:trigger FormatChatMessage(fill, u, m)} :: format(u, m) == FormatChatMessage(fill, u, m)
    }

    /** `__init__`: an empty transcript and an empty deque of capacity `historyContextLen`. */
    constructor (users: seq<LegacyActor>, moderator: Option<LegacyActor>, historyContextLen: nat, convLen: int,
                 fill: Wrapper, speech: Speech)
      ensures this.users == users && this.moderator == moderator
      ensures this.historyContextLen == historyContextLen && this.convLen == convLen
      ensures this.fill == fill && this.speech == speech
      ensures convLogs == [] && ctxHistory == [] && Valid()
    {
      this.users := users;
      this.moderator := moderator;
      this.historyContextLen := historyContextLen;
      this.convLen := convLen;
      this.fill := fill;
      this.speech := speech;
      format := (u: string, m: string) => FormatChatMessage(fill, u, m);
      convLogs := [];
      ctxHistory := [];
    }

    /** `_actor_turn`: the formatted reply joins the window, the raw reply the transcript. */
    method ActorTurn(actor: LegacyActor)
      requires Valid()
      modifies this
      ensures Valid()
      ensures Record(convLogs, ctxHistory) == Step(Setting(), actor, old(Record(convLogs, ctxHistory)))
    {
      StepWindow(Setting(), actor, Record(convLogs, ctxHistory));
      var res := speech(actor, ctxHistory);
      var formattedRes := FormatChatMessage(fill, actor.name, res);
      assert formattedRes == format(actor.name, res);
      ctxHistory := Push(ctxHistory, formattedRes, historyContextLen);
      convLogs := convLogs + [(actor.name, res)];
    }

    /** One pass of the inner loop for user `j`: the user, the blank test on its raw reply, then the moderator. */
    method UserTurn(j: nat) returns (stopped: bool)
      requires Valid() && j < |users|
      modifies this
      ensures Valid()
      ensures var r := old(Record(convLogs, ctxHistory));
        var r1 := Step(Setting(), users[j], r);
        && (stopped <==> Silent(r1.logs[|r1.logs| - 1].1))
        && (stopped ==> Record(convLogs, ctxHistory) == r1)
        && (!stopped ==>
              Record(convLogs, ctxHistory) == if moderator.Some? then Step(Setting(), moderator.value, r1) else r1)
    {
      ActorTurn(users[j]);
      if |Strip(convLogs[|convLogs| - 1].1)| == 0 {
        return true;
      }
      if moderator.Some? {
        ActorTurn(moderator.value);
      }
      return false;
    }

    /** The inner loop over the users, ending the run at the first blank user reply. */
    method UsersRound() returns (stopped: bool)
      requires Valid()
      modifies this
      ensures Valid()
      ensures Outcome(Record(convLogs, ctxHistory), stopped) == UsersFrom(Setting(), 0, old(Record(convLogs, ctxHistory)))
    {
      ghost var total := UsersFrom(Setting(), 0, Record(convLogs, ctxHistory));
      var j := 0;
      while j < |users|
        invariant 0 <= j <= |users| && Valid()
        invariant UsersFrom(Setting(), j, Record(convLogs, ctxHistory)) == total
      {
        stopped := UserTurn(j);
        if stopped {
          assert Outcome(Record(convLogs, ctxHistory), true) == total;
          return;
        }
        j := j + 1;
      }
      stopped := false;
      assert Outcome(Record(convLogs, ctxHistory), false) == total;
    }

    /**
     * `begin_conversation`: RuntimeError (`true` here) on a used conversation,
     * before anyone speaks; otherwise `conv_len` rounds, cut short by the
     * first blank user reply.
     */
    method BeginConversation() returns (concluded: bool)
      requires Valid()
      modifies this
      ensures Valid()
      ensures concluded <==> old(convLogs) != []
      ensures concluded ==> convLogs == old(convLogs) && ctxHistory == old(ctxHistory)
      ensures !concluded ==> Record(convLogs, ctxHistory) == Rounds(Setting(), Turns(convLen), Record([], [])).record
    {
      if |convLogs| != 0 {
        return true;
      }
      assert ctxHistory == WindowOf(Setting(), []) == [];
      ghost var total := Rounds(Setting(), Turns(convLen), Record([], []));
      var k := 0;
      while k < Turns(convLen)
        invariant 0 <= k <= Turns(convLen) && Valid()
        invariant Rounds(Setting(), Turns(convLen) - k, Record(convLogs, ctxHistory)) == total
      {
        var stopped := UsersRound();
        if stopped {
          assert Record(convLogs, ctxHistory) == total.record;
          return false;
        }
        k := k + 1;
      }
      assert Record(convLogs, ctxHistory) == total.record;
      return false;
    }
  }

  /** `LLMConvData` of src/lib/conversation.py: no turn manager. */
  datatype LegacyConvData = LegacyConvData(
    context: string,
    userNames: seq<string>,
    userAttributes: seq<seq<string>>,
    userInstructions: string,
    convLen: int,
    historyCtxLen: int,
    moderatorName: Option<string>,
    moderatorAttributes: Option<seq<string>>,
    moderatorInstructions: Option<string>)

  /** The AssertionError message of `__post_init__`. */
  const MismatchMessage: string := "Number of actor names and actor attribute lists must be the same"

  predicate WellFormed(d: LegacyConvData) {
    |d.userNames| == |d.userAttributes|
  }

  /** Constructing `LLMConvData`: the record, or the assertion failure of `__post_init__`. */
  function MakeLegacyConvData(d: LegacyConvData): (r: Result<LegacyConvData, string>)
    ensures r.Success? <==> |d.userNames| == |d.userAttributes|
    ensures r.Success? ==> r.value == d && WellFormed(r.value)
    ensures r.Failure? ==> r.error == MismatchMessage
  {
    if |d.userNames| == |d.userAttributes| then Success(d) else Failure(MismatchMessage)
  }

  const UserRole: string := "chat user"
  const ModeratorRole: string := "chat moderator"

  /** Why the legacy `LLMConvGenerator.__init__` fails, in the order it checks. */
  datatype LegacyGeneratorError = NoUserModel | NoModeratorModel

  /** The ValueError `collections.deque` raises for a negative `maxlen`. */
  const NegativeMaxlenMessage: string := "maxlen must be non-negative"

  /** User `i` of a produced conversation: role "chat user", the i-th name and attributes, the shared context and instructions. */
  function LegacyUser(d: LegacyConvData, model: Oracle, i: nat): (a: LegacyActor)
    requires WellFormed(d) && i < |d.userNames|
    ensures a.model == model && a.name == d.userNames[i] && a.role == UserRole
    ensures a.attributes == Some(d.userAttributes[i]) && a.context == d.context
    ensures a.instructions == Some(d.userInstructions)
  {
    LegacyActor(model, d.userNames[i], UserRole, Some(d.userAttributes[i]), d.context, Some(d.userInstructions))
  }

  /** The `user_list`, one actor per name in order. */
  function LegacyUsers(d: LegacyConvData, model: Oracle): (users: seq<LegacyActor>)
    requires WellFormed(d)
    ensures |users| == |d.userNames|
    ensures forall i | 0 <= i < |users| :: users[i] == LegacyUser(d, model, i)
  {
    seq(|d.userNames|, i requires 0 <= i < |d.userNames| => LegacyUser(d, model, i))
  }

  /**
   * The moderator: present exactly when a name is configured, with role
   * "chat moderator" and the configured attributes and instructions passed
   * through even when they are None.
   */
  function LegacyModerator(d: LegacyConvData, moderatorModel: Option<Oracle>): (m: Option<LegacyActor>)
    requires d.moderatorName.Some? ==> moderatorModel.Some?
    ensures m.Some? <==> d.moderatorName.Some?
    ensures m.Some? ==>
      && m.value.name == d.moderatorName.value && m.value.role == ModeratorRole
      && m.value.model == moderatorModel.value && m.value.context == d.context
      && m.value.attributes == d.moderatorAttributes && m.value.instructions == d.moderatorInstructions
  {
    if d.moderatorName.Some? then
      Some(LegacyActor(moderatorModel.value, d.moderatorName.value, ModeratorRole, d.moderatorAttributes, d.context,
                       d.moderatorInstructions))
    else None
  }

  /** `LLMConvGenerator` of src/lib/conversation.py. */
  class LegacyGenerator {
    const userModel: Oracle
    const moderatorModel: Option<Oracle>
    const data: LegacyConvData
    const fill: Wrapper
    const speech: Speech

    /** What `__init__` establishes: checked data and a moderator model whenever a moderator is named. */
    ghost predicate Valid() {
      WellFormed(data) && (data.moderatorName.Some? ==> moderatorModel.Some?)
    }

    constructor (data: LegacyConvData, userModel: Oracle, moderatorModel: Option<Oracle>, fill: Wrapper,
                 speech: Speech)
      ensures this.data == data && this.userModel == userModel && this.moderatorModel == moderatorModel
      ensures this.fill == fill && this.speech == speech
    {
      this.data := data;
      this.userModel := userModel;
      this.moderatorModel := moderatorModel;
      this.fill := fill;
      this.speech := speech;
    }

    /** The append loop of `produce_conversation`. */
    method BuildUserList() returns (userList: seq<LegacyActor>)
      requires WellFormed(data)
      ensures userList == LegacyUsers(data, userModel)
    {
      userList := [];
      var i := 0;
      while i < |data.userNames|
        invariant 0 <= i <= |data.userNames|
        invariant |userList| == i
        invariant forall j | 0 <= j < i :: userList[j] == LegacyUser(data, userModel, j)
      {
        userList := userList + [LegacyActor(userModel, data.userNames[i], UserRole, Some(data.userAttributes[i]),
                                            data.context, Some(data.userInstructions))];
        i := i + 1;
      }
    }

    /** `produce_conversation`: the users in order, the moderator iff named, `history_ctx_len` and `conv_len` unchanged. */
    method ProduceConversation() returns (r: Result<LegacyConv, string>)
      requires Valid()
      ensures r.Success? <==> data.historyCtxLen >= 0
      ensures r.Failure? ==> r.error == NegativeMaxlenMessage
      ensures r.Success? ==>
        var c := r.value;
        && fresh(c) && c.Valid()
        && c.users == LegacyUsers(data, userModel) && c.moderator == LegacyModerator(data, moderatorModel)
        && c.historyContextLen == data.historyCtxLen && c.convLen == data.convLen
        && c.fill == fill && c.speech == speech && c.convLogs == [] && c.ctxHistory == []
    {
      var userList := BuildUserList();
      var moderator: Option<LegacyActor>;
      if data.moderatorName.Some? {
        moderator := Some(LegacyActor(moderatorModel.value, data.moderatorName.value, ModeratorRole,
                                      data.moderatorAttributes, data.context, data.moderatorInstructions));
      } else {
        moderator := None;
      }
      if data.historyCtxLen < 0 {
        return Failure(NegativeMaxlenMessage);
      }
      var c := new LegacyConv(userList, moderator, data.historyCtxLen, data.convLen, fill, speech);
      return Success(c);
    }
  }

  /** The legacy `LLMConvGenerator.__init__`: a user model is required, and a named moderator needs a model. */
  method NewLegacyGenerator(data: LegacyConvData, userModel: Option<Oracle>, moderatorModel: Option<Oracle>,
                            fill: Wrapper, speech: Speech)
    returns (r: Result<LegacyGenerator, LegacyGeneratorError>)
    requires WellFormed(data)
    ensures r.Success? <==> userModel.Some? && (data.moderatorName.Some? ==> moderatorModel.Some?)
    ensures userModel.None? ==> r == Failure(NoUserModel)
    ensures userModel.Some? && data.moderatorName.Some? && moderatorModel.None? ==> r == Failure(NoModeratorModel)
    ensures r.Success? ==>
      var g := r.value;
      && fresh(g) && g.Valid() && g.data == data && g.userModel == userModel.value
      && g.moderatorModel == moderatorModel && g.fill == fill && g.speech == speech
  {
    if userModel.None? {
      return Failure(NoUserModel);
    }
    if moderatorModel.None? && data.moderatorName.Some? {
      return Failure(NoModeratorModel);
    }
    var g := new LegacyGenerator(data, userModel.value, moderatorModel, fill, speech);
    return Success(g);
  }
}
