/**
 * The conversation loop (src/sdl/conversation.py): each turn the turn manager
 * names a speaker, that user speaks to the bounded history window, the
 * formatted reply is archived, and a moderator, when there is one, answers it.
 */
module Conversation {
  import opened Wrappers
  import opened Text
  import opened Window
  import opened Util
  import opened Actors
  import TurnManager

  /** A transcript entry: the speaker's name and the formatted message. */
  type Entry = (string, string)

  /** The message column of a transcript. */
  function Responses(logs: seq<Entry>): (r: seq<string>)
    ensures |r| == |logs| && forall i | 0 <= i < |logs| :: r[i] == logs[i].1
  {
    seq(|logs|, i requires 0 <= i < |logs| => logs[i].1)
  }

  lemma ResponsesSnoc(logs: seq<Entry>, e: Entry)
    ensures Responses(logs + [e]) == Responses(logs) + [e.1]
  {
    assert Responses(logs + [e]) == Responses(logs) + [e.1];
  }

  /** Every actor files under its own name. */
  ghost predicate NamesMatch(users: map<string, Actor>) {
    forall n | n in users :: users[n].name == n
  }

  /**
   * `{user.get_name(): user for user in users}`: every user is reachable by
   * name, every key is some user's name and files an actor of that name.
   */
  function UsersByName(users: seq<Actor>): (m: map<string, Actor>)
    ensures forall i | 0 <= i < |users| :: users[i].name in m
    ensures forall n | n in m :: exists i | 0 <= i < |users| :: users[i].name == n
    ensures NamesMatch(m)
  {
    if users == [] then map[]
    else
      var m0 := UsersByName(users[..|users| - 1]);
      UsersByNameStep(users, m0);
      m0[users[|users| - 1].name := users[|users| - 1]]
  }

  /** Adding the last user to the dictionary of the others keeps the three properties above. */
  lemma UsersByNameStep(users: seq<Actor>, m0: map<string, Actor>)
    requires users != []
    requires forall i | 0 <= i < |users| - 1 :: users[i].name in m0
    requires forall n | n in m0 :: exists i | 0 <= i < |users| - 1 :: users[i].name == n
    requires NamesMatch(m0)
    ensures var m := m0[users[|users| - 1].name := users[|users| - 1]];
      && (forall i | 0 <= i < |users| :: users[i].name in m)
      && (forall n | n in m :: exists i | 0 <= i < |users| :: users[i].name == n)
      && NamesMatch(m)
  {
  }

  /** Of several users sharing a name, the dictionary keeps the last one. */
  lemma {:induction false} UsersByNameLastWins(users: seq<Actor>, i: nat)
    requires i < |users| && forall j | i < j < |users| :: users[j].name != users[i].name
    ensures UsersByName(users)[users[i].name] == users[i]
  {
    if i < |users| - 1 {
      var init := users[..|users| - 1];
      assert forall j | i < j < |init| :: init[j] == users[j];
      UsersByNameLastWins(init, i);
    }
  }

  /** How an actor's formatted reply to a history window is produced. */
  type Responder = (Actor, seq<string>) -> string

  /**
   * What stays fixed while a conversation runs. The run is described for any
   * responder; the class below instantiates it with `Respond` over its `fill`.
   */
  datatype Cast = Cast(users: map<string, Actor>, moderator: Option<Actor>, respond: Responder, cap: nat)

  /** The transcript and the history window. */
  datatype Record = Record(logs: seq<Entry>, window: seq<string>)

  datatype RunError = AlreadyConcluded | RosterExhausted | UnknownSpeaker(name: string)

  /** Where a run left the record and the turn manager, and the error that stopped it, if any. */
  datatype Run = Run(record: Record, turns: nat, error: Option<RunError>)

  /** Number of iterations of `range(conv_len)`. */
  function Turns(convLen: int): nat {
    if convLen < 0 then 0 else convLen
  }

  /** Transcript entries produced by `k` completed turns. */
  function Span(c: Cast, k: nat): nat {
    if c.moderator.Some? then 2 * k else k
  }

  /** `_actor_turn`: the actor speaks to the window and its reply is formatted; the result is never blank. */
  function Respond(fill: Wrapper, actor: Actor, window: seq<string>): (r: string)
    ensures |Strip(r)| != 0
  {
    FormatChatMessage(fill, actor.name, Speak(actor, window))
  }

  /** `_archive_response`. */
  function Archive(r: Record, name: string, response: string, cap: nat): Record {
    Record(r.logs + [(name, response)], Push(r.window, response, cap))
  }

  /**
   * What one iteration of the loop does for speaker `name`: the reply is
   * archived and, with a moderator, so is the moderator's answer. The loop
   * tests the formatted reply for blankness first; `Respond` never is blank,
   * so the loop proves that the test always passes and every turn is archived.
   */
  function UserTurn(c: Cast, name: string, r: Record): Record
    requires name in c.users
  {
    var r1 := Archive(r, name, c.respond(c.users[name], r.window), c.cap);
    match c.moderator
    case None => r1
    case Some(m) => Archive(r1, m.name, c.respond(m, r1.window), c.cap)
  }

  /** `n` more turns of `begin_conversation`, with the turn manager at call number `turn`. */
  function Play(c: Cast, roster: seq<string>, turn: nat, n: nat, r: Record): Run
    decreases n
  {
    if n == 0 then Run(r, turn, None)
    else if roster == [] then Run(r, turn, Some(RosterExhausted))
    else
      var name := TurnManager.CycleAt(roster, turn);
      if name !in c.users then Run(r, turn + 1, Some(UnknownSpeaker(name)))
      else Play(c, roster, turn + 1, n - 1, UserTurn(c, name, r))
  }

  /** The deque after every message of `logs` was appended to an empty one of capacity `cap`. */
  function WindowOf(cap: nat, logs: seq<Entry>): seq<string> {
    if logs == [] then [] else Push(WindowOf(cap, logs[..|logs| - 1]), logs[|logs| - 1].1, cap)
  }

  lemma WindowOfSnoc(cap: nat, logs: seq<Entry>, e: Entry)
    ensures WindowOf(cap, logs + [e]) == Push(WindowOf(cap, logs), e.1, cap)
  {
    assert (logs + [e])[..|logs|] == logs;
  }

  /** The deque holds the latest `min(cap, |logs|)` messages of the transcript. */
  lemma {:induction false} WindowOfIsLast(cap: nat, logs: seq<Entry>)
    ensures WindowOf(cap, logs) == Last(cap, Responses(logs))
  {
    if logs != [] {
      var init := logs[..|logs| - 1];
      var e := logs[|logs| - 1];
      assert logs == init + [e];
      WindowOfIsLast(cap, init);
      ResponsesSnoc(init, e);
      PushLast(cap, Responses(init), e.1);
      calc {
        WindowOf(cap, logs);
        Push(WindowOf(cap, init), e.1, cap);
        Push(Last(cap, Responses(init)), e.1, cap);
        Last(cap, Responses(init) + [e.1]);
      }
    }
  }

  /** The window is the deque of the transcript's messages. */
  ghost predicate WindowIsSuffix(cap: nat, r: Record) {
    r.window == WindowOf(cap, r.logs)
  }

  /** Entry `i` is `actor`'s formatted reply to the window made of the entries before it. */
  ghost predicate Spoke(c: Cast, logs: seq<Entry>, i: nat, actor: Actor) {
    i < |logs| && logs[i] == (actor.name, c.respond(actor, WindowOf(c.cap, logs[..i])))
  }

  /** The window an entry answers holds the latest `min(cap, i)` messages before it. */
  lemma SpokeToLast(c: Cast, logs: seq<Entry>, i: nat, actor: Actor)
    requires i < |logs|
    ensures Spoke(c, logs, i, actor) <==> logs[i] == (actor.name, c.respond(actor, Last(c.cap, Responses(logs[..i]))))
  {
    WindowOfIsLast(c.cap, logs[..i]);
  }

  /** Turn `k` of a run that started at call `t` of the turn manager and transcript length `base`. */
  ghost predicate TurnAt(c: Cast, roster: seq<string>, t: nat, logs: seq<Entry>, base: nat, k: nat)
    requires roster != []
  {
    var name := TurnManager.CycleAt(roster, t + k);
    var i := base + Span(c, k);
    && name in c.users
    && Spoke(c, logs, i, c.users[name])
    && (c.moderator.Some? ==> Spoke(c, logs, i + 1, c.moderator.value))
  }

  lemma SpokeExtends(c: Cast, logs: seq<Entry>, more: seq<Entry>, i: nat, actor: Actor)
    requires Spoke(c, logs, i, actor) && |logs| <= |more| && more[..|logs|] == logs
    ensures Spoke(c, more, i, actor)
  {
    assert more[..i] == logs[..i];
    assert more[i] == logs[i];
  }

  lemma {:induction false} ArchiveKeepsSuffix(r: Record, name: string, response: string, cap: nat)
    requires WindowIsSuffix(cap, r)
    ensures WindowIsSuffix(cap, Archive(r, name, response, cap))
  {
    WindowOfSnoc(cap, r.logs, (name, response));
  }

  /** One turn archives the speaker's reply and, with a moderator, the moderator's answer to it. */
  lemma {:induction false} UserTurnShape(c: Cast, name: string, r: Record)
    requires name in c.users && NamesMatch(c.users) && WindowIsSuffix(c.cap, r)
    ensures var r1 := UserTurn(c, name, r);
      && WindowIsSuffix(c.cap, r1)
      && |r1.logs| == |r.logs| + Span(c, 1)
      && r1.logs[..|r.logs|] == r.logs
      && Spoke(c, r1.logs, |r.logs|, c.users[name])
      && (c.moderator.Some? ==> Spoke(c, r1.logs, |r.logs| + 1, c.moderator.value))
  {
    var res := c.respond(c.users[name], r.window);
    var r1 := Archive(r, name, res, c.cap);
    ArchiveKeepsSuffix(r, name, res, c.cap);
    assert r1.logs[..|r.logs|] == r.logs;
    assert Spoke(c, r1.logs, |r.logs|, c.users[name]);
    match c.moderator
    case None =>
    case Some(m) =>
      var res2 := c.respond(m, r1.window);
      var r2 := Archive(r1, m.name, res2, c.cap);
      ArchiveKeepsSuffix(r1, m.name, res2, c.cap);
      assert r2.logs[..|r1.logs|] == r1.logs;
      assert r2.logs[..|r.logs|] == r.logs;
      SpokeExtends(c, r1.logs, r2.logs, |r.logs|, c.users[name]);
      assert Spoke(c, r2.logs, |r.logs| + 1, m);
  }

  /** One iteration of a run: the three outcomes of a turn. */
  lemma PlayStep(c: Cast, roster: seq<string>, t: nat, n: nat, r: Record)
    requires n > 0
    ensures roster == [] ==> Play(c, roster, t, n, r) == Run(r, t, Some(RosterExhausted))
    ensures roster != [] && TurnManager.CycleAt(roster, t) !in c.users ==>
      Play(c, roster, t, n, r) == Run(r, t + 1, Some(UnknownSpeaker(TurnManager.CycleAt(roster, t))))
    ensures roster != [] && TurnManager.CycleAt(roster, t) in c.users ==>
      Play(c, roster, t, n, r) == Play(c, roster, t + 1, n - 1, UserTurn(c, TurnManager.CycleAt(roster, t), r))
  {
  }

  /** A run never reports the re-run error: that one is raised before the loop. */
  lemma {:induction false} PlayNeverConcluded(c: Cast, roster: seq<string>, t: nat, n: nat, r: Record)
    ensures Play(c, roster, t, n, r).error != Some(AlreadyConcluded)
    decreases n
  {
    if n > 0 && roster != [] && TurnManager.CycleAt(roster, t) in c.users {
      PlayNeverConcluded(c, roster, t + 1, n - 1, UserTurn(c, TurnManager.CycleAt(roster, t), r));
    }
  }

  /** Every turn keeps the window equal to the transcript's latest messages. */
  lemma {:induction false} PlayKeepsSuffix(c: Cast, roster: seq<string>, t: nat, n: nat, r: Record)
    requires NamesMatch(c.users) && WindowIsSuffix(c.cap, r)
    ensures WindowIsSuffix(c.cap, Play(c, roster, t, n, r).record)
    decreases n
  {
    if n > 0 && roster != [] && TurnManager.CycleAt(roster, t) in c.users {
      var name := TurnManager.CycleAt(roster, t);
      UserTurnShape(c, name, r);
      PlayKeepsSuffix(c, roster, t + 1, n - 1, UserTurn(c, name, r));
    }
  }

  /** A speaker the roster proposes but the users dictionary lacks is a KeyError naming that speaker. */
  lemma {:induction false} PlayUnknownSpeaker(c: Cast, roster: seq<string>, t: nat, n: nat, r: Record, x: string)
    requires Play(c, roster, t, n, r).error == Some(UnknownSpeaker(x))
    ensures x in roster && x !in c.users
    decreases n
  {
    if n > 0 && roster != [] && TurnManager.CycleAt(roster, t) in c.users {
      PlayUnknownSpeaker(c, roster, t + 1, n - 1, UserTurn(c, TurnManager.CycleAt(roster, t), r), x);
    }
  }

  /** A roster whose names all resolve runs every turn, and the turn manager advances once per turn. */
  lemma {:induction false} PlayCompletes(c: Cast, roster: seq<string>, t: nat, n: nat, r: Record)
    requires forall x | x in roster :: x in c.users
    requires roster != [] || n == 0
    ensures Play(c, roster, t, n, r).error == None
    ensures Play(c, roster, t, n, r).turns == t + n
    decreases n
  {
    if n > 0 {
      PlayCompletes(c, roster, t + 1, n - 1, UserTurn(c, TurnManager.CycleAt(roster, t), r));
    }
  }

  /** A completed run appends `Span(c, n)` entries and leaves the earlier ones untouched. */
  lemma {:induction false} PlayLength(c: Cast, roster: seq<string>, t: nat, n: nat, r: Record)
    requires NamesMatch(c.users) && WindowIsSuffix(c.cap, r)
    requires Play(c, roster, t, n, r).error == None
    ensures var out := Play(c, roster, t, n, r).record.logs;
      && |out| == |r.logs| + Span(c, n)
      && out[..|r.logs|] == r.logs
      && (n > 0 ==> roster != [] && TurnManager.CycleAt(roster, t) in c.users)
    decreases n
  {
    if n > 0 {
      var name := TurnManager.CycleAt(roster, t);
      var r1 := UserTurn(c, name, r);
      UserTurnShape(c, name, r);
      PlayLength(c, roster, t + 1, n - 1, r1);
      var out := Play(c, roster, t + 1, n - 1, r1).record.logs;
      assert out[..|r1.logs|][..|r.logs|] == out[..|r.logs|];
    }
  }

  /** In a completed run, turn `k` is the cycle's k-th name answering its window, then the moderator. */
  lemma {:induction false} PlayTurnsAt(c: Cast, roster: seq<string>, t: nat, n: nat, r: Record)
    requires NamesMatch(c.users) && WindowIsSuffix(c.cap, r)
    requires Play(c, roster, t, n, r).error == None
    requires n > 0
    ensures roster != []
    ensures forall k | 0 <= k < n :: TurnAt(c, roster, t, Play(c, roster, t, n, r).record.logs, |r.logs|, k)
    decreases n
  {
    PlayLength(c, roster, t, n, r);
    var name := TurnManager.CycleAt(roster, t);
    var r1 := UserTurn(c, name, r);
    UserTurnShape(c, name, r);
    var out := Play(c, roster, t + 1, n - 1, r1).record.logs;
    assert Play(c, roster, t, n, r).record.logs == out;
    PlayLength(c, roster, t + 1, n - 1, r1);
    if n > 1 {
      PlayTurnsAt(c, roster, t + 1, n - 1, r1);
    }
    forall k | 0 <= k < n
      ensures TurnAt(c, roster, t, out, |r.logs|, k)
    {
      if k == 0 {
        FirstTurnAt(c, roster, t, r1.logs, out, |r.logs|);
      } else {
        TurnAtShift(c, roster, t, out, |r.logs|, k);
      }
    }
  }

  /**
   * A completed run archives every turn: `Span(c, n)` new entries, the old
   * ones untouched, and turn `k` is the k-th name of the cycle speaking to the
   * window of the entries before it, followed by the moderator when there is one.
   */
  lemma PlayTranscript(c: Cast, roster: seq<string>, t: nat, n: nat, r: Record)
    requires NamesMatch(c.users) && WindowIsSuffix(c.cap, r)
    requires Play(c, roster, t, n, r).error == None
    ensures var out := Play(c, roster, t, n, r).record.logs;
      && |out| == |r.logs| + Span(c, n)
      && out[..|r.logs|] == r.logs
      && (n > 0 ==> roster != [] && forall k | 0 <= k < n :: TurnAt(c, roster, t, out, |r.logs|, k))
  {
    PlayLength(c, roster, t, n, r);
    if n > 0 {
      PlayTurnsAt(c, roster, t, n, r);
    }
  }

  lemma FirstTurnAt(c: Cast, roster: seq<string>, t: nat, logs: seq<Entry>, out: seq<Entry>, base: nat)
    requires roster != [] && TurnManager.CycleAt(roster, t) in c.users
    requires |logs| <= |out| && out[..|logs|] == logs
    requires Spoke(c, logs, base, c.users[TurnManager.CycleAt(roster, t)])
    requires c.moderator.Some? ==> Spoke(c, logs, base + 1, c.moderator.value)
    ensures TurnAt(c, roster, t, out, base, 0)
  {
    SpokeExtends(c, logs, out, base, c.users[TurnManager.CycleAt(roster, t)]);
    if c.moderator.Some? {
      SpokeExtends(c, logs, out, base + 1, c.moderator.value);
    }
  }

  lemma TurnAtShift(c: Cast, roster: seq<string>, t: nat, out: seq<Entry>, base: nat, k: nat)
    requires roster != [] && k > 0
    requires TurnAt(c, roster, t + 1, out, base + Span(c, 1), k - 1)
    ensures TurnAt(c, roster, t, out, base, k)
  {
    assert t + 1 + (k - 1) == t + k;
    assert base + Span(c, 1) + Span(c, k - 1) == base + Span(c, k);
  }

  /** The `ctx_length` and `logs` keys of the session export (`to_dict`). */
  datatype ConversationDoc = ConversationDoc(ctxLength: int, logs: seq<Entry>)

  class Conversation {
    const nextTurnManager: TurnManager.RoundRobin
    const users: map<string, Actor>
    const moderator: Option<Actor>
    const convLen: int
    const historyContextLen: nat
    const fill: Wrapper
    var convLogs: seq<Entry>
    var ctxHistory: seq<string>
    /** How `_actor_turn` answers: `Respond` over `fill`. */
    ghost const respond: Responder

    ghost function Setting(): Cast {
      Cast(users, moderator, respond, historyContextLen)
    }

    ghost predicate Valid()
      reads this, nextTurnManager
    {
      && nextTurnManager.Valid()
      && NamesMatch(users)
      && WindowIsSuffix(historyContextLen, Record(convLogs, ctxHistory))
      && forall a: Actor, w: seq<string> {:trigger Respond(fill, a, w)} :: respond(a, w) == Respond(fill, a, w)
    }

    /** `__init__`: users keyed by name, an empty transcript and an empty deque of capacity `historyContextLen`. */
    constructor (turnManager: TurnManager.RoundRobin, users: seq<Actor>, moderator: Option<Actor>,
                 historyContextLen: nat, convLen: int, fill: Wrapper)
      requires turnManager.Valid()
      ensures Valid()
      ensures nextTurnManager == turnManager && this.users == UsersByName(users)
      ensures this.moderator == moderator && this.historyContextLen == historyContextLen
      ensures this.convLen == convLen && this.fill == fill
      ensures convLogs == [] && ctxHistory == []
    {
      nextTurnManager := turnManager;
      this.users := UsersByName(users);
      this.moderator := moderator;
      this.convLen := convLen;
      this.historyContextLen := historyContextLen;
      this.fill := fill;
      respond := (a: Actor, w: seq<string>) => Respond(fill, a, w);
      convLogs := [];
      ctxHistory := [];
    }

    /** `_actor_turn`: the actor's formatted reply to the current window. */
    method ActorTurn(actor: Actor) returns (formatted: string)
      ensures formatted == Respond(fill, actor, ctxHistory)
    {
      var res := Speak(actor, ctxHistory);
      formatted := FormatChatMessage(fill, actor.name, res);
    }

    /** `_archive_response`: the response enters both the window and the transcript. */
    method ArchiveResponse(username: string, response: string)
      modifies this
      ensures convLogs == old(convLogs) + [(username, response)]
      ensures ctxHistory == Push(old(ctxHistory), response, historyContextLen)
    {
      ctxHistory := Push(ctxHistory, response, historyContextLen);
      convLogs := convLogs + [(username, response)];
    }

    /**
     * `next(self.next_turn_manager)` followed by the lookup in `users`: the
     * turn manager's exhaustion (StopIteration) and a name the dictionary
     * lacks (KeyError) are the two ways a turn fails.
     */
    method NextSpeaker() returns (s: Result<string, RunError>)
      requires Valid()
      modifies nextTurnManager
      ensures Valid() && nextTurnManager.usernames == old(nextTurnManager.usernames)
      ensures var roster := nextTurnManager.usernames;
        var t := old(nextTurnManager.turns);
        && (roster == [] ==> s == Failure(RosterExhausted) && nextTurnManager.turns == t)
        && (roster != [] ==> nextTurnManager.turns == t + 1)
        && (roster != [] && TurnManager.CycleAt(roster, t) in users ==> s == Success(TurnManager.CycleAt(roster, t)))
        && (roster != [] && TurnManager.CycleAt(roster, t) !in users ==>
              s == Failure(UnknownSpeaker(TurnManager.CycleAt(roster, t))))
    {
      var speaker := nextTurnManager.NextTurnUsername();
      if speaker.None? {
        return Failure(RosterExhausted);
      }
      if speaker.value !in users {
        return Failure(UnknownSpeaker(speaker.value));
      }
      return Success(speaker.value);
    }

    /**
     * The body of the loop once the speaker is known: the speaker's formatted
     * reply is archived unless it is blank, and then the moderator's answer.
     */
    method TakeTurn(speakerName: string)
      requires Valid() && speakerName in users
      modifies this
      ensures Valid()
      ensures Record(convLogs, ctxHistory) == UserTurn(Setting(), speakerName, old(Record(convLogs, ctxHistory)))
    {
      ghost var before := Record(convLogs, ctxHistory);
      var res := ActorTurn(users[speakerName]);
      if |Strip(res)| != 0 {
        ArchiveResponse(speakerName, res);
        ArchiveKeepsSuffix(before, speakerName, res, historyContextLen);
        if moderator.Some? {
          ghost var mid := Record(convLogs, ctxHistory);
          res := ActorTurn(moderator.value);
          ArchiveResponse(moderator.value.name, res);
          ArchiveKeepsSuffix(mid, moderator.value.name, res, historyContextLen);
        }
      }
    }

    /**
     * One iteration of the `for` loop, with `n` iterations left: either the
     * run goes on from the new state with `n - 1` left, or it ends here with
     * the error returned.
     */
    method Turn(ghost n: nat) returns (error: Option<RunError>)
      requires Valid() && n > 0
      modifies this, nextTurnManager
      ensures Valid() && nextTurnManager.usernames == old(nextTurnManager.usernames)
      ensures var total := old(Play(Setting(), nextTurnManager.usernames, nextTurnManager.turns, n, Record(convLogs, ctxHistory)));
        && (error.None? ==> Play(Setting(), nextTurnManager.usernames, nextTurnManager.turns, n - 1, Record(convLogs, ctxHistory)) == total)
        && (error.Some? ==> Run(Record(convLogs, ctxHistory), nextTurnManager.turns, error) == total)
    {
      PlayStep(Setting(), nextTurnManager.usernames, nextTurnManager.turns, n, Record(convLogs, ctxHistory));
      var next := NextSpeaker();
      if next.Failure? {
        return Some(next.error);
      }
      TakeTurn(next.value);
      return None;
    }

    /**
     * The `for` loop of `begin_conversation`: `conv_len` turns from the
     * current state, stopping at the first turn-manager or lookup failure.
     */
    method PlayTurns() returns (error: Option<RunError>)
      requires Valid()
      modifies this, nextTurnManager
      ensures Valid()
      ensures nextTurnManager.usernames == old(nextTurnManager.usernames)
      ensures var run := Play(Setting(), old(nextTurnManager.usernames), old(nextTurnManager.turns), Turns(convLen),
                              old(Record(convLogs, ctxHistory)));
        && Record(convLogs, ctxHistory) == run.record
        && nextTurnManager.turns == run.turns && error == run.error
    {
      ghost var c := Setting();
      ghost var roster := nextTurnManager.usernames;
      ghost var total := Play(c, roster, nextTurnManager.turns, Turns(convLen), Record(convLogs, ctxHistory));
      var k := 0;
      while k < convLen
        invariant 0 <= k <= Turns(convLen)
        invariant Valid()
        invariant nextTurnManager.usernames == roster
        invariant Play(c, roster, nextTurnManager.turns, Turns(convLen) - k, Record(convLogs, ctxHistory)) == total
      {
        error := Turn(Turns(convLen) - k);
        if error.Some? {
          assert Run(Record(convLogs, ctxHistory), nextTurnManager.turns, error) == total;
          return;
        }
        k := k + 1;
      }
      assert Run(Record(convLogs, ctxHistory), nextTurnManager.turns, None) == total;
      return None;
    }

    /**
     * `begin_conversation`: refuses a used conversation (RuntimeError);
     * otherwise plays `conv_len` turns from an empty transcript.
     */
    method BeginConversation() returns (error: Option<RunError>)
      requires Valid()
      modifies this, nextTurnManager
      ensures Valid()
      ensures nextTurnManager.usernames == old(nextTurnManager.usernames)
      ensures error == Some(AlreadyConcluded) <==> old(convLogs) != []
      ensures old(convLogs) != [] ==>
        convLogs == old(convLogs) && ctxHistory == old(ctxHistory) && nextTurnManager.turns == old(nextTurnManager.turns)
      ensures old(convLogs) == [] ==>
        var run := Play(Setting(), old(nextTurnManager.usernames), old(nextTurnManager.turns), Turns(convLen), Record([], []));
        && convLogs == run.record.logs && ctxHistory == run.record.window
        && nextTurnManager.turns == run.turns && error == run.error
    {
      if |convLogs| != 0 {
        return Some(AlreadyConcluded);
      }
      assert ctxHistory == WindowOf(historyContextLen, []) == [];
      PlayNeverConcluded(Setting(), nextTurnManager.usernames, nextTurnManager.turns, Turns(convLen), Record([], []));
      error := PlayTurns();
    }

    /** The `ctx_length` and `logs` parts of `to_dict`: the window size, at most the capacity, and the transcript. */
    function ToDict(): (d: ConversationDoc)
      reads this, nextTurnManager
      requires Valid()
      ensures d.logs == convLogs
      ensures d.ctxLength == Min(historyContextLen, |convLogs|) <= historyContextLen
    {
      WindowOfIsLast(historyContextLen, convLogs);
      ConversationDoc(|ctxHistory|, convLogs)
    }
  }

  /**
   * After a run from a fresh conversation whose roster names all resolve,
   * the transcript holds exactly `conv_len` entries, or `2 * conv_len` with a
   * moderator: the blank test never drops a turn.
   */
  lemma TranscriptLength(c: Cast, roster: seq<string>, t: nat, convLen: int)
    requires NamesMatch(c.users)
    requires forall x | x in roster :: x in c.users
    requires roster != [] || convLen <= 0
    ensures var run := Play(c, roster, t, Turns(convLen), Record([], []));
      && run.error == None
      && |run.record.logs| == (if c.moderator.Some? then 2 * Turns(convLen) else Turns(convLen))
  {
    PlayCompletes(c, roster, t, Turns(convLen), Record([], []));
    PlayTranscript(c, roster, t, Turns(convLen), Record([], []));
  }

  /**
   * With a moderator the transcript alternates: the cycle's k-th name at
   * position 2k and the moderator at 2k + 1.
   */
  lemma ModeratedSpeakers(c: Cast, roster: seq<string>, t: nat, n: nat, k: nat)
    requires NamesMatch(c.users) && c.moderator.Some?
    requires forall x | x in roster :: x in c.users
    requires roster != [] && k < n
    ensures var logs := Play(c, roster, t, n, Record([], [])).record.logs;
      && 2 * k + 1 < |logs|
      && logs[2 * k].0 == TurnManager.CycleAt(roster, t + k)
      && logs[2 * k + 1].0 == c.moderator.value.name
  {
    PlayCompletes(c, roster, t, n, Record([], []));
    PlayTranscript(c, roster, t, n, Record([], []));
    var logs := Play(c, roster, t, n, Record([], [])).record.logs;
    assert TurnAt(c, roster, t, logs, 0, k);
  }

  /** Without a moderator, entry k is the cycle's k-th name, as the round-robin policy promises. */
  lemma UnmoderatedSpeakers(c: Cast, roster: seq<string>, t: nat, n: nat, k: nat)
    requires NamesMatch(c.users) && c.moderator.None?
    requires forall x | x in roster :: x in c.users
    requires roster != [] && k < n
    ensures var logs := Play(c, roster, t, n, Record([], [])).record.logs;
      && k < |logs| && logs[k].0 == roster[(t + k) % |roster|]
  {
    PlayCompletes(c, roster, t, n, Record([], []));
    PlayTranscript(c, roster, t, n, Record([], []));
    var logs := Play(c, roster, t, n, Record([], [])).record.logs;
    assert TurnAt(c, roster, t, logs, 0, k);
  }
}
