/** Turn selection: which participant speaks next (src/sdl/turn_manager.py). */
module TurnManager {
  import opened Wrappers
  import opened Text

  /** The k-th (0-based) name an endless cycle over `roster` yields. */
  function CycleAt(roster: seq<string>, k: nat): (name: string)
    requires roster != []
    ensures name in roster
  {
    roster[k % |roster|]
  }

  /**
   * `RoundRobbin`: an `itertools.cycle` over the roster given to the
   * constructor. `position` is the iterator's place in the roster; the ghost
   * `turns` counts the names handed out so far.
   */
  class RoundRobin {
    var usernames: seq<string>
    var position: nat
    ghost var turns: nat

    ghost predicate Valid()
      reads this
    {
      if usernames == [] then position == 0 else position == turns % |usernames|
    }

    constructor (usernames: seq<string>)
      ensures Valid()
      ensures this.usernames == usernames && turns == 0
    {
      this.usernames := usernames;
      position := 0;
      turns := 0;
    }

    /**
     * `next_turn_username`: the next name of the cycle. On an empty roster the
     * cycle is exhausted at once and `next` raises StopIteration (None here).
     */
    method NextTurnUsername() returns (name: Option<string>)
      requires Valid()
      modifies this
      ensures Valid()
      ensures usernames == old(usernames)
      ensures usernames == [] ==> name == None && turns == old(turns)
      ensures usernames != [] ==> name == Some(CycleAt(usernames, old(turns))) && turns == old(turns) + 1
    {
      if usernames == [] {
        return None;
      }
      ModSucc(turns, |usernames|);
      name := Some(usernames[position]);
      position := if position + 1 == |usernames| then 0 else position + 1;
      turns := turns + 1;
    }
  }

  /** The roster rotation is periodic: calls k and k + n name the same participant. */
  lemma CyclePeriodic(roster: seq<string>, k: nat)
    requires roster != []
    ensures CycleAt(roster, k + |roster|) == CycleAt(roster, k)
  {
    var n := |roster|;
    ModUnique(k + n, n, k / n + 1, k % n);
  }

  /**
   * A non-zero multiple of `n` is at least `n` away from 0. Kept apart from
   * `ModUnique`, where both cases are impossible.
   */
  lemma MulBounds(n: int, d: int)
    requires n > 0
    ensures d >= 1 ==> n * d >= n
    ensures d <= -1 ==> n * d <= -n
  {
    if d >= 1 {
      assert n * d == n + n * (d - 1);
    } else if d <= -1 {
      assert n * d == -n - n * (-d - 1);
    }
  }

  /** Euclidean division is unique: quotient and remainder are determined by `a == n * q + r`. */
  lemma ModUnique(a: int, n: int, q: int, r: int)
    requires n > 0 && 0 <= r < n && a == n * q + r
    ensures a % n == r && a / n == q
  {
    var q0, r0 := a / n, a % n;
    assert a == n * q0 + r0;
    assert n * (q - q0) == r0 - r;
    MulBounds(n, q - q0);
  }

  /** Advancing the cycle by one wraps the remainder at the end of the roster. */
  lemma ModSucc(t: nat, n: nat)
    requires n > 0
    ensures (t + 1) % n == if t % n + 1 == n then 0 else t % n + 1
  {
    if t % n + 1 == n {
      ModUnique(t + 1, n, t / n + 1, 0);
    } else {
      ModUnique(t + 1, n, t / n, t % n + 1);
    }
  }

  /** The tag `turn_manager_factory` accepts, compared after `str.lower()`. */
  const RoundRobinTag: string := "round_robbin"

  /** The factory accepts exactly the casings of "round_robbin". */
  predicate IsRoundRobinTag(tag: string) {
    ToLower(tag) == RoundRobinTag
  }

  lemma RoundRobinTagCharwise(tag: string)
    ensures IsRoundRobinTag(tag) <==>
      |tag| == |RoundRobinTag| && forall i | 0 <= i < |tag| :: LowerChar(tag[i]) == RoundRobinTag[i]
  {
    LowerMatches(tag, RoundRobinTag);
  }

  /** The ValueError message of the factory, including its missing space. */
  function UnknownTagMessage(tag: string): string {
    "There is no turn manager option called " + tag + "Valid values: round_robbin"
  }

  /** `turn_manager_factory`: a RoundRobin over `usernames` for any casing of the tag, ValueError otherwise. */
  method TurnManagerFactory(tag: string, usernames: seq<string>) returns (r: Result<RoundRobin, string>)
    ensures r.Success? <==> IsRoundRobinTag(tag)
    ensures r.Success? ==> fresh(r.value) && r.value.Valid() && r.value.usernames == usernames && r.value.turns == 0
    ensures r.Failure? ==> r.error == UnknownTagMessage(tag)
  {
    if ToLower(tag) == RoundRobinTag {
      var m := new RoundRobin(usernames);
      return Success(m);
    }
    return Failure(UnknownTagMessage(tag));
  }
}
