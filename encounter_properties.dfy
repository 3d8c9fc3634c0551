/** What a whole encounter guarantees, stated over the specification
    functions of module Roguelite: the invariant of every reachable state, the
    accounting of draws, power and hp over any run of presses, the length of
    an encounter, and the outcome of the two pure strategies. */
module EncounterProperties {
  import opened Mulberry32
  import opened Roguelite

  /** `n` presses of the same button. */
  function Repeat(c: Choice, n: nat): (cs: seq<Choice>)
    ensures |cs| == n && forall i :: 0 <= i < n ==> cs[i] == c
  {
    if n == 0 then [] else [c] + Repeat(c, n - 1)
  }

  /** One press, in any state: the seed advances by one draw unless the press
      is a rest; one entry recording the press and the room is appended;
      power rises by 0 to 2; maxHp and the boss's power stay; hp <= maxHp is
      kept, with hp falling by at most 3; and the death screen shows exactly
      when hp <= 0. */
  lemma StepAccounting(draw: bv32 -> Word, g: Game, c: Choice)
    ensures var r := Step(draw, g, c);
      && r.seed == Advanced(g.seed, if c == Rest then 0 else 1)
      && |r.log| == |g.log| + 1 && r.log[..|g.log|] == g.log
      && ChoiceOf(r.log[|g.log|]) == c && r.log[|g.log|].room == g.room
      && g.power <= r.power <= g.power + 2
      && r.maxHp == g.maxHp && r.bossPower == g.bossPower
      && (g.hp <= g.maxHp ==> r.hp <= r.maxHp && g.hp - 3 <= r.hp)
      && (r.status == Died <==> r.hp <= 0)
  {
    var acted := match c
      case Fight => FightAction(draw, g)
      case Rest => RestAction(g)
      case Treasure => TreasureAction(draw, g);
    var r := EnterNextRoom(acted);
    assert Step(draw, g, c) == r;
    assert acted.log == g.log + [acted.log[|g.log|]];
    assert r.log[..|g.log|] == g.log;
    assert Advanced(g.seed, 1) == Advance(g.seed);
  }

  /** Over any run of presses the generator makes exactly one draw per fight
      or treasure and none per rest. */
  lemma {:induction false} PlayDraws(draw: bv32 -> Word, g: Game, cs: seq<Choice>)
    ensures Play(draw, g, cs).seed == Advanced(g.seed, Draws(cs))
    decreases |cs|
  {
    if cs != [] {
      StepAccounting(draw, g, cs[0]);
      PlayDraws(draw, Step(draw, g, cs[0]), cs[1..]);
      AdvancedAdds(g.seed, if cs[0] == Rest then 0 else 1, Draws(cs[1..]));
    }
  }

  /** Over any run of presses the log keeps what it held and gains one entry
      per press, in the order of the presses, each recording its press. */
  lemma {:induction false} PlayLog(draw: bv32 -> Word, g: Game, cs: seq<Choice>)
    ensures var r := Play(draw, g, cs);
      && |r.log| == |g.log| + |cs| && r.log[..|g.log|] == g.log
      && (forall i :: 0 <= i < |cs| ==> ChoiceOf(r.log[|g.log| + i]) == cs[i])
    decreases |cs|
  {
    if cs != [] {
      var next := Step(draw, g, cs[0]);
      var r := Play(draw, next, cs[1..]);
      StepAccounting(draw, g, cs[0]);
      PlayLog(draw, next, cs[1..]);
      assert r.log[..|g.log|] == r.log[..|next.log|][..|g.log|];
      forall i | 0 <= i < |cs|
        ensures ChoiceOf(r.log[|g.log| + i]) == cs[i]
      {
        if i == 0 {
          assert r.log[|g.log|] == r.log[..|next.log|][|g.log|];
        } else {
          assert r.log[|g.log| + i] == r.log[|next.log| + (i - 1)];
        }
      }
    }
  }

  /** Over any run of presses power never falls and rises by at most two a
      press; maxHp and the boss's power never change; hp <= maxHp is kept,
      and then hp falls by at most three a press; and after at least one
      press the death screen shows exactly when hp <= 0. */
  lemma {:induction false} PlayBounds(draw: bv32 -> Word, g: Game, cs: seq<Choice>)
    ensures var r := Play(draw, g, cs);
      && g.power <= r.power <= g.power + 2 * |cs|
      && r.maxHp == g.maxHp && r.bossPower == g.bossPower
      && (g.hp <= g.maxHp ==> r.hp <= r.maxHp && g.hp - 3 * |cs| <= r.hp)
      && (cs != [] ==> (r.status == Died <==> r.hp <= 0))
    decreases |cs|
  {
    if cs != [] {
      var next := Step(draw, g, cs[0]);
      StepAccounting(draw, g, cs[0]);
      PlayBounds(draw, next, cs[1..]);
    }
  }

  /** A run of presses made while the room view shows keeps the invariant,
      and there are at most as many of them as rooms left to play. */
  lemma {:induction false} PlayConsistent(draw: bv32 -> Word, g: Game, cs: seq<Choice>)
    requires Consistent(g) && ActiveThroughout(draw, g, cs)
    ensures Consistent(Play(draw, g, cs))
    ensures |cs| <= LastRoom + 1 - g.room
    decreases |cs|
  {
    if cs != [] {
      var next := Step(draw, g, cs[0]);
      StepKeepsConsistent(draw, g, cs[0]);
      PlayConsistent(draw, next, cs[1..]);
      if next.status == Died {
        assert cs[1..] == [];
      } else {
        assert next.room == g.room + 1;
      }
    }
  }

  /** Every state an encounter reaches when each press is made from the room
      view: hp <= maxHp, the room lies in 1..11, the screen agrees with hp,
      room and power, the log holds one entry per room played, numbered in
      order; and the generator has made the three set-up draws plus one per
      fight or treasure. */
  lemma EncounterInvariant(draw: bv32 -> Word, seed: int, cs: seq<Choice>)
    requires ActiveThroughout(draw, Start(draw, seed), cs)
    ensures var r := Play(draw, Start(draw, seed), cs);
      && Consistent(r)
      && r.hp <= r.maxHp && 1 <= r.room <= LastRoom + 1
      && r.seed == Advanced(Reduce(seed), 3 + Draws(cs))
  {
    var g := Start(draw, seed);
    PlayConsistent(draw, g, cs);
    PlayDraws(draw, g, cs);
    AdvancedAdds(Reduce(seed), 3, Draws(cs));
  }

  /** An encounter played from the room view lasts at most ten presses, and
      after the tenth the game is over. */
  lemma EncounterLength(draw: bv32 -> Word, seed: int, cs: seq<Choice>)
    requires ActiveThroughout(draw, Start(draw, seed), cs)
    ensures |cs| <= LastRoom
    ensures |cs| == LastRoom ==> Play(draw, Start(draw, seed), cs).status != Active
  {
    var g := Start(draw, seed);
    var r := Play(draw, g, cs);
    PlayConsistent(draw, g, cs);
    PlayLog(draw, g, cs);
    assert |r.log| == |cs|;
  }

  /** Starting hp is at least 8 and a press costs at most 3, so nobody dies
      in the first two rooms. */
  lemma NoDeathInFirstTwoRooms(draw: bv32 -> Word, seed: int, cs: seq<Choice>)
    requires |cs| <= 2
    ensures Play(draw, Start(draw, seed), cs).status != Died
  {
    PlayBounds(draw, Start(draw, seed), cs);
  }

  /** startGame(42) with the generator of roguelite.js: 11 hp (also the
      maximum), 1 power and a boss of power 12. */
  lemma StartWithSeed42()
    ensures var g := Start(Draw, 42);
      g.hp == 11 && g.maxHp == 11 && g.power == 1 && g.bossPower == 12
  {
    DrawsFromSeed42();
    StartFromDraws(Draw, 42, 2581720956, 1925393290, 3661312704);
    ScaledSeed42Draws();
  }

  /** The three set-up draws of seed 42 scaled into their ranges. */
  lemma ScaledSeed42Draws()
    ensures Scale(2581720956, 8, 12) == 11
    ensures Scale(1925393290, 0, 2) == 1
    ensures Scale(3661312704, 8, 12) == 12
  {
  }

  /** The set-up of Start read off its three draws. */
  lemma StartFromDraws(draw: bv32 -> Word, seed: int, u0: Word, u1: Word, u2: Word)
    requires draw(Advanced(Reduce(seed), 0)) == u0
    requires draw(Advanced(Reduce(seed), 1)) == u1
    requires draw(Advanced(Reduce(seed), 2)) == u2
    ensures var g := Start(draw, seed);
      g.hp == Scale(u0, 8, 12) && g.maxHp == g.hp
      && g.power == Scale(u1, 0, 2) && g.bossPower == Scale(u2, 8, 12)
  {
  }

  /** Integer seeds that agree modulo 2^32 play identically. */
  lemma SameSeedSamePlay(draw: bv32 -> Word, a: int, b: int, cs: seq<Choice>)
    requires a % Modulus == b % Modulus
    ensures Play(draw, Start(draw, a), cs) == Play(draw, Start(draw, b), cs)
  {
    SameGenerator(a, b);
  }

  /** Resting from a live state up to the boss keeps hp positive and power
      unchanged, so the boss check sees the power the run started with. */
  lemma {:induction false} RestUntilBoss(draw: bv32 -> Word, g: Game, n: nat)
    requires 0 < g.hp <= g.maxHp && 1 <= n && g.room + n == LastRoom + 1
    ensures Play(draw, g, Repeat(Rest, n)).status == BossVerdict(g.power, g.bossPower)
    decreases n
  {
    var next := Step(draw, g, Rest);
    assert Repeat(Rest, n)[1..] == Repeat(Rest, n - 1);
    if n > 1 {
      RestUntilBoss(draw, next, n - 1);
    }
  }

  /** Resting in every room never wins: power stays at most 2 and the boss
      needs at least 8. */
  lemma RestingNeverWins(draw: bv32 -> Word, seed: int)
    ensures Play(draw, Start(draw, seed), Repeat(Rest, LastRoom)).status == Lost
  {
    RestUntilBoss(draw, Start(draw, seed), LastRoom);
  }

  /** Each fight costs at least one hp and gives exactly one power. */
  lemma {:induction false} FightsAccounting(draw: bv32 -> Word, g: Game, n: nat)
    ensures Play(draw, g, Repeat(Fight, n)).power == g.power + n
    ensures Play(draw, g, Repeat(Fight, n)).hp <= g.hp - n
    decreases n
  {
    if n > 0 {
      assert Repeat(Fight, n)[1..] == Repeat(Fight, n - 1);
      FightsAccounting(draw, Step(draw, g, Fight), n - 1);
    }
  }

  /** Fighting from a live state up to the boss: whoever is still alive at the
      end meets the boss with n more power; anyone else has died. */
  lemma {:induction false} FightUntilBoss(draw: bv32 -> Word, g: Game, n: nat)
    requires 0 < g.hp && 1 <= n && g.room + n == LastRoom + 1
    ensures var r := Play(draw, g, Repeat(Fight, n));
      && (r.hp > 0 ==> r.status == BossVerdict(g.power + n, g.bossPower))
      && (r.hp <= 0 ==> r.status == Died)
    decreases n
  {
    var cs := Repeat(Fight, n);
    var next := Step(draw, g, Fight);
    assert cs[1..] == Repeat(Fight, n - 1);
    PlayBounds(draw, g, cs);
    FightsAccounting(draw, next, n - 1);
    if n > 1 && next.hp > 0 {
      FightUntilBoss(draw, next, n - 1);
    }
  }

  /** Fighting in every room: the encounter ends with ten more power than it
      started with, and is won exactly when the player is still alive and that
      power reaches the boss's. */
  lemma FightingEveryRoom(draw: bv32 -> Word, seed: int)
    ensures var g := Start(draw, seed);
      var r := Play(draw, g, Repeat(Fight, LastRoom));
      && r.power == g.power + LastRoom
      && (r.status == Won <==> r.hp > 0 && g.power + LastRoom >= g.bossPower)
      && (r.status == Died <==> r.hp <= 0)
  {
    FightsAccounting(draw, Start(draw, seed), LastRoom);
    FightUntilBoss(draw, Start(draw, seed), LastRoom);
  }
}
