/** The seeded roguelite encounter of roguelite.js: ten rooms, in each of
    which the player fights, rests or opens a treasure, and a boss check after
    the tenth.

    The functions below specify each step on a snapshot of the game (the
    generator's seed plus gameState, plus which screen is showing); the class
    Encounter holds that state in fields and its methods change it as the
    source's functions do, each proved equal to its specification.

    The specification takes the generator's output as a parameter `draw`:
    draw(s) is the value next() returns (times 2^32) from a generator whose
    seed is s. The game itself always uses Mulberry32's Draw; stating the
    rules for any `draw` keeps the bit-level mixing out of the proofs about
    the rules, and those proofs hold whatever the generator. */
module Roguelite {
  import opened Mulberry32

  /** The last ordinary room; leaving it brings on the boss check. */
  const LastRoom := 10

  /** The three buttons of the room view. */
  datatype Choice = Fight | Rest | Treasure

  /** One object pushed onto gameState.log, one shape per outcome. */
  datatype LogEntry =
    | Fought(room: int, hpLoss: int, powerGain: int)
    | Rested(room: int, hpGain: int)
    | TreasureSuccess(room: int, powerGain: int)
    | TreasureFailure(room: int, hpLoss: int)

  /** The choice a log entry records. */
  function ChoiceOf(e: LogEntry): Choice {
    match e
    case Fought(_, _, _) => Fight
    case Rested(_, _) => Rest
    case TreasureSuccess(_, _) => Treasure
    case TreasureFailure(_, _) => Treasure
  }

  /** Which screen is showing: the room view (renderGame) or one of the three
      messages of showGameOver: "You Died", "You Win!", "You Lose!". */
  datatype Status = Active | Died | Won | Lost

  /** The generator's seed together with the fields of gameState. */
  datatype Game = Game(
    seed: bv32,
    hp: int,
    maxHp: int,
    power: int,
    room: int,
    log: seq<LogEntry>,
    bossPower: int,
    status: Status)

  function Min(a: int, b: int): int {
    if a <= b then a else b
  }

  /** startGame(seed): a fresh generator and three draws, in this order, for
      the starting hp (also maxHp), the power and the boss's power. */
  function Start(draw: bv32 -> Word, seed: int): (g: Game)
    ensures g.hp == Scale(draw(Advanced(Reduce(seed), 0)), 8, 12)
    ensures g.power == Scale(draw(Advanced(Reduce(seed), 1)), 0, 2)
    ensures g.bossPower == Scale(draw(Advanced(Reduce(seed), 2)), 8, 12)
    ensures g.seed == Advanced(Reduce(seed), 3)
    ensures 8 <= g.hp <= 12 && g.maxHp == g.hp
    ensures 0 <= g.power <= 2 && 8 <= g.bossPower <= 12
    ensures g.room == 1 && g.log == [] && g.status == Active
  {
    var s0 := Reduce(seed);
    var startHp := Scale(draw(s0), 8, 12);
    var s1 := Advance(s0);
    var power := Scale(draw(s1), 0, 2);
    var s2 := Advance(s1);
    var bossPower := Scale(draw(s2), 8, 12);
    assert Advanced(s0, 1) == s1;
    assert Advanced(s0, 2) == s2;
    assert Advanced(s0, 3) == Advance(s2);
    Game(Advance(s2), startHp, startHp, power, 1, [], bossPower, Active)
  }

  /** The three set-up draws of Start, one generator step apart. */
  lemma StartDraws(draw: bv32 -> Word, seed: int)
    ensures var s0 := Reduce(seed);
      var s1 := Advance(s0);
      var s2 := Advance(s1);
      Start(draw, seed) == Game(Advance(s2), Scale(draw(s0), 8, 12), Scale(draw(s0), 8, 12),
        Scale(draw(s1), 0, 2), 1, [], Scale(draw(s2), 8, 12), Active)
  {
  }

  /** What fight() does before it calls nextRoom(): one draw decides the hp
      lost, power rises by one, and the entry records the actual loss. */
  function FightAction(draw: bv32 -> Word, g: Game): (r: Game)
    ensures g.hp - r.hp == Scale(draw(g.seed), 1, 3)
    ensures 1 <= g.hp - r.hp <= 3 && r.power == g.power + 1
    ensures r.log == g.log + [Fought(g.room, g.hp - r.hp, 1)]
    ensures r.seed == Advance(g.seed)
    ensures r.maxHp == g.maxHp && r.room == g.room
    ensures r.bossPower == g.bossPower && r.status == g.status
  {
    var hpLoss := Scale(draw(g.seed), 1, 3);
    g.(seed := Advance(g.seed), hp := g.hp - hpLoss, power := g.power + 1,
       log := g.log + [Fought(g.room, hpLoss, 1)])
  }

  /** What rest() does before it calls nextRoom(): no draw; hp rises by two
      but not above maxHp, while the entry always records a gain of two. */
  function RestAction(g: Game): (r: Game)
    ensures r.hp <= g.maxHp && r.hp <= g.hp + 2
    ensures r.hp == g.maxHp || r.hp == g.hp + 2
    ensures r.log == g.log + [Rested(g.room, 2)]
    ensures r.seed == g.seed && r.power == g.power
    ensures r.maxHp == g.maxHp && r.room == g.room
    ensures r.bossPower == g.bossPower && r.status == g.status
  {
    g.(hp := Min(g.maxHp, g.hp + 2), log := g.log + [Rested(g.room, 2)])
  }

  /** What treasure() does before it calls nextRoom(): one draw; above one
      half (u > 2^31) it is a success worth two power, otherwise a trap that
      costs exactly two hp. */
  function TreasureAction(draw: bv32 -> Word, g: Game): (r: Game)
    ensures r.seed == Advance(g.seed)
    ensures draw(g.seed) > Modulus / 2 ==>
      r.power == g.power + 2 && r.hp == g.hp && r.log == g.log + [TreasureSuccess(g.room, 2)]
    ensures draw(g.seed) <= Modulus / 2 ==>
      r.power == g.power && r.hp == g.hp - 2 && r.log == g.log + [TreasureFailure(g.room, 2)]
    ensures r.maxHp == g.maxHp && r.room == g.room
    ensures r.bossPower == g.bossPower && r.status == g.status
  {
    var next := g.(seed := Advance(g.seed));
    if draw(g.seed) > Modulus / 2 then
      next.(power := g.power + 2, log := g.log + [TreasureSuccess(g.room, 2)])
    else
      next.(hp := g.hp - 2, log := g.log + [TreasureFailure(g.room, 2)])
  }

  /** handleBoss(): the comparison of the accumulated power with the boss's. */
  function BossVerdict(power: int, bossPower: int): (s: Status)
    ensures s == Won || s == Lost
    ensures s == Won <==> power >= bossPower
  {
    if power >= bossPower then Won else Lost
  }

  /** nextRoom(): death is checked first and leaves the room number alone;
      otherwise the room number rises by one, and past the last room the boss
      check decides between a win and a loss. */
  function EnterNextRoom(g: Game): (r: Game)
    ensures g.hp <= 0 ==> r == g.(status := Died)
    ensures g.hp > 0 ==> r == g.(room := g.room + 1, status := r.status)
    ensures r.status == Active <==> g.hp > 0 && g.room < LastRoom
    ensures r.status == Died <==> g.hp <= 0
    ensures r.status == Won <==> g.hp > 0 && g.room >= LastRoom && g.power >= g.bossPower
    ensures r.status == Lost <==> g.hp > 0 && g.room >= LastRoom && g.power < g.bossPower
  {
    if g.hp <= 0 then
      g.(status := Died)
    else
      var moved := g.(room := g.room + 1);
      if moved.room > LastRoom then
        moved.(status := BossVerdict(moved.power, moved.bossPower))
      else
        moved.(status := Active)
  }

  /** One button press: the action, then nextRoom(). The source does not
      check that the game is still on: the room view is simply replaced by
      the game-over screen, so a step is defined in every state. */
  function Step(draw: bv32 -> Word, g: Game, c: Choice): Game {
    match c
    case Fight => EnterNextRoom(FightAction(draw, g))
    case Rest => EnterNextRoom(RestAction(g))
    case Treasure => EnterNextRoom(TreasureAction(draw, g))
  }

  /** A sequence of button presses. */
  function Play(draw: bv32 -> Word, g: Game, cs: seq<Choice>): Game
    decreases |cs|
  {
    if cs == [] then g else Play(draw, Step(draw, g, cs[0]), cs[1..])
  }

  /** Every press in `cs` happens while the room view is showing. */
  predicate ActiveThroughout(draw: bv32 -> Word, g: Game, cs: seq<Choice>)
    decreases |cs|
  {
    cs == [] || (g.status == Active && ActiveThroughout(draw, Step(draw, g, cs[0]), cs[1..]))
  }

  /** How many generator draws a sequence of presses makes: rest makes none. */
  function Draws(cs: seq<Choice>): nat
    decreases |cs|
  {
    if cs == [] then 0 else (if cs[0] == Rest then 0 else 1) + Draws(cs[1..])
  }

  /** The invariant of every state reached by playing from startGame: hp never
      exceeds maxHp, the room stays in 1..11, the status agrees with hp, room
      and power, and the log holds one entry per room played, in order. */
  predicate Consistent(g: Game) {
    && g.hp <= g.maxHp
    && 1 <= g.room <= LastRoom + 1
    && (g.status == Active ==> g.hp > 0 && g.room <= LastRoom)
    && (g.status == Died ==> g.hp <= 0 && g.room <= LastRoom)
    && (g.status == Won ==> g.hp > 0 && g.room == LastRoom + 1 && g.power >= g.bossPower)
    && (g.status == Lost ==> g.hp > 0 && g.room == LastRoom + 1 && g.power < g.bossPower)
    && |g.log| == (if g.status == Died then g.room else g.room - 1)
    && (forall i :: 0 <= i < |g.log| ==> g.log[i].room == i + 1)
  }

  /** A press while the room view is showing keeps the invariant. */
  lemma StepKeepsConsistent(draw: bv32 -> Word, g: Game, c: Choice)
    requires Consistent(g) && g.status == Active
    ensures Consistent(Step(draw, g, c))
  {
    var acted := match c
      case Fight => FightAction(draw, g)
      case Rest => RestAction(g)
      case Treasure => TreasureAction(draw, g);
    assert Step(draw, g, c) == EnterNextRoom(acted);
    assert acted.log == g.log + [acted.log[|g.log|]] && acted.log[|g.log|].room == g.room;
  }

  /** The encounter: the generator and gameState of roguelite.js, and the
      screen showing. startGame replaces the whole object. */
  class Encounter {
    const rng: SeededRandom
    var hp: int
    var maxHp: int
    var power: int
    var room: int
    var log: seq<LogEntry>
    var bossPower: int
    var status: Status

    function Snapshot(): Game
      reads this, rng
    {
      Game(rng.seed, hp, maxHp, power, room, log, bossPower, status)
    }

    /** startGame(seed). */
    constructor StartGame(seed: int)
      ensures fresh(rng)
      ensures Snapshot() == Start(Draw, seed)
      ensures Consistent(Snapshot())
    {
      var generator := new SeededRandom(seed);
      ghost var s0 := generator.seed;
      var startHp := generator.NextInt(8, 12);
      var startPower := generator.NextInt(0, 2);
      var boss := generator.NextInt(8, 12);
      StartDraws(Draw, seed);
      assert Start(Draw, seed)
        == Game(generator.seed, startHp, startHp, startPower, 1, [], boss, Active);
      rng := generator;
      hp, maxHp, power, room := startHp, startHp, startPower, 1;
      log, bossPower, status := [], boss, Active;
    }

    /** fight(). */
    method Fight()
      modifies this, rng
      ensures Snapshot() == Step(Draw, old(Snapshot()), Choice.Fight)
      ensures old(Consistent(Snapshot())) && old(status) == Active ==> Consistent(Snapshot())
    {
      ghost var before := Snapshot();
      var hpLoss := rng.NextInt(1, 3);
      hp := hp - hpLoss;
      power := power + 1;
      log := log + [Fought(room, hpLoss, 1)];
      assert Snapshot() == FightAction(Draw, before);
      NextRoom();
      if Consistent(before) && before.status == Active {
        StepKeepsConsistent(Draw, before, Choice.Fight);
      }
    }

    /** rest(). */
    method Rest()
      modifies this
      ensures Snapshot() == Step(Draw, old(Snapshot()), Choice.Rest)
      ensures old(Consistent(Snapshot())) && old(status) == Active ==> Consistent(Snapshot())
    {
      ghost var before := Snapshot();
      hp := Min(maxHp, hp + 2);
      log := log + [Rested(room, 2)];
      NextRoom();
      if Consistent(before) && before.status == Active {
        StepKeepsConsistent(Draw, before, Choice.Rest);
      }
    }

    /** treasure(). */
    method Treasure()
      modifies this, rng
      ensures Snapshot() == Step(Draw, old(Snapshot()), Choice.Treasure)
      ensures old(Consistent(Snapshot())) && old(status) == Active ==> Consistent(Snapshot())
    {
      ghost var before := Snapshot();
      var u := rng.Next();
      ghost var acted := TreasureAction(Draw, before);
      if u > Modulus / 2 {
        power := power + 2;
        log := log + [TreasureSuccess(room, 2)];
      } else {
        var hpLoss := 2;
        hp := hp - hpLoss;
        log := log + [TreasureFailure(room, hpLoss)];
      }
      assert Snapshot() == acted;
      NextRoom();
      if Consistent(before) && before.status == Active {
        StepKeepsConsistent(Draw, before, Choice.Treasure);
      }
    }

    /** nextRoom(). */
    method NextRoom()
      modifies this
      ensures Snapshot() == EnterNextRoom(old(Snapshot()))
    {
      if hp <= 0 {
        status := Died;
        return;
      }
      room := room + 1;
      if room > LastRoom {
        HandleBoss();
      } else {
        status := Active;
      }
    }

    /** handleBoss(). */
    method HandleBoss()
      modifies this
      ensures Snapshot() == old(Snapshot()).(status := BossVerdict(old(power), old(bossPower)))
    {
      if power >= bossPower {
        status := Won;
      } else {
        status := Lost;
      }
    }
  }
}
