# Roguelite encounter and its Mulberry32 generator, in Dafny

This project models the text-mode roguelite encounter of `roguelite.js`. A
seeded Mulberry32 generator (`SeededRandom`) sets up a player with hp, maxHp
and power, and a boss with a required power. The player then passes through
ten rooms. In each room they fight, rest or open a treasure. Dying ends the
encounter at once. After the tenth room the boss check decides between a win
and a loss.

Three modules:

- `Mulberry32` (`mulberry32.dfy`) models the generator on 32-bit words.
  - The seed is a `bv32`.
  - `Mix` holds the two xor-shift/`Math.imul` rounds and the final
    xor-shift.
  - `Draw` is the value `next()` returns, times 2^32: the integer u in
    [0, 2^32).
  - `Scale` is `nextInt` on such a u.
  - Class `SeededRandom` updates its `seed` field in place. Its methods are
    proved equal to these functions.
  - The seed-42 lemmas work out the first three draws of that seed exactly.
- `Roguelite` (`roguelite.dfy`) specifies the encounter and implements it.
  - The specification is a set of functions on a snapshot `Game`: the
    generator's seed, the fields of `gameState`, and which screen shows.
    The screen is `Active`, or one of the three game-over messages `Died`,
    `Won` and `Lost`.
  - The specification takes the generator as a parameter `draw`, so its
    proofs hold for any generator.
  - Class `Encounter` holds the generator and the `gameState` fields. Its
    methods are `startGame`, `fight`, `rest`, `treasure`, `nextRoom` and
    `handleBoss`. Each one is proved to produce exactly the snapshot the
    specification gives for the generator `Draw`.
- `EncounterProperties` (`encounter_properties.dfy`) proves properties of
  whole runs of button presses:
  - the invariant of every reachable state;
  - the accounting of draws, log entries, power and hp;
  - that an encounter lasts at most ten presses;
  - that nobody dies in the first two rooms;
  - that `startGame(42)` gives 11 hp, 1 power and a boss of power 12;
  - the outcome of the two pure strategies: always rest, and always fight.

The source has no guard against pressing a button after the game is over:
only the replacement of the room view by the game-over screen removes the
buttons (`roguelite.js:126-133`). Such presses are not ignored; the code
applies them, and the model follows the code:
- a step is defined in every state;
- a press after game over is applied like any other press;
- a rest after death can bring hp back above 0, and then `nextRoom` moves
  on a room and the room view shows again;
- a press past room 10 runs the boss check again, unless it kills.

Lemmas about runs state "every press was made while the room view showed"
as a hypothesis (`ActiveThroughout`). It is not a precondition of the
methods.

## Model

| member | source | states |
|---|---|---|
| Mulberry32.SeededRandom.constructor | roguelite.js:3-5 | the generator holds the integer seed reduced modulo 2^32, which is all that the bit operators of next() ever read of it |
| Mulberry32.SeededRandom.Next | roguelite.js:7-12 | the seed advances by exactly 0x6D2B79F5 (mod 2^32), and the result is the Mulberry32 value of the old seed, a 32-bit unsigned integer (next() times 2^32) |
| Mulberry32.SeededRandom.NextInt | roguelite.js:14-16 | exactly one draw is consumed (the seed advances once), the result is Scale of that draw, and for min <= max it lies in [min, max] |
| Mulberry32.Advance | roguelite.js:8 | `this.seed += 0x6D2B79F5` read modulo 2^32: the seed moves by exactly the increment, so a draw never leaves it unchanged |
| Mulberry32.Advanced | roguelite.js:8 | the seed after k draws; for k > 0 it is also the first draw followed by the remaining k - 1 |
| Mulberry32.Mix | roguelite.js:9-11 | the two xor-shift/Math.imul rounds and the final xor-shift on bv32; no contract of its own: its output is fixed by the seed-42 lemmas |
| Mulberry32.Draw | roguelite.js:7-11 | the value next() returns times 2^32, read unsigned; no contract of its own beyond its type Word (0 <= u < 2^32); its values are fixed by the seed-42 lemmas |
| Mulberry32.Unsigned | roguelite.js:11 | the unsigned read `>>> 0` of the low k bits is below 2^k, so a draw is below 2^32 |
| Mulberry32.Scale | roguelite.js:15 | nextInt's value on a draw u lies in [min, max] whenever min <= max |
| Mulberry32.ScaleIsFloor | roguelite.js:15 | Scale equals Math.floor(u / 2^32 * (max - min + 1)) + min computed over the reals, so the integer model of nextInt is exact |
| Mulberry32.UnitInterval | roguelite.js:11 | the value next() returns, u / 2^32, lies in [0, 1) |
| Mulberry32.AboveHalf | roguelite.js:63 | the test next() > 0.5 holds exactly when u > 2^31 |
| Mulberry32.AdvancedAdds | roguelite.js:8 | advancing the seed a draws and then b draws is advancing it a + b draws |
| Mulberry32.SameGenerator | roguelite.js:3-8 | integer seeds equal modulo 2^32 give the same generator state, hence the same sequence of draws |
| Mulberry32.DrawsFromSeed42 | roguelite.js:7-11 | the first three draws of seed 42 are 2581720956, 1925393290 and 3661312704 (times 2^-32) |
| Mulberry32.FirstDrawOfSeed42 | roguelite.js:7-11 | the first draw of seed 42, through each mixing round, is 2581720956 |
| Mulberry32.SecondDrawOfSeed42 | roguelite.js:7-11 | the second draw of seed 42 is 1925393290 |
| Mulberry32.ThirdDrawOfSeed42 | roguelite.js:7-11 | the third draw of seed 42 is 3661312704 |
| Roguelite.Start | roguelite.js:34-44 | startGame makes three draws in order: hp = maxHp from nextInt(8, 12), power from nextInt(0, 2), bossPower from nextInt(8, 12); so hp in [8, 12], power in [0, 2], bossPower in [8, 12]; room 1, empty log, room view showing; the seed is three draws on |
| Roguelite.FightAction | roguelite.js:48-52 | fight draws once, loses between 1 and 3 hp, gains exactly 1 power, and appends one Fight entry that records the current room and the actual loss; nothing else changes |
| Roguelite.RestAction | roguelite.js:56-58 | rest makes no draw and leaves power alone; hp becomes min(maxHp, hp + 2), so it never exceeds maxHp; the entry always records a gain of 2 |
| Roguelite.TreasureAction | roguelite.js:62-70 | treasure draws once; above one half, power + 2, hp unchanged and a Success entry; otherwise hp - 2, power unchanged and a Failure entry recording a loss of 2 |
| Roguelite.EnterNextRoom | roguelite.js:74-87 | with hp <= 0 the game ends as a death and the room is not incremented; otherwise the room rises by exactly one, past room 10 the boss check decides, else the room view shows; each final screen in both directions |
| Roguelite.BossVerdict | roguelite.js:89-95 | the boss check is a win exactly when power >= bossPower, and a loss otherwise |
| Roguelite.Step | roguelite.js:48-87 | one button press: the action, then nextRoom; no contract of its own: StepAccounting and StepKeepsConsistent state its properties |
| Roguelite.Play | roguelite.js:48-87 | a sequence of button presses, one Step each; no contract of its own: PlayDraws, PlayLog, PlayBounds and PlayConsistent state its properties |
| Roguelite.StepKeepsConsistent | roguelite.js:48-87 | a press made while the room view shows keeps the encounter invariant (hp <= maxHp, room in 1..11, screen agrees with hp, room and power, one log entry per room played, numbered in order) |
| Roguelite.Encounter.StartGame | roguelite.js:34-46 | startGame creates a new generator and sets the fields to exactly the snapshot Start gives for Mulberry32, which satisfies the invariant |
| Roguelite.Encounter.Fight | roguelite.js:48-54 | fight() changes the generator and the fields exactly as one Fight step of the specification, and keeps the invariant when pressed from the room view |
| Roguelite.Encounter.Rest | roguelite.js:56-60 | rest() changes the fields exactly as one Rest step, leaves the generator alone, and keeps the invariant when pressed from the room view |
| Roguelite.Encounter.Treasure | roguelite.js:62-72 | treasure() changes the generator and the fields exactly as one Treasure step, and keeps the invariant when pressed from the room view |
| Roguelite.Encounter.NextRoom | roguelite.js:74-87 | nextRoom() leaves the fields exactly as EnterNextRoom of the old ones |
| Roguelite.Encounter.HandleBoss | roguelite.js:89-95 | handleBoss() changes only the screen, to the boss verdict on power and bossPower |
| EncounterProperties.StepAccounting | roguelite.js:48-87 | any press, in any state: one draw unless it is a rest, one entry recording the press and the room, power up by 0 to 2, maxHp and bossPower unchanged, hp <= maxHp kept with a loss of at most 3, death screen exactly when hp <= 0 |
| EncounterProperties.PlayDraws | roguelite.js:48-72 | over any run of presses the generator advances exactly once per fight or treasure and never for a rest |
| EncounterProperties.PlayLog | roguelite.js:52-69 | over any run of presses the log keeps its old entries and gains one entry per press, in order, each recording its press |
| EncounterProperties.PlayBounds | roguelite.js:48-78 | over any run of presses power rises by 0 to 2 per press, maxHp and bossPower never change, hp <= maxHp is kept with a loss of at most 3 per press, and after a press the death screen shows exactly when hp <= 0 |
| EncounterProperties.PlayConsistent | roguelite.js:48-95 | presses made from the room view keep the invariant, and there are at most as many as rooms remain |
| EncounterProperties.EncounterInvariant | roguelite.js:34-95 | every state reached from startGame by presses from the room view satisfies the invariant, and the generator has made 3 set-up draws plus one per fight or treasure |
| EncounterProperties.EncounterLength | roguelite.js:74-95 | an encounter played from the room view has at most 10 presses and is over after the tenth |
| EncounterProperties.NoDeathInFirstTwoRooms | roguelite.js:36-75 | starting hp is at least 8 and a press costs at most 3, so no death in the first two presses |
| EncounterProperties.StartWithSeed42 | roguelite.js:34-44 | startGame(42) gives hp = maxHp = 11, power 1 and bossPower 12 |
| EncounterProperties.SameSeedSamePlay | roguelite.js:3-16 | two seeds equal modulo 2^32 play every sequence of presses identically |
| EncounterProperties.RestUntilBoss | roguelite.js:56-95 | resting from a live state up to the boss never dies and meets the boss with unchanged power |
| EncounterProperties.RestingNeverWins | roguelite.js:34-95 | resting in all ten rooms always loses: power stays at most 2 and the boss needs at least 8 |
| EncounterProperties.FightsAccounting | roguelite.js:48-52 | n fights give exactly n power and cost at least n hp |
| EncounterProperties.FightUntilBoss | roguelite.js:48-95 | fighting up to the boss: alive at the end means the boss check with n more power; otherwise the game ended as a death |
| EncounterProperties.FightingEveryRoom | roguelite.js:34-95 | fighting in all ten rooms ends with exactly 10 more power; it is won exactly when alive and that power reaches the boss's, and ends as a death exactly when hp <= 0 |

## Left out

- `getSeed` (`roguelite.js:20-27`) reads the URL query string and falls back
  to `Math.random`. That is browser input and randomness. The seed is a
  parameter of `startGame` here.
- `renderGame`, `showGameOver` and `restartGame` only write HTML. Their effect
  is the `Status` of the model: the room view (`Active`) or the game-over
  message (`Died`, `Won`, `Lost`). `restartGame` hides the container and
  shows the game canvas again; neither touches the encounter state.
- `main.js` is a game-engine scene (sprites, camera, audio, keyboard) and is
  not part of this model.
- Floating point: `next()` is the integer u, and `nextInt` and `> 0.5` are
  integer formulas. `ScaleIsFloor` and `AboveHalf` show these agree with the
  real-number reading. That reading is the double computation while
  u * (max - min + 1) stays below 2^53. This holds for every range the game
  uses (widths 3 and 5), but not for ranges wider than 2^21.
- The seed field of the source is a JavaScript Number and grows by
  0x6D2B79F5 per draw. The model keeps only its value modulo 2^32. Above
  2^53 the Number additions round, and the source would then depart from
  the model. An encounter played from the room view makes at most 13 draws.
- Mulberry32.Reduce: the conversion of the integer seed to 32 bits states no
  contract of its own. `SameGenerator` states the property used: seeds equal
  modulo 2^32 give the same generator.
- Roguelite.Start, FightAction, TreasureAction, Step, Play: stated for any
  generator `draw`. The class instantiates them with Mulberry32's `Draw`.
  Lemmas that hold only for Mulberry32 are the seed-42 lemmas.
