# Pokédex team builder and battle, modelled in Dafny

This project models the team builder and the turn-based battle of the Pokédex
web application (`pokedex/views.py`). A visitor builds a team of up to five
Pokémon. Once the team is full, the visitor fights a team of five randomly
drawn opponents. All state lives in the visitor's session:

- `team`, the player's team
- `ai_team`, the opponent team
- `player_active_idx` and `ai_active_idx`, the two active indices
- `battle_log`, the last log line

Each view reads this record and writes it back.

Files:

- `wrappers.dfy`: `Option`, used for an absent session key and for a lookup that found nothing.
- `combatants.dfy`: the creature record and the damage rule.
  - `Combatant` is the record with `id`, `name`, `hp`, `hpMax`, `attack`, `defense` and `speed`.
  - `FromEntry` builds that record from the provider's answer. Missing stats default to 0.
  - `HalfDown` is Python's floor division by 2.
  - `Damage` is `max(10, attack - defense // 2)`.
  - `Struck` subtracts the damage from hp and clamps the result at 0.
- `battle.dfy`: the session as a value (`SessionState`), with one function per view. Each function's postcondition states what the view does. `Inv` is the invariant every produced session keeps:
  - the team has at most 5 members;
  - an opponent team, when present, has exactly 5 slots;
  - the player index, when present, is below 5, and the opponent index is at most 5;
  - the player index is not bounded by the team's length, because removing a member mid-battle can leave it past the end of a shortened team;
  - every record satisfies `0 <= hp <= hpMax`.

  This file also holds the lemmas that relate several views.
- `session.dfy`: class `Session.Session`. Its fields are the session keys, and each view is a method that updates those fields in place. Two examples:
  - the hp decrement, then the clamp, in `AttackTurn`;
  - the key-deletion loop and the healing loop in `ResetCombat`.

  Every method's postcondition equates the new state with the matching `Battle` function applied to the old state.
- `requests.dfy`: a sequence of routed requests applied to the session. A view that raises leaves the session unchanged, because Django does not save the session on a 5xx response. `ServeAll` proves that every reachable session keeps `Inv`. `OverwhelmingPlayerWins` proves roster exhaustion: with one attack per remaining opponent, the player reaches victory.

The battle rules are simpler than a full engine would have them, and the
model keeps them as the code has them:

- A player member brought to 0 hp stays active. There is no search for the next member who can still fight, and no defeat status.
- Victory is only `ai_active_idx >= 5`.
- `switch_pokemon` accepts any existing member, fainted or not.
- `combat` needs a full team of 5.
- A fainted player member can still attack.
- Removing a team member during a battle does not adjust `player_active_idx`.

## Model

| member | source | states |
|---|---|---|
| Combatants.FromEntry | pokedex/views.py:14-25 | a found creature's record starts at full health (hp == hpMax >= 0) and each missing base stat defaults to 0 |
| Combatants.HalfDown | pokedex/views.py:117 | `d // 2` as Python floors it: the largest r with 2r <= d, negative d included |
| Combatants.Damage | pokedex/views.py:117-127 | a strike deals at least 10 and at least attack minus half the defence, and is one of the two |
| Combatants.Struck | pokedex/views.py:118-131 | after a strike hp is never negative, is 0 exactly when the damage reached it, otherwise drops by the damage; nothing but hp changes; 0 <= hp <= hpMax is kept |
| Battle.AddToTeam | pokedex/views.py:56-63 | appends the provider's record only below 5 members and when the lookup succeeded, otherwise changes nothing; the team never exceeds 5; Inv is kept |
| Battle.RemoveTeamMember | pokedex/views.py:65-70 | an index in range deletes exactly that member and keeps the rest in order (also as multisets); any other index changes nothing; Inv is kept |
| Battle.ClearTeam | pokedex/views.py:72-75 | empties the team and leaves the battle keys as they are |
| Battle.Opponents | pokedex/views.py:85 | the opponent team has 5 slots; a failed lookup leaves its slot empty, a found one holds the provider's record |
| Battle.Combat | pokedex/views.py:79-106 | with fewer than 5 members it only redirects; a battle is set up (opponents, both indices 0) only when no opponent team exists, otherwise the session is untouched; victory is reported exactly when the opponent index is >= 5; otherwise the arena is always shown, with both active members, both indices and the current log |
| Battle.AttackTurn | pokedex/views.py:108-135 | the opponent's hp drops by max(10, attack - defense // 2), clamped at 0; a knockout moves the opponent index up by exactly 1 and leaves the whole team untouched; a surviving opponent retaliates with the swapped formula, clamped at 0, and neither index moves even if the player's member faints; only those two hp values, the opponent index and the log change; Inv is kept |
| Battle.SwitchPokemon | pokedex/views.py:137-140 | sets the player index to any existing member, fainted or not, and changes nothing else but the log |
| Battle.HealAll | pokedex/views.py:148-149 | same length and order, every member's hp set to its hpMax, no other field changed |
| Battle.ResetCombat | pokedex/views.py:143-151 | drops the opponent team, both indices and the log; heals every member to hpMax; the team keeps its length and order |
| Battle.HealAllIdempotent | pokedex/views.py:149 | healing a healed team changes nothing |
| Battle.ResetCombatIdempotent | pokedex/views.py:143-151 | resetting twice has the effect of resetting once |
| Battle.CombatKeepsProgress | pokedex/views.py:84-89 | a second combat call, whatever it would draw, leaves the battle the first one set up untouched |
| Battle.RemoveUndoesAdd | pokedex/views.py:58-69 | removing the member just appended gives back the original session |
| Battle.KnockoutScenario | pokedex/views.py:116-124 | 50 attack against 20 defence knocks out a 40-hp opponent: index 0 to 1, player's hp unchanged |
| Battle.FaintedMemberStaysActive | pokedex/views.py:125-131 | a player member brought to 0 hp stays the active one and can still be ordered to attack |
| Session.Session.constructor | pokedex/views.py:57 | a new session holds an empty team and no battle keys, and satisfies Inv |
| Session.Session.AddToTeam | pokedex/views.py:56-63 | the append in place gives Battle.AddToTeam of the old state |
| Session.Session.RemoveTeamMember | pokedex/views.py:65-70 | the deletion in place gives Battle.RemoveTeamMember of the old state |
| Session.Session.ClearTeam | pokedex/views.py:72-75 | the new state is Battle.ClearTeam of the old one |
| Session.Session.Combat | pokedex/views.py:79-106 | the new state and the returned view are Battle.Combat of the old state and the draws |
| Session.Session.AttackTurn | pokedex/views.py:108-135 | decrementing and then clamping in place gives Battle.AttackTurn of the old state |
| Session.Session.SwitchPokemon | pokedex/views.py:137-140 | the new state is Battle.SwitchPokemon of the old one |
| Session.Session.Delete | pokedex/views.py:145-146 | deletes one key and leaves the team and every other key as they were |
| Session.Session.ResetCombat | pokedex/views.py:143-151 | the key-deletion loop and the healing loop give Battle.ResetCombat of the old state |
| Requests.Serve | pokeApp/urls.py:20-29 | one routed request keeps Inv; an attack or switch that would raise leaves the session unchanged |
| Requests.ServeAll | pokedex/views.py:56-151 | every session reachable by any sequence of requests keeps Inv: team of at most 5, five opponent slots, player index below 5, opponent index at most 5, 0 <= hp <= hpMax |
| Requests.OverwhelmingPlayerWins | pokedex/views.py:91-123 | if the active member knocks out each remaining opponent in one strike, one attack per opponent brings the opponent index to 5 with the team untouched, and combat then reports victory |

## Left out

- Fetching creature data over HTTP, JSON parsing and the bare `except` of `get_pk_data` (pokedex/views.py:8-29) are left out. They are network I/O and a foreign library. The provider's answer is a parameter (`Option<PokeEntry>`), and only the record it yields is modelled.
- The image URLs and the type list of a record are left out. No view's logic reads them.
- `random.randint` opponent generation (pokedex/views.py:85) is left out. `Combat` receives the five draws as a parameter instead.
- The `index` view (pokedex/views.py:31-54) is left out. It is page rendering plus three lookups, and its only logic is the 1..251 clamp on the previous and next ids.
- Django `render`, `redirect`, session persistence and `HTTP_REFERER` handling are left out. The session is the object's fields, and a redirect is the `RedirectIndex` view or nothing.
- The exact wording of the log lines is left out. The log is kept by kind and by the values it reports: names and damage.
- The speed stat is carried but never used, as in the source.
- Session.Session.AttackTurn: the method requires the session not to make the view raise. Attacking after victory, attacking with no battle set up, and attacking an empty opponent slot are modelled only at request level, in `Requests.Serve`.
- Session.Session.SwitchPokemon: the method requires the index to name an existing member. An index past the team makes the view raise, and that case is modelled only in `Requests.Serve`.
- Session.Session.Combat: the method requires `Shaped`. Every reachable session has that shape, and it rules out the render's out-of-range lookups.
- Aliasing between Python dictionaries within one request is left out. The session is serialized between requests, so records are values here.
