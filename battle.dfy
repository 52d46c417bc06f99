/**
 * The session record the team-builder and battle views of pokedex/views.py
 * read and write, and each view's effect on it as a function from the old
 * record to the new one. The class in module Session performs these effects
 * in place; the lemmas here state what they promise.
 */
module Battle {
  import opened Wrappers
  import opened Combatants

  /** The most members a player's team may hold; combat needs this many (views.py:58, 81). */
  const TeamCapacity: nat := 5
  /** The size of a generated opponent team, and the opponent index that means victory (views.py:85, 95). */
  const AiTeamSize: nat := 5

  /** The battle log line, by kind rather than by its exact wording. */
  datatype BattleLog =
    | ChallengerAppears                                    // a battle has just been set up
    | Exchange(attacker: string, damage: int, enemyDamage: int)  // the player struck and the opponent answered
    | KnockedOut(name: string)                             // the opponent's active member fainted
    | Go(name: string)                                     // the player sent a member out

  /**
   * The session: a key the views may delete is an Option (None when absent).
   * `team` is a plain sequence: an absent team and an empty one behave alike,
   * since the editing views and combat read it with an empty default, and
   * attack_turn and switch_pokemon raise on either.
   */
  datatype SessionState = SessionState(
    team: seq<Combatant>,
    aiTeam: Option<seq<Option<Combatant>>>,
    playerIdx: Option<nat>,
    aiIdx: Option<nat>,
    battleLog: Option<BattleLog>)

  /** A visitor's first session. */
  const EmptySession: SessionState := SessionState([], None, None, None, None)

  /** The five random provider answers combat draws for a new opponent team; a lookup may fail. */
  type Draws = d: seq<Option<PokeEntry>> | |d| == AiTeamSize witness [None, None, None, None, None]

  /** What the combat page shows. */
  datatype CombatView =
    | RedirectIndex                                        // team too small: back to the index page
    | Victory                                              // every opponent has fainted
    | Arena(player: Combatant, ai: Option<Combatant>, playerIdx: nat, aiIdx: nat, log: Option<BattleLog>)

  /**
   * The shape every session the views produce has: at most TeamCapacity
   * members, exactly AiTeamSize opponent slots, a player index below
   * TeamCapacity and an opponent index of at most AiTeamSize. The player
   * index is not bounded by the team's length: removing a member mid-battle
   * can leave it past the end of a shortened team.
   */
  predicate Shaped(s: SessionState) {
    && |s.team| <= TeamCapacity
    && (s.aiTeam.Some? ==> |s.aiTeam.value| == AiTeamSize)
    && (s.playerIdx.Some? ==> s.playerIdx.value < TeamCapacity)
    && (s.aiIdx.Some? ==> s.aiIdx.value <= AiTeamSize)
  }

  /** Shaped, and every record, on both sides, keeps 0 <= hp <= hpMax. */
  predicate Inv(s: SessionState) {
    && Shaped(s)
    && (forall i :: 0 <= i < |s.team| ==> Sound(s.team[i]))
    && (s.aiTeam.Some? ==>
          forall i :: 0 <= i < |s.aiTeam.value| && s.aiTeam.value[i].Some? ==> Sound(s.aiTeam.value[i].value))
  }

  // ---------------------------------------------------------------- roster editing

  /**
   * add_to_team (views.py:56-63): the provider's record is appended only while
   * the team has fewer than TeamCapacity members and the lookup found something.
   */
  function AddToTeam(s: SessionState, fetched: Option<PokeEntry>): (r: SessionState)
    ensures r == s.(team := r.team)
    ensures |s.team| < TeamCapacity && fetched.Some? ==> r.team == s.team + [FromEntry(fetched.value)]
    ensures |s.team| >= TeamCapacity || fetched.None? ==> r == s
    ensures |s.team| <= TeamCapacity ==> |r.team| <= TeamCapacity
    ensures Inv(s) ==> Inv(r)
  {
    if |s.team| < TeamCapacity && fetched.Some? then s.(team := s.team + [FromEntry(fetched.value)]) else s
  }

  /**
   * remove_team_member (views.py:65-70): deletes exactly member `i` when it
   * exists, keeping the others in order; any other index changes nothing.
   * The active indices are left as they are.
   */
  function RemoveTeamMember(s: SessionState, i: nat): (r: SessionState)
    ensures r == s.(team := r.team)
    ensures i < |s.team| ==> |r.team| == |s.team| - 1
    ensures i < |s.team| ==> forall j :: 0 <= j < i ==> r.team[j] == s.team[j]
    ensures i < |s.team| ==> forall j :: i <= j < |r.team| ==> r.team[j] == s.team[j + 1]
    ensures i < |s.team| ==> multiset(r.team) + multiset{s.team[i]} == multiset(s.team)
    ensures i >= |s.team| ==> r == s
    ensures Inv(s) ==> Inv(r)
  {
    if i < |s.team| then
      assert s.team == s.team[..i] + [s.team[i]] + s.team[i + 1..];
      s.(team := s.team[..i] + s.team[i + 1..])
    else s
  }

  /** clear_team (views.py:72-75): the team is dropped; battle state stays. */
  function ClearTeam(s: SessionState): (r: SessionState)
    ensures r.team == [] && r.aiTeam == s.aiTeam && r.playerIdx == s.playerIdx
    ensures r.aiIdx == s.aiIdx && r.battleLog == s.battleLog
    ensures Inv(s) ==> Inv(r)
  {
    s.(team := [])
  }

  // ---------------------------------------------------------------- the battle

  /** The opponent team built from five draws: a failed lookup leaves an empty slot. */
  function Opponents(draws: Draws): (r: seq<Option<Combatant>>)
    ensures |r| == AiTeamSize
    ensures forall i :: 0 <= i < AiTeamSize ==> r[i].Some? == draws[i].Some?
    ensures forall i :: 0 <= i < AiTeamSize && draws[i].Some? ==> r[i] == Some(FromEntry(draws[i].value))
  {
    seq(AiTeamSize, i requires 0 <= i < AiTeamSize =>
      if draws[i].Some? then Some(FromEntry(draws[i].value)) else None)
  }

  /**
   * The session after combat's one-time set-up (views.py:84-89): only when no
   * opponent team exists yet is one built and are both indices set to 0.
   */
  function CombatSetUp(s: SessionState, draws: Draws): SessionState {
    if s.aiTeam.None? then
      s.(aiTeam := Some(Opponents(draws)), playerIdx := Some(0), aiIdx := Some(0),
         battleLog := Some(ChallengerAppears))
    else s
  }

  /**
   * combat (views.py:79-106): with fewer than TeamCapacity members it only
   * redirects; otherwise it sets the battle up once, then reports victory
   * exactly when the opponent index has reached AiTeamSize, and otherwise
   * shows both active members.
   */
  function Combat(s: SessionState, draws: Draws): (r: (SessionState, CombatView))
    requires Shaped(s)
    ensures |s.team| < TeamCapacity ==> r == (s, RedirectIndex)
    ensures |s.team| >= TeamCapacity && s.aiTeam.Some? ==> r.0 == s
    ensures |s.team| >= TeamCapacity && s.aiTeam.None? ==>
              r.0 == s.(aiTeam := Some(Opponents(draws)), playerIdx := Some(0), aiIdx := Some(0),
                        battleLog := Some(ChallengerAppears))
    ensures |s.team| >= TeamCapacity ==> (r.1 == Victory <==> r.0.aiIdx.GetOr(0) >= AiTeamSize)
    ensures |s.team| >= TeamCapacity && r.0.aiIdx.GetOr(0) < AiTeamSize ==> r.1.Arena?
    ensures r.1.Arena? ==>
              && r.1.playerIdx == r.0.playerIdx.GetOr(0) < |r.0.team|
              && r.1.player == r.0.team[r.1.playerIdx]
              && r.0.aiTeam.Some? && r.1.aiIdx == r.0.aiIdx.GetOr(0) < |r.0.aiTeam.value|
              && r.1.ai == r.0.aiTeam.value[r.1.aiIdx]
              && r.1.log == r.0.battleLog
    ensures Shaped(r.0) && (Inv(s) ==> Inv(r.0))
  {
    if |s.team| < TeamCapacity then (s, RedirectIndex)
    else
      var t := CombatSetUp(s, draws);
      var p, a := t.playerIdx.GetOr(0), t.aiIdx.GetOr(0);
      if a >= AiTeamSize then (t, Victory)
      else (t, Arena(t.team[p], t.aiTeam.value[a], p, a, t.battleLog))
  }

  /**
   * What attack_turn needs of the session not to raise (views.py:109-114,
   * 117): both indices set, both in range, and the opponent's active slot
   * filled.
   */
  predicate CanAttack(s: SessionState) {
    && s.playerIdx.Some? && s.playerIdx.value < |s.team|
    && s.aiTeam.Some? && s.aiIdx.Some? && s.aiIdx.value < |s.aiTeam.value|
    && s.aiTeam.value[s.aiIdx.value].Some?
  }

  /** The player's active member. */
  function PlayerActive(s: SessionState): Combatant
    requires CanAttack(s)
  {
    s.team[s.playerIdx.value]
  }

  /** The opponent's active member. */
  function AiActive(s: SessionState): Combatant
    requires CanAttack(s)
  {
    s.aiTeam.value[s.aiIdx.value].value
  }

  /**
   * attack_turn (views.py:108-135): the player's active member strikes the
   * opponent's. An opponent knocked out to 0 hp makes the opponent index
   * advance and does not retaliate; a surviving opponent strikes back, and a
   * player member brought to 0 stays active. Only the two hp values, the
   * opponent index and the log change.
   */
  function AttackTurn(s: SessionState): (r: SessionState)
    requires CanAttack(s)
    ensures |r.team| == |s.team| && r.playerIdx == s.playerIdx
    ensures r.aiTeam.Some? && |r.aiTeam.value| == |s.aiTeam.value| && r.aiIdx.Some?
    ensures forall j :: 0 <= j < |s.team| && j != s.playerIdx.value ==> r.team[j] == s.team[j]
    ensures forall j :: 0 <= j < |s.aiTeam.value| && j != s.aiIdx.value ==> r.aiTeam.value[j] == s.aiTeam.value[j]
    ensures r.team[s.playerIdx.value] == PlayerActive(s).(hp := r.team[s.playerIdx.value].hp)
    ensures r.aiTeam.value[s.aiIdx.value].Some?
    ensures r.aiTeam.value[s.aiIdx.value].value == AiActive(s).(hp := r.aiTeam.value[s.aiIdx.value].value.hp)
    // the player's strike: at least MinDamage, hp clamped at 0
    ensures var hp := r.aiTeam.value[s.aiIdx.value].value.hp;
            var damage := Damage(PlayerActive(s), AiActive(s));
            && damage >= MinDamage
            && hp >= 0
            && (AiActive(s).hp <= damage ==> hp == 0)
            && (AiActive(s).hp > damage ==> hp == AiActive(s).hp - damage)
    // knockout: the opponent index advances by one and nothing happens to the player
    ensures AiActive(s).hp <= Damage(PlayerActive(s), AiActive(s)) ==>
              && r.aiIdx.value == s.aiIdx.value + 1
              && r.team == s.team
              && r.battleLog == Some(KnockedOut(AiActive(s).name))
    // survival: the opponent retaliates, and both indices stay, even if the player's member faints
    ensures AiActive(s).hp > Damage(PlayerActive(s), AiActive(s)) ==>
              var hp := r.team[s.playerIdx.value].hp;
              var enemyDamage := Damage(AiActive(s), PlayerActive(s));
              && r.aiIdx == s.aiIdx
              && hp >= 0
              && (PlayerActive(s).hp <= enemyDamage ==> hp == 0)
              && (PlayerActive(s).hp > enemyDamage ==> hp == PlayerActive(s).hp - enemyDamage)
              && r.battleLog == Some(Exchange(PlayerActive(s).name, Damage(PlayerActive(s), AiActive(s)), enemyDamage))
    ensures Inv(s) ==> Inv(r)
  {
    var p, a := s.playerIdx.value, s.aiIdx.value;
    var pk, ak := s.team[p], s.aiTeam.value[a].value;
    var damage := Damage(pk, ak);
    var struck := Struck(ak, damage);
    var aiTeam := Some(s.aiTeam.value[a := Some(struck)]);
    if struck.hp == 0 then
      s.(aiTeam := aiTeam, aiIdx := Some(a + 1), battleLog := Some(KnockedOut(ak.name)))
    else
      var enemyDamage := Damage(ak, pk);
      s.(team := s.team[p := Struck(pk, enemyDamage)], aiTeam := aiTeam,
         battleLog := Some(Exchange(pk.name, damage, enemyDamage)))
  }

  /**
   * switch_pokemon (views.py:137-140): a bare pointer reassignment, to any
   * existing member, fainted or not.
   */
  function SwitchPokemon(s: SessionState, index: nat): (r: SessionState)
    requires index < |s.team|
    ensures r.playerIdx == Some(index) && r.battleLog == Some(Go(s.team[index].name))
    ensures r.team == s.team && r.aiTeam == s.aiTeam && r.aiIdx == s.aiIdx
    ensures Inv(s) ==> Inv(r)
  {
    s.(playerIdx := Some(index), battleLog := Some(Go(s.team[index].name)))
  }

  /** Every member of `team` restored to full health, in the same order. */
  function HealAll(team: seq<Combatant>): (r: seq<Combatant>)
    ensures |r| == |team|
    ensures forall i :: 0 <= i < |team| ==> r[i] == team[i].(hp := team[i].hpMax)
  {
    if team == [] then [] else [Healed(team[0])] + HealAll(team[1..])
  }

  /**
   * reset_combat (views.py:143-151): the opponent team, both indices and the
   * log are dropped, and every team member is healed; the team keeps its
   * length and order.
   */
  function ResetCombat(s: SessionState): (r: SessionState)
    ensures r.aiTeam.None? && r.playerIdx.None? && r.aiIdx.None? && r.battleLog.None?
    ensures |r.team| == |s.team|
    ensures forall i :: 0 <= i < |s.team| ==>
              r.team[i].hp == r.team[i].hpMax && r.team[i] == s.team[i].(hp := s.team[i].hpMax)
    ensures Inv(s) ==> Inv(r)
  {
    SessionState(HealAll(s.team), None, None, None, None)
  }

  // ---------------------------------------------------------------- lemmas

  /** Healing an already healed team changes nothing. */
  lemma HealAllIdempotent(team: seq<Combatant>)
    ensures HealAll(HealAll(team)) == HealAll(team)
  {
  }

  /** Resetting twice is resetting once. */
  lemma ResetCombatIdempotent(s: SessionState)
    ensures ResetCombat(ResetCombat(s)) == ResetCombat(s)
  {
  }

  /** Calling combat again, with any draws, does not touch the battle it set up. */
  lemma CombatKeepsProgress(s: SessionState, draws: Draws, again: Draws)
    requires Shaped(s)
    ensures Combat(Combat(s, draws).0, again).0 == Combat(s, draws).0
  {
  }

  /**
   * A knockout: 50 attack against 20 defence deals 40, the 40-hp opponent
   * faints, the opponent index moves to 1 and the player keeps 100 hp.
   */
  lemma KnockoutScenario()
    ensures var s := SessionState(
              [Combatant(1, "player", 100, 100, 50, 50, 0)],
              Some([Some(Combatant(2, "rival", 40, 40, 30, 20, 0)), None, None, None, None]),
              Some(0), Some(0), None);
            var r := AttackTurn(s);
            && r.aiIdx == Some(1) && r.team == s.team
            && r.aiTeam.value[0] == Some(Combatant(2, "rival", 0, 40, 30, 20, 0))
  {
  }

  /**
   * A player's member brought to 0 hp stays active: 20 attack against 10
   * defence deals 15, the 100-hp opponent answers with 40 against 30 hp, and
   * the player index stays 0 even though another member is fit to fight.
   */
  lemma FaintedMemberStaysActive()
    ensures var s := SessionState(
              [Combatant(1, "player", 30, 30, 20, 20, 0), Combatant(3, "reserve", 50, 50, 40, 40, 0)],
              Some([Some(Combatant(2, "rival", 100, 100, 50, 10, 0)), None, None, None, None]),
              Some(0), Some(0), None);
            var r := AttackTurn(s);
            && r.playerIdx == Some(0) && r.aiIdx == Some(0)
            && r.team[0].hp == 0 && r.aiTeam.value[0].value.hp == 85
            && CanAttack(r)
  {
  }

  /** Appending a member and then removing that last member gives back the session. */
  lemma RemoveUndoesAdd(s: SessionState, e: PokeEntry)
    requires |s.team| < TeamCapacity
    ensures RemoveTeamMember(AddToTeam(s, Some(e)), |s.team|) == s
  {
  }
}
