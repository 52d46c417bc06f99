/**
 * The views of pokedex/views.py as methods of one session object: each
 * method updates the session's fields in place, as the views update
 * `request.session` and the team lists, and its postcondition ties the new
 * state to the matching function of module Battle.
 */
module Session {
  import opened Wrappers
  import opened Combatants
  import opened Battle

  /** The session keys reset_combat deletes, in the order it deletes them. */
  datatype SessionKey = AiTeamKey | PlayerIdxKey | AiIdxKey | BattleLogKey

  class Session {
    var team: seq<Combatant>
    var aiTeam: Option<seq<Option<Combatant>>>
    var playerIdx: Option<nat>
    var aiIdx: Option<nat>
    var battleLog: Option<BattleLog>

    /** The session as a value. */
    function State(): SessionState
      reads this
    {
      SessionState(team, aiTeam, playerIdx, aiIdx, battleLog)
    }

    /** Whether `key` is present. */
    function Has(key: SessionKey): bool
      reads this
    {
      match key
      case AiTeamKey => aiTeam.Some?
      case PlayerIdxKey => playerIdx.Some?
      case AiIdxKey => aiIdx.Some?
      case BattleLogKey => battleLog.Some?
    }

    /** A new visitor's session: nothing stored yet. */
    constructor ()
      ensures State() == EmptySession && Inv(State())
    {
      team, aiTeam, playerIdx, aiIdx, battleLog := [], None, None, None, None;
    }

    /** add_to_team (views.py:56-63), given the provider's answer for the requested id. */
    method AddToTeam(fetched: Option<PokeEntry>)
      modifies this
      ensures State() == Battle.AddToTeam(old(State()), fetched)
    {
      if |team| < TeamCapacity {
        if fetched.Some? {
          team := team + [FromEntry(fetched.value)];
        }
      }
    }

    /** remove_team_member (views.py:65-70). */
    method RemoveTeamMember(memberIndex: nat)
      modifies this
      ensures State() == Battle.RemoveTeamMember(old(State()), memberIndex)
    {
      if memberIndex < |team| {
        team := team[..memberIndex] + team[memberIndex + 1..];
      }
    }

    /** clear_team (views.py:72-75). */
    method ClearTeam()
      modifies this
      ensures State() == Battle.ClearTeam(old(State()))
    {
      team := [];
    }

    /** combat (views.py:79-106), given the five random draws it would make. */
    method Combat(draws: Draws) returns (view: CombatView)
      requires Shaped(State())
      modifies this
      ensures (State(), view) == Battle.Combat(old(State()), draws)
    {
      if |team| < TeamCapacity {
        return RedirectIndex;
      }
      if aiTeam.None? {
        aiTeam := Some(Opponents(draws));
        playerIdx := Some(0);
        aiIdx := Some(0);
        battleLog := Some(ChallengerAppears);
      }
      var p, a := playerIdx.GetOr(0), aiIdx.GetOr(0);
      if a >= AiTeamSize {
        return Victory;
      }
      view := Arena(team[p], aiTeam.value[a], p, a, battleLog);
    }

    /** attack_turn (views.py:108-135): decrement, then clamp at 0, as the view does. */
    method AttackTurn()
      requires CanAttack(State())
      modifies this
      ensures State() == Battle.AttackTurn(old(State()))
    {
      var p, a := playerIdx.value, aiIdx.value;
      var pk, ak := team[p], aiTeam.value[a].value;
      var damage := Damage(pk, ak);
      ak := ak.(hp := ak.hp - damage);
      var log;
      if ak.hp <= 0 {
        ak := ak.(hp := 0);
        aiIdx := Some(a + 1);
        log := KnockedOut(ak.name);
      } else {
        var enemyDamage := Damage(ak, pk);
        pk := pk.(hp := pk.hp - enemyDamage);
        log := Exchange(pk.name, damage, enemyDamage);
        if pk.hp <= 0 {
          pk := pk.(hp := 0);
        }
      }
      team := team[p := pk];
      aiTeam := Some(aiTeam.value[a := Some(ak)]);
      battleLog := Some(log);
    }

    /** switch_pokemon (views.py:137-140). */
    method SwitchPokemon(index: nat)
      requires index < |team|
      modifies this
      ensures State() == Battle.SwitchPokemon(old(State()), index)
    {
      playerIdx := Some(index);
      battleLog := Some(Go(team[index].name));
    }

    /** Deletes `key` from the session if present. */
    method Delete(key: SessionKey)
      modifies this
      ensures !Has(key) && team == old(team)
      ensures forall k :: k != key ==> Has(k) == old(Has(k))
      ensures key != AiTeamKey ==> aiTeam == old(aiTeam)
      ensures key != PlayerIdxKey ==> playerIdx == old(playerIdx)
      ensures key != AiIdxKey ==> aiIdx == old(aiIdx)
      ensures key != BattleLogKey ==> battleLog == old(battleLog)
    {
      match key
      case AiTeamKey => aiTeam := None;
      case PlayerIdxKey => playerIdx := None;
      case AiIdxKey => aiIdx := None;
      case BattleLogKey => battleLog := None;
    }

    /**
     * reset_combat (views.py:143-151): deletes the battle keys one by one,
     * then heals the team member by member.
     */
    method ResetCombat()
      modifies this
      ensures State() == Battle.ResetCombat(old(State()))
    {
      var keys := [AiTeamKey, PlayerIdxKey, AiIdxKey, BattleLogKey];
      for i := 0 to |keys|
        invariant team == old(team)
        invariant forall j :: 0 <= j < i ==> !Has(keys[j])
      {
        Delete(keys[i]);
      }
      assert !Has(keys[0]) && !Has(keys[1]) && !Has(keys[2]) && !Has(keys[3]);
      for i := 0 to |team|
        invariant |team| == |old(team)|
        invariant forall j :: 0 <= j < i ==> team[j] == Healed(old(team)[j])
        invariant forall j :: i <= j < |team| ==> team[j] == old(team)[j]
        invariant aiTeam.None? && playerIdx.None? && aiIdx.None? && battleLog.None?
      {
        team := team[i := Healed(team[i])];
      }
      assert team == HealAll(old(team));
    }
  }
}
