/**
 * The session seen across requests (pokeApp/urls.py routes each URL to one
 * view of pokedex/views.py). A view that raises (an index out of range, a
 * missing key, an empty opponent slot) answers with a server error, and
 * Django does not save a session on a 5xx response: such a request leaves
 * the session as it was.
 */
module Requests {
  import opened Wrappers
  import opened Combatants
  import opened Battle

  /** One routed request and its arguments; `Combat` carries the draws it would make. */
  datatype Request =
    | AddToTeam(fetched: Option<PokeEntry>)
    | RemoveTeamMember(memberIndex: nat)
    | ClearTeam
    | Combat(draws: Draws)
    | AttackTurn
    | SwitchPokemon(index: nat)
    | ResetCombat

  /** The session after one request; every view keeps Inv. */
  function Serve(s: SessionState, req: Request): (r: SessionState)
    requires Inv(s)
    ensures Inv(r)
    ensures req.AttackTurn? && !CanAttack(s) ==> r == s
    ensures req.SwitchPokemon? && req.index >= |s.team| ==> r == s
  {
    match req
    case AddToTeam(fetched) => Battle.AddToTeam(s, fetched)
    case RemoveTeamMember(i) => Battle.RemoveTeamMember(s, i)
    case ClearTeam => Battle.ClearTeam(s)
    case Combat(draws) => Battle.Combat(s, draws).0
    case AttackTurn => if CanAttack(s) then Battle.AttackTurn(s) else s
    case SwitchPokemon(i) => if i < |s.team| then Battle.SwitchPokemon(s, i) else s
    case ResetCombat => Battle.ResetCombat(s)
  }

  /**
   * The session after a sequence of requests. Every reachable session keeps
   * a team of at most TeamCapacity members, five opponents, indices in range
   * and 0 <= hp <= hpMax for every record.
   */
  function ServeAll(s: SessionState, reqs: seq<Request>): (r: SessionState)
    requires Inv(s)
    ensures Inv(r)
    decreases |reqs|
  {
    if reqs == [] then s else ServeAll(Serve(s, reqs[0]), reqs[1..])
  }

  /** `n` attack requests in a row. */
  function Attacks(n: nat): seq<Request> {
    seq(n, _ => AttackTurn)
  }

  /**
   * The player's active member knocks out each remaining opponent with a
   * single strike.
   */
  predicate Overwhelms(s: SessionState) {
    && s.playerIdx.Some? && s.playerIdx.value < |s.team|
    && s.aiTeam.Some? && s.aiIdx.Some? && s.aiIdx.value <= |s.aiTeam.value|
    && forall j :: s.aiIdx.value <= j < |s.aiTeam.value| ==>
         && s.aiTeam.value[j].Some?
         && s.aiTeam.value[j].value.hp <= Damage(s.team[s.playerIdx.value], s.aiTeam.value[j].value)
  }

  /**
   * Roster exhaustion: against an opponent team its active member can knock
   * out one strike at a time, the player wins after one attack per remaining
   * opponent, without losing any hp, and combat then reports victory.
   */
  lemma {:induction false} OverwhelmingPlayerWins(s: SessionState, n: nat, draws: Draws)
    requires Inv(s) && Overwhelms(s) && s.aiIdx.value + n == |s.aiTeam.value|
    ensures var r := ServeAll(s, Attacks(n));
            && r.aiIdx == Some(AiTeamSize)
            && r.team == s.team && r.playerIdx == s.playerIdx
            && (|s.team| >= TeamCapacity ==> Battle.Combat(r, draws).1 == Victory)
    decreases n
  {
    if n > 0 {
      var t := Serve(s, AttackTurn);
      assert t == Battle.AttackTurn(s);
      assert Overwhelms(t);
      assert Attacks(n)[1..] == Attacks(n - 1);
      OverwhelmingPlayerWins(t, n - 1, draws);
    }
  }
}
