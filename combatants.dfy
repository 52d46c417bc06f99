/**
 * A single creature's battle record, as pokedex/views.py builds it from the
 * creature provider's answer (get_pk_data) and as the battle views read and
 * update it, together with the damage rule both sides of a turn use.
 */
module Combatants {

  /** The least damage a strike deals, whatever the stats (views.py:117, 127). */
  const MinDamage: int := 10

  /** One creature: identity, current and maximal hp, and the three battle stats. */
  datatype Combatant = Combatant(
    id: int,
    name: string,
    hp: int,
    hpMax: int,
    attack: int,
    defense: int,
    speed: int)

  /**
   * What the creature provider answers for one lookup: the id, the name and the
   * base stats keyed by stat name ("hp", "attack", ...). Base stats are never negative.
   */
  datatype PokeEntry = PokeEntry(id: int, name: string, stats: map<string, nat>)

  /** A record keeps hp between 0 and its maximum. */
  predicate Sound(c: Combatant) {
    0 <= c.hp <= c.hpMax
  }

  /** A base stat, defaulting to 0 when the provider did not list it. */
  function BaseStat(stats: map<string, nat>, key: string): nat {
    if key in stats then stats[key] else 0
  }

  /** The record get_pk_data returns for a found creature: it starts at full health. */
  function FromEntry(e: PokeEntry): (c: Combatant)
    ensures c.id == e.id && c.name == e.name
    ensures c.hp == c.hpMax && Sound(c)
    ensures "hp" in e.stats ==> c.hpMax == e.stats["hp"]
    ensures "attack" in e.stats ==> c.attack == e.stats["attack"]
    ensures "defense" in e.stats ==> c.defense == e.stats["defense"]
    ensures "speed" in e.stats ==> c.speed == e.stats["speed"]
    ensures "hp" !in e.stats ==> c.hp == c.hpMax == 0
    ensures "attack" !in e.stats ==> c.attack == 0
    ensures "defense" !in e.stats ==> c.defense == 0
    ensures "speed" !in e.stats ==> c.speed == 0
  {
    var hp := BaseStat(e.stats, "hp");
    Combatant(e.id, e.name, hp, hp,
              BaseStat(e.stats, "attack"), BaseStat(e.stats, "defense"), BaseStat(e.stats, "speed"))
  }

  /**
   * Python's floor division by 2 (`d // 2`): the largest r with 2 * r <= d,
   * also for a negative d.
   */
  function HalfDown(d: int): (r: int)
    ensures 2 * r <= d < 2 * r + 2
  {
    d / 2
  }

  /**
   * The damage `attacker` deals to `defender`: attack minus half the defence,
   * but never less than MinDamage.
   */
  function Damage(attacker: Combatant, defender: Combatant): (r: int)
    ensures r >= MinDamage
    ensures r >= attacker.attack - HalfDown(defender.defense)
    ensures r == MinDamage || r == attacker.attack - HalfDown(defender.defense)
  {
    var raw := attacker.attack - HalfDown(defender.defense);
    if raw > MinDamage then raw else MinDamage
  }

  /**
   * `c` after losing `damage` hp: the hp is clamped to 0 when it would reach
   * 0 or below, and no other field changes.
   */
  function Struck(c: Combatant, damage: int): (r: Combatant)
    ensures r == c.(hp := r.hp)
    ensures r.hp >= 0
    ensures r.hp == 0 <==> c.hp <= damage
    ensures r.hp != 0 ==> r.hp == c.hp - damage
    ensures Sound(c) && damage >= 0 ==> Sound(r)
  {
    if c.hp - damage <= 0 then c.(hp := 0) else c.(hp := c.hp - damage)
  }

  /** `c` restored to full health. */
  function Healed(c: Combatant): Combatant {
    c.(hp := c.hpMax)
  }
}
